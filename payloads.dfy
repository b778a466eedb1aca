/** The request bodies `/create-account` sends for one operator: the account itself,
    its representative, its underwriting figures and its bank account. Each field
    either copies what the operator supplied or falls back to a default, through
    `??` (only `undefined`/`null` fall back) or `||` (every falsy value falls back). */
module Payloads {
  import opened JsValue
  import opened BusinessType

  /** `v.key` on a value already known not to be `undefined` or `null`. */
  function Prop(v: Value, key: string): (r: Value)
    requires !Nullish(v)
    ensures Get(v, key) == Normal(r)
  {
    if v.Obj? && key in v.fields then v.fields[key] else Undefined
  }

  /** `v?.key`. */
  function OptionalProp(v: Value, key: string): (r: Value)
    ensures Nullish(v) ==> r == Undefined
    ensures !Nullish(v) ==> Get(v, key) == Normal(r)
  {
    if Nullish(v) then Undefined else Prop(v, key)
  }

  /** `...(v && { key: v })`: the key is present, holding `v`, exactly when `v` is truthy. */
  function IfTruthy(v: Value): (r: Option<Value>)
    ensures r.Some? <==> Truthy(v)
    ensures r.Some? ==> r.value == v
  {
    if Truthy(v) then Some(v) else None
  }

  // ---------------------------------------------------------------------------
  // The account

  /** `profile.business` of the account request. `taxID`, when present, is sent as
      `{ ein: { number: taxID } }`. */
  datatype BusinessProfile = BusinessProfile(
    legalBusinessName: Value,
    businessType: string,
    website: Value,
    email: Value,
    phone: Value,
    address: Value,
    doingBusinessAs: Option<Value>,
    description: Option<Value>,
    taxID: Option<Value>,
    industryCodes: Option<Value>)

  datatype AccountData = AccountData(accountType: string, business: BusinessProfile, capabilities: seq<string>)

  const Capabilities: seq<string> := ["transfers", "send-funds", "collect-funds", "wallet"]

  /** `accountData`. Reading `businessInfo.legalBusinessName` throws when the operator
      has no `businessInfo`; normalising a business type that is neither falsy nor a
      string throws too. */
  function BuildAccountData(businessInfo: Value): (r: Completion<AccountData>)
    ensures Nullish(businessInfo) ==> r == Throw(Get(businessInfo, "legalBusinessName").message)
    ensures !Nullish(businessInfo) ==>
              (r.Normal? <==> NormalizeBusinessType(Prop(businessInfo, "businessType")).Normal?)
    ensures r.Normal? ==>
              var b := r.value.business;
              && r.value.accountType == "business"
              && r.value.capabilities == Capabilities
              && !Nullish(businessInfo)
              && b.businessType == NormalizeBusinessType(Prop(businessInfo, "businessType")).value
              && b.businessType in Reachable
              && b.legalBusinessName == Prop(businessInfo, "legalBusinessName")
              && b.website == Prop(businessInfo, "website")
              && b.email == Prop(businessInfo, "email")
              && b.phone == Prop(businessInfo, "phone")
              && b.address == Prop(businessInfo, "address")
              && b.doingBusinessAs == IfTruthy(Prop(businessInfo, "doingBusinessAs"))
              && b.description == IfTruthy(Prop(businessInfo, "description"))
              && b.taxID == IfTruthy(Prop(businessInfo, "taxID"))
              && b.industryCodes == IfTruthy(Prop(businessInfo, "industryCodes"))
  {
    if Nullish(businessInfo) then Throw(Get(businessInfo, "legalBusinessName").message)
    else
      var bt := Prop(businessInfo, "businessType");
      match NormalizeBusinessType(bt)
      case Throw(m) => Throw(m)
      case Normal(businessType) =>
        NormalizeRange(bt);
        Normal(AccountData(
          "business",
          BusinessProfile(
            Prop(businessInfo, "legalBusinessName"),
            businessType,
            Prop(businessInfo, "website"),
            Prop(businessInfo, "email"),
            Prop(businessInfo, "phone"),
            Prop(businessInfo, "address"),
            IfTruthy(Prop(businessInfo, "doingBusinessAs")),
            IfTruthy(Prop(businessInfo, "description")),
            IfTruthy(Prop(businessInfo, "taxID")),
            IfTruthy(Prop(businessInfo, "industryCodes"))),
          Capabilities))
  }

  // ---------------------------------------------------------------------------
  // The representative

  datatype Responsibilities = Responsibilities(
    isController: Value, isOwner: Value, ownershipPercentage: Value, jobTitle: Value)

  datatype RepresentativeData = RepresentativeData(
    name: Value,
    phone: Value,
    email: Value,
    address: Value,
    birthDateProvided: bool,
    governmentIDProvided: bool,
    birthDate: Value,
    governmentID: Value,
    responsibilities: Responsibilities)

  /** What the contact says about one responsibility: `contact.responsibilities?.key`. */
  function Given(contact: Value, key: string): Value
    requires !Nullish(contact)
  {
    OptionalProp(Prop(contact, "responsibilities"), key)
  }

  /** `representativeData`, built only for a truthy `contact`. The owner flags and the
      percentage default through `??`, so a supplied `false` or `0` is kept; the job
      title defaults through `||`, so an empty title becomes `"Owner"`. */
  function BuildRepresentative(contact: Value): (r: RepresentativeData)
    requires !Nullish(contact)
    ensures r.birthDateProvided && r.governmentIDProvided
    ensures r.name == Prop(contact, "name") && r.phone == Prop(contact, "phone")
    ensures r.email == Prop(contact, "email") && r.address == Prop(contact, "address")
    ensures r.birthDate == Prop(contact, "birthDate") && r.governmentID == Prop(contact, "governmentID")
    ensures var g := Given(contact, "isController");
            r.responsibilities.isController == if Nullish(g) then Bool(true) else g
    ensures var g := Given(contact, "isOwner");
            r.responsibilities.isOwner == if Nullish(g) then Bool(true) else g
    ensures var g := Given(contact, "ownershipPercentage");
            r.responsibilities.ownershipPercentage == if Nullish(g) then Num(100) else g
    ensures var g := Given(contact, "jobTitle");
            r.responsibilities.jobTitle == if Truthy(g) then g else Str("Owner")
    ensures !Nullish(r.responsibilities.isController) && !Nullish(r.responsibilities.isOwner)
    ensures !Nullish(r.responsibilities.ownershipPercentage) && Truthy(r.responsibilities.jobTitle)
  {
    RepresentativeData(
      Prop(contact, "name"),
      Prop(contact, "phone"),
      Prop(contact, "email"),
      Prop(contact, "address"),
      true,
      true,
      Prop(contact, "birthDate"),
      Prop(contact, "governmentID"),
      Responsibilities(
        Coalesce(Given(contact, "isController"), Bool(true)),
        Coalesce(Given(contact, "isOwner"), Bool(true)),
        Coalesce(Given(contact, "ownershipPercentage"), Num(100)),
        Or(Given(contact, "jobTitle"), Str("Owner"))))
  }

  // ---------------------------------------------------------------------------
  // Underwriting and the bank account

  datatype UnderwritingData = UnderwritingData(
    averageTransactionSize: Value, maxTransactionSize: Value, averageMonthlyTransactionVolume: Value)

  /** `underwritingData`: each figure defaults through `||`, so a zero figure is
      replaced and every figure sent is truthy. */
  function BuildUnderwriting(businessInfo: Value): (r: UnderwritingData)
    requires !Nullish(businessInfo)
    ensures var v := Prop(businessInfo, "averageTransactionSize");
            r.averageTransactionSize == if Truthy(v) then v else Num(500)
    ensures var v := Prop(businessInfo, "maxTransactionSize");
            r.maxTransactionSize == if Truthy(v) then v else Num(5000)
    ensures var v := Prop(businessInfo, "averageMonthlyTransactionVolume");
            r.averageMonthlyTransactionVolume == if Truthy(v) then v else Num(500000)
    ensures Truthy(r.averageTransactionSize) && Truthy(r.maxTransactionSize)
    ensures Truthy(r.averageMonthlyTransactionVolume)
  {
    UnderwritingData(
      Or(Prop(businessInfo, "averageTransactionSize"), Num(500)),
      Or(Prop(businessInfo, "maxTransactionSize"), Num(5000)),
      Or(Prop(businessInfo, "averageMonthlyTransactionVolume"), Num(500000)))
  }

  datatype BankAccountData = BankAccountData(
    accountNumber: Value, routingNumber: Value, bankAccountType: Value, holderName: Value, holderType: Value)

  /** `bankAccountData`, built only for a truthy `bankAccount`: the type and the holder
      type default through `||` to `"checking"` and `"business"`, the holder name to the
      legal business name; the account and routing numbers are copied as given. */
  function BuildBankAccount(bankAccount: Value, businessInfo: Value): (r: BankAccountData)
    requires !Nullish(bankAccount) && !Nullish(businessInfo)
    ensures r.accountNumber == Prop(bankAccount, "accountNumber")
    ensures r.routingNumber == Prop(bankAccount, "routingNumber")
    ensures var v := Prop(bankAccount, "bankAccountType");
            r.bankAccountType == if Truthy(v) then v else Str("checking")
    ensures var v := Prop(bankAccount, "holderName");
            r.holderName == if Truthy(v) then v else Prop(businessInfo, "legalBusinessName")
    ensures var v := Prop(bankAccount, "holderType");
            r.holderType == if Truthy(v) then v else Str("business")
    ensures Truthy(r.bankAccountType) && Truthy(r.holderType)
    ensures Truthy(r.holderName) <==>
              Truthy(Prop(bankAccount, "holderName")) || Truthy(Prop(businessInfo, "legalBusinessName"))
  {
    BankAccountData(
      Prop(bankAccount, "accountNumber"),
      Prop(bankAccount, "routingNumber"),
      Or(Prop(bankAccount, "bankAccountType"), Str("checking")),
      Or(Prop(bankAccount, "holderName"), Prop(businessInfo, "legalBusinessName")),
      Or(Prop(bankAccount, "holderType"), Str("business")))
  }

  // ---------------------------------------------------------------------------
  // `??` against `||`

  /** A contact whose responsibilities say "not a controller, not an owner, 0 %, no
      title": the `??` fields keep `false` and `0`, the `||` field does not keep `""`. */
  lemma FalsyResponsibilities(contact: Value)
    requires contact == Obj(map["responsibilities" := Obj(map[
               "isController" := Bool(false), "isOwner" := Bool(false),
               "ownershipPercentage" := Num(0), "jobTitle" := Str("")])])
    ensures BuildRepresentative(contact).responsibilities ==
              Responsibilities(Bool(false), Bool(false), Num(0), Str("Owner"))
  {
  }

  /** Missing responsibilities take the owner defaults. */
  lemma MissingResponsibilities(contact: Value)
    requires !Nullish(contact) && Nullish(Prop(contact, "responsibilities"))
    ensures BuildRepresentative(contact).responsibilities ==
              Responsibilities(Bool(true), Bool(true), Num(100), Str("Owner"))
  {
  }

  /** Zero figures are replaced by the defaults, unlike a `??` default would do. */
  lemma ZeroUnderwriting(businessInfo: Value)
    requires businessInfo == Obj(map["averageTransactionSize" := Num(0),
               "maxTransactionSize" := Num(0), "averageMonthlyTransactionVolume" := Num(0)])
    ensures BuildUnderwriting(businessInfo) == UnderwritingData(Num(500), Num(5000), Num(500000))
  {
  }
}

/** The `/create-account` handler: for each operator of the request it creates a
    business account, obtains a token scoped to it, accepts the terms of service, adds
    a representative, fills in the underwriting figures and adds a bank account,
    collecting every failed step into `errors` and every created account into
    `createdAccounts`.

    Each outbound request is replaced by the reply the provider gives to it, supplied
    as input, and the requests made are returned as a trace. */
module Onboarding {
  import opened JsValue
  import opened Scopes
  import opened Payloads

  /** How one outbound request ends: an ok response and its JSON body, a failed response
      and its JSON body, or an exception (`fetch` itself threw, or a body the code reads
      was not JSON). A body the code does not read is never looked at. */
  datatype Reply = Accepted(body: Value) | Rejected(body: Value) | Threw(message: string)

  /** The replies to the requests that may be made for one operator. A reply to a
      request that is not made is never looked at. */
  datatype Replies = Replies(
    create: Reply,
    scopedToken: Reply,
    tosToken: Reply,
    acceptTos: Reply,
    representative: Reply,
    ownersProvided: Reply,
    underwriting: Reply,
    bankAccount: Reply)

  /** The `step` of an error record. */
  datatype Step =
    | CreateAccountStep
    | GetTosTokenStep
    | AcceptTermsOfServiceStep
    | AddRepresentativeStep
    | MarkOwnersProvidedStep
    | UpdateUnderwritingStep
    | AddBankAccountStep
    | ProcessingStep

  function StepName(s: Step): string
  {
    match s
    case CreateAccountStep => "create_account"
    case GetTosTokenStep => "get_tos_token"
    case AcceptTermsOfServiceStep => "accept_terms_of_service"
    case AddRepresentativeStep => "add_representative"
    case MarkOwnersProvidedStep => "mark_owners_provided"
    case UpdateUnderwritingStep => "update_underwriting"
    case AddBankAccountStep => "add_bank_account"
    case ProcessingStep => "processing"
  }

  /** The stage of the operator's run a step belongs to. The two terms-of-service steps
      share a stage, and so do the two representative steps. */
  function Stage(s: Step): nat
  {
    match s
    case CreateAccountStep => 0
    case GetTosTokenStep => 1
    case AcceptTermsOfServiceStep => 1
    case AddRepresentativeStep => 2
    case MarkOwnersProvidedStep => 2
    case UpdateUnderwritingStep => 3
    case AddBankAccountStep => 4
    case ProcessingStep => 5
  }

  /** A step whose failure ends the operator's run without an account. */
  predicate Terminal(s: Step)
  {
    s == CreateAccountStep || s == ProcessingStep
  }

  /** An element of `errors`. `accountID` is `None` where the record has no such key. */
  datatype ErrorRecord = ErrorRecord(operator: Value, accountID: Option<Value>, step: Step, error: Value)

  /** An element of `createdAccounts`. */
  datatype CreatedAccount = CreatedAccount(operatorName: Value, accountID: Value, moovAccount: Value, accessToken: Value)

  /** An outbound request, with what it carries. A token request carries the arguments
      of `getScopes`; `Scope` gives the scope string it sends. */
  datatype Call =
    | TokenCall(scopeAccount: string, allScopes: bool)
    | CreateAccountCall(token: Value, data: AccountData)
    | TosTokenCall(token: Value)
    | AcceptTosCall(token: Value, accountID: Value, tosToken: Value)
    | RepresentativeCall(token: Value, accountID: Value, representative: RepresentativeData)
    | OwnersProvidedCall(token: Value, accountID: Value)
    | UnderwritingCall(token: Value, accountID: Value, underwriting: UnderwritingData)
    | BankAccountCall(token: Value, accountID: Value, bankAccount: BankAccountData)

  /** The `scope` a token request asks for. */
  function Scope(c: Call): string
    requires c.TokenCall?
  {
    GetScopes(c.scopeAccount, c.allScopes)
  }

  /** The account a request is about, for the requests made after the account exists. */
  function CallAccount(c: Call): Option<Value>
  {
    match c
    case AcceptTosCall(_, id, _) => Some(id)
    case RepresentativeCall(_, id, _) => Some(id)
    case OwnersProvidedCall(_, id) => Some(id)
    case UnderwritingCall(_, id, _) => Some(id)
    case BankAccountCall(_, id, _) => Some(id)
    case _ => None
  }

  /** The bearer token a request is authorised with. */
  function CallToken(c: Call): Option<Value>
  {
    match c
    case TokenCall(_, _) => None
    case CreateAccountCall(t, _) => Some(t)
    case TosTokenCall(t) => Some(t)
    case AcceptTosCall(t, _, _) => Some(t)
    case RepresentativeCall(t, _, _) => Some(t)
    case OwnersProvidedCall(t, _) => Some(t)
    case UnderwritingCall(t, _, _) => Some(t)
    case BankAccountCall(t, _, _) => Some(t)
  }

  // ---------------------------------------------------------------------------
  // The steps after the account exists

  /** What the steps after account creation know: the operator's name as recorded in
      errors, the new account's id and the token the steps use. */
  datatype Account = Account(name: Value, accountID: Value, token: Value)

  /** The errors a run of steps records, the requests it makes, and the message of the
      exception that ends it, if one does. */
  datatype StepResult = StepResult(errors: seq<ErrorRecord>, calls: seq<Call>, thrown: Option<string>)

  function StepError(a: Account, step: Step, error: Value): ErrorRecord
  {
    ErrorRecord(a.name, Some(a.accountID), step, error)
  }

  /** Runs `second` after `first`, unless `first` threw. */
  function Then(first: StepResult, second: StepResult): StepResult
  {
    if first.thrown.Some? then first
    else StepResult(first.errors + second.errors, first.calls + second.calls, second.thrown)
  }

  /** Step 3: get a terms-of-service token and, when that succeeds, accept the terms. */
  function TermsOfServiceSteps(a: Account, r: Replies): StepResult
  {
    var tokenCall := TosTokenCall(a.token);
    match r.tosToken
    case Threw(m) => StepResult([], [tokenCall], Some(m))
    case Rejected(e) => StepResult([StepError(a, GetTosTokenStep, e)], [tokenCall], None)
    case Accepted(body) =>
      match Get(body, "token")
      case Throw(m) => StepResult([], [tokenCall], Some(m))
      case Normal(tosToken) =>
        var accept := AcceptTosCall(a.token, a.accountID, tosToken);
        match r.acceptTos
        case Threw(m) => StepResult([], [tokenCall, accept], Some(m))
        case Rejected(e) => StepResult([StepError(a, AcceptTermsOfServiceStep, e)], [tokenCall, accept], None)
        case Accepted(_) => StepResult([], [tokenCall, accept], None)
  }

  /** Step 4: for a truthy contact, add the representative and, when that succeeds,
      mark the owners as provided. */
  function RepresentativeSteps(a: Account, contact: Value, r: Replies): StepResult
  {
    if !Truthy(contact) then StepResult([], [], None)
    else
      var add := RepresentativeCall(a.token, a.accountID, BuildRepresentative(contact));
      match r.representative
      case Threw(m) => StepResult([], [add], Some(m))
      case Rejected(e) => StepResult([StepError(a, AddRepresentativeStep, e)], [add], None)
      case Accepted(_) =>
        var owners := OwnersProvidedCall(a.token, a.accountID);
        match r.ownersProvided
        case Threw(m) => StepResult([], [add, owners], Some(m))
        case Rejected(e) => StepResult([StepError(a, MarkOwnersProvidedStep, e)], [add, owners], None)
        case Accepted(_) => StepResult([], [add, owners], None)
  }

  /** Step 5: send the underwriting figures. */
  function UnderwritingStep(a: Account, businessInfo: Value, r: Replies): StepResult
    requires !Nullish(businessInfo)
  {
    var update := UnderwritingCall(a.token, a.accountID, BuildUnderwriting(businessInfo));
    match r.underwriting
    case Threw(m) => StepResult([], [update], Some(m))
    case Rejected(e) => StepResult([StepError(a, UpdateUnderwritingStep, e)], [update], None)
    case Accepted(_) => StepResult([], [update], None)
  }

  /** Step 6: for a truthy bank account, add it; the reply's `bankAccountID` is read,
      which throws when the reply body is `null`. */
  function BankAccountStep(a: Account, bankAccount: Value, businessInfo: Value, r: Replies): StepResult
    requires !Nullish(businessInfo)
  {
    if !Truthy(bankAccount) then StepResult([], [], None)
    else
      var add := BankAccountCall(a.token, a.accountID, BuildBankAccount(bankAccount, businessInfo));
      match r.bankAccount
      case Threw(m) => StepResult([], [add], Some(m))
      case Rejected(e) => StepResult([StepError(a, AddBankAccountStep, e)], [add], None)
      case Accepted(body) =>
        match Get(body, "bankAccountID")
        case Throw(m) => StepResult([], [add], Some(m))
        case Normal(_) => StepResult([], [add], None)
  }

  /** Steps 3 to 6, in order; an exception skips the rest. */
  function LaterSteps(a: Account, businessInfo: Value, contact: Value, bankAccount: Value, r: Replies): StepResult
    requires !Nullish(businessInfo)
  {
    Then(Then(TermsOfServiceSteps(a, r), RepresentativeSteps(a, contact, r)),
         Then(UnderwritingStep(a, businessInfo, r), BankAccountStep(a, bankAccount, businessInfo, r)))
  }

  // ---------------------------------------------------------------------------
  // One operator

  /** Step 2: the scoped token, or the initial token when the token request fails. */
  function ScopedToken(reply: Reply, initialToken: Value): (r: Completion<Value>)
    ensures reply.Rejected? ==> r == Normal(initialToken)
    ensures reply.Accepted? ==> r == Get(reply.body, "access_token")
    ensures reply.Threw? ==> r == Throw(reply.message)
  {
    match reply
    case Threw(m) => Throw(m)
    case Rejected(_) => Normal(initialToken)
    case Accepted(body) => Get(body, "access_token")
  }

  /** The outcome of the `try` block for one operator: what it recorded and requested,
      the account it created, and the exception that left it, if any. */
  datatype Attempt = Attempt(errors: seq<ErrorRecord>, calls: seq<Call>, account: Option<CreatedAccount>, thrown: Option<string>)

  /** The message of destructuring `{ businessInfo, contact, bankAccount }` from
      `undefined` or `null`. */
  function DestructureMessage(operator: Value): string
  {
    "Cannot destructure property 'businessInfo' of 'operator' as it is " + JsString(operator) + "."
  }

  /** The `try` block for one operator. */
  function TryOperator(operator: Value, initialToken: Value, r: Replies): Attempt
  {
    if Nullish(operator) then Attempt([], [], None, Some(DestructureMessage(operator)))
    else
      var businessInfo := Prop(operator, "businessInfo");
      var contact := Prop(operator, "contact");
      var bankAccount := Prop(operator, "bankAccount");
      match BuildAccountData(businessInfo)
      case Throw(m) => Attempt([], [], None, Some(m))
      case Normal(data) =>
        var name := Prop(businessInfo, "legalBusinessName");
        var create := CreateAccountCall(initialToken, data);
        match r.create
        case Threw(m) => Attempt([], [create], None, Some(m))
        case Rejected(e) => Attempt([ErrorRecord(name, None, CreateAccountStep, e)], [create], None, None)
        case Accepted(accountResult) =>
          match Get(accountResult, "accountID")
          case Throw(m) => Attempt([], [create], None, Some(m))
          case Normal(accountID) =>
            var t := AfterCreation(name, accountID, accountResult, initialToken, businessInfo, contact, bankAccount, r);
            Attempt(t.errors, [create] + t.calls, t.account, t.thrown)
  }

  /** Steps 2 to 6, once the account exists; the account is recorded when no exception
      left them. */
  function AfterCreation(name: Value, accountID: Value, accountResult: Value, initialToken: Value,
                         businessInfo: Value, contact: Value, bankAccount: Value, r: Replies): Attempt
    requires !Nullish(businessInfo)
  {
    var tokenCall := TokenCall(JsString(accountID), true);
    match ScopedToken(r.scopedToken, initialToken)
    case Throw(m) => Attempt([], [tokenCall], None, Some(m))
    case Normal(token) =>
      var rest := LaterSteps(Account(name, accountID, token), businessInfo, contact, bankAccount, r);
      Attempt(rest.errors, [tokenCall] + rest.calls,
              if rest.thrown.None? then Some(CreatedAccount(name, accountID, accountResult, token)) else None,
              rest.thrown)
  }

  /** The name the `catch` block records: `operator.businessInfo?.legalBusinessName ||
      "Unknown"`. For an `undefined` or `null` operator the read itself throws. */
  function CaughtName(operator: Value): (r: Completion<Value>)
    ensures r.Throw? <==> Nullish(operator)
    ensures r.Normal? ==> Truthy(r.value)
    ensures !Nullish(operator) ==>
              r == Normal(Or(OptionalProp(Prop(operator, "businessInfo"), "legalBusinessName"), Str("Unknown")))
  {
    match Get(operator, "businessInfo")
    case Throw(m) => Throw(m)
    case Normal(businessInfo) => Normal(Or(OptionalProp(businessInfo, "legalBusinessName"), Str("Unknown")))
  }

  /** The outcome of one operator: the errors it adds, the requests it makes, the account
      it adds, and the message of an exception that escapes the per-operator `catch`
      and so ends the whole request. */
  datatype OperatorOutcome = OperatorOutcome(
    errors: seq<ErrorRecord>, calls: seq<Call>, account: Option<CreatedAccount>, escaped: Option<string>)

  /** The `catch` block: an exception that left the `try` block becomes a `processing`
      error, unless reading the operator's name throws in its turn. */
  function Catch(operator: Value, t: Attempt): OperatorOutcome
  {
    match t.thrown
    case None => OperatorOutcome(t.errors, t.calls, t.account, None)
    case Some(m) =>
      match CaughtName(operator)
      case Throw(m2) => OperatorOutcome(t.errors, t.calls, None, Some(m2))
      case Normal(name) => OperatorOutcome(t.errors + [ErrorRecord(name, None, ProcessingStep, Str(m))], t.calls, None, None)
  }

  /** One iteration of the operator loop: the `try` block and its `catch`. */
  function RunOperator(operator: Value, initialToken: Value, r: Replies): OperatorOutcome
  {
    Catch(operator, TryOperator(operator, initialToken, r))
  }

  // ---------------------------------------------------------------------------
  // The batch

  datatype BatchOutcome = BatchOutcome(
    errors: seq<ErrorRecord>, accounts: seq<CreatedAccount>, calls: seq<Call>, escaped: Option<string>)

  function AccountList(account: Option<CreatedAccount>): seq<CreatedAccount>
  {
    if account.Some? then [account.value] else []
  }

  /** The batch after one more operator. */
  function Extend(b: BatchOutcome, o: OperatorOutcome): BatchOutcome
  {
    BatchOutcome(b.errors + o.errors, b.accounts + AccountList(o.account), b.calls + o.calls, o.escaped)
  }

  /** The operator loop over `operators`, in order; an exception escaping an iteration
      ends the loop. */
  function Batch(ops: seq<Value>, initialToken: Value, replies: seq<Replies>): BatchOutcome
    requires |replies| >= |ops|
    decreases |ops|
  {
    if ops == [] then BatchOutcome([], [], [], None)
    else
      var b := Batch(ops[..|ops| - 1], initialToken, replies);
      if b.escaped.Some? then b
      else Extend(b, RunOperator(ops[|ops| - 1], initialToken, replies[|ops| - 1]))
  }

  // ---------------------------------------------------------------------------
  // The request

  datatype ResponseBody =
    | Failure(status: string, message: string, error: Option<Value>)
    | Summary(status: string, message: string, accounts: seq<CreatedAccount>, errors: Option<seq<ErrorRecord>>)

  datatype Response = Response(code: int, body: ResponseBody)

  function MissingOperatorsResponse(): Response
  {
    Response(400, Failure("failed", "operators array is required and must not be empty", None))
  }

  function TokenFailedResponse(error: Value): Response
  {
    Response(400, Failure("failed", "Failed to get access token", Some(error)))
  }

  function CrashedResponse(message: string): Response
  {
    Response(500, Failure("failed", "Error creating Moov accounts", Some(Str(message))))
  }

  /** The final response: 201 and `"success"` when an account was created, 400 and
      `"failed"` otherwise; the `errors` key only when there are errors. */
  function SummaryResponse(operatorCount: nat, accounts: seq<CreatedAccount>, errors: seq<ErrorRecord>): (r: Response)
    ensures r.code == 201 <==> |accounts| > 0
    ensures r.code == 400 <==> |accounts| == 0
    ensures r.body.Summary? && r.body.accounts == accounts
    ensures r.body.status == (if |accounts| > 0 then "success" else "failed")
    ensures r.body.message ==
              "Processed " + NatToString(operatorCount) + " operators. Created " + NatToString(|accounts|) + " accounts."
    ensures r.body.errors.Some? <==> |errors| > 0
    ensures r.body.errors.Some? ==> r.body.errors.value == errors
  {
    var created := |accounts| > 0;
    Response(
      if created then 201 else 400,
      Summary(
        if created then "success" else "failed",
        "Processed " + NatToString(operatorCount) + " operators. Created " + NatToString(|accounts|) + " accounts.",
        accounts,
        if |errors| > 0 then Some(errors) else None))
  }

  /** `operators` when it is a non-empty array. */
  function OperatorList(body: Value): Option<seq<Value>>
  {
    match Get(body, "operators")
    case Throw(_) => None
    case Normal(operators) =>
      if Truthy(operators) && operators.Arr? && |operators.items| > 0 then Some(operators.items) else None
  }

  function OperatorCount(body: Value): nat
  {
    if OperatorList(body).Some? then |OperatorList(body).value| else 0
  }

  /** The bootstrap token request: the basic scopes, for no account. */
  function BootstrapCall(): Call
  {
    TokenCall("", false)
  }

  /** The whole request: the response, and the outbound requests made, in order. */
  function Handle(body: Value, bootstrap: Reply, replies: seq<Replies>): (Response, seq<Call>)
    requires |replies| >= OperatorCount(body)
  {
    match Get(body, "operators")
    case Throw(m) => (CrashedResponse(m), [])
    case Normal(_) =>
      match OperatorList(body)
      case None => (MissingOperatorsResponse(), [])
      case Some(ops) =>
        match bootstrap
        case Threw(m) => (CrashedResponse(m), [BootstrapCall()])
        case Rejected(e) => (TokenFailedResponse(e), [BootstrapCall()])
        case Accepted(tokenBody) =>
          match Get(tokenBody, "access_token")
          case Throw(m) => (CrashedResponse(m), [BootstrapCall()])
          case Normal(initialToken) =>
            var b := Batch(ops, initialToken, replies);
            var calls := [BootstrapCall()] + b.calls;
            if b.escaped.Some? then (CrashedResponse(b.escaped.value), calls)
            else (SummaryResponse(|ops|, b.accounts, b.errors), calls)
  }
}

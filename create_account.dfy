/** The `/create-account` handler as it runs: each step appends to its list of errors
    and its trace of requests, the operator loop appends each operator's errors and
    created account to `errors` and `createdAccounts`, `scopedToken` is reassigned when
    a scoped token arrives, and an iteration ends early at `continue` and at every
    exception. Each method is proved to compute what the corresponding function of
    `Onboarding` describes. */
module CreateAccount {
  import opened JsValue
  import opened Payloads
  import opened Onboarding
  import BatchProperties

  /** Step 3: the terms-of-service token, then its acceptance. */
  method AcceptTermsOfService(a: Account, r: Replies) returns (s: StepResult)
    ensures s == TermsOfServiceSteps(a, r)
  {
    var errors: seq<ErrorRecord> := [];
    var calls := [TosTokenCall(a.token)];
    var thrown: Option<string> := None;
    match r.tosToken {
      case Threw(m) =>
        thrown := Some(m);
      case Rejected(e) =>
        errors := errors + [StepError(a, GetTosTokenStep, e)];
      case Accepted(tosTokenData) =>
        var tosToken := Get(tosTokenData, "token");
        if tosToken.Throw? {
          thrown := Some(tosToken.message);
        } else {
          calls := calls + [AcceptTosCall(a.token, a.accountID, tosToken.value)];
          match r.acceptTos {
            case Threw(m) =>
              thrown := Some(m);
            case Rejected(e) =>
              errors := errors + [StepError(a, AcceptTermsOfServiceStep, e)];
            case Accepted(_) =>
          }
        }
    }
    s := StepResult(errors, calls, thrown);
  }

  /** Step 4: the representative, then the owners-provided flag. */
  method AddRepresentative(a: Account, contact: Value, r: Replies) returns (s: StepResult)
    ensures s == RepresentativeSteps(a, contact, r)
  {
    var errors: seq<ErrorRecord> := [];
    var calls: seq<Call> := [];
    var thrown: Option<string> := None;
    if Truthy(contact) {
      calls := calls + [RepresentativeCall(a.token, a.accountID, BuildRepresentative(contact))];
      match r.representative {
        case Threw(m) =>
          thrown := Some(m);
        case Rejected(e) =>
          errors := errors + [StepError(a, AddRepresentativeStep, e)];
        case Accepted(_) =>
          calls := calls + [OwnersProvidedCall(a.token, a.accountID)];
          match r.ownersProvided {
            case Threw(m) =>
              thrown := Some(m);
            case Rejected(e) =>
              errors := errors + [StepError(a, MarkOwnersProvidedStep, e)];
            case Accepted(_) =>
          }
      }
    }
    s := StepResult(errors, calls, thrown);
  }

  /** Step 5: the underwriting figures. */
  method UpdateUnderwriting(a: Account, businessInfo: Value, r: Replies) returns (s: StepResult)
    requires !Nullish(businessInfo)
    ensures s == UnderwritingStep(a, businessInfo, r)
  {
    var errors: seq<ErrorRecord> := [];
    var calls := [UnderwritingCall(a.token, a.accountID, BuildUnderwriting(businessInfo))];
    var thrown: Option<string> := None;
    match r.underwriting {
      case Threw(m) =>
        thrown := Some(m);
      case Rejected(e) =>
        errors := errors + [StepError(a, UpdateUnderwritingStep, e)];
      case Accepted(_) =>
    }
    s := StepResult(errors, calls, thrown);
  }

  /** Step 6: the bank account. */
  method AddBankAccount(a: Account, bankAccount: Value, businessInfo: Value, r: Replies) returns (s: StepResult)
    requires !Nullish(businessInfo)
    ensures s == BankAccountStep(a, bankAccount, businessInfo, r)
  {
    var errors: seq<ErrorRecord> := [];
    var calls: seq<Call> := [];
    var thrown: Option<string> := None;
    if Truthy(bankAccount) {
      calls := calls + [BankAccountCall(a.token, a.accountID, BuildBankAccount(bankAccount, businessInfo))];
      match r.bankAccount {
        case Threw(m) =>
          thrown := Some(m);
        case Rejected(e) =>
          errors := errors + [StepError(a, AddBankAccountStep, e)];
        case Accepted(bankResult) =>
          var id := Get(bankResult, "bankAccountID");
          if id.Throw? {
            thrown := Some(id.message);
          }
      }
    }
    s := StepResult(errors, calls, thrown);
  }

  /** Steps 3 and 4. */
  method AgreeAndRepresent(a: Account, contact: Value, r: Replies) returns (s: StepResult)
    ensures s == Then(TermsOfServiceSteps(a, r), RepresentativeSteps(a, contact, r))
  {
    s := AcceptTermsOfService(a, r);
    if s.thrown.None? {
      var representative := AddRepresentative(a, contact, r);
      s := Joined(s, representative);
    }
  }

  /** Steps 5 and 6. */
  method SetUpAccount(a: Account, businessInfo: Value, bankAccount: Value, r: Replies) returns (s: StepResult)
    requires !Nullish(businessInfo)
    ensures s == Then(UnderwritingStep(a, businessInfo, r), BankAccountStep(a, bankAccount, businessInfo, r))
  {
    s := UpdateUnderwriting(a, businessInfo, r);
    if s.thrown.None? {
      var bank := AddBankAccount(a, bankAccount, businessInfo, r);
      s := Joined(s, bank);
    }
  }

  /** Steps 3 to 6 for an account that exists, stopping at the first exception. */
  method CompleteAccount(a: Account, businessInfo: Value, contact: Value, bankAccount: Value, r: Replies)
    returns (s: StepResult)
    requires !Nullish(businessInfo)
    ensures s == LaterSteps(a, businessInfo, contact, bankAccount, r)
  {
    s := AgreeAndRepresent(a, contact, r);
    if s.thrown.None? {
      var setup := SetUpAccount(a, businessInfo, bankAccount, r);
      s := Joined(s, setup);
    }
  }

  /** The errors and requests of `first` followed by those of `second`, which ran
      because `first` did not throw. */
  method Joined(first: StepResult, second: StepResult) returns (s: StepResult)
    requires first.thrown.None?
    ensures s == Then(first, second)
  {
    s := StepResult(first.errors + second.errors, first.calls + second.calls, second.thrown);
  }

  /** Step 2's outcome: `scopedToken` starts as the initial token and is replaced by
      the `access_token` of an ok reply. */
  method ChooseScopedToken(reply: Reply, initialToken: Value) returns (token: Completion<Value>)
    ensures token == ScopedToken(reply, initialToken)
  {
    var scopedToken := initialToken;
    match reply {
      case Threw(m) =>
        return Throw(m);
      case Rejected(_) =>
      case Accepted(tokenData) =>
        var accessToken := Get(tokenData, "access_token");
        if accessToken.Throw? {
          return accessToken;
        }
        scopedToken := accessToken.value;
    }
    token := Normal(scopedToken);
  }

  /** Steps 2 to 6: the scoped token, then the remaining steps under it; the account is
      recorded when none of them threw. */
  method AfterAccountCreated(name: Value, accountID: Value, accountResult: Value, initialToken: Value,
                             businessInfo: Value, contact: Value, bankAccount: Value, r: Replies)
    returns (t: Attempt)
    requires !Nullish(businessInfo)
    ensures t == AfterCreation(name, accountID, accountResult, initialToken, businessInfo, contact, bankAccount, r)
  {
    var calls := [TokenCall(JsString(accountID), true)];
    var token := ChooseScopedToken(r.scopedToken, initialToken);
    if token.Throw? {
      t := Attempt([], calls, None, Some(token.message));
    } else {
      var rest := CompleteAccount(Account(name, accountID, token.value), businessInfo, contact, bankAccount, r);
      var account := if rest.thrown.None? then Some(CreatedAccount(name, accountID, accountResult, token.value)) else None;
      t := Attempt(rest.errors, calls + rest.calls, account, rest.thrown);
      assert ScopedToken(r.scopedToken, initialToken) == Normal(token.value);
      assert rest == LaterSteps(Account(name, accountID, token.value), businessInfo, contact, bankAccount, r);
      assert t == AfterCreation(name, accountID, accountResult, initialToken, businessInfo, contact, bankAccount, r);
    }
  }

  /** The `try` block for one operator. */
  method TryOperatorBlock(operator: Value, initialToken: Value, r: Replies) returns (t: Attempt)
    ensures t == TryOperator(operator, initialToken, r)
  {
    if Nullish(operator) {
      return Attempt([], [], None, Some(DestructureMessage(operator)));
    }
    var businessInfo := Prop(operator, "businessInfo");
    var contact := Prop(operator, "contact");
    var bankAccount := Prop(operator, "bankAccount");
    var accountData := BuildAccountData(businessInfo);
    if accountData.Throw? {
      return Attempt([], [], None, Some(accountData.message));
    }
    var name := Prop(businessInfo, "legalBusinessName");
    var calls := [CreateAccountCall(initialToken, accountData.value)];
    match r.create {
      case Threw(m) =>
        t := Attempt([], calls, None, Some(m));
      case Rejected(e) =>
        // `continue`: the operator ends with its one error and no account
        t := Attempt([ErrorRecord(name, None, CreateAccountStep, e)], calls, None, None);
      case Accepted(accountResult) =>
        var id := Get(accountResult, "accountID");
        if id.Throw? {
          t := Attempt([], calls, None, Some(id.message));
        } else {
          var rest := AfterAccountCreated(name, id.value, accountResult, initialToken,
                                          businessInfo, contact, bankAccount, r);
          t := Attempt(rest.errors, calls + rest.calls, rest.account, rest.thrown);
        }
    }
  }

  /** The `catch` block. */
  method CatchBlock(operator: Value, t: Attempt) returns (o: OperatorOutcome)
    ensures o == Catch(operator, t)
  {
    o := OperatorOutcome(t.errors, t.calls, t.account, None);
    if t.thrown.Some? {
      var name := CaughtName(operator);
      if name.Throw? {
        o := OperatorOutcome(t.errors, t.calls, None, Some(name.message));
      } else {
        o := OperatorOutcome(t.errors + [ErrorRecord(name.value, None, ProcessingStep, Str(t.thrown.value))],
                             t.calls, None, None);
      }
    }
  }

  /** One iteration of the operator loop. */
  method ProcessOperator(operator: Value, initialToken: Value, r: Replies) returns (o: OperatorOutcome)
    ensures o == RunOperator(operator, initialToken, r)
  {
    var t := TryOperatorBlock(operator, initialToken, r);
    o := CatchBlock(operator, t);
  }

  /** One more operator: its outcome is appended to the batch so far. */
  method ProcessNext(ops: seq<Value>, initialToken: Value, replies: seq<Replies>, i: nat, b: BatchOutcome)
    returns (next: BatchOutcome)
    requires |replies| >= |ops| && i < |ops|
    requires b == Batch(ops[..i], initialToken, replies) && b.escaped.None?
    ensures next == Batch(ops[..i + 1], initialToken, replies)
  {
    assert ops[..i + 1][..i] == ops[..i];
    var o := ProcessOperator(ops[i], initialToken, replies[i]);
    next := BatchOutcome(b.errors + o.errors, b.accounts + AccountList(o.account), b.calls + o.calls, o.escaped);
  }

  /** The operator loop: the errors, the created accounts and the trace grow with each
      operator, until an exception escapes an iteration. */
  method ProcessOperators(ops: seq<Value>, initialToken: Value, replies: seq<Replies>) returns (b: BatchOutcome)
    requires |replies| >= |ops|
    ensures b == Batch(ops, initialToken, replies)
  {
    b := BatchOutcome([], [], [], None);
    var i := 0;
    while i < |ops| && b.escaped.None?
      invariant i <= |ops| && b == Batch(ops[..i], initialToken, replies)
    {
      b := ProcessNext(ops, initialToken, replies, i, b);
      i := i + 1;
    }
    BatchProperties.BatchStops(ops, initialToken, replies, i);
  }

  /** The `/create-account` handler: the response it sends and the requests it makes. */
  method HandleCreateAccount(body: Value, bootstrap: Reply, replies: seq<Replies>)
    returns (response: Response, calls: seq<Call>)
    requires |replies| >= OperatorCount(body)
    ensures (response, calls) == Handle(body, bootstrap, replies)
  {
    var operators := Get(body, "operators");
    if operators.Throw? {
      return CrashedResponse(operators.message), [];
    }
    var list := operators.value;
    if !Truthy(list) || !list.Arr? || |list.items| == 0 {
      return MissingOperatorsResponse(), [];
    }
    var ops := list.items;
    calls := [BootstrapCall()];
    match bootstrap {
      case Threw(m) =>
        response := CrashedResponse(m);
      case Rejected(e) =>
        response := TokenFailedResponse(e);
      case Accepted(tokenBody) =>
        var token := Get(tokenBody, "access_token");
        if token.Throw? {
          response := CrashedResponse(token.message);
        } else {
          var b := ProcessOperators(ops, token.value, replies);
          calls := calls + b.calls;
          if b.escaped.Some? {
            response := CrashedResponse(b.escaped.value);
          } else {
            response := SummaryResponse(|ops|, b.accounts, b.errors);
          }
        }
    }
  }
}

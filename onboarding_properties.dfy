/** What the `/create-account` handler guarantees, proved about the functions of
    `Onboarding`. */
module OnboardingProperties {
  import opened JsValue
  import opened Scopes
  import opened Payloads
  import opened Onboarding

  // ---------------------------------------------------------------------------
  // The steps after account creation

  /** Errors appear in strictly increasing stage order, so no stage fails twice. */
  predicate Ordered(errors: seq<ErrorRecord>)
  {
    forall i, j :: 0 <= i < j < |errors| ==> Stage(errors[i].step) < Stage(errors[j].step)
  }

  predicate WithinStages(errors: seq<ErrorRecord>, lo: nat, hi: nat)
  {
    forall i :: 0 <= i < |errors| ==> lo <= Stage(errors[i].step) <= hi
  }

  /** Every error names the operator and the account of `a`. */
  predicate AboutAccount(errors: seq<ErrorRecord>, a: Account)
  {
    forall i :: 0 <= i < |errors| ==> errors[i].operator == a.name && errors[i].accountID == Some(a.accountID)
  }

  /** Every request uses the token of `a`, and every request about an account is about
      the account of `a`. */
  predicate CallsFor(calls: seq<Call>, a: Account)
  {
    forall i :: 0 <= i < |calls| ==>
      CallToken(calls[i]) == Some(a.token) && (calls[i].TosTokenCall? || CallAccount(calls[i]) == Some(a.accountID))
  }

  predicate Shaped(s: StepResult, a: Account, lo: nat, hi: nat)
  {
    Ordered(s.errors) && WithinStages(s.errors, lo, hi) && AboutAccount(s.errors, a) && CallsFor(s.calls, a)
  }

  /** Running two shaped step sequences one after the other keeps the shape, when the
      first one's stages come before the second one's. */
  lemma ThenShaped(first: StepResult, second: StepResult, a: Account, lo: nat, mid: nat, hi: nat)
    requires lo <= mid <= hi && Shaped(first, a, lo, mid) && Shaped(second, a, mid + 1, hi)
    ensures Shaped(Then(first, second), a, lo, hi)
  {
    if first.thrown.None? {
      var e := first.errors + second.errors;
      assert Then(first, second).errors == e;
      forall i, j | 0 <= i < j < |e|
        ensures Stage(e[i].step) < Stage(e[j].step)
      {
        if j < |first.errors| {
          assert e[i] == first.errors[i] && e[j] == first.errors[j];
        } else if i >= |first.errors| {
          assert e[i] == second.errors[i - |first.errors|] && e[j] == second.errors[j - |first.errors|];
        } else {
          assert e[i] == first.errors[i] && e[j] == second.errors[j - |first.errors|];
        }
      }
      forall i | 0 <= i < |e|
        ensures lo <= Stage(e[i].step) <= hi && e[i].operator == a.name && e[i].accountID == Some(a.accountID)
      {
        if i >= |first.errors| {
          assert e[i] == second.errors[i - |first.errors|];
        }
      }
      var c := first.calls + second.calls;
      assert Then(first, second).calls == c;
      forall i | 0 <= i < |c|
        ensures CallToken(c[i]) == Some(a.token) && (c[i].TosTokenCall? || CallAccount(c[i]) == Some(a.accountID))
      {
        if i >= |first.calls| {
          assert c[i] == second.calls[i - |first.calls|];
        }
      }
    }
  }

  lemma TermsOfServiceShaped(a: Account, r: Replies)
    ensures Shaped(TermsOfServiceSteps(a, r), a, 1, 1)
  {
  }

  lemma RepresentativeShaped(a: Account, contact: Value, r: Replies)
    ensures Shaped(RepresentativeSteps(a, contact, r), a, 2, 2)
  {
  }

  lemma UnderwritingShaped(a: Account, businessInfo: Value, r: Replies)
    requires !Nullish(businessInfo)
    ensures Shaped(UnderwritingStep(a, businessInfo, r), a, 3, 3)
  {
  }

  lemma BankAccountShaped(a: Account, bankAccount: Value, businessInfo: Value, r: Replies)
    requires !Nullish(businessInfo)
    ensures Shaped(BankAccountStep(a, bankAccount, businessInfo, r), a, 4, 4)
  {
  }

  /** Steps 3 to 6 record at most one error per stage, in order, each naming the
      operator and the account, and make every request with the same token for the
      same account. */
  lemma LaterStepsShaped(a: Account, businessInfo: Value, contact: Value, bankAccount: Value, r: Replies)
    requires !Nullish(businessInfo)
    ensures Shaped(LaterSteps(a, businessInfo, contact, bankAccount, r), a, 1, 4)
  {
    var tos := TermsOfServiceSteps(a, r);
    var rep := RepresentativeSteps(a, contact, r);
    var und := UnderwritingStep(a, businessInfo, r);
    var bank := BankAccountStep(a, bankAccount, businessInfo, r);
    TermsOfServiceShaped(a, r);
    RepresentativeShaped(a, contact, r);
    UnderwritingShaped(a, businessInfo, r);
    BankAccountShaped(a, bankAccount, businessInfo, r);
    ThenShaped(tos, rep, a, 1, 1, 2);
    ThenShaped(und, bank, a, 3, 3, 4);
    ThenShaped(Then(tos, rep), Then(und, bank), a, 1, 2, 4);
  }

  /** A strictly stage-ordered error list within stages `lo` to `hi` has at most one error
      per stage. */
  lemma {:induction false} OrderedLength(errors: seq<ErrorRecord>, lo: nat, hi: nat)
    requires Ordered(errors) && WithinStages(errors, lo, hi) && lo <= hi + 1
    ensures |errors| + lo <= hi + 1
    decreases |errors|
  {
    if |errors| > 0 {
      var rest := errors[1..];
      assert forall i :: 0 <= i < |rest| ==> rest[i] == errors[i + 1];
      assert Stage(errors[0].step) + 1 > lo;
      OrderedLength(rest, Stage(errors[0].step) + 1, hi);
    }
  }

  /** The representative steps run only for a truthy contact, and the owners are marked
      provided only after the representative was accepted. */
  lemma RepresentativeGate(a: Account, contact: Value, r: Replies)
    ensures var s := RepresentativeSteps(a, contact, r);
            && (!Truthy(contact) ==> s == StepResult([], [], None))
            && (forall i :: 0 <= i < |s.calls| && s.calls[i].OwnersProvidedCall? ==> r.representative.Accepted?)
  {
  }

  /** The terms are accepted only with the token of an accepted token request. */
  lemma TermsGate(a: Account, r: Replies)
    ensures var s := TermsOfServiceSteps(a, r);
            forall i :: 0 <= i < |s.calls| && s.calls[i].AcceptTosCall? ==>
              r.tosToken.Accepted? && Get(r.tosToken.body, "token") == Normal(s.calls[i].tosToken)
  {
  }

  /** The bank account is added only for a truthy `bankAccount`, with one request
      carrying the payload built from it; the underwriting figures are always sent,
      with one request. */
  lemma LaterRequestsGate(a: Account, bankAccount: Value, businessInfo: Value, r: Replies)
    requires !Nullish(businessInfo)
    ensures var s := BankAccountStep(a, bankAccount, businessInfo, r);
            && (!Truthy(bankAccount) ==> s == StepResult([], [], None))
            && (Truthy(bankAccount) ==>
                  s.calls == [BankAccountCall(a.token, a.accountID, BuildBankAccount(bankAccount, businessInfo))])
    ensures UnderwritingStep(a, businessInfo, r).calls ==
              [UnderwritingCall(a.token, a.accountID, BuildUnderwriting(businessInfo))]
  {
  }

  // ---------------------------------------------------------------------------
  // One operator

  /** The operator got as far as steps 3 to 6: it has a business profile that builds,
      the account was created with an id, and a token was chosen. */
  predicate Reached(operator: Value, initialToken: Value, r: Replies)
  {
    && !Nullish(operator)
    && BuildAccountData(Prop(operator, "businessInfo")).Normal?
    && r.create.Accepted?
    && Get(r.create.body, "accountID").Normal?
    && ScopedToken(r.scopedToken, initialToken).Normal?
  }

  /** The context steps 3 to 6 run in, once reached. */
  function Context(operator: Value, initialToken: Value, r: Replies): Account
    requires Reached(operator, initialToken, r)
  {
    Account(Prop(Prop(operator, "businessInfo"), "legalBusinessName"),
            Get(r.create.body, "accountID").value,
            ScopedToken(r.scopedToken, initialToken).value)
  }

  function Steps(operator: Value, initialToken: Value, r: Replies): StepResult
    requires Reached(operator, initialToken, r)
  {
    var businessInfo := Prop(operator, "businessInfo");
    LaterSteps(Context(operator, initialToken, r), businessInfo, Prop(operator, "contact"), Prop(operator, "bankAccount"), r)
  }

  /** Steps 2 to 6 once a token was chosen: the token request, then steps 3 to 6 under
      that token; the account is recorded when none of them threw. A proof step of
      `ReachedAttempt`. */
  lemma AfterCreationSteps(name: Value, accountID: Value, accountResult: Value, initialToken: Value,
                           businessInfo: Value, contact: Value, bankAccount: Value, r: Replies)
    requires !Nullish(businessInfo) && ScopedToken(r.scopedToken, initialToken).Normal?
    ensures var token := ScopedToken(r.scopedToken, initialToken).value;
            var rest := LaterSteps(Account(name, accountID, token), businessInfo, contact, bankAccount, r);
            AfterCreation(name, accountID, accountResult, initialToken, businessInfo, contact, bankAccount, r) ==
              Attempt(rest.errors, [TokenCall(JsString(accountID), true)] + rest.calls,
                      if rest.thrown.None? then Some(CreatedAccount(name, accountID, accountResult, token)) else None,
                      rest.thrown)
  {
  }

  /** The `try` block of an operator whose account was created with an id: the create
      request, then steps 2 to 6. A proof step of `ReachedAttempt`. */
  lemma CreatedAttempt(operator: Value, initialToken: Value, r: Replies, data: AccountData, accountID: Value)
    requires !Nullish(operator) && BuildAccountData(Prop(operator, "businessInfo")) == Normal(data)
    requires r.create.Accepted? && Get(r.create.body, "accountID") == Normal(accountID)
    ensures var businessInfo := Prop(operator, "businessInfo");
            var t := AfterCreation(Prop(businessInfo, "legalBusinessName"), accountID, r.create.body, initialToken,
                                   businessInfo, Prop(operator, "contact"), Prop(operator, "bankAccount"), r);
            TryOperator(operator, initialToken, r) ==
              Attempt(t.errors, [CreateAccountCall(initialToken, data)] + t.calls, t.account, t.thrown)
  {
    assert r.create == Accepted(r.create.body);
  }

  /** The `try` block of an operator that reached steps 3 to 6: the create request with
      the initial token, the token request for the new account, then the steps. A proof
      step of `ReachedOutcome`. */
  lemma ReachedAttempt(operator: Value, initialToken: Value, r: Replies)
    requires Reached(operator, initialToken, r)
    ensures var a := Context(operator, initialToken, r);
            var s := Steps(operator, initialToken, r);
            TryOperator(operator, initialToken, r) ==
              Attempt(s.errors,
                      [CreateAccountCall(initialToken, BuildAccountData(Prop(operator, "businessInfo")).value),
                       TokenCall(JsString(a.accountID), true)] + s.calls,
                      if s.thrown.None? then Some(CreatedAccount(a.name, a.accountID, r.create.body, a.token)) else None,
                      s.thrown)
  {
    var businessInfo := Prop(operator, "businessInfo");
    var a := Context(operator, initialToken, r);
    var s := Steps(operator, initialToken, r);
    var create := CreateAccountCall(initialToken, BuildAccountData(businessInfo).value);
    var tokenCall := TokenCall(JsString(a.accountID), true);
    CreatedAttempt(operator, initialToken, r, BuildAccountData(businessInfo).value, a.accountID);
    AfterCreationSteps(a.name, a.accountID, r.create.body, initialToken, businessInfo,
                       Prop(operator, "contact"), Prop(operator, "bankAccount"), r);
    assert [create] + ([tokenCall] + s.calls) == [create, tokenCall] + s.calls;
  }

  /** An operator that reached steps 3 to 6 has an account exactly when no step threw;
      a step that threw adds one `processing` error, without an account id and under the
      `catch` block's name for the operator, after the steps' own errors. Nothing
      escapes. */
  lemma ReachedOutcome(operator: Value, initialToken: Value, r: Replies)
    requires Reached(operator, initialToken, r)
    ensures var o := RunOperator(operator, initialToken, r);
            var a := Context(operator, initialToken, r);
            var s := Steps(operator, initialToken, r);
            && o.escaped.None?
            && o.calls == [CreateAccountCall(initialToken, BuildAccountData(Prop(operator, "businessInfo")).value),
                           TokenCall(JsString(a.accountID), true)] + s.calls
            && (s.thrown.None? ==>
                  o.errors == s.errors && o.account == Some(CreatedAccount(a.name, a.accountID, r.create.body, a.token)))
            && (s.thrown.Some? ==>
                  o.account.None? &&
                  o.errors == s.errors + [ErrorRecord(CaughtName(operator).value, None, ProcessingStep, Str(s.thrown.value))])
  {
    ReachedAttempt(operator, initialToken, r);
  }

  /** An `undefined` or `null` operator: destructuring it throws, and so does reading
      its name in the `catch` block, so the exception escapes the loop. */
  lemma NullishOperator(operator: Value, initialToken: Value, r: Replies)
    requires Nullish(operator)
    ensures RunOperator(operator, initialToken, r) ==
              OperatorOutcome([], [], None, Some(Get(operator, "businessInfo").message))
  {
  }

  /** A business profile that does not build (no `businessInfo`, or a business type that
      cannot be normalised) makes no request and records one `processing` error. */
  lemma ProfileFails(operator: Value, initialToken: Value, r: Replies)
    requires !Nullish(operator) && BuildAccountData(Prop(operator, "businessInfo")).Throw?
    ensures RunOperator(operator, initialToken, r) ==
              OperatorOutcome([ErrorRecord(CaughtName(operator).value, None, ProcessingStep,
                                           Str(BuildAccountData(Prop(operator, "businessInfo")).message))],
                              [], None, None)
  {
  }

  /** A rejected create request records the one `create_account` error, with the
      provider's reply, and moves on to the next operator. */
  lemma CreateRejected(operator: Value, initialToken: Value, r: Replies)
    requires !Nullish(operator) && BuildAccountData(Prop(operator, "businessInfo")).Normal?
    requires r.create.Rejected?
    ensures RunOperator(operator, initialToken, r) ==
              OperatorOutcome([ErrorRecord(Prop(Prop(operator, "businessInfo"), "legalBusinessName"), None,
                                           CreateAccountStep, r.create.body)],
                              [CreateAccountCall(initialToken, BuildAccountData(Prop(operator, "businessInfo")).value)],
                              None, None)
  {
  }

  /** A create request that throws, a created account without a readable id, or a token
      request that throws: one `processing` error and no account. */
  lemma CreationThrew(operator: Value, initialToken: Value, r: Replies)
    requires !Nullish(operator) && BuildAccountData(Prop(operator, "businessInfo")).Normal?
    requires !r.create.Rejected? && !Reached(operator, initialToken, r)
    ensures var o := RunOperator(operator, initialToken, r);
            && o.account.None? && o.escaped.None? && 1 <= |o.calls| <= 2
            && |o.errors| == 1 && o.errors[0].step == ProcessingStep && o.errors[0].accountID.None?
  {
  }

  /** An operator that did not reach steps 3 to 6 ends without an account, after at most
      the create request and the token request: with its one terminal error, or with an
      exception that escapes because the operator itself is `undefined` or `null`. */
  lemma UnreachedOutcome(operator: Value, initialToken: Value, r: Replies)
    requires !Reached(operator, initialToken, r)
    ensures var o := RunOperator(operator, initialToken, r);
            && o.account.None?
            && |o.calls| <= 2
            && (o.escaped.Some? <==> Nullish(operator))
            && (o.escaped.None? ==> |o.errors| == 1 && Terminal(o.errors[0].step) && o.errors[0].accountID.None?)
  {
    if Nullish(operator) {
      NullishOperator(operator, initialToken, r);
    } else if BuildAccountData(Prop(operator, "businessInfo")).Throw? {
      ProfileFails(operator, initialToken, r);
    } else if r.create.Rejected? {
      CreateRejected(operator, initialToken, r);
    } else {
      CreationThrew(operator, initialToken, r);
    }
  }

  /** An account is created only by an operator that reached steps 3 to 6 and whose
      steps all ran without an exception. */
  lemma AccountMeansReached(operator: Value, initialToken: Value, r: Replies)
    requires RunOperator(operator, initialToken, r).account.Some?
    ensures Reached(operator, initialToken, r) && Steps(operator, initialToken, r).thrown.None?
    ensures var a := Context(operator, initialToken, r);
            RunOperator(operator, initialToken, r).account.value == CreatedAccount(a.name, a.accountID, r.create.body, a.token)
  {
    if !Reached(operator, initialToken, r) {
      UnreachedOutcome(operator, initialToken, r);
    } else {
      ReachedOutcome(operator, initialToken, r);
    }
  }

  /** With an account: no error is terminal, each names the operator and the account, at
      most one per stage and so at most four; every request after the token request
      uses the account's token and is about the account. */
  lemma CreatedAccountShape(operator: Value, initialToken: Value, r: Replies)
    requires RunOperator(operator, initialToken, r).account.Some?
    ensures var o := RunOperator(operator, initialToken, r);
            var c := o.account.value;
            var a := Account(c.operatorName, c.accountID, c.accessToken);
            && o.escaped.None?
            && 2 <= |o.calls| && o.calls[0].CreateAccountCall? && o.calls[0].token == initialToken
            && o.calls[1] == TokenCall(JsString(c.accountID), true)
            && CallsFor(o.calls[2..], a) && AboutAccount(o.errors, a) && Ordered(o.errors)
            && (forall i :: 0 <= i < |o.errors| ==> 1 <= Stage(o.errors[i].step) <= 4)
            && |o.errors| <= 4
  {
    AccountMeansReached(operator, initialToken, r);
    ReachedOutcome(operator, initialToken, r);
    var s := Steps(operator, initialToken, r);
    LaterStepsShaped(Context(operator, initialToken, r), Prop(operator, "businessInfo"),
                     Prop(operator, "contact"), Prop(operator, "bankAccount"), r);
    OrderedLength(s.errors, 1, 4);
    var o := RunOperator(operator, initialToken, r);
    assert o.calls[2..] == s.calls;
  }

  /** The account keeps the initial token when the scoped token request fails with an
      error response. */
  lemma TokenFallback(operator: Value, initialToken: Value, r: Replies)
    requires RunOperator(operator, initialToken, r).account.Some? && r.scopedToken.Rejected?
    ensures RunOperator(operator, initialToken, r).account.value.accessToken == initialToken
  {
    AccountMeansReached(operator, initialToken, r);
  }

  /** Every step of steps 3 to 6 fails with an error response, for a truthy contact and
      bank account: the account is still created, with four errors, one per stage. */
  lemma AllStepsRejected(a: Account, businessInfo: Value, contact: Value, bankAccount: Value, r: Replies)
    requires !Nullish(businessInfo) && Truthy(contact) && Truthy(bankAccount)
    requires r.tosToken.Rejected? && r.representative.Rejected? && r.underwriting.Rejected? && r.bankAccount.Rejected?
    ensures var s := LaterSteps(a, businessInfo, contact, bankAccount, r);
            && s.thrown.None?
            && s.errors == [StepError(a, GetTosTokenStep, r.tosToken.body),
                            StepError(a, AddRepresentativeStep, r.representative.body),
                            StepError(a, UpdateUnderwritingStep, r.underwriting.body),
                            StepError(a, AddBankAccountStep, r.bankAccount.body)]
  {
  }

  // ---------------------------------------------------------------------------
  // Accounts against terminal errors

  /** The number of errors that end an operator's run: a failed create request or an
      exception caught for the operator. */
  function CountTerminal(errors: seq<ErrorRecord>): (n: nat)
    ensures n <= |errors|
  {
    if errors == [] then 0
    else CountTerminal(errors[..|errors| - 1]) + (if Terminal(errors[|errors| - 1].step) then 1 else 0)
  }

  lemma {:induction false} CountTerminalConcat(e1: seq<ErrorRecord>, e2: seq<ErrorRecord>)
    ensures CountTerminal(e1 + e2) == CountTerminal(e1) + CountTerminal(e2)
    decreases |e2|
  {
    if e2 != [] {
      var init := e2[..|e2| - 1];
      assert (e1 + e2)[..|e1 + e2| - 1] == e1 + init;
      CountTerminalConcat(e1, init);
    } else {
      assert e1 + e2 == e1;
    }
  }

  /** No error of steps 3 to 6 is terminal. */
  lemma {:induction false} StepErrorsNotTerminal(errors: seq<ErrorRecord>)
    requires WithinStages(errors, 1, 4)
    ensures CountTerminal(errors) == 0
    decreases |errors|
  {
    if errors != [] {
      var init := errors[..|errors| - 1];
      assert WithinStages(init, 1, 4) by {
        forall i | 0 <= i < |init| ensures 1 <= Stage(init[i].step) <= 4 {
          assert init[i] == errors[i];
        }
      }
      StepErrorsNotTerminal(init);
    }
  }

  /** An operator that reached steps 3 to 6 ends with an account or with one terminal
      error, not both. */
  lemma ReachedTally(operator: Value, initialToken: Value, r: Replies)
    requires Reached(operator, initialToken, r)
    ensures var o := RunOperator(operator, initialToken, r);
            |AccountList(o.account)| + CountTerminal(o.errors) == 1
  {
    ReachedOutcome(operator, initialToken, r);
    var s := Steps(operator, initialToken, r);
    LaterStepsShaped(Context(operator, initialToken, r), Prop(operator, "businessInfo"),
                     Prop(operator, "contact"), Prop(operator, "bankAccount"), r);
    StepErrorsNotTerminal(s.errors);
    if s.thrown.Some? {
      var o := RunOperator(operator, initialToken, r);
      CountTerminalConcat(s.errors, [o.errors[|s.errors|]]);
    }
  }

  /** An operator that did not reach steps 3 to 6 and did not escape ends with its one
      terminal error. */
  lemma UnreachedTally(operator: Value, initialToken: Value, r: Replies)
    requires !Reached(operator, initialToken, r) && !Nullish(operator)
    ensures var o := RunOperator(operator, initialToken, r);
            |AccountList(o.account)| + CountTerminal(o.errors) == 1
  {
    UnreachedOutcome(operator, initialToken, r);
    var o := RunOperator(operator, initialToken, r);
    assert o.errors[..0] == [];
  }

  /** Every operator that does not escape ends with exactly one of an account and a
      terminal error; one escapes exactly when it is `undefined` or `null`. */
  lemma OperatorTally(operator: Value, initialToken: Value, r: Replies)
    ensures var o := RunOperator(operator, initialToken, r);
            && (o.escaped.Some? <==> Nullish(operator))
            && (o.escaped.None? ==> |AccountList(o.account)| + CountTerminal(o.errors) == 1)
  {
    if Reached(operator, initialToken, r) {
      ReachedOutcome(operator, initialToken, r);
      ReachedTally(operator, initialToken, r);
    } else {
      UnreachedOutcome(operator, initialToken, r);
      if !Nullish(operator) {
        UnreachedTally(operator, initialToken, r);
      }
    }
  }
}

/** What the operator loop and the whole `/create-account` request guarantee, proved
    about the functions of `Onboarding`. */
module BatchProperties {
  import opened JsValue
  import opened Scopes
  import opened Onboarding
  import opened OnboardingProperties

  // ---------------------------------------------------------------------------
  // The operator loop

  /** An exception that escapes an iteration ends the loop: the later operators are
      never processed. */
  lemma {:induction false} EscapeEndsBatch(ops: seq<Value>, initialToken: Value, replies: seq<Replies>, k: nat)
    requires |replies| >= |ops| && k <= |ops|
    requires Batch(ops[..k], initialToken, replies).escaped.Some?
    ensures Batch(ops, initialToken, replies) == Batch(ops[..k], initialToken, replies)
    decreases |ops| - k
  {
    if k < |ops| {
      assert ops[..k + 1][..k] == ops[..k];
      EscapeEndsBatch(ops, initialToken, replies, k + 1);
    } else {
      assert ops[..k] == ops;
    }
  }

  /** The loop's exit: every operator was processed, or one escaped. */
  lemma BatchStops(ops: seq<Value>, initialToken: Value, replies: seq<Replies>, k: nat)
    requires |replies| >= |ops| && k <= |ops|
    requires k == |ops| || Batch(ops[..k], initialToken, replies).escaped.Some?
    ensures Batch(ops, initialToken, replies) == Batch(ops[..k], initialToken, replies)
  {
    if k == |ops| {
      assert ops[..k] == ops;
    } else {
      EscapeEndsBatch(ops, initialToken, replies, k);
    }
  }

  predicate SomeNullish(ops: seq<Value>)
  {
    exists k :: 0 <= k < |ops| && Nullish(ops[k])
  }

  lemma SomeNullishSplit(ops: seq<Value>)
    requires ops != []
    ensures SomeNullish(ops) <==> SomeNullish(ops[..|ops| - 1]) || Nullish(ops[|ops| - 1])
  {
    var init := ops[..|ops| - 1];
    if SomeNullish(init) {
      var k :| 0 <= k < |init| && Nullish(init[k]);
      assert ops[k] == init[k];
    }
    if SomeNullish(ops) {
      var k :| 0 <= k < |ops| && Nullish(ops[k]);
      if k < |init| {
        assert init[k] == ops[k];
      }
    }
  }

  /** The loop escapes exactly when some operator is `undefined` or `null`. */
  lemma {:induction false} BatchEscapes(ops: seq<Value>, initialToken: Value, replies: seq<Replies>)
    requires |replies| >= |ops|
    ensures Batch(ops, initialToken, replies).escaped.Some? <==> SomeNullish(ops)
    decreases |ops|
  {
    if ops != [] {
      BatchEscapes(ops[..|ops| - 1], initialToken, replies);
      OperatorTally(ops[|ops| - 1], initialToken, replies[|ops| - 1]);
      SomeNullishSplit(ops);
    }
  }

  /** One more operator that ends with exactly one of an account and a terminal error
      adds one to the count. */
  lemma ExtendTally(b: BatchOutcome, o: OperatorOutcome)
    requires |AccountList(o.account)| + CountTerminal(o.errors) == 1
    ensures var e := Extend(b, o);
            |e.accounts| + CountTerminal(e.errors) == |b.accounts| + CountTerminal(b.errors) + 1
  {
    CountTerminalConcat(b.errors, o.errors);
  }

  /** When nothing escapes, every operator is accounted for exactly once: by a created
      account or by a terminal error. */
  lemma {:induction false} BatchTally(ops: seq<Value>, initialToken: Value, replies: seq<Replies>)
    requires |replies| >= |ops|
    ensures var b := Batch(ops, initialToken, replies);
            b.escaped.None? ==> |b.accounts| + CountTerminal(b.errors) == |ops|
    decreases |ops|
  {
    if ops != [] {
      var b := Batch(ops[..|ops| - 1], initialToken, replies);
      BatchTally(ops[..|ops| - 1], initialToken, replies);
      if b.escaped.None? {
        var o := RunOperator(ops[|ops| - 1], initialToken, replies[|ops| - 1]);
        assert Batch(ops, initialToken, replies) == Extend(b, o);
        OperatorTally(ops[|ops| - 1], initialToken, replies[|ops| - 1]);
        if o.escaped.None? {
          ExtendTally(b, o);
        }
      }
    }
  }

  /** One more operator only appends to the batch. */
  lemma ExtendGrows(b: BatchOutcome, o: OperatorOutcome)
    ensures var e := Extend(b, o);
            b.errors <= e.errors && b.accounts <= e.accounts && b.calls <= e.calls
  {
  }

  /** The loop only appends: the errors, accounts and requests after `k` operators begin
      the final ones. */
  lemma {:induction false} BatchGrows(ops: seq<Value>, initialToken: Value, replies: seq<Replies>, k: nat)
    requires |replies| >= |ops| && k <= |ops|
    ensures var b := Batch(ops, initialToken, replies);
            var p := Batch(ops[..k], initialToken, replies);
            && p.errors <= b.errors && p.accounts <= b.accounts && p.calls <= b.calls
    decreases |ops| - k
  {
    if k == |ops| {
      assert ops[..k] == ops;
    } else {
      BatchGrows(ops, initialToken, replies, k + 1);
      var p := Batch(ops[..k], initialToken, replies);
      assert ops[..k + 1][..k] == ops[..k];
      if p.escaped.None? {
        var o := RunOperator(ops[k], initialToken, replies[k]);
        assert Batch(ops[..k + 1], initialToken, replies) == Extend(p, o);
        ExtendGrows(p, o);
      }
    }
  }

  // ---------------------------------------------------------------------------
  // The request

  /** Every response is a 201, a 400 or a 500; it is a 201 exactly when it lists at least
      one created account. */
  lemma HandleStatus(body: Value, bootstrap: Reply, replies: seq<Replies>)
    requires |replies| >= OperatorCount(body)
    ensures var response := Handle(body, bootstrap, replies).0;
            && (response.code == 201 || response.code == 400 || response.code == 500)
            && (response.code == 201 <==> response.body.Summary? && |response.body.accounts| > 0)
            && (response.code == 500 ==> response.body.Failure? && response.body.message == "Error creating Moov accounts")
  {
  }

  /** Without a non-empty `operators` array nothing is requested: the answer is a 400,
      or a 500 when `req.body` itself is `undefined` or `null`. */
  lemma MissingOperators(body: Value, bootstrap: Reply, replies: seq<Replies>)
    requires OperatorList(body).None?
    ensures Handle(body, bootstrap, replies).1 == []
    ensures !Nullish(body) ==> Handle(body, bootstrap, replies).0 == MissingOperatorsResponse()
    ensures Nullish(body) ==> Handle(body, bootstrap, replies).0.code == 500
  {
  }

  /** The bootstrap token request asks for the five basic scopes for an empty account
      id, so its profile scope has an empty path segment. */
  lemma BootstrapScope()
    ensures |Split(Scope(BootstrapCall()), ' ')| == 5
    ensures "/accounts//profile.read" in Split(Scope(BootstrapCall()), ' ')
  {
    BootstrapScopes();
    GetScopesSplit("", false);
  }

  /** With operators, the first request is the bootstrap token request. */
  lemma BootstrapFirst(body: Value, bootstrap: Reply, replies: seq<Replies>)
    requires OperatorList(body).Some? && |replies| >= OperatorCount(body)
    ensures var calls := Handle(body, bootstrap, replies).1;
            |calls| > 0 && calls[0] == BootstrapCall()
  {
  }

  /** A failed bootstrap token request ends the request after that one request, with
      the provider's reply as the error. */
  lemma BootstrapRejected(body: Value, bootstrap: Reply, replies: seq<Replies>)
    requires OperatorList(body).Some? && bootstrap.Rejected? && |replies| >= OperatorCount(body)
    ensures Handle(body, bootstrap, replies) == (TokenFailedResponse(bootstrap.body), [BootstrapCall()])
  {
  }

  /** Once the bootstrap token is obtained: the request fails with a 500 exactly when an
      operator is `undefined` or `null`; otherwise every operator is accounted for by a
      created account or by a terminal error. */
  lemma BatchResponse(body: Value, bootstrap: Reply, replies: seq<Replies>)
    requires OperatorList(body).Some? && |replies| >= OperatorCount(body)
    requires bootstrap.Accepted? && Get(bootstrap.body, "access_token").Normal?
    ensures var ops := OperatorList(body).value;
            var response := Handle(body, bootstrap, replies).0;
            && (response.code == 500 <==> SomeNullish(ops))
            && (response.code != 500 ==>
                  response.body.Summary? &&
                  |response.body.accounts| + CountTerminal(ErrorsOf(response.body)) == |ops|)
  {
    var ops := OperatorList(body).value;
    var initialToken := Get(bootstrap.body, "access_token").value;
    BatchEscapes(ops, initialToken, replies);
    BatchTally(ops, initialToken, replies);
  }

  /** The errors a summary lists; none when the key is absent. */
  function ErrorsOf(summary: ResponseBody): seq<ErrorRecord>
    requires summary.Summary?
  {
    if summary.errors.Some? then summary.errors.value else []
  }
}

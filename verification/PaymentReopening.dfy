/** Exactly when a row can still cost another request, and what that means where keys are not honoured. */
module PaymentReopening {
  import opened Common
  import opened PaymentIntents
  import opened PaymentProtocol
  import opened PaymentSafety

  ghost predicate Named(s: State, email: EmailId) {
    exists task :: task in s.stuck && s.stuck[task].email == email
  }

  // Nobody holds an unsent claim, and the row is paid, or uncertain with nothing to look it up by.
  ghost predicate Closed(s: State, email: EmailId) {
    && email in s.table && InFlight(s, email) == {}
    && (|| s.table[email].status.Paid?
        || (s.table[email].status.UnknownOutcome? && !Reconcilable(s.table[email]) && !Named(s, email)))
  }

  lemma ClosedAct(table: Table, exec: Executor, a: Action, now: Time, email: EmailId)
    requires email in table && !Flying(exec, email)
    requires table[email].status.Paid? || (table[email].status.UnknownOutcome? && !Reconcilable(table[email]))
    ensures var e := Act(table, exec, a, now);
      && email in e.table && !Flying(e.exec, email)
      && (e.table[email].status.Paid? || e.table[email] == table[email])
  {}

  lemma NobodyFlies(s: State, email: EmailId)
    requires InFlight(s, email) == {}
    ensures forall x :: x in s.execs ==> !Flying(s.execs[x], email)
  {
    forall x | x in s.execs
      ensures !Flying(s.execs[x], email)
    {
      assert Flying(s.execs[x], email) ==> x in InFlight(s, email);
    }
  }

  lemma ClosedStep(s: State, a: Action, email: EmailId)
    requires Closed(s, email)
    ensures Closed(Step(s, a), email) && CallsFor(Step(s, a).calls, email) == CallsFor(s.calls, email)
  {
    StepSends(s, a, email);
    NobodyFlies(s, email);
    if IsExecutorAction(a) && a.x in s.execs {
      ClosedAct(s.table, s.execs[a.x], a, s.now, email);
    }
  }

  lemma {:induction false} ClosedStays(s: State, more: seq<Action>, email: EmailId)
    requires Closed(s, email)
    ensures CallsFor(Then(s, more).calls, email) == CallsFor(s.calls, email)
    decreases |more|
  {
    if more != [] {
      ClosedStep(s, more[0], email);
      ClosedStays(Step(s, more[0]), more[1..], email);
    }
  }

  // ------------------------------------------------------ how an open row is paid again

  // Once some steps have made the row claimable, a new executor sends for it.
  lemma SoloAdds(s: State, first: seq<Action>, email: EmailId) returns (more: seq<Action>)
    requires Then(s, first).calls == s.calls && CanClaim(Then(s, first).table, email)
    ensures CallsFor(Then(s, more).calls, email) == CallsFor(s.calls, email) + 1
  {
    var t := Then(s, first);
    var x := Above(t.execs.Keys);
    more := first + Solo(x, email);
    ThenThen(s, first, Solo(x, email));
    SoloThen(t, x, email);
    CallsForMore(s.calls, [ProviderCall(x, email, t.table[email].idempotencyKey, t.table[email].payable, true)], email);
  }

  // Every accepted request pays, as at the Perflo CLI, which is not passed the key.
  function Payouts(calls: seq<ProviderCall>, email: EmailId): nat {
    if calls == [] then 0
    else
      var last := calls[|calls| - 1];
      Payouts(calls[..|calls| - 1], email) + if last.email == email && last.accepted then 1 else 0
  }

  // Steps that claim and send, and record nothing.
  predicate OnlyPays(more: seq<Action>) {
    forall a :: a in more ==> a.Begin? || a.Load? || a.ClaimRow? || a.Reread? || a.Send?
  }

  // A winner in flight, brought to the moment before its request.
  lemma WinnerReadies(s: State, x: ExecId, email: EmailId) returns (first: seq<Action>)
    requires email in s.table && x in InFlight(s, email)
    ensures OnlyPays(first)
    ensures var t := Then(s, first);
      && t.calls == s.calls && t.table == s.table
      && x in t.execs && t.execs[x].Ready? && t.execs[x].email == email
  {
    if s.execs[x].ClaimWritten? {
      first := [Reread(x)];
      assert Then(s, first) == Step(s, Reread(x));
    } else {
      first := [];
    }
  }

  lemma SendingAdds(s: State, x: ExecId, email: EmailId)
    requires x in s.execs && s.execs[x].Ready? && s.execs[x].email == email
    ensures var t := Then(s, [Send(x, true)]);
      && t.table == s.table
      && CallsFor(t.calls, email) == CallsFor(s.calls, email) + 1
      && Payouts(t.calls, email) == Payouts(s.calls, email) + 1
  {
    var t := Step(s, Send(x, true));
    assert Then(s, [Send(x, true)]) == t;
    assert t.calls[..|s.calls|] == s.calls && |t.calls| == |s.calls| + 1;
  }

  lemma WinnerPays(s: State, x: ExecId, email: EmailId) returns (more: seq<Action>)
    requires email in s.table && x in InFlight(s, email)
    ensures OnlyPays(more) && Then(s, more).table == s.table
    ensures CallsFor(Then(s, more).calls, email) == CallsFor(s.calls, email) + 1
    ensures Payouts(Then(s, more).calls, email) == Payouts(s.calls, email) + 1
  {
    var first := WinnerReadies(s, x, email);
    SendingAdds(Then(s, first), x, email);
    ThenThen(s, first, [Send(x, true)]);
    more := first + [Send(x, true)];
  }

  lemma MissingRowCreated(s: State, email: EmailId, payable: Payable) returns (first: seq<Action>)
    requires email !in s.table
    ensures Then(s, first).calls == s.calls && CanClaim(Then(s, first).table, email)
  {
    var keys := set f | f in s.table :: s.table[f].idempotencyKey;
    var key := Above(keys);
    first := [Upsert(email, payable, key)];
    assert forall f :: f in s.table ==> s.table[f].idempotencyKey in keys;
    assert Then(s, first) == Step(s, first[0]);
  }

  lemma ClaimedRowReopened(s: State, email: EmailId) returns (first: seq<Action>)
    requires HasStatus(s, email, Claimed)
    ensures Then(s, first).calls == s.calls && CanClaim(Then(s, first).table, email)
  {
    var x := Above(s.execs.Keys);
    first := Loser(x, email);
    LoserThen(s, x, email);
  }

  lemma UncertainRowReopened(s: State, email: EmailId) returns (first: seq<Action>)
    requires HasStatus(s, email, UnknownOutcome) && (Reconcilable(s.table[email]) || Named(s, email))
    ensures Then(s, first).calls == s.calls && CanClaim(Then(s, first).table, email)
  {
    var failed := PayoutResult(0, PayoutFailed);
    if Named(s, email) {
      var task :| task in s.stuck && s.stuck[task].email == email;
      first := [Verdict(task, failed)];
      assert Then(s, first) == Step(s, first[0]);
    } else {
      var found := Step(s, FindStuck(0, email));
      first := [FindStuck(0, email)] + [Verdict(0, failed)];
      ThenCons(s, FindStuck(0, email), [Verdict(0, failed)]);
      assert Then(found, [Verdict(0, failed)]) == Step(found, Verdict(0, failed));
    }
  }

  ghost predicate CanCostMore(s: State, email: EmailId) {
    exists more :: CallsFor(Then(s, more).calls, email) > CallsFor(s.calls, email)
  }

  lemma OpenCostsMore(s: State, email: EmailId)
    requires !Closed(s, email)
    ensures CanCostMore(s, email)
  {
    var more: seq<Action>;
    if email !in s.table {
      var first := MissingRowCreated(s, email, Payable("", "", ""));
      more := SoloAdds(s, first, email);
    } else if x :| x in InFlight(s, email) {
      more := WinnerPays(s, x, email);
    } else if Retryable(s.table[email].status) {
      assert Then(s, []) == s;
      more := SoloAdds(s, [], email);
    } else {
      var first;
      if s.table[email].status.Claimed? {
        first := ClaimedRowReopened(s, email);
      } else {
        first := UncertainRowReopened(s, email);
      }
      more := SoloAdds(s, first, email);
    }
    assert CallsFor(Then(s, more).calls, email) > CallsFor(s.calls, email);
  }

  /**
   * From any state, some continuation sends another request for an email if and
   * only if its row is not closed: a winner has yet to send, or the row is
   * missing, pending, failed, claimed, or uncertain within a reconciler's reach.
   */
  lemma CanCostMoreIff(s: State, email: EmailId)
    ensures CanCostMore(s, email) <==> !Closed(s, email)
  {
    if Closed(s, email) {
      forall more
        ensures CallsFor(Then(s, more).calls, email) == CallsFor(s.calls, email)
      {
        ClosedStays(s, more, email);
      }
    } else {
      OpenCostsMore(s, email);
    }
  }

  /** The same of every run. */
  lemma AnotherRequestIff(actions: seq<Action>, email: EmailId)
    ensures (exists more :: CallsFor(Run(actions + more).calls, email) > CallsFor(Run(actions).calls, email))
       <==> !Closed(Run(actions), email)
  {
    forall more
      ensures Run(actions + more) == Then(Run(actions), more)
    {
      RunThen(actions, more);
    }
    CanCostMoreIff(Run(actions), email);
    if CanCostMore(Run(actions), email) {
      var more :| CallsFor(Then(Run(actions), more).calls, email) > CallsFor(Run(actions).calls, email);
      assert Run(actions + more) == Then(Run(actions), more);
    }
  }

  // ------------------------------------------------ a provider that is not given the key

  lemma {:induction false} PayoutsAreCalls(calls: seq<ProviderCall>, email: EmailId)
    ensures Payouts(calls, email) <= CallsFor(calls, email)
  {
    if calls != [] {
      PayoutsAreCalls(calls[..|calls| - 1], email);
    }
  }

  /**
   * There, executors may overlap as they like: payouts for an email still never
   * exceed one more than its row's failures.
   */
  lemma PayoutsWithoutKeys(actions: seq<Action>, email: EmailId)
    ensures Payouts(Run(actions).calls, email) <= 1 + Entries(actions, email, Failed)
  {
    PayoutsAreCalls(Run(actions).calls, email);
    CallsWithinClaims(actions, email);
  }

  // One executor, up to the moment before its request.
  function Winner(payable: Payable): seq<Action> {
    [Upsert(0, payable, 0)] + ([Begin(0, 0)] + ([Load(0)] + ([ClaimRow(0)] + ([Reread(0)] + []))))
  }

  lemma WinnerIsReady(payable: Payable)
    ensures var s := Run(Winner(payable));
      && s.execs == map[0 := Ready(0, payable, 0)] && HasStatus(s, 0, Claimed) && s.calls == []
  {
    var s1 := Step(INIT, Upsert(0, payable, 0));
    var s2 := Step(s1, Begin(0, 0));
    var s3 := Step(s2, Load(0));
    var s4 := Step(s3, ClaimRow(0));
    WinnerSteps(payable);
    assert Winner(payable) == [] + Winner(payable);
    RunThen([], Winner(payable));
    ThenCons(INIT, Upsert(0, payable, 0), [Begin(0, 0)] + ([Load(0)] + ([ClaimRow(0)] + ([Reread(0)] + []))));
    ThenCons(s1, Begin(0, 0), [Load(0)] + ([ClaimRow(0)] + ([Reread(0)] + [])));
    ThenCons(s2, Load(0), [ClaimRow(0)] + ([Reread(0)] + []));
    ThenCons(s3, ClaimRow(0), [Reread(0)] + []);
    ThenCons(s4, Reread(0), []);
  }

  lemma WinnerSteps(payable: Payable)
    ensures var loaded := Step(Step(Step(INIT, Upsert(0, payable, 0)), Begin(0, 0)), Load(0));
      var s := Step(Step(loaded, ClaimRow(0)), Reread(0));
      && s.execs == map[0 := Ready(0, payable, 0)] && HasStatus(s, 0, Claimed) && s.calls == []
  {
    var s1 := Step(INIT, Upsert(0, payable, 0));
    assert s1 == INIT.(table := map[0 := FreshIntent(payable, 0)]);
    var s3 := Step(Step(s1, Begin(0, 0)), Load(0));
    assert s3 == s1.(execs := map[0 := Loaded(0, payable)]);
    var s4 := Step(s3, ClaimRow(0));
    assert s4.execs == map[0 := ClaimWritten(0, payable)] && s4.table[0].idempotencyKey == 0;
  }

  /**
   * A run from the empty table that pays twice there: a winner, a loser that
   * reopens its claim, and a third executor.
   */
  lemma PaidTwice(payable: Payable)
    ensures Payouts(Run(Winner(payable) + Loser(1, 0) + [Send(0, true)] + Solo(2, 0)).calls, 0) == 2
  {
    WinnerIsReady(payable);
    LoserReopensTheClaim(Winner(payable), 0, 1, 2, 0);
    var calls := Run(Winner(payable) + Loser(1, 0) + [Send(0, true)] + Solo(2, 0)).calls;
    assert |calls| == 2 && calls[..1][..0] == [];
    assert Payouts(calls[..1], 0) == 1;
  }

  // ------------------------------------------------ what a truthful provider leaves standing

  // A payout stands already, or a winner has yet to send: what the provider accepted is what stands.
  ghost predicate Exposed(s: State, email: EmailId) {
    Payouts(s.calls, email) > 0 || InFlight(s, email) != {}
  }

  // The row is handed back for a retry although it is exposed.
  ghost predicate Reopens(before: State, after: State, email: EmailId) {
    Enters(before, after, email, Failed) && Exposed(before, email)
  }

  // How often along the run a failure was recorded over money.
  ghost function Reopenings(actions: seq<Action>, email: EmailId): nat {
    if actions == [] then 0
    else
      var before := actions[..|actions| - 1];
      Reopenings(before, email) + if Reopens(Run(before), Run(actions), email) then 1 else 0
  }

  lemma PayoutsMore(calls: seq<ProviderCall>, sent: seq<ProviderCall>, email: EmailId)
    requires |sent| <= 1
    ensures Payouts(calls + sent, email) ==
            Payouts(calls, email) + if sent != [] && sent[0].email == email && sent[0].accepted then 1 else 0
  {
    if sent == [] {
      assert calls + sent == calls;
    } else {
      assert (calls + sent)[..|calls|] == calls;
    }
  }

  ghost function Exposure(s: State, email: EmailId): nat {
    Payouts(s.calls, email) + |InFlight(s, email)|
  }

  // A request in flight becomes at most one payout; only a claim adds to what may come to stand.
  lemma StepExposure(s: State, a: Action, email: EmailId)
    ensures Exposure(Step(s, a), email)
            <= Exposure(s, email) + if Enters(s, Step(s, a), email, Claimed) then 1 else 0
  {
    var t := Step(s, a);
    if IsExecutorAction(a) && a.x in s.execs {
      var effect := Act(s.table, s.execs[a.x], a, s.now);
      ActFlight(s.table, s.execs[a.x], a, s.now, email);
      EffectFlight(s, a.x, effect, email);
      PayoutsMore(s.calls, effect.sent, email);
    } else {
      assert t.calls == s.calls;
      assert InFlight(t, email) == InFlight(s, email);
    }
  }

  lemma NotExposed(s: State, email: EmailId)
    ensures Exposed(s, email) <==> Exposure(s, email) > 0
  {
    assert InFlight(s, email) != {} <==> |InFlight(s, email)| > 0;
  }

  // Room is left for one more request only once the row invites one.
  ghost predicate WithinReopenings(s: State, email: EmailId, reopenings: nat) {
    if email !in s.table || s.table[email].status.Pending? then Exposure(s, email) == 0
    else Exposure(s, email) <= reopenings + if s.table[email].status.Failed? then 0 else 1
  }

  lemma {:induction false} ReopeningAccount(actions: seq<Action>, email: EmailId)
    ensures WithinReopenings(Run(actions), email, Reopenings(actions, email))
  {
    if actions == [] {
      assert InFlight(INIT, email) == {};
    } else {
      var before := actions[..|actions| - 1];
      ReopeningAccount(before, email);
      RunInv(before);
      StepTable(Run(before), actions[|actions| - 1]);
      StepExposure(Run(before), actions[|actions| - 1], email);
      NotExposed(Run(before), email);
    }
  }

  /**
   * However executors, promotions and late verdicts overlap, and with no key to
   * help: the payouts that stand for an email, with those still to be sent, are
   * at most one more than the times its row turned failed while one already
   * stood or was about to be asked for.
   */
  lemma PayoutsWithinReopenings(actions: seq<Action>, email: EmailId)
    ensures Payouts(Run(actions).calls, email) + |InFlight(Run(actions), email)| <= 1 + Reopenings(actions, email)
  {
    ReopeningAccount(actions, email);
  }

  ghost predicate PaysTwice(s: State, email: EmailId) {
    exists more :: OnlyPays(more) && Payouts(Then(s, more).calls, email) >= 2
  }

  lemma {:induction false} OnePayoutAtMost(s: State, more: seq<Action>, email: EmailId)
    requires OnlyPays(more) && email in s.table
    requires Exposure(s, email) <= if Retryable(s.table[email].status) then 0 else 1
    ensures Payouts(Then(s, more).calls, email) <= 1
    decreases |more|
  {
    if more != [] {
      assert more[0] in more;
      StepExposure(s, more[0], email);
      PayingStep(s, more[0], email);
      OnePayoutAtMost(Step(s, more[0]), more[1..], email);
    }
  }

  lemma PayingStep(s: State, a: Action, email: EmailId)
    requires a.Begin? || a.Load? || a.ClaimRow? || a.Reread? || a.Send?
    requires email in s.table
    ensures var t := Step(s, a);
      && email in t.table
      && (t.table[email] == s.table[email]
          || (Retryable(s.table[email].status) && t.table[email].status.Claimed?))
  {}

  lemma SoloOnlyPays(x: ExecId, email: EmailId)
    ensures OnlyPays(Solo(x, email))
  {}

  // A new executor that nobody interrupts has its request accepted.
  lemma SoloPays(s: State, email: EmailId) returns (more: seq<Action>)
    requires CanClaim(s.table, email)
    ensures OnlyPays(more) && Payouts(Then(s, more).calls, email) == Payouts(s.calls, email) + 1
  {
    var x := Above(s.execs.Keys);
    more := Solo(x, email);
    SoloOnlyPays(x, email);
    SoloThen(s, x, email);
    var call := ProviderCall(x, email, s.table[email].idempotencyKey, s.table[email].payable, true);
    PayoutsMore(s.calls, [call], email);
  }

  /**
   * And each such failure is one too many: from a row that invites a retry,
   * claims and requests alone can bring two payouts to stand if and only if one
   * stands already or a winner has yet to send.
   */
  lemma PaysTwiceIff(s: State, email: EmailId)
    requires CanClaim(s.table, email)
    ensures PaysTwice(s, email) <==> Exposed(s, email)
  {
    NotExposed(s, email);
    if Payouts(s.calls, email) > 0 {
      var more := SoloPays(s, email);
      assert OnlyPays(more) && Payouts(Then(s, more).calls, email) >= 2;
    } else if x :| x in InFlight(s, email) {
      var first := WinnerPays(s, x, email);
      var second := SoloPays(Then(s, first), email);
      ThenThen(s, first, second);
      assert OnlyPays(first + second) && Payouts(Then(s, first + second).calls, email) >= 2;
    } else {
      forall more | OnlyPays(more)
        ensures Payouts(Then(s, more).calls, email) <= 1
      {
        OnePayoutAtMost(s, more, email);
      }
    }
  }
}

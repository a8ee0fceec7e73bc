/** What holds over every run of PaymentProtocol. */
module PaymentSafety {
  import opened Common
  import opened PaymentIntents
  import opened PaymentProtocol

  // ------------------------------------------------- counting observed events

  predicate RowHasStatus(table: Table, email: EmailId, status: Status) {
    email in table && table[email].status == status
  }

  predicate HasStatus(s: State, email: EmailId, status: Status) {
    RowHasStatus(s.table, email, status)
  }

  predicate Enters(before: State, after: State, email: EmailId, status: Status) {
    !HasStatus(before, email, status) && HasStatus(after, email, status)
  }

  // How often the row of `email` turned into `status` along the run.
  function Entries(actions: seq<Action>, email: EmailId, status: Status): nat {
    if actions == [] then 0
    else
      var before := actions[..|actions| - 1];
      Entries(before, email, status) + (if Enters(Run(before), Run(actions), email, status) then 1 else 0)
  }

  function CallsFor(calls: seq<ProviderCall>, email: EmailId): nat {
    if calls == [] then 0
    else CallsFor(calls[..|calls| - 1], email) + (if calls[|calls| - 1].email == email then 1 else 0)
  }

  predicate Flying(exec: Executor, email: EmailId) {
    (exec.ClaimWritten? || exec.Ready?) && exec.email == email
  }

  // Executors that won their claim and have not sent their request yet.
  ghost function InFlight(s: State, email: EmailId): set<ExecId> {
    set x | x in s.execs && Flying(s.execs[x], email)
  }

  lemma RunSnoc(actions: seq<Action>, a: Action)
    ensures Run(actions + [a]) == Step(Run(actions), a)
  {
    assert (actions + [a])[..|actions|] == actions;
  }

  // ---------------------------------------------------- calls, claims, failures

  // Attempts and failures balance exactly; the late "paid" write over a failed
  // row is the only way they may coincide on a settled row.
  ghost predicate Balanced(s: State, email: EmailId, claims: nat, failures: nat) {
    if email !in s.table || s.table[email].status.Pending? then claims == failures == 0
    else match s.table[email].status
      case Failed => claims == failures
      case Paid => failures <= claims <= failures + 1
      case _ => claims == failures + 1
  }

  lemma {:induction false} ClaimAccount(actions: seq<Action>, email: EmailId)
    ensures Balanced(Run(actions), email, Entries(actions, email, Claimed), Entries(actions, email, Failed))
  {
    if actions != [] {
      var before := actions[..|actions| - 1];
      ClaimAccount(before, email);
      RunInv(before);
      StepTable(Run(before), actions[|actions| - 1]);
    }
  }

  predicate Sends(s: State, a: Action, email: EmailId) {
    a.Send? && a.x in s.execs && s.execs[a.x].Ready? && s.execs[a.x].email == email
  }

  lemma StepSends(s: State, a: Action, email: EmailId)
    ensures CallsFor(Step(s, a).calls, email) == CallsFor(s.calls, email) + if Sends(s, a, email) then 1 else 0
  {
    var t := Step(s, a);
    if a.Send? && a.x in s.execs && s.execs[a.x].Ready? {
      assert t.calls[..|t.calls| - 1] == s.calls;
    } else {
      assert t.calls == s.calls;
    }
  }

  // One executor's step sends at most one request, only when its own claim is
  // in flight, and only a pending or failed row's claim adds to the flight.
  lemma ActFlight(table: Table, exec: Executor, a: Action, now: Time, email: EmailId)
    ensures var e := Act(table, exec, a, now);
      && |e.sent| <= 1
      && (if e.sent != [] && e.sent[0].email == email then 1 else 0) + (if Flying(e.exec, email) then 1 else 0)
         <= (if Flying(exec, email) then 1 else 0)
            + (if !RowHasStatus(table, email, Claimed) && RowHasStatus(e.table, email, Claimed) then 1 else 0)
  {}

  lemma CallsForMore(calls: seq<ProviderCall>, sent: seq<ProviderCall>, email: EmailId)
    requires |sent| <= 1
    ensures CallsFor(calls + sent, email) ==
            CallsFor(calls, email) + if sent != [] && sent[0].email == email then 1 else 0
  {
    if sent == [] {
      assert calls + sent == calls;
    } else {
      assert (calls + sent)[..|calls|] == calls;
    }
  }

  lemma EffectFlight(s: State, x: ExecId, effect: Effect, email: EmailId)
    requires x in s.execs && |effect.sent| <= 1
    ensures var t := State(effect.table, s.execs[x := effect.exec], s.calls + effect.sent, s.stuck, s.now);
      && CallsFor(t.calls, email) ==
          CallsFor(s.calls, email) + (if effect.sent != [] && effect.sent[0].email == email then 1 else 0)
      && |InFlight(t, email)| == |InFlight(s, email)| + (if Flying(effect.exec, email) then 1 else 0)
                                 - (if Flying(s.execs[x], email) then 1 else 0)
  {
    var t := State(effect.table, s.execs[x := effect.exec], s.calls + effect.sent, s.stuck, s.now);
    CallsForMore(s.calls, effect.sent, email);
    assert InFlight(t, email) - {x} == InFlight(s, email) - {x};
    SizeStep(InFlight(s, email), InFlight(t, email), x);
  }

  lemma StepFlight(s: State, a: Action, email: EmailId)
    ensures var t := Step(s, a);
      CallsFor(t.calls, email) + |InFlight(t, email)|
      <= CallsFor(s.calls, email) + |InFlight(s, email)| + (if Enters(s, t, email, Claimed) then 1 else 0)
  {
    var t := Step(s, a);
    if IsExecutorAction(a) && a.x in s.execs {
      EffectFlight(s, a.x, Act(s.table, s.execs[a.x], a, s.now), email);
      ActFlight(s.table, s.execs[a.x], a, s.now, email);
    } else {
      assert t.calls == s.calls;
      assert InFlight(t, email) == InFlight(s, email);
    }
  }

  lemma {:induction false} FlightAccount(actions: seq<Action>, email: EmailId)
    ensures CallsFor(Run(actions).calls, email) + |InFlight(Run(actions), email)| <= Entries(actions, email, Claimed)
  {
    if actions == [] {
      assert InFlight(INIT, email) == {};
    } else {
      var before := actions[..|actions| - 1];
      FlightAccount(before, email);
      StepFlight(Run(before), actions[|actions| - 1], email);
    }
  }

  /** With no assumption about the provider: calls <= own claims <= 1 + failures. */
  lemma CallsWithinClaims(actions: seq<Action>, email: EmailId)
    ensures CallsFor(Run(actions).calls, email) <= Entries(actions, email, Claimed)
    ensures Entries(actions, email, Claimed) <= 1 + Entries(actions, email, Failed)
  {
    FlightAccount(actions, email);
    ClaimAccount(actions, email);
  }

  // Step k of the run is the one at which x moved the pending or failed row to claimed.
  ghost predicate WonAt(actions: seq<Action>, k: nat, x: ExecId, email: EmailId) {
    && k < |actions| && actions[k] == ClaimRow(x)
    && x in Run(actions[..k]).execs && Run(actions[..k]).execs[x].Loaded? && Run(actions[..k]).execs[x].email == email
    && CanClaim(Run(actions[..k]).table, email)
  }

  ghost predicate Won(actions: seq<Action>, x: ExecId, email: EmailId) {
    exists k: nat :: WonAt(actions, k, x, email)
  }

  predicate Asked(exec: Executor) {
    exec.Awaiting? || exec.PayReturned? || exec.Failing? || exec.Finished?
  }

  ghost predicate Accounted(actions: seq<Action>) {
    var s := Run(actions);
    && (forall x :: WinnerInFlight(s, x) ==> Won(actions, x, s.execs[x].email))
    && (forall i :: 0 <= i < |s.calls| ==> Won(actions, s.calls[i].caller, s.calls[i].email))
    && (forall i :: 0 <= i < |s.calls| ==> s.calls[i].caller in s.execs && Asked(s.execs[s.calls[i].caller]))
    && (forall i, j :: 0 <= i < j < |s.calls| ==> s.calls[i].caller != s.calls[j].caller)
  }

  lemma WonKept(actions: seq<Action>, a: Action, x: ExecId, email: EmailId)
    requires Won(actions, x, email)
    ensures Won(actions + [a], x, email)
  {
    var k: nat :| WonAt(actions, k, x, email);
    assert (actions + [a])[..k] == actions[..k];
    assert WonAt(actions + [a], k, x, email);
  }

  predicate WinnerInFlight(s: State, x: ExecId) {
    x in s.execs && (s.execs[x].ClaimWritten? || s.execs[x].Ready?)
  }

  lemma FlightSource(s: State, a: Action, x: ExecId)
    requires WinnerInFlight(Step(s, a), x)
    ensures x in s.execs && s.execs[x] != Finished && Step(s, a).execs[x].email == s.execs[x].email
    ensures WinnerInFlight(s, x) || (a == ClaimRow(x) && s.execs[x].Loaded? && CanClaim(s.table, s.execs[x].email))
  {}

  lemma AskedKept(s: State, a: Action, x: ExecId)
    requires x in s.execs && Asked(s.execs[x])
    ensures x in Step(s, a).execs && Asked(Step(s, a).execs[x])
  {}

  lemma LogStep(s: State, a: Action)
    ensures var t := Step(s, a);
      || t.calls == s.calls
      || (&& a.Send? && WinnerInFlight(s, a.x) && a.x in t.execs && Asked(t.execs[a.x]) && |t.calls| == |s.calls| + 1
          && t.calls == s.calls + [t.calls[|s.calls|]]
          && t.calls[|s.calls|].caller == a.x && t.calls[|s.calls|].email == s.execs[a.x].email)
  {}

  lemma WinnersStep(actions: seq<Action>, a: Action, x: ExecId)
    requires Accounted(actions) && WinnerInFlight(Step(Run(actions), a), x)
    ensures Won(actions + [a], x, Step(Run(actions), a).execs[x].email)
  {
    var s := Run(actions);
    FlightSource(s, a, x);
    if WinnerInFlight(s, x) {
      WonKept(actions, a, x, s.execs[x].email);
    } else {
      assert (actions + [a])[..|actions|] == actions;
      assert WonAt(actions + [a], |actions|, x, s.execs[x].email);
    }
  }

  lemma CallsStep(actions: seq<Action>, a: Action)
    requires Accounted(actions)
    ensures var t := Step(Run(actions), a);
      && (forall i :: 0 <= i < |t.calls| ==> Won(actions + [a], t.calls[i].caller, t.calls[i].email))
      && (forall i :: 0 <= i < |t.calls| ==> t.calls[i].caller in t.execs && Asked(t.execs[t.calls[i].caller]))
      && (forall i, j :: 0 <= i < j < |t.calls| ==> t.calls[i].caller != t.calls[j].caller)
  {
    var s, t := Run(actions), Step(Run(actions), a);
    LogStep(s, a);
    forall i | 0 <= i < |t.calls|
      ensures Won(actions + [a], t.calls[i].caller, t.calls[i].email)
      ensures t.calls[i].caller in t.execs && Asked(t.execs[t.calls[i].caller])
    {
      if i < |s.calls| {
        AskedKept(s, a, s.calls[i].caller);
      }
      WonKept(actions, a, t.calls[i].caller, t.calls[i].email);
    }
  }

  lemma AccountedStep(actions: seq<Action>, a: Action)
    requires Accounted(actions)
    ensures Accounted(actions + [a])
  {
    RunSnoc(actions, a);
    CallsStep(actions, a);
    forall x | WinnerInFlight(Step(Run(actions), a), x)
      ensures Won(actions + [a], x, Step(Run(actions), a).execs[x].email)
    {
      WinnersStep(actions, a, x);
    }
  }

  /**
   * Nobody pays on someone else's claim, and nobody pays twice: every request
   * was sent by an executor that had itself moved the row from pending or
   * failed to claimed, and no two requests have the same sender.
   */
  lemma {:induction false} CallsComeFromOwnClaims(actions: seq<Action>)
    ensures Accounted(actions)
  {
    if actions != [] {
      var before := actions[..|actions| - 1];
      CallsComeFromOwnClaims(before);
      AccountedStep(before, actions[|actions| - 1]);
      assert before + [actions[|actions| - 1]] == actions;
    }
  }

  // ------------------------------------------------------ a deduplicating provider

  // The requests that create a payout at a provider which honours the
  // idempotency key: the first accepted one for each key.
  function Landed(calls: seq<ProviderCall>): seq<ProviderCall> {
    if calls == [] then []
    else
      var earlier := Landed(calls[..|calls| - 1]);
      var last := calls[|calls| - 1];
      if last.accepted && (forall i :: 0 <= i < |earlier| ==> earlier[i].key != last.key)
      then earlier + [last] else earlier
  }

  ghost predicate Accepted(calls: seq<ProviderCall>, email: EmailId) {
    exists i :: 0 <= i < |calls| && calls[i].email == email && calls[i].accepted
  }

  lemma {:induction false} LandedAreCalls(calls: seq<ProviderCall>)
    ensures forall i :: 0 <= i < |Landed(calls)| ==> Landed(calls)[i] in calls
  {
    if calls != [] {
      LandedAreCalls(calls[..|calls| - 1]);
    }
  }

  lemma {:induction false} CallsForNone(calls: seq<ProviderCall>, email: EmailId)
    ensures CallsFor(calls, email) == 0 <==> forall i :: 0 <= i < |calls| ==> calls[i].email != email
  {
    if calls != [] {
      CallsForNone(calls[..|calls| - 1], email);
      assert forall i :: 0 <= i < |calls| - 1 ==> calls[..|calls| - 1][i] == calls[i];
    }
  }

  ghost predicate CallsOk(table: Table, calls: seq<ProviderCall>) {
    forall i :: 0 <= i < |calls| ==> CallOk(table, calls[i])
  }

  // Whether one more request lands is decided by whether one for its email has landed.
  lemma LandsIffFirst(table: Table, earlier: seq<ProviderCall>, last: ProviderCall)
    requires KeysUnique(table) && CallsOk(table, earlier) && CallOk(table, last)
    ensures (forall i :: 0 <= i < |Landed(earlier)| ==> Landed(earlier)[i].key != last.key)
            <==> CallsFor(Landed(earlier), last.email) == 0
  {
    LandedAreCalls(earlier);
    CallsForNone(Landed(earlier), last.email);
    forall i | 0 <= i < |Landed(earlier)|
      ensures Landed(earlier)[i].key == last.key <==> Landed(earlier)[i].email == last.email
    {
      var k :| 0 <= k < |earlier| && earlier[k] == Landed(earlier)[i];
      assert CallOk(table, earlier[k]);
    }
  }

  lemma AcceptedSnoc(earlier: seq<ProviderCall>, last: ProviderCall, email: EmailId)
    ensures Accepted(earlier + [last], email) <==> Accepted(earlier, email) || (last.email == email && last.accepted)
  {
    var calls := earlier + [last];
    assert calls[|earlier|] == last;
    if i :| 0 <= i < |earlier| && earlier[i].email == email && earlier[i].accepted {
      assert calls[i] == earlier[i];
    }
  }

  lemma LandedSnoc(table: Table, earlier: seq<ProviderCall>, last: ProviderCall)
    requires KeysUnique(table) && CallsOk(table, earlier) && CallOk(table, last)
    ensures Landed(earlier + [last]) ==
            Landed(earlier) + if last.accepted && CallsFor(Landed(earlier), last.email) == 0 then [last] else []
  {
    LandsIffFirst(table, earlier, last);
    assert (earlier + [last])[..|earlier|] == earlier;
  }

  lemma {:induction false} LandedPerEmail(table: Table, calls: seq<ProviderCall>, email: EmailId)
    requires KeysUnique(table) && CallsOk(table, calls)
    ensures CallsFor(Landed(calls), email) == if Accepted(calls, email) then 1 else 0
  {
    if calls != [] {
      var earlier, last := calls[..|calls| - 1], calls[|calls| - 1];
      assert forall i :: 0 <= i < |earlier| ==> earlier[i] == calls[i];
      assert earlier + [last] == calls;
      LandedPerEmail(table, earlier, email);
      LandedSnoc(table, earlier, last);
      AcceptedSnoc(earlier, last, email);
      var landing := if last.accepted && CallsFor(Landed(earlier), last.email) == 0 then [last] else [];
      CallsForMore(Landed(earlier), landing, email);
    }
  }

  /**
   * With a provider that deduplicates by key, every run lands at most one
   * payout per email, and lands one as soon as any request was accepted: the
   * key is fixed when the row is created and is never shared between rows.
   */
  lemma AtMostOnePayout(actions: seq<Action>, email: EmailId)
    ensures CallsFor(Landed(Run(actions).calls), email) == if Accepted(Run(actions).calls, email) then 1 else 0
  {
    RunInv(actions);
    LandedPerEmail(Run(actions).table, Run(actions).calls, email);
  }

  // --------------------------------------------------------- what never changes

  lemma Extend(actions: seq<Action>, more: seq<Action>)
    requires more != []
    ensures Run(actions + more) == Step(Run(actions + more[..|more| - 1]), more[|more| - 1])
  {
    assert (actions + more)[..|actions + more| - 1] == actions + more[..|more| - 1];
  }

  /** Once a row exists, its idempotency key is the same for the rest of every run. */
  lemma {:induction false} KeyIsForever(actions: seq<Action>, more: seq<Action>, email: EmailId)
    requires email in Run(actions).table
    ensures email in Run(actions + more).table
    ensures Run(actions + more).table[email].idempotencyKey == Run(actions).table[email].idempotencyKey
  {
    if more == [] {
      assert actions + more == actions;
    } else {
      KeyIsForever(actions, more[..|more| - 1], email);
      Extend(actions, more);
      RunInv(actions + more[..|more| - 1]);
      StepTable(Run(actions + more[..|more| - 1]), more[|more| - 1]);
    }
  }

  /**
   * `paid` is absorbing and freezes recipient, amount and currency; and once no
   * winner is still in flight, a paid row is never sent to the provider again.
   */
  lemma {:induction false} PaidIsFinal(actions: seq<Action>, more: seq<Action>, email: EmailId)
    requires HasStatus(Run(actions), email, Paid)
    ensures HasStatus(Run(actions + more), email, Paid)
    ensures Run(actions + more).table[email].payable == Run(actions).table[email].payable
    ensures CallsFor(Run(actions + more).calls, email) + |InFlight(Run(actions + more), email)|
            <= CallsFor(Run(actions).calls, email) + |InFlight(Run(actions), email)|
    ensures InFlight(Run(actions), email) == {} ==>
              CallsFor(Run(actions + more).calls, email) == CallsFor(Run(actions).calls, email)
  {
    if more == [] {
      assert actions + more == actions;
    } else {
      var shorter := actions + more[..|more| - 1];
      PaidIsFinal(actions, more[..|more| - 1], email);
      Extend(actions, more);
      RunInv(shorter);
      StepTable(Run(shorter), more[|more| - 1]);
      StepFlight(Run(shorter), more[|more| - 1], email);
      StepSends(Run(shorter), more[|more| - 1], email);
    }
  }

  ghost predicate LockedThroughout(actions: seq<Action>, more: seq<Action>, email: EmailId) {
    forall k :: 0 <= k <= |more| ==>
      email in Run(actions + more[..k]).table && !Retryable(Run(actions + more[..k]).table[email].status)
  }

  /** While a row stays claimed, paid or unknown_outcome, nothing rewrites what it pays. */
  lemma {:induction false} PayableFrozen(actions: seq<Action>, more: seq<Action>, email: EmailId)
    requires LockedThroughout(actions, more, email)
    ensures email in Run(actions).table && email in Run(actions + more).table
    ensures Run(actions + more).table[email].payable == Run(actions).table[email].payable
  {
    assert actions + more[..0] == actions;
    assert more[..|more|] == more;
    if more != [] {
      var m := more[..|more| - 1];
      forall k | 0 <= k <= |m|
        ensures m[..k] == more[..k]
      {}
      PayableFrozen(actions, m, email);
      Extend(actions, more);
      RunInv(actions + m);
      StepTable(Run(actions + m), more[|more| - 1]);
    }
  }

  lemma ActLeavesUnknown(table: Table, exec: Executor, a: Action, now: Time, email: EmailId)
    requires RowHasStatus(table, email, UnknownOutcome)
    requires !RowHasStatus(Act(table, exec, a, now).table, email, UnknownOutcome)
    ensures (a.RecordPaid? || a.Throw?) && exec.PayReturned? && exec.email == email
            && RowHasStatus(Act(table, exec, a, now).table, email, Paid)
  {}

  /**
   * unknown_outcome is left only by a provider verdict naming this row, or by
   * an executor that was told its payment went through recording that.
   */
  lemma UnknownLeavesOnlyByProof(actions: seq<Action>, a: Action, email: EmailId)
    requires HasStatus(Run(actions), email, UnknownOutcome)
    requires !HasStatus(Step(Run(actions), a), email, UnknownOutcome)
    ensures var s := Run(actions);
      || (a.Verdict? && a.task in s.stuck && s.stuck[a.task].email == email
          && HasStatus(Step(s, a), email, if a.result.status.PayoutPaid? then Paid else Failed)
          && (a.result.status.PayoutPaid? || a.result.status.PayoutFailed?))
      || ((a.RecordPaid? || a.Throw?) && a.x in s.execs && s.execs[a.x].PayReturned? && s.execs[a.x].email == email
          && HasStatus(Step(s, a), email, Paid))
  {
    var s := Run(actions);
    if IsExecutorAction(a) && a.x in s.execs {
      ActLeavesUnknown(s.table, s.execs[a.x], a, s.now, email);
    }
  }

  // ------------------------------------------------------ when money moves again

  // `actions` one after another from a given state.
  function Then(s: State, actions: seq<Action>): State
    decreases |actions|
  {
    if actions == [] then s else Then(Step(s, actions[0]), actions[1..])
  }

  lemma {:induction false} RunThen(actions: seq<Action>, more: seq<Action>)
    ensures Run(actions + more) == Then(Run(actions), more)
    decreases |more|
  {
    if more == [] {
      assert actions + more == actions;
    } else {
      RunSnoc(actions, more[0]);
      RunThen(actions + [more[0]], more[1..]);
      assert actions + more == actions + [more[0]] + more[1..];
    }
  }

  lemma ThenCons(s: State, a: Action, rest: seq<Action>)
    ensures Then(s, [a] + rest) == Then(Step(s, a), rest)
  {
    assert ([a] + rest)[1..] == rest;
  }

  lemma {:induction false} ThenThen(s: State, first: seq<Action>, second: seq<Action>)
    ensures Then(s, first + second) == Then(Then(s, first), second)
    decreases |first|
  {
    if first == [] {
      assert first + second == second;
    } else {
      assert (first + second)[1..] == first[1..] + second;
      ThenThen(Step(s, first[0]), first[1..], second);
    }
  }

  // The steps of one executor that nobody interrupts.
  function Alone(table: Table, exec: Executor, actions: seq<Action>, now: Time): Effect
    decreases |actions|
  {
    if actions == [] then Effect(table, exec, [])
    else
      var first := Act(table, exec, actions[0], now);
      var rest := Alone(first.table, first.exec, actions[1..], now);
      Effect(rest.table, rest.exec, first.sent + rest.sent)
  }

  function Did(s: State, x: ExecId, effect: Effect): State {
    State(effect.table, s.execs[x := effect.exec], s.calls + effect.sent, s.stuck, s.now)
  }

  lemma DidTwice(s: State, x: ExecId, first: Effect, second: Effect)
    requires x in s.execs
    ensures Did(Did(s, x, first), x, second) == Did(s, x, Effect(second.table, second.exec, first.sent + second.sent))
  {
    assert s.execs[x := first.exec][x := second.exec] == s.execs[x := second.exec];
    assert s.calls + first.sent + second.sent == s.calls + (first.sent + second.sent);
  }

  lemma StepIsDid(s: State, x: ExecId, a: Action)
    requires x in s.execs && IsExecutorAction(a) && a.x == x
    ensures Step(s, a) == Did(s, x, Act(s.table, s.execs[x], a, s.now))
  {}

  lemma {:induction false} ThenAlone(s: State, x: ExecId, actions: seq<Action>)
    requires x in s.execs
    requires forall a :: a in actions ==> IsExecutorAction(a) && a.x == x
    ensures Then(s, actions) == Did(s, x, Alone(s.table, s.execs[x], actions, s.now))
    decreases |actions|
  {
    if actions == [] {
      assert s.execs[x := s.execs[x]] == s.execs;
    } else {
      assert actions[0] in actions;
      var first := Act(s.table, s.execs[x], actions[0], s.now);
      StepIsDid(s, x, actions[0]);
      ThenAlone(Did(s, x, first), x, actions[1..]);
      DidTwice(s, x, first, Alone(first.table, first.exec, actions[1..], s.now));
    }
  }

  lemma BeginAlone(s: State, x: ExecId, email: EmailId, actions: seq<Action>)
    requires x !in s.execs
    requires forall a :: a in actions ==> IsExecutorAction(a) && a.x == x
    ensures Then(s, [Begin(x, email)] + actions) == Did(s, x, Alone(s.table, Starting(email), actions, s.now))
  {
    var s1 := Step(s, Begin(x, email));
    ThenCons(s, Begin(x, email), actions);
    ThenAlone(s1, x, actions);
    var effect := Alone(s.table, Starting(email), actions, s.now);
    assert s1.execs[x := effect.exec] == s.execs[x := effect.exec];
  }

  lemma AloneCons(table: Table, exec: Executor, a: Action, rest: seq<Action>, now: Time)
    ensures var first := Act(table, exec, a, now);
      var last := Alone(first.table, first.exec, rest, now);
      Alone(table, exec, [a] + rest, now) == Effect(last.table, last.exec, first.sent + last.sent)
  {
    assert ([a] + rest)[1..] == rest;
  }

  function SoloSteps(x: ExecId): seq<Action> {
    [Load(x)] + ([ClaimRow(x)] + ([Reread(x)] + ([Send(x, true)] + [])))
  }

  // One executor that is not interrupted, up to its request.
  function Solo(x: ExecId, email: EmailId): seq<Action> {
    [Begin(x, email)] + SoloSteps(x)
  }

  lemma SoloAlone(table: Table, x: ExecId, email: EmailId, now: Time)
    ensures Alone(table, Starting(email), SoloSteps(x), now).sent ==
            if CanClaim(table, email)
            then [ProviderCall(x, email, table[email].idempotencyKey, table[email].payable, true)]
            else []
  {
    var tail := [Reread(x)] + ([Send(x, true)] + []);
    AloneCons(table, Starting(email), Load(x), [ClaimRow(x)] + tail, now);
    if CanClaim(table, email) {
      var payable, claimed := table[email].payable, Claim(table, email, now);
      AloneCons(table, Loaded(email, payable), ClaimRow(x), tail, now);
      AloneCons(claimed, ClaimWritten(email, payable), Reread(x), [Send(x, true)] + [], now);
      AloneCons(claimed, Ready(email, payable, table[email].idempotencyKey), Send(x, true), [], now);
    } else {
      var failing := Failing(email, Failed, None);
      if email in table {
        AloneCons(table, Loaded(email, table[email].payable), ClaimRow(x), tail, now);
      } else {
        AloneCons(table, failing, ClaimRow(x), tail, now);
      }
      AloneCons(table, failing, Reread(x), [Send(x, true)] + [], now);
      AloneCons(table, failing, Send(x, true), [], now);
    }
  }

  lemma SoloThen(s: State, x: ExecId, email: EmailId)
    requires x !in s.execs
    ensures Then(s, Solo(x, email)).calls ==
            s.calls + if CanClaim(s.table, email)
                      then [ProviderCall(x, email, s.table[email].idempotencyKey, s.table[email].payable, true)]
                      else []
  {
    BeginAlone(s, x, email, SoloSteps(x));
    SoloAlone(s.table, x, email, s.now);
  }

  /**
   * From any reachable state, running a new executor alone sends a payout exactly
   * when the row is pending or failed.
   */
  lemma SoloSendsIffRetryable(actions: seq<Action>, x: ExecId, email: EmailId)
    requires x !in Run(actions).execs
    ensures CallsFor(Run(actions + Solo(x, email)).calls, email) ==
            CallsFor(Run(actions).calls, email) + if CanClaim(Run(actions).table, email) then 1 else 0
  {
    RunThen(actions, Solo(x, email));
    SoloThen(Run(actions), x, email);
    var after := Run(actions + Solo(x, email)).calls;
    if CanClaim(Run(actions).table, email) {
      assert after[..|after| - 1] == Run(actions).calls;
    } else {
      assert after == Run(actions).calls;
    }
  }

  function LoserSteps(x: ExecId): seq<Action> {
    [Load(x)] + ([ClaimRow(x)] + ([RecordFailed(x)] + []))
  }

  // A second executor that finds the row claimed, fails, and records its failure.
  function Loser(x: ExecId, email: EmailId): seq<Action> {
    [Begin(x, email)] + LoserSteps(x)
  }

  lemma LoserAlone(table: Table, x: ExecId, email: EmailId, now: Time)
    requires RowHasStatus(table, email, Claimed)
    ensures Alone(table, Starting(email), LoserSteps(x), now) ==
        Effect(RecordFailure(table, email, Failed, None), Finished, [])
  {
    var loaded := Loaded(email, table[email].payable);
    var failing := Failing(email, Failed, None);
    AloneCons(table, Starting(email), Load(x), [ClaimRow(x)] + ([RecordFailed(x)] + []), now);
    AloneCons(table, loaded, ClaimRow(x), [RecordFailed(x)] + [], now);
    AloneCons(table, failing, RecordFailed(x), [], now);
  }

  lemma LoserThen(s: State, x: ExecId, email: EmailId)
    requires x !in s.execs && HasStatus(s, email, Claimed)
    ensures Then(s, Loser(x, email)) == Did(s, x, Effect(RecordFailure(s.table, email, Failed, None), Finished, []))
  {
    BeginAlone(s, x, email, LoserSteps(x));
    LoserAlone(s.table, x, email, s.now);
  }

  lemma ReopenedCalls(s: State, winner: ExecId, loser: ExecId, next: ExecId, email: EmailId)
      returns (two: seq<ProviderCall>)
    requires winner in s.execs && s.execs[winner].Ready? && s.execs[winner].email == email
    requires HasStatus(s, email, Claimed) && s.execs[winner].key == s.table[email].idempotencyKey
    requires loser !in s.execs && next !in s.execs && loser != next
    ensures |two| == 2 && two[0].email == two[1].email == email && two[0].key == two[1].key
    ensures two[0].accepted && two[1].accepted
    ensures Then(Step(Then(s, Loser(loser, email)), Send(winner, true)), Solo(next, email)).calls ==
        s.calls + [two[0]] + [two[1]]
  {
    LoserThen(s, loser, email);
    var key := s.table[email].idempotencyKey;
    var reopened := Then(s, Loser(loser, email));
    assert reopened.execs[winner] == s.execs[winner];
    var sent := Step(reopened, Send(winner, true));
    two := [ProviderCall(winner, email, key, s.execs[winner].payable, true),
        ProviderCall(next, email, key, s.table[email].payable, true)];
    assert sent.calls == s.calls + [two[0]] && sent.table == reopened.table && next !in sent.execs;
    SoloThen(sent, next, email);
  }

  /**
   * The claim alone does not keep a second request out: whenever a winner is
   * about to send, a losing executor reopens the row by recording its own
   * failure on it, and the next executor sends again. Both requests carry one
   * key, which helps at a provider that is given it and honours it.
   */
  lemma LoserReopensTheClaim(actions: seq<Action>, winner: ExecId, loser: ExecId, next: ExecId, email: EmailId)
    requires winner in Run(actions).execs && Run(actions).execs[winner].Ready?
        && Run(actions).execs[winner].email == email
    requires HasStatus(Run(actions), email, Claimed)
    requires loser !in Run(actions).execs && next !in Run(actions).execs && loser != next
    ensures var after := Run(actions + Loser(loser, email) + [Send(winner, true)] + Solo(next, email));
      && CallsFor(after.calls, email) == CallsFor(Run(actions).calls, email) + 2
      && |after.calls| == |Run(actions).calls| + 2
      && (forall i :: |Run(actions).calls| <= i < |after.calls| ==>
            after.calls[i].email == email && after.calls[i].accepted)
      && after.calls[|after.calls| - 1].key == after.calls[|after.calls| - 2].key
  {
    var s := Run(actions);
    RunInv(actions);
    assert ExecOk(s.table, s.execs[winner]);
    var two := ReopenedCalls(s, winner, loser, next, email);
    RunThen(actions, Loser(loser, email));
    RunSnoc(actions + Loser(loser, email), Send(winner, true));
    RunThen(actions + Loser(loser, email) + [Send(winner, true)], Solo(next, email));
    CallsForMore(s.calls, [two[0]], email);
    CallsForMore(s.calls + [two[0]], [two[1]], email);
  }

  // ------------------------------------------------------------- what gets sent

  predicate Carries(s: State, x: ExecId, payable: Payable) {
    x in s.execs && (s.execs[x].ClaimWritten? || s.execs[x].Ready?) ==> s.execs[x].payable == payable
  }

  predicate PastLoad(s: State, x: ExecId) {
    x in s.execs && !s.execs[x].Starting? && !s.execs[x].Loaded?
  }

  lemma LocalPayableStep(s: State, a: Action, x: ExecId, payable: Payable)
    requires PastLoad(s, x) && Carries(s, x, payable)
    ensures PastLoad(Step(s, a), x) && Carries(Step(s, a), x, payable)
  {}

  lemma {:induction false} LocalPayable(actions: seq<Action>, more: seq<Action>, x: ExecId, payable: Payable)
    requires PastLoad(Run(actions), x) && Carries(Run(actions), x, payable)
    ensures PastLoad(Run(actions + more), x) && Carries(Run(actions + more), x, payable)
  {
    if more == [] {
      assert actions + more == actions;
    } else {
      LocalPayable(actions, more[..|more| - 1], x, payable);
      Extend(actions, more);
      LocalPayableStep(Run(actions + more[..|more| - 1]), more[|more| - 1], x, payable);
    }
  }

  // As long as the claim stands, the request carries the row's fields exactly if
  // the ones loaded were the row's when it was claimed.
  lemma SentIsClaimedIffLoadedStood(actions: seq<Action>, more: seq<Action>, x: ExecId, accepted: bool)
    requires x in Run(actions).execs && Run(actions).execs[x].Loaded?
    requires CanClaim(Run(actions).table, Run(actions).execs[x].email)
    requires LockedThroughout(actions + [ClaimRow(x)], more, Run(actions).execs[x].email)
    requires x in Run(actions + [ClaimRow(x)] + more).execs && Run(actions + [ClaimRow(x)] + more).execs[x].Ready?
    requires Run(actions + [ClaimRow(x)] + more).execs[x].email == Run(actions).execs[x].email
    ensures var email := Run(actions).execs[x].email;
      var after := Run(actions + [ClaimRow(x)] + more + [Send(x, accepted)]);
      && |after.calls| > 0 && email in after.table
      && (after.calls[|after.calls| - 1].payable == after.table[email].payable
          <==> Run(actions).execs[x].payable == Run(actions).table[email].payable)
  {
    var s := Run(actions);
    RunSnoc(actions, ClaimRow(x));
    LocalPayable(actions + [ClaimRow(x)], more, x, s.execs[x].payable);
    PayableFrozen(actions + [ClaimRow(x)], more, s.execs[x].email);
    RunSnoc(actions + [ClaimRow(x)] + more, Send(x, accepted));
  }

  predicate Quiet(mid: seq<Action>, x: ExecId) {
    forall a :: a in mid ==> !(IsExecutorAction(a) && a.x == x)
  }

  // What the last repair of the row to take effect in `mid` wrote, if there was one.
  function LastRepair(actions: seq<Action>, mid: seq<Action>, email: EmailId): Option<Payable> {
    if mid == [] then None
    else
      var before, a := mid[..|mid| - 1], mid[|mid| - 1];
      if a.Repair? && a.email == email && CanClaim(Run(actions + before).table, email) then Some(a.payable)
      else LastRepair(actions, before, email)
  }

  lemma ActKeepsPayable(table: Table, exec: Executor, a: Action, now: Time, email: EmailId)
    requires email in table
    ensures var after := Act(table, exec, a, now).table;
      email in after && after[email].payable == table[email].payable
  {}

  lemma OnlyRepairsRewrite(s: State, a: Action, email: EmailId)
    requires email in s.table
    ensures email in Step(s, a).table
    ensures Step(s, a).table[email].payable ==
            if a.Repair? && a.email == email && CanClaim(s.table, email) then a.payable else s.table[email].payable
  {
    if IsExecutorAction(a) && a.x in s.execs {
      ActKeepsPayable(s.table, s.execs[a.x], a, s.now, email);
    }
  }

  lemma {:induction false} LastRepairStands(actions: seq<Action>, mid: seq<Action>, email: EmailId)
    requires email in Run(actions).table
    ensures email in Run(actions + mid).table
    ensures var repair := LastRepair(actions, mid, email);
      Run(actions + mid).table[email].payable ==
      if repair.Some? then repair.value else Run(actions).table[email].payable
  {
    if mid == [] {
      assert actions + mid == actions;
    } else {
      LastRepairStands(actions, mid[..|mid| - 1], email);
      Extend(actions, mid);
      OnlyRepairsRewrite(Run(actions + mid[..|mid| - 1]), mid[|mid| - 1], email);
    }
  }

  lemma QuietStep(s: State, a: Action, x: ExecId)
    requires x in s.execs && !(IsExecutorAction(a) && a.x == x)
    ensures x in Step(s, a).execs && Step(s, a).execs[x] == s.execs[x]
  {}

  lemma {:induction false} QuietStays(actions: seq<Action>, mid: seq<Action>, x: ExecId)
    requires x in Run(actions).execs && Quiet(mid, x)
    ensures x in Run(actions + mid).execs && Run(actions + mid).execs[x] == Run(actions).execs[x]
  {
    if mid == [] {
      assert actions + mid == actions;
    } else {
      QuietStays(actions, mid[..|mid| - 1], x);
      Extend(actions, mid);
      QuietStep(Run(actions + mid[..|mid| - 1]), mid[|mid| - 1], x);
    }
  }

  // The run of an executor that loads, is then quiet for a while, and claims.
  function ToClaim(actions: seq<Action>, x: ExecId, mid: seq<Action>): seq<Action> {
    actions + [Load(x)] + mid
  }

  /**
   * Payable fields are read before the claim. Let an executor load, let anything
   * happen in between that is not its own, and let it claim and send while its
   * claim stands: the request carries the claimed row's fields if and only if
   * the last repair to take effect between load and claim, if there was one,
   * wrote the very fields that had been loaded.
   */
  lemma SentIsClaimedIffUnrepaired(
      actions: seq<Action>, x: ExecId, email: EmailId, mid: seq<Action>, more: seq<Action>, accepted: bool)
    requires x in Run(actions).execs && Run(actions).execs[x] == Starting(email) && email in Run(actions).table
    requires Quiet(mid, x) && CanClaim(Run(ToClaim(actions, x, mid)).table, email)
    requires LockedThroughout(ToClaim(actions, x, mid) + [ClaimRow(x)], more, email)
    requires var s := Run(ToClaim(actions, x, mid) + [ClaimRow(x)] + more);
      x in s.execs && s.execs[x].Ready? && s.execs[x].email == email
    ensures var after := Run(ToClaim(actions, x, mid) + [ClaimRow(x)] + more + [Send(x, accepted)]);
      var repair := LastRepair(actions + [Load(x)], mid, email);
      && |after.calls| > 0 && email in after.table
      && (after.calls[|after.calls| - 1].payable == after.table[email].payable
          <==> repair.None? || repair.value == Run(actions).table[email].payable)
  {
    RunSnoc(actions, Load(x));
    QuietStays(actions + [Load(x)], mid, x);
    LastRepairStands(actions + [Load(x)], mid, email);
    SentIsClaimedIffLoadedStood(ToClaim(actions, x, mid), more, x, accepted);
  }

  // ------------------------------------------------------------- how old a claim is

  // Step k of the run claimed the row, and it has been claimed ever since.
  ghost predicate ClaimedSince(actions: seq<Action>, k: nat, email: EmailId) {
    && k < |actions| && Enters(Run(actions[..k]), Run(actions[..k + 1]), email, Claimed)
    && forall m :: k < m <= |actions| ==> HasStatus(Run(actions[..m]), email, Claimed)
  }

  lemma ClaimStep(s: State, a: Action, email: EmailId)
    requires Inv(s) && HasStatus(Step(s, a), email, Claimed)
    ensures Step(s, a).table[email].claimedAt ==
            if HasStatus(s, email, Claimed) then s.table[email].claimedAt else Some(s.now)
  {
    if IsExecutorAction(a) && a.x in s.execs {
      assert ExecOk(s.table, s.execs[a.x]);
      ClaimAct(s.table, s.execs[a.x], a, s.now, email);
    }
  }

  lemma ClaimAct(table: Table, exec: Executor, a: Action, now: Time, email: EmailId)
    requires ExecOk(table, exec) && RowHasStatus(Act(table, exec, a, now).table, email, Claimed)
    ensures Act(table, exec, a, now).table[email].claimedAt ==
            if RowHasStatus(table, email, Claimed) then table[email].claimedAt else Some(now)
  {}

  /** A claimed row carries the moment it was claimed. */
  lemma {:induction false} ClaimCarriesItsTime(actions: seq<Action>, k: nat, email: EmailId)
    requires ClaimedSince(actions, k, email)
    ensures HasStatus(Run(actions), email, Claimed)
    ensures Run(actions).table[email].claimedAt == Some(Run(actions[..k]).now)
  {
    assert actions[..|actions|] == actions;
    LastClaimStep(actions, email);
    if k < |actions| - 1 {
      ClaimedSincePrefix(actions, k, email);
      ClaimCarriesItsTime(actions[..|actions| - 1], k, email);
    }
  }

  lemma LastClaimStep(actions: seq<Action>, email: EmailId)
    requires actions != [] && HasStatus(Run(actions), email, Claimed)
    ensures var before := Run(actions[..|actions| - 1]);
      Run(actions).table[email].claimedAt ==
      if HasStatus(before, email, Claimed) then before.table[email].claimedAt else Some(before.now)
  {
    RunInv(actions[..|actions| - 1]);
    ClaimStep(Run(actions[..|actions| - 1]), actions[|actions| - 1], email);
  }

  lemma ClaimedSincePrefix(actions: seq<Action>, k: nat, email: EmailId)
    requires ClaimedSince(actions, k, email) && k < |actions| - 1
    ensures var before := actions[..|actions| - 1];
      ClaimedSince(before, k, email) && before[..k] == actions[..k] && HasStatus(Run(before), email, Claimed)
  {
    var before := actions[..|actions| - 1];
    forall m | 0 <= m < |actions|
      ensures before[..m] == actions[..m]
    {}
    assert before[..|before|] == before;
  }

  /**
   * In any run, promoting takes a row out of claimed if and only if more than
   * 900000 ms have passed since its claim.
   */
  lemma PromotedIffOld(actions: seq<Action>, k: nat, email: EmailId)
    requires ClaimedSince(actions, k, email)
    ensures HasStatus(Run(actions + [Promote]), email, Claimed) <==>
            Run(actions).now <= Run(actions[..k]).now + 900_000
  {
    ClaimCarriesItsTime(actions, k, email);
    RunSnoc(actions, Promote);
  }
}

/**
 * The per-payee lock: a mutex made of a chain of promises and a Map that
 * cleans up after itself. One call is its synchronous prologue (Enter), the
 * resumption after `await previous` (Start), and the finally block (Finish).
 *
 * Call n owns the promise `mine` numbered n; its tail resolves once the tail
 * it was chained to has resolved and `mine` has been released.
 */
module PayeeLock {
  import opened Common

  type Key = string
  type CallId = nat

  datatype Phase = Waiting | Working | Done

  datatype Call = Call(key: Key, previous: Option<CallId>, phase: Phase)

  datatype State = State(calls: seq<Call>, tails: map<Key, CallId>)

  datatype Action =
    | Enter(key: Key)
    | Start(call: CallId)
    // `work` returned or threw: the finally block is the same.
    | Finish(call: CallId, threw: bool)

  const INIT := State([], map[])

  ghost predicate Chained(calls: seq<Call>) {
    forall n :: 0 <= n < |calls| && calls[n].previous.Some? ==> calls[n].previous.value < n
  }

  // Has the tail promise of a call resolved, by following the chain back?
  ghost predicate Resolved(calls: seq<Call>, tail: Option<CallId>)
    requires Chained(calls)
    requires tail.Some? ==> tail.value < |calls|
    decreases if tail.Some? then tail.value + 1 else 0
  {
    tail.None? || (calls[tail.value].phase.Done? && Resolved(calls, calls[tail.value].previous))
  }

  function AfterEnter(s: State, key: Key): State {
    var previous := if key in s.tails then Some(s.tails[key]) else None;
    State(s.calls + [Call(key, previous, Waiting)], s.tails[key := |s.calls|])
  }

  function WithPhase(s: State, n: CallId, phase: Phase): State
    requires n < |s.calls|
  {
    s.(calls := s.calls[n := s.calls[n].(phase := phase)])
  }

  function AfterFinish(s: State, n: CallId): State
    requires n < |s.calls|
  {
    var released := WithPhase(s, n, Done);
    var key := s.calls[n].key;
    if key in s.tails && s.tails[key] == n then released.(tails := s.tails - {key}) else released
  }

  ghost predicate CanStart(s: State, n: CallId) {
    && n < |s.calls| && s.calls[n].phase.Waiting?
    && Chained(s.calls) && Resolved(s.calls, s.calls[n].previous)
  }

  ghost function Step(s: State, a: Action): State {
    match a
    case Enter(key) => AfterEnter(s, key)
    case Start(n) => if CanStart(s, n) then WithPhase(s, n, Working) else s
    case Finish(n, _) => if n < |s.calls| && s.calls[n].phase.Working? then AfterFinish(s, n) else s
  }

  ghost function Run(actions: seq<Action>): State {
    if actions == [] then INIT
    else Step(Run(actions[..|actions| - 1]), actions[|actions| - 1])
  }

  /** The Map and the promises, as the process holds them. */
  class PayeeTails {
    var calls: seq<Call>
    var tails: map<Key, CallId>

    ghost function Contents(): State
      reads this
    {
      State(calls, tails)
    }

    constructor ()
      ensures Contents() == INIT
    {
      calls, tails := [], map[];
    }

    method EnterLock(key: Key) returns (mine: CallId)
      modifies this
      ensures Contents() == AfterEnter(old(Contents()), key)
      ensures mine == old(|calls|)
    {
      var previous := if key in tails then Some(tails[key]) else None;
      mine := |calls|;
      calls := calls + [Call(key, previous, Waiting)];
      tails := tails[key := mine];
    }

    method BeginWork(mine: CallId)
      requires CanStart(Contents(), mine)
      modifies this
      ensures Contents() == Step(old(Contents()), Start(mine))
    {
      calls := calls[mine := calls[mine].(phase := Working)];
    }

    method Release(mine: CallId, threw: bool)
      requires mine < |calls| && calls[mine].phase.Working?
      modifies this
      ensures Contents() == Step(old(Contents()), Finish(mine, threw))
    {
      var key := calls[mine].key;
      calls := calls[mine := calls[mine].(phase := Done)];
      if key in tails && tails[key] == mine {
        tails := tails - {key};
      }
    }
  }

  // ---------------------------------------------------------------- invariant

  // Every earlier call for the key has finished.
  ghost predicate ClearBefore(calls: seq<Call>, n: nat, key: Key) {
    forall m :: 0 <= m < n && m < |calls| && calls[m].key == key ==> calls[m].phase.Done?
  }

  // Call n is chained to the latest call for its key before it, or was made
  // when none of them was unfinished.
  ghost predicate LinkOk(calls: seq<Call>, n: nat)
    requires n < |calls|
  {
    match calls[n].previous
    case None => ClearBefore(calls, n, calls[n].key)
    case Some(p) =>
      p < n && calls[p].key == calls[n].key && forall m :: p < m < n ==> calls[m].key != calls[n].key
  }

  ghost predicate MapOk(s: State) {
    && (forall key :: key in s.tails ==>
          && s.tails[key] < |s.calls| && s.calls[s.tails[key]].key == key && !s.calls[s.tails[key]].phase.Done?
          && forall m :: s.tails[key] < m < |s.calls| ==> s.calls[m].key != key)
    && (forall n :: 0 <= n < |s.calls| && s.calls[n].key !in s.tails ==> s.calls[n].phase.Done?)
  }

  ghost predicate Inv(s: State) {
    && (forall n :: 0 <= n < |s.calls| ==> LinkOk(s.calls, n))
    && MapOk(s)
    && (forall n :: 0 <= n < |s.calls| && !s.calls[n].phase.Waiting? ==> ClearBefore(s.calls, n, s.calls[n].key))
  }

  // A tail has resolved exactly when every call up to it, for its key, is over.
  lemma {:induction false} ResolvedIffClear(calls: seq<Call>, n: nat)
    requires Chained(calls) && (forall k :: 0 <= k < |calls| ==> LinkOk(calls, k))
    requires n < |calls|
    ensures Resolved(calls, calls[n].previous) <==> ClearBefore(calls, n, calls[n].key)
  {
    if calls[n].previous.Some? {
      var p := calls[n].previous.value;
      assert LinkOk(calls, n);
      ResolvedIffClear(calls, p);
      if Resolved(calls, Some(p)) {
        forall m | 0 <= m < n && calls[m].key == calls[n].key
          ensures calls[m].phase.Done?
        {
          assert m <= p;
        }
      }
    } else {
      assert LinkOk(calls, n);
    }
  }

  lemma LinkKept(calls: seq<Call>, after: seq<Call>, n: nat)
    requires n < |calls| <= |after| && LinkOk(calls, n)
    requires forall m :: 0 <= m < |calls| ==>
      after[m].key == calls[m].key && after[m].previous == calls[m].previous
          && (calls[m].phase.Done? ==> after[m].phase.Done?)
    ensures LinkOk(after, n)
  {}

  lemma EnterLinks(s: State, key: Key, n: nat)
    requires Inv(s) && n <= |s.calls|
    ensures LinkOk(AfterEnter(s, key).calls, n)
  {
    if n < |s.calls| {
      LinkKept(s.calls, AfterEnter(s, key).calls, n);
    }
  }

  lemma EnterMap(s: State, key: Key)
    requires Inv(s)
    ensures MapOk(AfterEnter(s, key))
  {}

  lemma EnterInv(s: State, key: Key)
    requires Inv(s)
    ensures Inv(AfterEnter(s, key))
  {
    var t := AfterEnter(s, key);
    forall n | 0 <= n < |t.calls|
      ensures LinkOk(t.calls, n)
    {
      EnterLinks(s, key, n);
    }
    EnterMap(s, key);
    forall n | 0 <= n < |t.calls| && !t.calls[n].phase.Waiting?
      ensures ClearBefore(t.calls, n, t.calls[n].key)
    {
      assert ClearBefore(s.calls, n, s.calls[n].key);
    }
  }

  lemma PhaseInv(s: State, n: CallId, phase: Phase)
    requires Inv(s) && n < |s.calls| && !s.calls[n].phase.Done? && phase.Working?
    requires ClearBefore(s.calls, n, s.calls[n].key)
    ensures Inv(WithPhase(s, n, phase))
  {
    var t := WithPhase(s, n, phase);
    forall m | 0 <= m < |t.calls|
      ensures LinkOk(t.calls, m)
    {
      LinkKept(s.calls, t.calls, m);
    }
    assert MapOk(t);
  }

  lemma FinishMap(s: State, n: CallId)
    requires Inv(s) && n < |s.calls| && s.calls[n].phase.Working?
    ensures MapOk(AfterFinish(s, n))
  {
    assert s.calls[n].key in s.tails;
    assert ClearBefore(s.calls, n, s.calls[n].key);
  }

  lemma FinishInv(s: State, n: CallId)
    requires Inv(s) && n < |s.calls| && s.calls[n].phase.Working?
    ensures Inv(AfterFinish(s, n))
  {
    var t := AfterFinish(s, n);
    forall m | 0 <= m < |t.calls|
      ensures LinkOk(t.calls, m)
    {
      LinkKept(s.calls, t.calls, m);
    }
    FinishMap(s, n);
    forall m | 0 <= m < |t.calls| && !t.calls[m].phase.Waiting?
      ensures ClearBefore(t.calls, m, t.calls[m].key)
    {
      assert ClearBefore(s.calls, m, s.calls[m].key);
    }
  }

  lemma StepInv(s: State, a: Action)
    requires Inv(s)
    ensures Inv(Step(s, a))
  {
    match a
    case Enter(key) => EnterInv(s, key);
    case Start(n) =>
      if CanStart(s, n) {
        ResolvedIffClear(s.calls, n);
        PhaseInv(s, n, Working);
      }
    case Finish(n, _) =>
      if n < |s.calls| && s.calls[n].phase.Working? { FinishInv(s, n); }
  }

  lemma {:induction false} RunInv(actions: seq<Action>)
    ensures Inv(Run(actions))
  {
    if actions != [] {
      RunInv(actions[..|actions| - 1]);
      StepInv(Run(actions[..|actions| - 1]), actions[|actions| - 1]);
    }
  }

  // ----------------------------------------------------------------- theorems

  /**
   * In every interleaving, a call only starts once every earlier call for the
   * same payee has finished: at most one `work` is active per payee, and works
   * start in call order.
   */
  lemma OneAtATimeInOrder(actions: seq<Action>, first: CallId, second: CallId)
    requires first < second < |Run(actions).calls|
    requires Run(actions).calls[first].key == Run(actions).calls[second].key
    requires !Run(actions).calls[second].phase.Waiting?
    ensures Run(actions).calls[first].phase.Done?
  {
    RunInv(actions);
  }

  ghost predicate Unfinished(s: State, key: Key) {
    exists n :: 0 <= n < |s.calls| && s.calls[n].key == key && !s.calls[n].phase.Done?
  }

  /** The Map holds a payee exactly while some call for it is unfinished: it never leaks and never forgets. */
  lemma MapHoldsUnfinished(actions: seq<Action>, key: Key)
    ensures key in Run(actions).tails <==> Unfinished(Run(actions), key)
  {
    RunInv(actions);
  }

  /**
   * No call can be stuck: while any call for a payee is unfinished, the oldest
   * such call is either working or able to start right now. In particular a
   * `work` that threw still let its successor through.
   */
  lemma OldestCanProceed(actions: seq<Action>, n: CallId)
    requires n < |Run(actions).calls| && !Run(actions).calls[n].phase.Done?
    requires ClearBefore(Run(actions).calls, n, Run(actions).calls[n].key)
    ensures Run(actions).calls[n].phase.Working? || CanStart(Run(actions), n)
  {
    RunInv(actions);
    var s := Run(actions);
    assert Chained(s.calls) by {
      forall k | 0 <= k < |s.calls| && s.calls[k].previous.Some?
        ensures s.calls[k].previous.value < k
      {
        assert LinkOk(s.calls, k);
      }
    }
    ResolvedIffClear(s.calls, n);
  }

  /** Calls for different payees never wait for each other: a first call for an idle payee can start at once. */
  lemma IdlePayeeStartsAtOnce(actions: seq<Action>, key: Key)
    requires !Unfinished(Run(actions), key)
    ensures CanStart(Run(actions + [Enter(key)]), |Run(actions).calls|)
  {
    var s := Run(actions);
    assert (actions + [Enter(key)])[..|actions|] == actions;
    RunInv(actions + [Enter(key)]);
    OldestCanProceed(actions + [Enter(key)], |s.calls|);
  }

  ghost function Backlog(s: State, key: Key): set<CallId> {
    set n | 0 <= n < |s.calls| && s.calls[n].key == key && !s.calls[n].phase.Done?
  }

  lemma FindOldest(calls: seq<Call>, key: Key, n: CallId) returns (oldest: CallId)
    requires n < |calls| && calls[n].key == key && !calls[n].phase.Done?
    ensures oldest < |calls| && calls[oldest].key == key && !calls[oldest].phase.Done?
    ensures ClearBefore(calls, oldest, key)
  {
    if ClearBefore(calls, n, key) {
      oldest := n;
    } else {
      var m: nat :| m < n && m < |calls| && calls[m].key == key && !calls[m].phase.Done?;
      oldest := FindOldest(calls, key, m);
    }
  }

  predicate OnlyProceeds(more: seq<Action>) {
    forall a :: a in more ==> !a.Enter?
  }

  lemma ServeOldest(actions: seq<Action>, n: CallId)
    requires n < |Run(actions).calls| && !Run(actions).calls[n].phase.Done?
    requires ClearBefore(Run(actions).calls, n, Run(actions).calls[n].key)
    ensures Backlog(Run(actions + [Start(n), Finish(n, false)]), Run(actions).calls[n].key)
            == Backlog(Run(actions), Run(actions).calls[n].key) - {n}
  {
    OldestCanProceed(actions, n);
    assert (actions + [Start(n)])[..|actions|] == actions;
    assert (actions + [Start(n), Finish(n, false)])[..|actions| + 1] == actions + [Start(n)];
  }

  lemma ServeOne(actions: seq<Action>, key: Key) returns (serve: seq<Action>)
    requires Unfinished(Run(actions), key)
    ensures OnlyProceeds(serve) && |serve| == 2
    ensures |Backlog(Run(actions + serve), key)| == |Backlog(Run(actions), key)| - 1
  {
    var n: CallId :| n < |Run(actions).calls| && Run(actions).calls[n].key == key && !Run(actions).calls[n].phase.Done?;
    var oldest := FindOldest(Run(actions).calls, key, n);
    serve := [Start(oldest), Finish(oldest, false)];
    ServeOldest(actions, oldest);
    assert oldest in Backlog(Run(actions), key);
  }

  lemma NoBacklog(s: State, key: Key)
    ensures |Backlog(s, key)| == 0 <==> !Unfinished(s, key)
  {
    if Unfinished(s, key) {
      var n :| 0 <= n < |s.calls| && s.calls[n].key == key && !s.calls[n].phase.Done?;
      assert n in Backlog(s, key);
    } else {
      assert Backlog(s, key) == {};
    }
  }

  /** From every reachable state, letting calls proceed empties any payee's queue: nothing ever deadlocks. */
  lemma {:induction false} EveryQueueDrains(actions: seq<Action>, key: Key) returns (more: seq<Action>)
    ensures OnlyProceeds(more) && |more| == 2 * |Backlog(Run(actions), key)|
    ensures !Unfinished(Run(actions + more), key)
    decreases |Backlog(Run(actions), key)|
  {
    NoBacklog(Run(actions), key);
    if !Unfinished(Run(actions), key) {
      more := [];
      assert actions + more == actions;
    } else {
      var serve := ServeOne(actions, key);
      var rest := EveryQueueDrains(actions + serve, key);
      more := serve + rest;
      assert actions + more == actions + serve + rest;
    }
  }
}

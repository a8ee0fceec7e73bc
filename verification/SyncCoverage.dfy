/**
 * The mail checkpoint: syncs that overlap, fail at any point, and re-scan ten
 * minutes before the last successful one. Times are seconds.
 */
module SyncCoverage {
  import opened Common

  type SyncId = nat

  const CHECKPOINT_OVERLAP_SECONDS: nat := 10 * 60
  const FETCH_LIMIT: nat := 20

  datatype Message = Message(id: nat, timestamp: Time, visibleAt: Time)

  // One syncOnce between its outside calls.
  datatype Sync =
    | Started(startedAt: Time)
    | Windowed(startedAt: Time, since: Time)
    | Fetched(startedAt: Time, fetchedAt: Time, batch: set<Message>)
    | Ingested(startedAt: Time, fetchedAt: Time)
    | Succeeded(fetchedAt: Time)
    | Failed

  // `truncated` records whether any fetch so far had more mail than it may return.
  datatype State = State(
    checkpoint: Option<Time>,
    rows: multiset<Message>,
    syncs: map<SyncId, Sync>,
    now: Time,
    truncated: bool)

  datatype Action =
    | Begin(x: SyncId)
    | ReadCheckpoint(x: SyncId)
    | Fetch(x: SyncId, batch: set<Message>)
    | Ingest(x: SyncId)
    | Save(x: SyncId)
    | Fail(x: SyncId)
    // Pausing, or claiming the daily digest, creates a missing checkpoint row, at the present.
    | EnsureCheckpoint
    | Tick(elapsed: nat)

  function WindowStart(checkpoint: Option<Time>, now: Time): Time {
    var from := if checkpoint.Some? then checkpoint.value else now;
    if from >= CHECKPOINT_OVERLAP_SECONDS then from - CHECKPOINT_OVERLAP_SECONDS else 0
  }

  // The mail a query from `since` can see at a given moment.
  function Window(mailbox: set<Message>, since: Time, now: Time): set<Message> {
    set m | m in mailbox && since <= m.timestamp && m.visibleAt <= now
  }

  // The provider returns everything in the window, or as much of it as its limit allows.
  predicate MayReturn(window: set<Message>, batch: set<Message>) {
    batch <= window && if |window| <= FETCH_LIMIT then batch == window else |batch| == FETCH_LIMIT
  }

  // createMany with skipDuplicates: one new row for each message without one.
  function Inserted(rows: multiset<Message>, batch: set<Message>): multiset<Message> {
    rows + multiset(set m | m in batch && m !in rows)
  }

  function Step(mailbox: set<Message>, s: State, a: Action): State {
    match a
    case Begin(x) => if x in s.syncs then s else s.(syncs := s.syncs[x := Started(s.now)])
    case Tick(elapsed) => s.(now := s.now + elapsed)
    case EnsureCheckpoint => if s.checkpoint.None? then s.(checkpoint := Some(s.now)) else s
    case _ =>
      if a.x !in s.syncs then s
      else match (a, s.syncs[a.x])
        case (ReadCheckpoint(x), Started(startedAt)) =>
          s.(syncs := s.syncs[x := Windowed(startedAt, WindowStart(s.checkpoint, s.now))])
        case (Fetch(x, batch), Windowed(startedAt, since)) =>
          var window := Window(mailbox, since, s.now);
          if MayReturn(window, batch)
          then s.(syncs := s.syncs[x := Fetched(startedAt, s.now, batch)],
                  truncated := s.truncated || |window| > FETCH_LIMIT)
          else s
        case (Ingest(x), Fetched(startedAt, fetchedAt, batch)) =>
          s.(rows := Inserted(s.rows, batch), syncs := s.syncs[x := Ingested(startedAt, fetchedAt)])
        case (Save(x), Ingested(startedAt, fetchedAt)) =>
          s.(checkpoint := Some(startedAt), syncs := s.syncs[x := Succeeded(fetchedAt)])
        case (Fail(x), sync) => s.(syncs := s.syncs[x := if sync.Succeeded? then sync else Failed])
        case _ => s
  }

  function Init(checkpoint: Option<Time>, now: Time): State {
    State(checkpoint, multiset{}, map[], now, false)
  }

  function Run(mailbox: set<Message>, start: State, actions: seq<Action>): State {
    if actions == [] then start
    else Step(mailbox, Run(mailbox, start, actions[..|actions| - 1]), actions[|actions| - 1])
  }

  // ------------------------------------------------------------------- coverage

  // Indexed within the overlap of being sent, to the second.
  predicate Prompt(m: Message) {
    m.visibleAt <= m.timestamp + CHECKPOINT_OVERLAP_SECONDS + 1
  }

  // No fetch from `start` on can come too early for it.
  predicate Timely(m: Message, start: Time) {
    Prompt(m) || m.visibleAt <= start
  }

  predicate Reaches(m: Message, checkpoint: Time) {
    checkpoint <= m.timestamp + CHECKPOINT_OVERLAP_SECONDS
  }

  // What each point of a sync guarantees about one message; syncs begin at `start` or later.
  ghost predicate SyncOk(rows: multiset<Message>, sync: Sync, m: Message, start: Time, now: Time) {
    match sync
    case Started(startedAt) => start <= startedAt <= now
    case Windowed(startedAt, since) => start <= startedAt <= now && (m in rows || since <= m.timestamp)
    case Fetched(startedAt, fetchedAt, batch) =>
      start <= startedAt <= fetchedAt <= now && (fetchedAt >= m.visibleAt ==> m in rows || m in batch)
    case Ingested(startedAt, fetchedAt) =>
      start <= startedAt <= fetchedAt <= now && (fetchedAt >= m.visibleAt ==> m in rows)
    case Succeeded(fetchedAt) => fetchedAt <= now && (fetchedAt >= m.visibleAt ==> m in rows)
    case Failed => true
  }

  ghost predicate Inv(s: State, m: Message, start: Time) {
    && s.checkpoint.Some? && start <= s.now
    && (m in s.rows || Reaches(m, s.checkpoint.value))
    && (forall x :: x in s.syncs ==> SyncOk(s.rows, s.syncs[x], m, start, s.now))
  }

  lemma StepInv(mailbox: set<Message>, s: State, a: Action, m: Message, start: Time)
    requires m in mailbox && Timely(m, start)
    requires Inv(s, m, start) && !Step(mailbox, s, a).truncated
    ensures Inv(Step(mailbox, s, a), m, start)
  {
    var t := Step(mailbox, s, a);
    assert forall other :: other in s.rows ==> other in t.rows;
    forall x | x in t.syncs
      ensures SyncOk(t.rows, t.syncs[x], m, start, t.now)
    {
      if x in s.syncs {
        assert SyncOk(s.rows, s.syncs[x], m, start, s.now);
        if a.Fetch? && a.x == x && s.syncs[x].Windowed? && t.syncs[x].Fetched? {
          assert t.syncs[x].batch == Window(mailbox, s.syncs[x].since, s.now);
        }
      }
    }
    if a.Save? && a.x in s.syncs && s.syncs[a.x].Ingested? {
      assert SyncOk(s.rows, s.syncs[a.x], m, start, s.now);
    }
  }

  lemma {:induction false} RunInv(mailbox: set<Message>, s: State, actions: seq<Action>, m: Message, start: Time)
    requires m in mailbox && Timely(m, start)
    requires Inv(s, m, start) && !Run(mailbox, s, actions).truncated
    ensures Inv(Run(mailbox, s, actions), m, start)
  {
    if actions != [] {
      var before := actions[..|actions| - 1];
      RunInv(mailbox, s, before, m, start);
      StepInv(mailbox, Run(mailbox, s, before), actions[|actions| - 1], m, start);
    }
  }

  // Whatever sync fetched once the message was visible, and succeeded, has stored it.
  ghost predicate Covered(s: State, m: Message) {
    forall x :: x in s.syncs && s.syncs[x].Succeeded? && s.syncs[x].fetchedAt >= m.visibleAt ==> m in s.rows
  }

  /**
   * No promptly indexed mail is missed. Whatever fails and however syncs
   * overlap, once any sync that fetched after the message became visible has
   * succeeded, the message has its row; and the checkpoint never moves more
   * than the overlap past a message that has none.
   */
  lemma PromptMailIsCovered(mailbox: set<Message>, checkpoint: Time, now: Time, actions: seq<Action>, m: Message)
    requires m in mailbox && Timely(m, now) && Reaches(m, checkpoint)
    requires !Run(mailbox, Init(Some(checkpoint), now), actions).truncated
    ensures var s := Run(mailbox, Init(Some(checkpoint), now), actions);
      && s.checkpoint.Some?
      && (m in s.rows || Reaches(m, s.checkpoint.value))
      && Covered(s, m)
  {
    RunInv(mailbox, Init(Some(checkpoint), now), actions, m, now);
    var s := Run(mailbox, Init(Some(checkpoint), now), actions);
    forall x | x in s.syncs && s.syncs[x].Succeeded? && s.syncs[x].fetchedAt >= m.visibleAt
      ensures m in s.rows
    {
      assert SyncOk(s.rows, s.syncs[x], m, now, s.now);
    }
  }

  ghost predicate BatchesFrom(mailbox: set<Message>, s: State) {
    forall x :: x in s.syncs && s.syncs[x].Fetched? ==> s.syncs[x].batch <= mailbox
  }

  ghost predicate RowOk(mailbox: set<Message>, rows: multiset<Message>, m: Message) {
    rows[m] <= 1 && (rows[m] == 1 ==> m in mailbox)
  }

  lemma InsertOk(mailbox: set<Message>, rows: multiset<Message>, batch: set<Message>, m: Message)
    requires RowOk(mailbox, rows, m) && batch <= mailbox
    ensures RowOk(mailbox, Inserted(rows, batch), m)
  {
    var added := set other | other in batch && other !in rows;
    assert multiset(added)[m] == if m in added then 1 else 0;
  }

  lemma StepRows(mailbox: set<Message>, s: State, a: Action, m: Message)
    requires RowOk(mailbox, s.rows, m) && BatchesFrom(mailbox, s)
    ensures RowOk(mailbox, Step(mailbox, s, a).rows, m) && BatchesFrom(mailbox, Step(mailbox, s, a))
  {
    if a.Ingest? && a.x in s.syncs && s.syncs[a.x].Fetched? {
      InsertOk(mailbox, s.rows, s.syncs[a.x].batch, m);
    }
  }

  /** Overlapping windows and retried syncs never give a message a second row. */
  lemma {:induction false} OneRowPerMessage(
      mailbox: set<Message>, checkpoint: Option<Time>, now: Time, actions: seq<Action>, m: Message)
    ensures RowOk(mailbox, Run(mailbox, Init(checkpoint, now), actions).rows, m)
    ensures BatchesFrom(mailbox, Run(mailbox, Init(checkpoint, now), actions))
  {
    if actions != [] {
      var before := actions[..|actions| - 1];
      OneRowPerMessage(mailbox, checkpoint, now, before, m);
      StepRows(mailbox, Run(mailbox, Init(checkpoint, now), before), actions[|actions| - 1], m);
    }
  }

  // ----------------------------------------------------- one sync, left to itself

  // What one sync that read the checkpoint at `startedAt` leaves in the database.
  function Synced(rows: multiset<Message>, checkpoint: Option<Time>, batch: set<Message>, startedAt: Time,
                  storingThrows: bool, processingThrows: bool): (multiset<Message>, Option<Time>) {
    (if storingThrows then rows else Inserted(rows, batch),
     if storingThrows || processingThrows then checkpoint else Some(startedAt))
  }

  function UpToFetch(mailbox: set<Message>, s: State, x: SyncId, batch: set<Message>): State {
    Step(mailbox, Step(mailbox, Step(mailbox, s, Begin(x)), ReadCheckpoint(x)), Fetch(x, batch))
  }

  // What is left once the query has answered; it fails where syncOnce would throw.
  function FromFetch(mailbox: set<Message>, s: State, x: SyncId, storingThrows: bool, processingThrows: bool): State {
    if storingThrows then Step(mailbox, s, Fail(x))
    else Step(mailbox, Step(mailbox, s, Ingest(x)), if processingThrows then Fail(x) else Save(x))
  }

  lemma FetchPhase(mailbox: set<Message>, s: State, x: SyncId, batch: set<Message>)
    requires x !in s.syncs && MayReturn(Window(mailbox, WindowStart(s.checkpoint, s.now), s.now), batch)
    ensures var t := UpToFetch(mailbox, s, x, batch);
      && t.rows == s.rows && t.checkpoint == s.checkpoint && t.now == s.now
      && x in t.syncs && t.syncs[x] == Fetched(s.now, s.now, batch)
  {
    var windowed := Step(mailbox, Step(mailbox, s, Begin(x)), ReadCheckpoint(x));
    assert windowed.syncs[x] == Windowed(s.now, WindowStart(s.checkpoint, s.now));
  }

  lemma StorePhase(mailbox: set<Message>, s: State, x: SyncId, storingThrows: bool, processingThrows: bool)
    requires x in s.syncs && s.syncs[x].Fetched?
    ensures var t, f := FromFetch(mailbox, s, x, storingThrows, processingThrows), s.syncs[x];
      && (t.rows, t.checkpoint) ==
         Synced(s.rows, s.checkpoint, f.batch, f.startedAt, storingThrows, processingThrows)
      && t.now == s.now
      && x in t.syncs && t.syncs[x] == if storingThrows || processingThrows then Failed else Succeeded(f.fetchedAt)
  {}

  /** Left alone, a sync of the protocol does to rows and checkpoint what SyncOnce does. */
  lemma SyncOnceIsAProtocolRun(
      mailbox: set<Message>, s: State, x: SyncId, batch: set<Message>, storingThrows: bool, processingThrows: bool)
    requires x !in s.syncs && MayReturn(Window(mailbox, WindowStart(s.checkpoint, s.now), s.now), batch)
    ensures var t := FromFetch(mailbox, UpToFetch(mailbox, s, x, batch), x, storingThrows, processingThrows);
      && (t.rows, t.checkpoint) == Synced(s.rows, s.checkpoint, batch, s.now, storingThrows, processingThrows)
      && t.now == s.now
      && x in t.syncs && t.syncs[x] == if storingThrows || processingThrows then Failed else Succeeded(s.now)
  {
    FetchPhase(mailbox, s, x, batch);
    StorePhase(mailbox, UpToFetch(mailbox, s, x, batch), x, storingThrows, processingThrows);
  }

  // -------------------------------------------------- the conditions are necessary

  lemma RunSnoc(mailbox: set<Message>, s: State, actions: seq<Action>, a: Action)
    ensures Run(mailbox, s, actions + [a]) == Step(mailbox, Run(mailbox, s, actions), a)
  {
    assert (actions + [a])[..|actions|] == actions;
  }

  lemma {:induction false} RunJoin(mailbox: set<Message>, s: State, first: seq<Action>, second: seq<Action>)
    ensures Run(mailbox, s, first + second) == Run(mailbox, Run(mailbox, s, first), second)
  {
    if second == [] {
      assert first + second == first;
    } else {
      var most, last := second[..|second| - 1], second[|second| - 1];
      assert first + second == (first + most) + [last];
      RunSnoc(mailbox, s, first + most, last);
      RunJoin(mailbox, s, first, most);
    }
  }

  lemma WindowFits(mailbox: set<Message>, since: Time, now: Time)
    requires |mailbox| <= FETCH_LIMIT
    ensures |Window(mailbox, since, now)| <= FETCH_LIMIT
  {
    var window := Window(mailbox, since, now);
    assert mailbox == window + (mailbox - window);
  }

  function Syncing(x: SyncId, batch: set<Message>): seq<Action> {
    [] + [Begin(x)] + [ReadCheckpoint(x)] + [Fetch(x, batch)] + [Ingest(x)] + [Save(x)]
  }

  lemma SyncSteps(mailbox: set<Message>, s: State, x: SyncId, batch: set<Message>)
    ensures Run(mailbox, s, Syncing(x, batch)) == FromFetch(mailbox, UpToFetch(mailbox, s, x, batch), x, false, false)
  {
    var a1 := [] + [Begin(x)];
    RunSnoc(mailbox, s, [], Begin(x));
    RunSnoc(mailbox, s, a1, ReadCheckpoint(x));
    RunSnoc(mailbox, s, a1 + [ReadCheckpoint(x)], Fetch(x, batch));
    RunSnoc(mailbox, s, a1 + [ReadCheckpoint(x)] + [Fetch(x, batch)], Ingest(x));
    RunSnoc(mailbox, s, a1 + [ReadCheckpoint(x)] + [Fetch(x, batch)] + [Ingest(x)], Save(x));
  }

  // A state that a complete sync, begun and finished at s.now, leads to.
  ghost predicate SyncedAt(mailbox: set<Message>, s: State, x: SyncId, t: State) {
    && t.rows == Inserted(s.rows, Window(mailbox, WindowStart(s.checkpoint, s.now), s.now))
    && t.checkpoint == Some(s.now) && t.now == s.now && x in t.syncs && t.syncs[x] == Succeeded(s.now)
  }

  // One complete sync of a mailbox that one fetch can return.
  lemma WholeSync(mailbox: set<Message>, s: State, x: SyncId) returns (actions: seq<Action>)
    requires |mailbox| <= FETCH_LIMIT && x !in s.syncs
    ensures SyncedAt(mailbox, s, x, Run(mailbox, s, actions))
  {
    var batch := Window(mailbox, WindowStart(s.checkpoint, s.now), s.now);
    WindowFits(mailbox, WindowStart(s.checkpoint, s.now), s.now);
    SyncOnceIsAProtocolRun(mailbox, s, x, batch, false, false);
    actions := Syncing(x, batch);
    SyncSteps(mailbox, s, x, batch);
  }

  lemma WholeSyncLater(mailbox: set<Message>, s: State, x: SyncId, elapsed: nat) returns (actions: seq<Action>)
    requires |mailbox| <= FETCH_LIMIT && x !in s.syncs
    ensures SyncedAt(mailbox, s.(now := s.now + elapsed), x, Run(mailbox, s, actions))
  {
    var later := s.(now := s.now + elapsed);
    var sync := WholeSync(mailbox, later, x);
    assert Run(mailbox, s, [Tick(elapsed)]) == later by {
      assert [Tick(elapsed)][..0] == [];
    }
    RunJoin(mailbox, s, [Tick(elapsed)], sync);
    actions := [Tick(elapsed)] + sync;
  }

  lemma InsertedHas(rows: multiset<Message>, batch: set<Message>, m: Message)
    ensures m in Inserted(rows, batch) <==> m in rows || m in batch
  {
    var added := set other | other in batch && other !in rows;
    assert m in multiset(added) <==> m in added;
  }

  // A checkpoint out of reach: the first sync misses the message.
  lemma UnreachedMailIsMissed(mailbox: set<Message>, checkpoint: Time, now: Time, m: Message)
    returns (actions: seq<Action>)
    requires |mailbox| <= FETCH_LIMIT && !Reaches(m, checkpoint)
    ensures !Covered(Run(mailbox, Init(Some(checkpoint), now), actions), m)
  {
    var s := Init(Some(checkpoint), now);
    var at := if now < m.visibleAt then m.visibleAt else now;
    actions := WholeSyncLater(mailbox, s, 0, at - now);
    InsertedHas(s.rows, Window(mailbox, WindowStart(s.checkpoint, at), at), m);
  }

  // Indexed too late: a sync just before misses it, and the one after starts past it.
  lemma LateMailIsMissed(mailbox: set<Message>, checkpoint: Time, now: Time, m: Message)
    returns (actions: seq<Action>)
    requires |mailbox| <= FETCH_LIMIT && !Timely(m, now)
    ensures !Covered(Run(mailbox, Init(Some(checkpoint), now), actions), m)
  {
    var s, early := Init(Some(checkpoint), now), m.visibleAt - 1;
    var first := WholeSyncLater(mailbox, s, 0, early - now);
    var t := Run(mailbox, s, first);
    InsertedHas(s.rows, Window(mailbox, WindowStart(s.checkpoint, early), early), m);
    var x := Above(t.syncs.Keys);
    var second := WholeSyncLater(mailbox, t, x, 1);
    InsertedHas(t.rows, Window(mailbox, WindowStart(t.checkpoint, m.visibleAt), m.visibleAt), m);
    RunJoin(mailbox, s, first, second);
    actions := first + second;
  }

  /**
   * Exactly which mail the overlap protects: with a checkpoint, every run stores
   * a message by the first success that could see it if and only if the message
   * is indexed within 601 seconds of its timestamp (or was there from the
   * start) and the checkpoint is not more than 600 seconds past it.
   */
  lemma CoveredIff(mailbox: set<Message>, checkpoint: Time, now: Time, m: Message)
    requires |mailbox| <= FETCH_LIMIT && m in mailbox
    ensures (forall actions :: Covered(Run(mailbox, Init(Some(checkpoint), now), actions), m))
       <==> Timely(m, now) && Reaches(m, checkpoint)
  {
    if !Reaches(m, checkpoint) {
      var actions := UnreachedMailIsMissed(mailbox, checkpoint, now, m);
      assert !Covered(Run(mailbox, Init(Some(checkpoint), now), actions), m);
    } else if !Timely(m, now) {
      var actions := LateMailIsMissed(mailbox, checkpoint, now, m);
      assert !Covered(Run(mailbox, Init(Some(checkpoint), now), actions), m);
    } else {
      forall actions
        ensures Covered(Run(mailbox, Init(Some(checkpoint), now), actions), m)
      {
        NeverTruncated(mailbox, Init(Some(checkpoint), now), actions);
        PromptMailIsCovered(mailbox, checkpoint, now, actions, m);
      }
    }
  }

  lemma {:induction false} NeverTruncated(mailbox: set<Message>, s: State, actions: seq<Action>)
    requires |mailbox| <= FETCH_LIMIT && !s.truncated
    ensures !Run(mailbox, s, actions).truncated
  {
    if actions != [] {
      var before, a := Run(mailbox, s, actions[..|actions| - 1]), actions[|actions| - 1];
      NeverTruncated(mailbox, s, actions[..|actions| - 1]);
      if a.Fetch? && a.x in before.syncs && before.syncs[a.x].Windowed? {
        WindowFits(mailbox, before.syncs[a.x].since, before.now);
      }
    }
  }

  // --------------------------------------------------------- what is really lost

  // No sync under way can still bring the message in, nor leave a checkpoint that reaches it.
  ghost predicate OutOfReach(sync: Sync, m: Message) {
    match sync
    case Started(startedAt) => !Reaches(m, startedAt)
    case Windowed(startedAt, since) => !Reaches(m, startedAt) && m.timestamp < since
    case Fetched(startedAt, _, batch) => !Reaches(m, startedAt) && m !in batch
    case Ingested(startedAt, _) => !Reaches(m, startedAt)
    case _ => true
  }

  ghost predicate Lost(s: State, m: Message) {
    && m !in s.rows && !Reaches(m, s.now)
    && (s.checkpoint.Some? ==> !Reaches(m, s.checkpoint.value))
    && (forall x :: x in s.syncs ==> OutOfReach(s.syncs[x], m))
  }

  /** A lost message stays lost in every continuation. */
  lemma {:induction false} LostIsForever(mailbox: set<Message>, start: State, actions: seq<Action>, m: Message)
    requires Lost(start, m)
    ensures Lost(Run(mailbox, start, actions), m)
  {
    if actions != [] {
      var s := Run(mailbox, start, actions[..|actions| - 1]);
      LostIsForever(mailbox, start, actions[..|actions| - 1], m);
      var a := actions[|actions| - 1];
      if !a.Begin? && !a.Tick? && !a.EnsureCheckpoint? && a.x in s.syncs {
        assert OutOfReach(s.syncs[a.x], m);
      }
    }
  }

  ghost predicate Recoverable(mailbox: set<Message>, s: State, m: Message) {
    exists actions :: m in Run(mailbox, s, actions).rows
  }

  lemma StoredIsRecoverable(mailbox: set<Message>, s: State, m: Message)
    requires m in s.rows
    ensures Recoverable(mailbox, s, m)
  {
    assert Run(mailbox, s, []) == s;
  }

  lemma RecoverableBefore(mailbox: set<Message>, s: State, a: Action, m: Message)
    requires Recoverable(mailbox, Step(mailbox, s, a), m)
    ensures Recoverable(mailbox, s, m)
  {
    var more :| m in Run(mailbox, Step(mailbox, s, a), more).rows;
    assert Run(mailbox, s, [a]) == Step(mailbox, s, a) by {
      assert [a][..0] == [];
    }
    RunJoin(mailbox, s, [a], more);
  }

  lemma {:induction false} SubsetOfSize(window: set<Message>, size: nat) returns (batch: set<Message>)
    requires size <= |window|
    ensures batch <= window && |batch| == size
  {
    if size == 0 {
      batch := {};
    } else {
      var m :| m in window;
      var rest := SubsetOfSize(window - {m}, size - 1);
      batch := rest + {m};
    }
  }

  // An answer the provider may give that has the message, if the window has it.
  lemma AnswerWith(window: set<Message>, m: Message) returns (batch: set<Message>)
    ensures MayReturn(window, batch) && (m in window ==> m in batch)
  {
    if |window| <= FETCH_LIMIT {
      batch := window;
    } else if m in window {
      var rest := SubsetOfSize(window - {m}, FETCH_LIMIT - 1);
      batch := rest + {m};
    } else {
      batch := SubsetOfSize(window, FETCH_LIMIT);
    }
  }

  // A window that has not passed the message: wait for it to be indexed, fetch and store it.
  lemma OpenWindowRecovers(mailbox: set<Message>, s: State, x: SyncId, m: Message)
    requires m in mailbox && x in s.syncs && s.syncs[x].Windowed? && s.syncs[x].since <= m.timestamp
    ensures Recoverable(mailbox, s, m)
  {
    var wait := Tick(if s.now < m.visibleAt then m.visibleAt - s.now else 0);
    var later := Step(mailbox, s, wait);
    var window := Window(mailbox, s.syncs[x].since, later.now);
    var batch := AnswerWith(window, m);
    var fetched := Step(mailbox, later, Fetch(x, batch));
    assert m in window && fetched.syncs[x] == Fetched(s.syncs[x].startedAt, later.now, batch);
    InsertedHas(fetched.rows, batch, m);
    StoredIsRecoverable(mailbox, Step(mailbox, fetched, Ingest(x)), m);
    RecoverableBefore(mailbox, fetched, Ingest(x), m);
    RecoverableBefore(mailbox, later, Fetch(x, batch), m);
    RecoverableBefore(mailbox, s, wait, m);
  }

  lemma CheckpointRecovers(mailbox: set<Message>, s: State, m: Message)
    requires m in mailbox && s.checkpoint.Some? && Reaches(m, s.checkpoint.value)
    ensures Recoverable(mailbox, s, m)
  {
    var x := Above(s.syncs.Keys);
    var begun := Step(mailbox, s, Begin(x));
    var windowed := Step(mailbox, begun, ReadCheckpoint(x));
    assert windowed.syncs[x] == Windowed(s.now, WindowStart(s.checkpoint, s.now));
    OpenWindowRecovers(mailbox, windowed, x, m);
    RecoverableBefore(mailbox, begun, ReadCheckpoint(x), m);
    RecoverableBefore(mailbox, s, Begin(x), m);
  }

  // A sync that began early enough will, by succeeding, put the checkpoint back within reach.
  lemma EarlySyncRecovers(mailbox: set<Message>, s: State, x: SyncId, m: Message)
    requires m in mailbox && x in s.syncs
    requires s.syncs[x].Started? || s.syncs[x].Windowed? || s.syncs[x].Fetched? || s.syncs[x].Ingested?
    requires Reaches(m, s.syncs[x].startedAt)
    ensures Recoverable(mailbox, s, m)
    decreases match s.syncs[x] case Started(_) => 3 case Windowed(_, _) => 2 case Fetched(_, _, _) => 1 case _ => 0
  {
    match s.syncs[x]
    case Started(_) =>
      EarlySyncRecovers(mailbox, Step(mailbox, s, ReadCheckpoint(x)), x, m);
      RecoverableBefore(mailbox, s, ReadCheckpoint(x), m);
    case Windowed(_, since) =>
      var batch := AnswerWith(Window(mailbox, since, s.now), m);
      EarlySyncRecovers(mailbox, Step(mailbox, s, Fetch(x, batch)), x, m);
      RecoverableBefore(mailbox, s, Fetch(x, batch), m);
    case Fetched(_, _, _) =>
      EarlySyncRecovers(mailbox, Step(mailbox, s, Ingest(x)), x, m);
      RecoverableBefore(mailbox, s, Ingest(x), m);
    case Ingested(_, _) =>
      CheckpointRecovers(mailbox, Step(mailbox, s, Save(x)), m);
      RecoverableBefore(mailbox, s, Save(x), m);
  }

  lemma NotLostRecovers(mailbox: set<Message>, s: State, m: Message)
    requires m in mailbox && !Lost(s, m)
    ensures Recoverable(mailbox, s, m)
  {
    if m in s.rows {
      StoredIsRecoverable(mailbox, s, m);
    } else if s.checkpoint.Some? && Reaches(m, s.checkpoint.value) {
      CheckpointRecovers(mailbox, s, m);
    } else if Reaches(m, s.now) {
      var x := Above(s.syncs.Keys);
      EarlySyncRecovers(mailbox, Step(mailbox, s, Begin(x)), x, m);
      RecoverableBefore(mailbox, s, Begin(x), m);
    } else {
      var x :| x in s.syncs && !OutOfReach(s.syncs[x], m);
      match s.syncs[x]
      case Windowed(startedAt, since) =>
        if Reaches(m, startedAt) {
          EarlySyncRecovers(mailbox, s, x, m);
        } else {
          OpenWindowRecovers(mailbox, s, x, m);
        }
      case Fetched(startedAt, _, batch) =>
        if Reaches(m, startedAt) {
          EarlySyncRecovers(mailbox, s, x, m);
        } else {
          InsertedHas(s.rows, batch, m);
          StoredIsRecoverable(mailbox, Step(mailbox, s, Ingest(x)), m);
          RecoverableBefore(mailbox, s, Ingest(x), m);
        }
      case _ => EarlySyncRecovers(mailbox, s, x, m);
    }
  }

  /**
   * From any state at all, some continuation stores a message if and only if it
   * is not lost: lost is when the present, the checkpoint and every sync under
   * way are more than the overlap past it, and no row, window or batch has it.
   */
  lemma RecoverableIffNotLost(mailbox: set<Message>, s: State, m: Message)
    requires m in mailbox
    ensures Recoverable(mailbox, s, m) <==> !Lost(s, m)
  {
    if Lost(s, m) {
      forall actions
        ensures m !in Run(mailbox, s, actions).rows
      {
        LostIsForever(mailbox, s, actions, m);
      }
    } else {
      NotLostRecovers(mailbox, s, m);
    }
  }

  function Completed(mailbox: set<Message>, s: State, x: SyncId, batch: set<Message>): State {
    Step(mailbox, Step(mailbox, Step(mailbox, s, Fetch(x, batch)), Ingest(x)), Save(x))
  }

  /**
   * A sync whose window holds more mail than one fetch returns, completed with
   * some answer the provider may give, loses a message it did not store if and
   * only if the sync began more than the overlap after it.
   */
  lemma TruncationLosesMailIff(mailbox: set<Message>, s: State, x: SyncId, m: Message)
    requires x in s.syncs && s.syncs[x].Windowed? && s.syncs[x].startedAt <= s.now && m !in s.rows
    requires |Window(mailbox, s.syncs[x].since, s.now)| > FETCH_LIMIT
    requires forall y :: y in s.syncs && y != x ==> OutOfReach(s.syncs[y], m)
    ensures (exists batch :: MayReturn(Window(mailbox, s.syncs[x].since, s.now), batch)
                             && Lost(Completed(mailbox, s, x, batch), m))
       <==> !Reaches(m, s.syncs[x].startedAt)
  {
    var startedAt, window := s.syncs[x].startedAt, Window(mailbox, s.syncs[x].since, s.now);
    forall batch | MayReturn(window, batch)
      ensures var t := Completed(mailbox, s, x, batch);
        && t.checkpoint == Some(startedAt) && t.rows == Inserted(s.rows, batch) && t.now == s.now
        && t.syncs == s.syncs[x := Succeeded(s.now)]
    {
      var s1 := Step(mailbox, s, Fetch(x, batch));
      assert s1.syncs[x] == Fetched(startedAt, s.now, batch);
      var s2 := Step(mailbox, s1, Ingest(x));
      assert s2.syncs[x] == Ingested(startedAt, s.now);
    }
    if !Reaches(m, startedAt) {
      assert |window - {m}| >= FETCH_LIMIT by {
        assert window == if m in window then (window - {m}) + {m} else window - {m};
      }
      var batch := SubsetOfSize(window - {m}, FETCH_LIMIT);
      InsertedHas(s.rows, batch, m);
      assert Lost(Completed(mailbox, s, x, batch), m);
    }
  }

  /**
   * Until a first success, a pause or a digest creates the checkpoint row, each
   * attempt starts from the present, and so does a row that a pause or a digest
   * creates: unless a sync under way still has it, mail can still be stored if
   * and only if the present is not more than the overlap past it.
   */
  lemma FirstSyncStartsFromThePresent(mailbox: set<Message>, s: State, m: Message)
    requires m in mailbox && s.checkpoint.None? && m !in s.rows
    requires forall x :: x in s.syncs ==> OutOfReach(s.syncs[x], m)
    ensures Recoverable(mailbox, s, m) <==> Reaches(m, s.now)
  {
    RecoverableIffNotLost(mailbox, s, m);
  }

  // ------------------------------------------------------- the code's own form

  class MailStore {
    var checkpoint: Option<Time>
    var rows: multiset<Message>

    // What one pass reads from the outside: the clock, what the query returned
    // (None when it threw), and whether storing or processing then threw.
    method SyncOnce(
        connected: bool, now: Time, batch: Option<set<Message>>, storingThrows: bool, processingThrows: bool)
      returns (ran: bool, since: Time)
      modifies this
      ensures (rows, checkpoint) ==
        if connected && batch.Some?
        then Synced(old(rows), old(checkpoint), batch.value, now, storingThrows, processingThrows)
        else (old(rows), old(checkpoint))
      ensures ran == (connected && batch.Some? && !storingThrows && !processingThrows)
      ensures connected ==> since == WindowStart(old(checkpoint), now)
    {
      ran, since := false, 0;
      if !connected {
        return;
      }
      var startedAt := now;
      var from := if checkpoint.Some? then checkpoint.value else now;
      since := if from < CHECKPOINT_OVERLAP_SECONDS then 0 else from - CHECKPOINT_OVERLAP_SECONDS;
      if batch.None? || storingThrows {
        return;
      }
      rows := rows + multiset(set m | m in batch.value && m !in rows);
      if processingThrows {
        return;
      }
      checkpoint := Some(startedAt);
      ran := true;
    }
  }

  /**
   * A window starts ten minutes before the checkpoint, or before the present if
   * there is none, and never before zero.
   */
  lemma WindowMeans(checkpoint: Option<Time>, now: Time, mailbox: set<Message>, m: Message)
    ensures var from := if checkpoint.Some? then checkpoint.value else now;
      && WindowStart(checkpoint, now) == (if from < 600 then 0 else from - 600)
      && (m in Window(mailbox, WindowStart(checkpoint, now), now) <==>
            m in mailbox && from <= m.timestamp + 600 && m.visibleAt <= now)
  {}

  /** What the provider returns is the whole window, or twenty of it when there is more. */
  lemma FetchMeans(window: set<Message>, batch: set<Message>)
    ensures MayReturn(window, batch) <==> batch <= window && (batch == window || |batch| == 20) && |batch| <= 20
  {
    if batch <= window {
      assert window == batch + (window - batch);
    }
  }

  /** A pause or a digest creates the checkpoint row at the present when there is none, and otherwise leaves it. */
  lemma EnsureMeans(mailbox: set<Message>, s: State)
    ensures Step(mailbox, s, EnsureCheckpoint) ==
            if s.checkpoint == None then s.(checkpoint := Some(s.now)) else s
  {}
}

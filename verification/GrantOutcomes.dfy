/**
 * Which attempt an outcome settles. A launched process reports on its payee,
 * not on the start it came from, so the terms a success approves need not be
 * the terms the process was launched on.
 */
module GrantOutcomes {
  import opened Common
  import opened GrantApproval

  datatype Start = Start(task: TaskId, payee: PayeeId, terms: Terms)

  // The start a step performs, if it makes a payee pending.
  function StartBy(s: State, a: Action): Option<Start> {
    if !a.Proceed? || a.task !in s.tasks then None
    else match s.tasks[a.task]
      case Retrying(r, _, payee) => if CanRestart(s.db, payee) then Some(Start(a.task, payee, r.terms)) else None
      case Creating(r, _) => if CanCreate(s.db, a.newId, r) then Some(Start(a.task, a.newId, r.terms)) else None
      case _ => None
  }

  function StartAt(db: Database, actions: seq<Action>, k: nat): Option<Start>
    requires k < |actions|
  {
    StartBy(Run(db, actions[..k]), actions[k])
  }

  predicate Starts(db: Database, actions: seq<Action>, k: nat, payee: PayeeId) {
    k < |actions| && StartAt(db, actions, k).Some? && StartAt(db, actions, k).value.payee == payee
  }

  ghost predicate LatestStart(db: Database, actions: seq<Action>, k: nat, payee: PayeeId) {
    Starts(db, actions, k, payee) && forall m :: k < m < |actions| ==> !Starts(db, actions, m, payee)
  }

  // The step at which a task made its payee pending.
  function StartOfTask(db: Database, actions: seq<Action>, task: TaskId): Option<nat> {
    if actions == [] then None
    else
      var k := |actions| - 1;
      var start := StartAt(db, actions, k);
      if start.Some? && start.value.task == task then Some(k) else StartOfTask(db, actions[..k], task)
  }

  // The start behind a launch: that of the task whose last step launched it.
  function Origin(db: Database, actions: seq<Action>, launch: nat): Option<nat> {
    if actions == [] then None
    else
      var before, last := actions[..|actions| - 1], actions[|actions| - 1];
      if launch < |Run(db, before).launches| || !last.Proceed? then Origin(db, before, launch)
      else StartOfTask(db, before, last.task)
  }

  lemma StartAtPrefix(db: Database, actions: seq<Action>, k: nat)
    requires k < |actions| - 1
    ensures StartAt(db, actions[..|actions| - 1], k) == StartAt(db, actions, k)
  {
    assert actions[..|actions| - 1][..k] == actions[..k];
  }

  predicate Owes(s: State, task: TaskId) {
    task in s.tasks && (s.tasks[task].AddingRail? || s.tasks[task].Launching?)
  }

  // A task comes to owe a launch by its own start, and from then on keeps payee and request.
  lemma OwedSource(s: State, a: Action, task: TaskId)
    requires Owes(Step(s, a), task)
    ensures var t := Step(s, a).tasks[task];
      || StartBy(s, a) == Some(Start(task, t.payee, t.request.terms))
      || (&& (StartBy(s, a).None? || StartBy(s, a).value.task != task)
          && Owes(s, task) && s.tasks[task].payee == t.payee && s.tasks[task].request == t.request)
  {}

  lemma LaunchSource(s: State, a: Action, launch: nat)
    requires launch < |Step(s, a).launches|
    ensures var n := Step(s, a).launches[launch];
      if launch < |s.launches| then s.launches[launch].payee == n.payee && s.launches[launch].terms == n.terms
      else a.Proceed? && Owes(s, a.task) && n.payee == s.tasks[a.task].payee && n.terms == s.tasks[a.task].request.terms
  {}

  // A task that still owes a launch has a start, for its payee and on its request's terms.
  lemma {:induction false} OwedTaskStarted(db: Database, actions: seq<Action>, task: TaskId)
    requires Owes(Run(db, actions), task)
    ensures var t, k := Run(db, actions).tasks[task], StartOfTask(db, actions, task);
      && k.Some? && k.value < |actions|
      && StartAt(db, actions, k.value) == Some(Start(task, t.payee, t.request.terms))
  {
    var before, last := actions[..|actions| - 1], actions[|actions| - 1];
    OwedSource(Run(db, before), last, task);
    var start := StartBy(Run(db, before), last);
    if start.None? || start.value.task != task {
      OwedTaskStarted(db, before, task);
      StartAtPrefix(db, actions, StartOfTask(db, before, task).value);
    }
  }

  /** Every launch goes back to a start of its own payee, on the very terms it was launched with. */
  lemma {:induction false} LaunchHasOrigin(db: Database, actions: seq<Action>, launch: nat)
    requires launch < |Run(db, actions).launches|
    ensures var n, k := Run(db, actions).launches[launch], Origin(db, actions, launch);
      && k.Some? && k.value < |actions| && StartAt(db, actions, k.value).Some?
      && StartAt(db, actions, k.value).value.payee == n.payee && StartAt(db, actions, k.value).value.terms == n.terms
  {
    var before, last := actions[..|actions| - 1], actions[|actions| - 1];
    LaunchSource(Run(db, before), last, launch);
    if launch < |Run(db, before).launches| {
      LaunchHasOrigin(db, before, launch);
    } else {
      OwedTaskStarted(db, before, last.task);
    }
    StartAtPrefix(db, actions, Origin(db, actions, launch).value);
  }

  lemma OnlyStartsWriteTerms(s: State, a: Action, payee: PayeeId)
    ensures StartBy(s, a).Some? && StartBy(s, a).value.payee == payee ==>
              payee in Step(s, a).db.payees && Step(s, a).db.payees[payee].terms == StartBy(s, a).value.terms
    ensures payee in s.db.payees && (StartBy(s, a).None? || StartBy(s, a).value.payee != payee) ==>
              payee in Step(s, a).db.payees && Step(s, a).db.payees[payee].terms == s.db.payees[payee].terms
  {}

  /** A payee's terms are those its latest start asked for. */
  lemma {:induction false} LatestStartHasTheTerms(db: Database, actions: seq<Action>, k: nat, payee: PayeeId)
    requires LatestStart(db, actions, k, payee)
    ensures payee in Run(db, actions).db.payees
    ensures Run(db, actions).db.payees[payee].terms == StartAt(db, actions, k).value.terms
  {
    var n := |actions| - 1;
    OnlyStartsWriteTerms(Run(db, actions[..n]), actions[n], payee);
    if k < n {
      StartAtPrefix(db, actions, k);
      forall m | k < m < n
        ensures !Starts(db, actions[..n], m, payee)
      {
        StartAtPrefix(db, actions, m);
        assert !Starts(db, actions, m, payee);
      }
      assert !Starts(db, actions, n, payee);
      LatestStartHasTheTerms(db, actions[..n], k, payee);
    }
  }

  lemma FindLatest(db: Database, actions: seq<Action>, k: nat, payee: PayeeId) returns (latest: nat)
    requires Starts(db, actions, k, payee)
    ensures k <= latest && LatestStart(db, actions, latest, payee)
    decreases |actions| - k
  {
    if m: nat :| k < m < |actions| && Starts(db, actions, m, payee) {
      latest := FindLatest(db, actions, m, payee);
    } else {
      latest := k;
    }
  }

  predicate ReportsOnPending(s: State, launch: nat) {
    launch < |s.launches| && s.launches[launch].running && Pending(s.db, s.launches[launch].payee)
  }

  /** A success settles the latest start of its payee, whichever start launched the process that reports it. */
  lemma ReportApprovesTheLatestStart(db: Database, actions: seq<Action>, launch: nat, k: nat)
    requires ReportsOnPending(Run(db, actions), launch)
    requires LatestStart(db, actions, k, Run(db, actions).launches[launch].payee)
    ensures var payee, t := Run(db, actions).launches[launch].payee, Run(db, actions + [Report(launch, true)]);
      && payee in t.db.payees && t.db.payees[payee].status.Approved?
      && t.db.payees[payee].terms == StartAt(db, actions, k).value.terms
  {
    LatestStartHasTheTerms(db, actions, k, Run(db, actions).launches[launch].payee);
    RunSnoc(db, actions, Report(launch, true));
  }

  /**
   * A success approves the terms its own process was launched with if and only
   * if no start of that payee came after the one the process was launched for,
   * or the latest that did asked for the same terms. A process launched late, by
   * a task whose start had expired, is covered: what counts is the task's start,
   * not when it got round to launching.
   */
  lemma ReportApprovesItsOwnTermsIff(db: Database, actions: seq<Action>, launch: nat)
    requires ReportsOnPending(Run(db, actions), launch)
    ensures Origin(db, actions, launch).Some?
    ensures var n, t := Run(db, actions).launches[launch], Run(db, actions + [Report(launch, true)]);
      && n.payee in t.db.payees && t.db.payees[n.payee].status.Approved?
      && (t.db.payees[n.payee].terms == n.terms <==>
            forall m: nat :: Origin(db, actions, launch).value < m && LatestStart(db, actions, m, n.payee) ==>
              StartAt(db, actions, m).value.terms == n.terms)
  {
    LaunchHasOrigin(db, actions, launch);
    var payee, origin := Run(db, actions).launches[launch].payee, Origin(db, actions, launch).value;
    var latest := FindLatest(db, actions, origin, payee);
    ReportApprovesTheLatestStart(db, actions, launch, latest);
    forall m: nat | LatestStart(db, actions, m, payee)
      ensures m == latest
    {
      assert !(latest < m) && !(m < latest);
    }
  }

  /** So a grant nobody restarts is approved on the terms its process was launched with. */
  lemma UninterruptedGrantKeepsItsTerms(db: Database, actions: seq<Action>, launch: nat)
    requires ReportsOnPending(Run(db, actions), launch)
    requires Origin(db, actions, launch).Some? ==>
      forall m :: Origin(db, actions, launch).value < m < |actions| ==>
        !Starts(db, actions, m, Run(db, actions).launches[launch].payee)
    ensures var n, t := Run(db, actions).launches[launch], Run(db, actions + [Report(launch, true)]);
      n.payee in t.db.payees && t.db.payees[n.payee].status.Approved? && t.db.payees[n.payee].terms == n.terms
  {
    ReportApprovesItsOwnTermsIff(db, actions, launch);
  }

  lemma SwiftlyNext(s: State, task: TaskId, newId: PayeeId, steps: nat)
    ensures Swiftly(s, task, newId, 0) == s
    ensures Swiftly(s, task, newId, steps + 1) == Step(Swiftly(s, task, newId, steps), Proceed(task, newId))
  {}

  // A second approval of the same sender, from its click to its claim of the row.
  function SecondApproval(task: TaskId, request: Request): seq<Action> {
    [Begin(task, request)] + Proceeding(task, 0, 4)
  }

  lemma SecondApprovalRuns(db: Database, actions: seq<Action>, task: TaskId, request: Request)
    ensures Run(db, actions + SecondApproval(task, request)) ==
            Swiftly(Step(Run(db, actions), Begin(task, request)), task, 0, 4)
  {
    RunSnoc(db, actions, Begin(task, request));
    SwiftRun(db, actions + [Begin(task, request)], task, 0, 4);
    assert actions + SecondApproval(task, request) == actions + [Begin(task, request)] + Proceeding(task, 0, 4);
  }

  lemma SecondApprovalRestarts(s: State, task: TaskId, request: Request, payee: PayeeId)
    requires DbOk(s.db) && Pending(s.db, payee) && s.db.payees[payee].pendingGrantExpiresAt < s.now
    requires request.sender in s.db.identities && s.db.identities[request.sender] == payee && task !in s.tasks
    ensures var t := Swiftly(Step(s, Begin(task, request)), task, 0, 4);
      t.db == Restart(Swept(s.db, s.now), payee, request.terms, s.now) && t.launches == s.launches
  {
    SweptFree(s.db, payee, s.now);
    var s1 := Step(s, Begin(task, request));
    SwiftlyNext(s1, task, 0, 0);
    SwiftlyNext(s1, task, 0, 1);
    SwiftlyNext(s1, task, 0, 2);
    SwiftlyNext(s1, task, 0, 3);
    assert Swiftly(s1, task, 0, 1) == s1.(tasks := s1.tasks[task := Sweeping(request)]);
    assert Swiftly(s1, task, 0, 2).tasks[task] == LookingUp(request, s.now);
    assert Swiftly(s1, task, 0, 3).tasks[task] == Retrying(request, s.now, payee);
  }

  /**
   * And restarts happen: whenever a launch outlives its own expiry and the owner
   * retries the payee on other terms, the old launch's success approves those
   * terms and not its own.
   */
  lemma LateReportSettlesTheNewerAttempt(
      db: Database, actions: seq<Action>, launch: nat, task: TaskId, request: Request)
    requires DbOk(db)
    requires var s := Run(db, actions);
      && ReportsOnPending(s, launch) && s.db.payees[s.launches[launch].payee].pendingGrantExpiresAt < s.now
      && request.sender in s.db.identities && s.db.identities[request.sender] == s.launches[launch].payee
      && task !in s.tasks && request.terms != s.launches[launch].terms
    ensures var s, t := Run(db, actions), Run(db, actions + SecondApproval(task, request) + [Report(launch, true)]);
      var payee := s.launches[launch].payee;
      && payee in t.db.payees && t.db.payees[payee].status.Approved?
      && t.db.payees[payee].terms == request.terms
      && t.launches == s.launches[launch := s.launches[launch].(running := false)]
      && t.db.payees[payee].terms != t.launches[launch].terms
  {
    RunDb(db, actions);
    var s := Run(db, actions);
    SecondApprovalRestarts(s, task, request, s.launches[launch].payee);
    SecondApprovalRuns(db, actions, task, request);
    RunSnoc(db, actions + SecondApproval(task, request), Report(launch, true));
  }

  // Sweeping the one pending row, once it has expired, frees the lock.
  lemma SweptFree(db: Database, payee: PayeeId, now: Time)
    requires DbOk(db) && Pending(db, payee) && db.payees[payee].pendingGrantExpiresAt < now
    ensures CanRestart(Swept(db, now), payee)
  {
    forall q | q in db.payees
      ensures !Swept(db, now).payees[q].status.PendingGrant?
    {
      if Pending(db, q) { assert q == payee; }
    }
  }

  const NOTHING_YET := Database(map[], map[], map[])

  // A first approval, up to its launch, and then more time than its grant may wait.
  function FirstApproval(request: Request): seq<Action> {
    [Begin(0, request)] + Proceeding(0, 0, 5) + [Tick(GRANT_APPROVAL_TIMEOUT_MS + 1)]
  }

  lemma FirstApprovalRuns(request: Request)
    ensures Run(NOTHING_YET, FirstApproval(request)) ==
            State(Create(NOTHING_YET, 0, request, 0), map[0 := Ended], [Launch(0, request.terms, true)],
                  GRANT_APPROVAL_TIMEOUT_MS + 1)
  {
    RunSnoc(NOTHING_YET, [], Begin(0, request));
    assert [] + [Begin(0, request)] == [Begin(0, request)];
    SwiftRun(NOTHING_YET, [Begin(0, request)], 0, 0, 5);
    RunSnoc(NOTHING_YET, [Begin(0, request)] + Proceeding(0, 0, 5), Tick(GRANT_APPROVAL_TIMEOUT_MS + 1));
    var s := Run(NOTHING_YET, [Begin(0, request)]);
    FirstGrantLaunches(s, request);
  }

  lemma FirstGrantLaunches(s: State, request: Request)
    requires s == State(NOTHING_YET, map[0 := Checking(request)], [], 0)
    ensures Swiftly(s, 0, 0, 5) ==
            State(Create(NOTHING_YET, 0, request, 0), map[0 := Ended], [Launch(0, request.terms, true)], 0)
  {
    SwiftlyNext(s, 0, 0, 0);
    SwiftlyNext(s, 0, 0, 1);
    SwiftlyNext(s, 0, 0, 2);
    SwiftlyNext(s, 0, 0, 3);
    SwiftlyNext(s, 0, 0, 4);
    assert Swept(NOTHING_YET, 0) == NOTHING_YET;
    assert Swiftly(s, 0, 0, 1) == s.(tasks := map[0 := Sweeping(request)]);
    assert Swiftly(s, 0, 0, 2) == s.(tasks := map[0 := LookingUp(request, 0)]);
    assert Swiftly(s, 0, 0, 3) == s.(tasks := map[0 := Creating(request, 0)]);
    assert Swiftly(s, 0, 0, 4) == State(Create(NOTHING_YET, 0, request, 0), map[0 := Launching(request, 0)], [], 0);
  }

  /**
   * From the empty database: one approval, no answer in time, a second one on
   * other terms, and then the first answers.
   */
  lemma OutlivedLaunchIsReachable(first: Request, second: Request)
    requires first.sender == second.sender && first.terms != second.terms
    ensures var t := Run(NOTHING_YET, FirstApproval(first) + SecondApproval(1, second) + [Report(0, true)]);
      && 0 in t.db.payees && t.db.payees[0].status.Approved? && t.db.payees[0].terms == second.terms
      && |t.launches| == 1 && t.launches[0].payee == 0 && t.launches[0].terms == first.terms
  {
    FirstApprovalRuns(first);
    var s := Run(NOTHING_YET, FirstApproval(first));
    LateReportSettlesTheNewerAttempt(NOTHING_YET, FirstApproval(first), 0, 1, second);
  }
}

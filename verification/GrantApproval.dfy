/**
 * The grant-approval lifecycle: approvals started by the owner, `policy enable`
 * processes that report back minutes later or never, and the expiry sweep.
 *
 * The database enforces, inside each UPDATE or INSERT, that at most one payee
 * row is pending_grant, that a sender address has one payee, and that a rail
 * is stored once.
 */
module GrantApproval {
  import opened Common

  type Sender = nat
  type Rail = nat

  const GRANT_APPROVAL_TIMEOUT_MS: nat := 660_000

  // `Elsewhere` stands for any status this lifecycle never writes.
  datatype Status = NotApproved | PendingGrant | Approved | Elsewhere

  datatype LastOutcome = NoOutcome | Denied | Expired

  datatype Terms = Terms(perPaymentCapInr: string, totalCapInr: string, maxPayments: nat, expiresAt: Time)

  datatype Payee = Payee(
    status: Status,
    grantApproved: bool,
    lastGrantOutcome: LastOutcome,
    pendingGrantExpiresAt: Time,
    terms: Terms)

  datatype Database = Database(payees: map<PayeeId, Payee>, identities: map<Sender, PayeeId>, rails: map<Rail, PayeeId>)

  datatype Request = Request(sender: Sender, rail: Rail, terms: Terms)

  predicate Pending(db: Database, payee: PayeeId) {
    payee in db.payees && db.payees[payee].status.PendingGrant?
  }

  predicate AnyPending(db: Database) {
    exists payee :: payee in db.payees && db.payees[payee].status.PendingGrant?
  }

  // ------------------------------------------------------- single statements

  function SweptPayee(payee: Payee, now: Time): Payee {
    if payee.status.PendingGrant? && payee.pendingGrantExpiresAt < now
    then payee.(status := NotApproved, lastGrantOutcome := Expired)
    else payee
  }

  function Swept(db: Database, now: Time): Database {
    db.(payees := map p | p in db.payees :: SweptPayee(db.payees[p], now))
  }

  function Settled(payee: Payee, approved: bool): Payee {
    if !payee.status.PendingGrant? then payee
    else if approved then payee.(status := Approved, grantApproved := true, lastGrantOutcome := NoOutcome)
    else payee.(status := NotApproved, lastGrantOutcome := Denied)
  }

  function WithOutcome(db: Database, payee: PayeeId, approved: bool): Database {
    if payee in db.payees then db.(payees := db.payees[payee := Settled(db.payees[payee], approved)]) else db
  }

  function Restarted(payee: Payee, terms: Terms, now: Time): Payee {
    payee.(status := PendingGrant, lastGrantOutcome := NoOutcome,
           pendingGrantExpiresAt := now + GRANT_APPROVAL_TIMEOUT_MS, terms := terms)
  }

  // The conditional update of the retry branch; the unique index refuses it
  // while any other row is pending.
  predicate CanRestart(db: Database, payee: PayeeId) {
    payee in db.payees && db.payees[payee].status.NotApproved? && !AnyPending(db)
  }

  function Restart(db: Database, payee: PayeeId, terms: Terms, now: Time): Database
    requires payee in db.payees
  {
    db.(payees := db.payees[payee := Restarted(db.payees[payee], terms, now)])
  }

  predicate CanCreate(db: Database, payee: PayeeId, request: Request) {
    payee !in db.payees && request.sender !in db.identities && request.rail !in db.rails && !AnyPending(db)
  }

  function Create(db: Database, payee: PayeeId, request: Request, now: Time): Database {
    Database(db.payees[payee := Payee(PendingGrant, false, NoOutcome, now + GRANT_APPROVAL_TIMEOUT_MS, request.terms)],
             db.identities[request.sender := payee], db.rails[request.rail := payee])
  }

  // --------------------------------------------------------------- the protocol

  // One approvePayee call between its database calls. `startedAt` is the clock
  // it read before looking anything up.
  datatype Task =
    | Checking(request: Request)
    | Sweeping(request: Request)
    | LookingUp(request: Request, startedAt: Time)
    | Retrying(request: Request, startedAt: Time, payee: PayeeId)
    | Creating(request: Request, startedAt: Time)
    | AddingRail(request: Request, payee: PayeeId)
    | Launching(request: Request, payee: PayeeId)
    | Ended

  datatype Launch = Launch(payee: PayeeId, terms: Terms, running: bool)

  datatype State = State(db: Database, tasks: map<TaskId, Task>, launches: seq<Launch>, now: Time)

  datatype Action =
    | Begin(task: TaskId, request: Request)
    | Proceed(task: TaskId, newId: PayeeId)
    | Abort(task: TaskId)
    | Sweep
    | Report(launch: nat, approved: bool)
    // The process ended without a usable answer, or our handle to it was lost.
    | Lose(launch: nat)
    | Tick(elapsed: nat)

  datatype Effect = Effect(db: Database, task: Task, launched: seq<Launch>)

  function Act(db: Database, task: Task, newId: PayeeId, now: Time): Effect {
    match task
    case Checking(r) =>
      Effect(db,
             if r.sender in db.identities && db.identities[r.sender] in db.payees
                 && db.payees[db.identities[r.sender]].status.Approved?
             then Ended else Sweeping(r), [])
    case Sweeping(r) => Effect(Swept(db, now), LookingUp(r, now), [])
    case LookingUp(r, startedAt) =>
      if r.sender !in db.identities then Effect(db, Creating(r, startedAt), [])
      else
        var payee := db.identities[r.sender];
        var retryable := payee in db.payees && db.payees[payee].status.NotApproved?;
        Effect(db, if retryable then Retrying(r, startedAt, payee) else Ended, [])
    case Retrying(r, startedAt, payee) =>
      if CanRestart(db, payee) then Effect(Restart(db, payee, r.terms, startedAt), AddingRail(r, payee), [])
      else Effect(db, Ended, [])
    case Creating(r, startedAt) =>
      if CanCreate(db, newId, r) then Effect(Create(db, newId, r, startedAt), Launching(r, newId), [])
      else Effect(db, Ended, [])
    case AddingRail(r, payee) =>
      Effect(if r.rail in db.rails then db else db.(rails := db.rails[r.rail := payee]), Launching(r, payee), [])
    case Launching(r, payee) => Effect(db, Ended, [Launch(payee, r.terms, true)])
    case Ended => Effect(db, Ended, [])
  }

  function Step(s: State, a: Action): State {
    match a
    case Begin(task, request) => if task in s.tasks then s else s.(tasks := s.tasks[task := Checking(request)])
    case Proceed(task, newId) =>
      if task in s.tasks then
        var effect := Act(s.db, s.tasks[task], newId, s.now);
        State(effect.db, s.tasks[task := effect.task], s.launches + effect.launched, s.now)
      else s
    case Abort(task) => if task in s.tasks then s.(tasks := s.tasks[task := Ended]) else s
    case Sweep => s.(db := Swept(s.db, s.now))
    case Report(n, approved) =>
      if n < |s.launches| && s.launches[n].running
      then s.(db := WithOutcome(s.db, s.launches[n].payee, approved),
          launches := s.launches[n := s.launches[n].(running := false)])
      else s
    case Lose(n) =>
      if n < |s.launches| then s.(launches := s.launches[n := s.launches[n].(running := false)]) else s
    case Tick(elapsed) => s.(now := s.now + elapsed)
  }

  function Run(db: Database, actions: seq<Action>): State {
    if actions == [] then State(db, map[], [], 0)
    else Step(Run(db, actions[..|actions| - 1]), actions[|actions| - 1])
  }

  // -------------------------------------------------------------------- invariant

  // What holds of any database this lifecycle is started on.
  ghost predicate DbOk(db: Database) {
    && (forall p, q :: Pending(db, p) && Pending(db, q) ==> p == q)
    && (forall p :: p in db.payees && db.payees[p].grantApproved ==> db.payees[p].status.Approved?)
  }

  // How one row may change in one step.
  predicate Edge(before: Payee, after: Payee) {
    || before == after
    || (before.status.PendingGrant? && (after == Settled(before, true) || after == Settled(before, false)
                                        || after == before.(status := NotApproved, lastGrantOutcome := Expired)))
    || (before.status.NotApproved? && after.status.PendingGrant? && after.grantApproved == before.grantApproved)
  }

  ghost predicate DbStep(before: Database, after: Database) {
    && (forall p :: p in before.payees ==> p in after.payees && Edge(before.payees[p], after.payees[p]))
    && (forall p :: p in after.payees && p !in before.payees ==>
        after.payees[p].status.PendingGrant? && !after.payees[p].grantApproved)
    // A row only enters pending_grant when no row was pending.
    && (forall p :: Pending(after, p) && !Pending(before, p) ==> !AnyPending(before))
    && (forall p, q :: Pending(after, p) && Pending(after, q) ==> p == q)
  }

  lemma ActStep(db: Database, task: Task, newId: PayeeId, now: Time)
    requires DbOk(db)
    ensures DbStep(db, Act(db, task, newId, now).db)
  {
    var after := Act(db, task, newId, now).db;
    forall p, q | Pending(after, p) && Pending(after, q)
      ensures p == q
    {
      if Pending(db, p) && Pending(db, q) {
      } else if task.Retrying? {
        assert !Pending(db, p) ==> p == task.payee;
      }
    }
  }

  lemma StepDb(s: State, a: Action)
    requires DbOk(s.db)
    ensures DbStep(s.db, Step(s, a).db)
    ensures DbOk(Step(s, a).db)
  {
    if a.Proceed? && a.task in s.tasks { ActStep(s.db, s.tasks[a.task], a.newId, s.now); }
    var after := Step(s, a).db;
    forall p | p in after.payees && after.payees[p].grantApproved
      ensures after.payees[p].status.Approved?
    {
      if p in s.db.payees { assert Edge(s.db.payees[p], after.payees[p]); }
    }
  }

  lemma {:induction false} RunDb(db: Database, actions: seq<Action>)
    requires DbOk(db)
    ensures DbOk(Run(db, actions).db)
  {
    if actions != [] {
      RunDb(db, actions[..|actions| - 1]);
      StepDb(Run(db, actions[..|actions| - 1]), actions[|actions| - 1]);
    }
  }

  /**
   * What an outcome writes: a success sets both the status and the flag that
   * loading payees tests; only a pending row is written.
   */
  lemma OutcomeMeans(db: Database, payee: PayeeId, approved: bool)
    ensures var after := WithOutcome(db, payee, approved);
      && after.identities == db.identities && after.rails == db.rails && after.payees.Keys == db.payees.Keys
      && forall p :: p in db.payees ==>
           after.payees[p] ==
           if p != payee || db.payees[p].status != PendingGrant then db.payees[p]
           else if approved then
             db.payees[p].(status := Status.Approved, grantApproved := true, lastGrantOutcome := NoOutcome)
           else db.payees[p].(status := NotApproved, lastGrantOutcome := Denied)
  {}

  // --------------------------------------------------------------------- theorems

  // Approved payees pass the test that the loader makes.
  ghost predicate ApprovedAreLoadable(db: Database) {
    forall p :: p in db.payees && db.payees[p].status == Status.Approved ==> db.payees[p].grantApproved
  }

  lemma LoadableStep(s: State, a: Action)
    requires DbOk(s.db) && ApprovedAreLoadable(s.db)
    ensures ApprovedAreLoadable(Step(s, a).db)
  {
    StepDb(s, a);
    var after := Step(s, a).db;
    forall p | p in after.payees && after.payees[p].status == Status.Approved
      ensures after.payees[p].grantApproved
    {
      assert p in s.db.payees ==> Edge(s.db.payees[p], after.payees[p]);
    }
  }

  /** Over every run, exactly the approved payees carry the flag that loads them. */
  lemma {:induction false} LoadableIffApproved(db: Database, actions: seq<Action>)
    requires DbOk(db) && ApprovedAreLoadable(db)
    ensures ApprovedAreLoadable(Run(db, actions).db)
    ensures forall p :: p in Run(db, actions).db.payees ==>
      (Run(db, actions).db.payees[p].status == Status.Approved <==> Run(db, actions).db.payees[p].grantApproved)
  {
    RunDb(db, actions);
    if actions != [] {
      var before := actions[..|actions| - 1];
      LoadableIffApproved(db, before);
      RunDb(db, before);
      LoadableStep(Run(db, before), actions[|actions| - 1]);
    }
  }


  /**
   * At most one payee is pending, and a grant counts as approved only on an
   * approved payee, at every point of every run.
   */
  lemma OnePendingAndApprovedMeansApproved(db: Database, actions: seq<Action>)
    requires DbOk(db)
    ensures forall p, q :: Pending(Run(db, actions).db, p) && Pending(Run(db, actions).db, q) ==> p == q
    ensures forall p :: p in Run(db, actions).db.payees && Run(db, actions).db.payees[p].grantApproved ==>
              Run(db, actions).db.payees[p].status.Approved?
  {
    RunDb(db, actions);
  }

  ghost predicate SomePendingStarts(before: Database, after: Database) {
    exists p :: Pending(after, p) && !Pending(before, p)
  }

  ghost predicate SomePendingSettles(before: Database, after: Database) {
    exists p :: Pending(before, p) && !Pending(after, p)
  }

  ghost function Starts(db: Database, actions: seq<Action>): nat {
    if actions == [] then 0
    else
      var before := actions[..|actions| - 1];
      Starts(db, before) + if SomePendingStarts(Run(db, before).db, Run(db, actions).db) then 1 else 0
  }

  ghost function Settlements(db: Database, actions: seq<Action>): nat {
    if actions == [] then 0
    else
      var before := actions[..|actions| - 1];
      Settlements(db, before) + if SomePendingSettles(Run(db, before).db, Run(db, actions).db) then 1 else 0
  }

  lemma StepBalance(before: Database, after: Database)
    requires DbOk(before) && DbStep(before, after)
    ensures (if AnyPending(after) then 1 else 0) ==
            (if AnyPending(before) then 1 else 0)
            + (if SomePendingStarts(before, after) then 1 else 0) - (if SomePendingSettles(before, after) then 1 else 0)
  {
    if AnyPending(before) {
      var p :| p in before.payees && before.payees[p].status.PendingGrant?;
      assert Pending(before, p);
      assert !SomePendingStarts(before, after);
      if Pending(after, p) {
        assert !SomePendingSettles(before, after);
      } else {
        assert !AnyPending(after) by {
          if AnyPending(after) {
            var q :| q in after.payees && after.payees[q].status.PendingGrant?;
            assert Pending(after, q) && !Pending(before, q);
          }
        }
      }
    } else {
      assert !SomePendingSettles(before, after);
      if AnyPending(after) {
        var q :| q in after.payees && after.payees[q].status.PendingGrant?;
        assert Pending(after, q) && !Pending(before, q);
      }
    }
  }

  /** Every start is settled at most once, and a new one begins only after the last was settled. */
  lemma {:induction false} StartsAndSettlementsAlternate(db: Database, actions: seq<Action>)
    requires DbOk(db) && !AnyPending(db)
    ensures Starts(db, actions) == Settlements(db, actions) + if AnyPending(Run(db, actions).db) then 1 else 0
  {
    if actions != [] {
      var before := actions[..|actions| - 1];
      StartsAndSettlementsAlternate(db, before);
      RunDb(db, before);
      StepDb(Run(db, before), actions[|actions| - 1]);
      StepBalance(Run(db, before).db, Run(db, actions).db);
    }
  }

  ghost function Owed(s: State): set<TaskId> {
    set t | t in s.tasks && (s.tasks[t].AddingRail? || s.tasks[t].Launching?)
  }

  lemma StepLaunches(s: State, a: Action)
    requires DbOk(s.db)
    ensures var t := Step(s, a);
      |t.launches| + |Owed(t)| <= |s.launches| + |Owed(s)| + if SomePendingStarts(s.db, t.db) then 1 else 0
  {
    var t := Step(s, a);
    if t.tasks == s.tasks {
      assert Owed(t) == Owed(s);
    } else {
      assert Owed(t) - {a.task} == Owed(s) - {a.task};
      SizeStep(Owed(s), Owed(t), a.task);
      if a.Proceed? && s.tasks[a.task].Retrying? && CanRestart(s.db, s.tasks[a.task].payee) {
        assert Pending(t.db, s.tasks[a.task].payee) && !Pending(s.db, s.tasks[a.task].payee);
      } else if a.Proceed? && s.tasks[a.task].Creating? && CanCreate(s.db, a.newId, s.tasks[a.task].request) {
        assert Pending(t.db, a.newId) && !Pending(s.db, a.newId);
      }
    }
  }

  /** `policy enable` is launched at most once per start, whatever crashes in between. */
  lemma {:induction false} LaunchesWithinStarts(db: Database, actions: seq<Action>)
    requires DbOk(db)
    ensures |Run(db, actions).launches| + |Owed(Run(db, actions))| <= Starts(db, actions)
  {
    if actions == [] {
      assert Owed(Run(db, actions)) == {};
    } else {
      var before := actions[..|actions| - 1];
      LaunchesWithinStarts(db, before);
      RunDb(db, before);
      StepLaunches(Run(db, before), actions[|actions| - 1]);
    }
  }

  lemma Extend(db: Database, actions: seq<Action>, more: seq<Action>)
    requires more != []
    ensures Run(db, actions + more) == Step(Run(db, actions + more[..|more| - 1]), more[|more| - 1])
  {
    var m, last := more[..|more| - 1], more[|more| - 1];
    assert actions + more == (actions + m) + [last];
    RunSnoc(db, actions + m, last);
  }

  lemma OwnersStep(s: State, a: Action)
    ensures forall sender :: sender in s.db.identities ==>
      sender in Step(s, a).db.identities && Step(s, a).db.identities[sender] == s.db.identities[sender]
    ensures forall rail :: rail in s.db.rails ==>
      rail in Step(s, a).db.rails && Step(s, a).db.rails[rail] == s.db.rails[rail]
  {}

  /** However approvals race, a sender and a rail belong to the payee they were first stored for. */
  lemma {:induction false} OwnersAreForever(db: Database, actions: seq<Action>, more: seq<Action>)
    ensures var s, t := Run(db, actions), Run(db, actions + more);
      && (forall sender :: sender in s.db.identities ==>
            sender in t.db.identities && t.db.identities[sender] == s.db.identities[sender])
      && (forall rail :: rail in s.db.rails ==> rail in t.db.rails && t.db.rails[rail] == s.db.rails[rail])
  {
    if more == [] {
      assert actions + more == actions;
    } else {
      OwnersAreForever(db, actions, more[..|more| - 1]);
      Extend(db, actions, more);
      OwnersStep(Run(db, actions + more[..|more| - 1]), more[|more| - 1]);
    }
  }

  /** A process reports at most once: after it has reported, or is lost, nothing it says is heard. */
  lemma EndedProcessIsSilent(s: State, launch: nat, first: bool, second: bool)
    ensures var reported, lost := Step(s, Report(launch, first)), Step(s, Lose(launch));
      Step(reported, Report(launch, second)) == reported && Step(lost, Report(launch, second)) == lost
  {}

  /** An approved payee stays exactly as it was approved: no late outcome, retry or sweep touches it. */
  lemma {:induction false} ApprovedIsFinal(db: Database, actions: seq<Action>, more: seq<Action>, payee: PayeeId)
    requires DbOk(db)
    requires payee in Run(db, actions).db.payees && Run(db, actions).db.payees[payee].status.Approved?
    ensures payee in Run(db, actions + more).db.payees
    ensures Run(db, actions + more).db.payees[payee] == Run(db, actions).db.payees[payee]
  {
    if more == [] {
      assert actions + more == actions;
    } else {
      ApprovedIsFinal(db, actions, more[..|more| - 1], payee);
      Extend(db, actions, more);
      RunDb(db, actions + more[..|more| - 1]);
      StepDb(Run(db, actions + more[..|more| - 1]), more[|more| - 1]);
    }
  }

  /** A payee becomes approved only by a running `policy enable` for that very payee reporting success. */
  lemma ApprovalNeedsAReport(db: Database, actions: seq<Action>, a: Action, payee: PayeeId)
    requires DbOk(db)
    requires var s := Run(db, actions);
      payee in Step(s, a).db.payees && Step(s, a).db.payees[payee].status.Approved?
      && !(payee in s.db.payees && s.db.payees[payee].status.Approved?)
    ensures var s := Run(db, actions);
      && a.Report? && a.approved && a.launch < |s.launches| && s.launches[a.launch].running
      && s.launches[a.launch].payee == payee && Pending(s.db, payee)
  {
    RunDb(db, actions);
    StepDb(Run(db, actions), a);
  }

  // What a sweep does to each row.
  lemma SweepClearsTheLock(db: Database, actions: seq<Action>)
    ensures var s, t := Run(db, actions), Run(db, actions + [Sweep]);
      && t.db.payees.Keys == s.db.payees.Keys
      && forall p :: p in s.db.payees ==>
           if Pending(s.db, p) && s.db.payees[p].pendingGrantExpiresAt < s.now
           then t.db.payees[p].status.NotApproved? && t.db.payees[p].lastGrantOutcome.Expired?
           else t.db.payees[p] == s.db.payees[p]
  {
    assert (actions + [Sweep])[..|actions|] == actions;
  }

  // ------------------------------------------------------- whose outcome is it

  ghost predicate PendingThroughout(db: Database, actions: seq<Action>, more: seq<Action>, payee: PayeeId) {
    forall k :: 0 <= k <= |more| ==> Pending(Run(db, actions + more[..k]).db, payee)
  }

  /** While a payee stays pending, its terms and expiry stay those of the attempt that started it. */
  lemma {:induction false} TermsHoldWhilePending(db: Database, actions: seq<Action>, more: seq<Action>, payee: PayeeId)
    requires DbOk(db)
    requires PendingThroughout(db, actions, more, payee)
    ensures Pending(Run(db, actions).db, payee) && Pending(Run(db, actions + more).db, payee)
    ensures Run(db, actions + more).db.payees[payee] == Run(db, actions).db.payees[payee]
  {
    assert more[..0] == [] && actions + [] == actions && more[..|more|] == more;
    if more != [] {
      var m := more[..|more| - 1];
      forall k | 0 <= k <= |m|
        ensures m[..k] == more[..k]
      {}
      TermsHoldWhilePending(db, actions, m, payee);
      Extend(db, actions, more);
      RunDb(db, actions + m);
      StepDb(Run(db, actions + m), more[|more| - 1]);
    }
  }

  lemma RunSnoc(db: Database, actions: seq<Action>, a: Action)
    ensures Run(db, actions + [a]) == Step(Run(db, actions), a)
  {
    assert (actions + [a])[..|actions|] == actions;
  }

  /**
   * A stale lock never blocks: after the inline sweep a payee can be started
   * exactly when it is not approved or it expired, and no unexpired row is
   * pending.
   */
  lemma RestartableAfterSweep(db: Database, payee: PayeeId, now: Time)
    requires DbOk(db) && payee in db.payees
    ensures CanRestart(Swept(db, now), payee) <==>
            && (db.payees[payee].status.NotApproved?
                || (Pending(db, payee) && db.payees[payee].pendingGrantExpiresAt < now))
            && forall q :: Pending(db, q) ==> db.payees[q].pendingGrantExpiresAt < now
  {
    var after := Swept(db, now);
    assert forall q :: q in db.payees ==> after.payees[q] == SweptPayee(db.payees[q], now);
    if CanRestart(after, payee) {
      forall q | Pending(db, q)
        ensures db.payees[q].pendingGrantExpiresAt < now
      {
        assert after.payees[q] == SweptPayee(db.payees[q], now);
        assert q in after.payees;
      }
    } else if (forall q :: Pending(db, q) ==> db.payees[q].pendingGrantExpiresAt < now) && AnyPending(after) {
      var q :| q in after.payees && after.payees[q].status.PendingGrant?;
      assert Pending(db, q);
      assert false;
    }
  }

  // ------------------------------------------------------------ the code's own form

  datatype StartResult = Started(payee: PayeeId) | Locked | RailRejected

  datatype ApproveResult =
    | ConfirmationRequired
    | InvalidRequest
    | AlreadyApproved(existing: PayeeId)
    | GrantInProgress
    | GrantPending(pending: PayeeId)
    | Raised

  // Which of the calls that can throw on their own do: creating the recipient, storing the rail.
  datatype Faults = Faults(recipient: bool, rail: bool)

  function StartGrant(
      db: Database, request: Request, newId: PayeeId, railThrows: bool, now: Time): (Database, StartResult) {
    var swept := Swept(db, now);
    if request.sender in swept.identities then
      var payee := swept.identities[request.sender];
      if !CanRestart(swept, payee) then (swept, Locked)
      else
        var claimed := Restart(swept, payee, request.terms, now);
        if request.rail in swept.rails then (claimed, Started(payee))
        else if railThrows then (claimed, RailRejected)
        else (claimed.(rails := claimed.rails[request.rail := payee]), Started(payee))
    else if CanCreate(swept, newId, request) then (Create(swept, newId, request, now), Started(newId))
    else (swept, Locked)
  }

  function ExistingApproval(db: Database, sender: Sender): Option<PayeeId> {
    if sender in db.identities && db.identities[sender] in db.payees
        && db.payees[db.identities[sender]].status.Approved?
    then Some(db.identities[sender])
    else None
  }

  function Approve(
      db: Database, request: Request, confirmed: bool, valid: bool, newId: PayeeId, faults: Faults, now: Time)
      : (Database, ApproveResult)
  {
    if !confirmed then (db, ConfirmationRequired)
    else if !valid then (db, InvalidRequest)
    else if ExistingApproval(db, request.sender).Some?
        then (db, AlreadyApproved(ExistingApproval(db, request.sender).value))
    else if faults.recipient then (db, Raised)
    else
      var (after, result) := StartGrant(db, request, newId, faults.rail, now);
      (after,
       match result
       case Started(payee) => GrantPending(payee)
       case Locked => GrantInProgress
       case RailRejected => Raised)
  }

  /** The payee tables, the statements approvals run on them, and the processes they launch. */
  class PayeeDesk {
    var db: Database
    var launches: seq<Launch>

    constructor (initial: Database)
      ensures db == initial && launches == []
    {
      db := initial;
      launches := [];
    }

    method ExpireStalePendingGrants(now: Time) returns (count: nat)
      modifies this`db
      ensures db == Swept(old(db), now)
      ensures count == |set p | p in old(db).payees && SweptPayee(old(db).payees[p], now) != old(db).payees[p]|
    {
      count := |set p | p in db.payees && db.payees[p].status.PendingGrant?
          && db.payees[p].pendingGrantExpiresAt < now|;
      assert (set p | p in db.payees && db.payees[p].status.PendingGrant? && db.payees[p].pendingGrantExpiresAt < now)
          == (set p | p in db.payees && SweptPayee(db.payees[p], now) != db.payees[p]);
      db := db.(payees := map p | p in db.payees :: SweptPayee(db.payees[p], now));
    }

    method ApplyGrantOutcome(payee: PayeeId, approved: bool)
      modifies this`db
      ensures db == WithOutcome(old(db), payee, approved)
      ensures !Pending(old(db), payee) ==> db == old(db)
    {
      if payee !in db.payees || !db.payees[payee].status.PendingGrant? {
        assert payee in db.payees ==> db.payees[payee := db.payees[payee]] == db.payees;
        return;
      }
      var row := db.payees[payee];
      row := if approved then row.(status := Status.Approved, grantApproved := true, lastGrantOutcome := NoOutcome)
             else row.(status := NotApproved, lastGrantOutcome := Denied);
      db := db.(payees := db.payees[payee := row]);
    }

    method StartPendingGrant(request: Request, newId: PayeeId, railThrows: bool, now: Time)
        returns (result: StartResult)
      modifies this`db
      ensures (db, result) == StartGrant(old(db), request, newId, railThrows, now)
    {
      var _ := ExpireStalePendingGrants(now);
      var pending := set p | p in db.payees && db.payees[p].status.PendingGrant?;
      assert AnyPending(db) <==> pending != {} by {
        assert forall p :: p in pending <==> p in db.payees && db.payees[p].status.PendingGrant?;
        if pending != {} { var p :| p in pending; }
      }
      if request.sender in db.identities {
        var payee := db.identities[request.sender];
        if payee !in db.payees || !db.payees[payee].status.NotApproved? || pending != {} {
          return Locked;
        }
        db := db.(payees := db.payees[payee := Restarted(db.payees[payee], request.terms, now)]);
        if request.rail !in db.rails {
          if railThrows {
            return RailRejected;
          }
          db := db.(rails := db.rails[request.rail := payee]);
        }
        return Started(payee);
      }
      if newId in db.payees || request.rail in db.rails || pending != {} {
        return Locked;
      }
      db := Create(db, newId, request, now);
      result := Started(newId);
    }

    method ApprovePayee(
        request: Request, confirmed: bool, valid: bool, newId: PayeeId, faults: Faults, now: Time)
        returns (result: ApproveResult)
      modifies this
      ensures (db, result) == Approve(old(db), request, confirmed, valid, newId, faults, now)
      ensures launches ==
        old(launches) + if result.GrantPending? then [Launch(result.pending, request.terms, true)] else []
    {
      if !confirmed {
        return ConfirmationRequired;
      }
      if !valid {
        return InvalidRequest;
      }
      if request.sender in db.identities {
        var payee := db.identities[request.sender];
        if payee in db.payees && db.payees[payee].status.Approved? {
          return AlreadyApproved(payee);
        }
      }
      if faults.recipient {
        return Raised;
      }
      var started := StartPendingGrant(request, newId, faults.rail, now);
      match started
      case Locked => result := GrantInProgress;
      case RailRejected => result := Raised;
      case Started(payee) =>
        launches := launches + [Launch(payee, request.terms, true)];
        result := GrantPending(payee);
    }
  }

  // ------------------------------------------- an approval is a run of the protocol

  predicate OwnAction(a: Action, task: TaskId) {
    (a.Begin? || a.Proceed? || a.Abort?) && a.task == task
  }

  lemma OneMore(db: Database, actions: seq<Action>, more: seq<Action>, a: Action)
    ensures Run(db, actions + (more + [a])) == Step(Run(db, actions + more), a)
  {
    assert actions + (more + [a]) == (actions + more) + [a];
    RunSnoc(db, actions + more, a);
  }

  function Swiftly(s: State, task: TaskId, newId: PayeeId, steps: nat): State {
    if steps == 0 then s else Step(Swiftly(s, task, newId, steps - 1), Proceed(task, newId))
  }

  // Sweep, look the sender up, and claim or create the row.
  lemma ClaimPhase(s: State, task: TaskId, request: Request, newId: PayeeId)
    requires task in s.tasks && s.tasks[task] == Sweeping(request)
    ensures var t, swept := Swiftly(s, task, newId, 3), Swept(s.db, s.now);
      && t.launches == s.launches && task in t.tasks
      && if request.sender in swept.identities then
           var payee := swept.identities[request.sender];
           if CanRestart(swept, payee) then t.db == Restart(swept, payee, request.terms, s.now)
               && t.tasks[task] == AddingRail(request, payee)
           else t.db == swept && t.tasks[task] == Ended
         else if CanCreate(swept, newId, request) then t.db == Create(swept, newId, request, s.now)
             && t.tasks[task] == Launching(request, newId)
         else t.db == swept && t.tasks[task] == Ended
  {
    var s1, s2 := Swiftly(s, task, newId, 1), Swiftly(s, task, newId, 2);
    assert Swiftly(s, task, newId, 0) == s;
    assert s1 == State(Swept(s.db, s.now), s.tasks[task := LookingUp(request, s.now)], s.launches, s.now);
    assert s2.db == s1.db && s2.launches == s1.launches && s2.now == s.now;
  }

  // Store the rail if it is not stored, or fail to, and launch.
  lemma LaunchPhase(s: State, task: TaskId, newId: PayeeId, last: Action)
    requires task in s.tasks && s.tasks[task].AddingRail?
    requires last == Proceed(task, newId) || last == Abort(task)
    ensures var t, u, r := s.tasks[task], Step(Step(s, last), Proceed(task, newId)), s.tasks[task].request;
      if last.Abort? then u.db == s.db && u.launches == s.launches
      else
        && u.db == (if r.rail in s.db.rails then s.db else s.db.(rails := s.db.rails[r.rail := t.payee]))
        && u.launches == s.launches + [Launch(t.payee, r.terms, true)]
  {}

  function Proceeding(task: TaskId, newId: PayeeId, steps: nat): (actions: seq<Action>)
    ensures forall a :: a in actions ==> OwnAction(a, task)
  {
    if steps == 0 then [] else Proceeding(task, newId, steps - 1) + [Proceed(task, newId)]
  }

  lemma {:induction false} SwiftRun(db: Database, actions: seq<Action>, task: TaskId, newId: PayeeId, steps: nat)
    ensures Run(db, actions + Proceeding(task, newId, steps)) == Swiftly(Run(db, actions), task, newId, steps)
  {
    if steps == 0 {
      assert actions + [] == actions;
    } else {
      SwiftRun(db, actions, task, newId, steps - 1);
      OneMore(db, actions, Proceeding(task, newId, steps - 1), Proceed(task, newId));
    }
  }

  // u is s after the whole of StartPendingGrant, and the launch that follows it.
  predicate StartedAs(s: State, u: State, request: Request, newId: PayeeId, railThrows: bool) {
    var (after, result) := StartGrant(s.db, request, newId, railThrows, s.now);
    && u.db == after
    && u.launches == s.launches + if result.Started? then [Launch(result.payee, request.terms, true)] else []
  }

  function RailStep(t: State, task: TaskId, newId: PayeeId, request: Request, railThrows: bool): Action {
    if railThrows && request.rail !in t.db.rails then Abort(task) else Proceed(task, newId)
  }

  lemma StartPhases(s: State, task: TaskId, request: Request, newId: PayeeId, railThrows: bool)
    requires task in s.tasks && s.tasks[task] == Sweeping(request)
    ensures var t := Swiftly(s, task, newId, 3);
      && task in t.tasks
      && StartedAs(s, if t.tasks[task].AddingRail?
          then Step(Step(t, RailStep(t, task, newId, request, railThrows)), Proceed(task, newId))
                      else Step(t, Proceed(task, newId)), request, newId, railThrows)
  {
    ClaimPhase(s, task, request, newId);
    var t := Swiftly(s, task, newId, 3);
    if t.tasks[task].AddingRail? {
      LaunchPhase(t, task, newId, RailStep(t, task, newId, request, railThrows));
    }
  }

  // The task has read no approval and its recipient exists: what is left of it.
  lemma StartIsAProtocolRun(
      db: Database, actions: seq<Action>, task: TaskId, request: Request, newId: PayeeId, railThrows: bool)
    returns (more: seq<Action>)
    requires task in Run(db, actions).tasks && Run(db, actions).tasks[task] == Sweeping(request)
    ensures forall a :: a in more ==> OwnAction(a, task)
    ensures StartedAs(Run(db, actions), Run(db, actions + more), request, newId, railThrows)
  {
    more := Proceeding(task, newId, 3);
    SwiftRun(db, actions, task, newId, 3);
    StartPhases(Run(db, actions), task, request, newId, railThrows);
    var t := Run(db, actions + more);
    if t.tasks[task].AddingRail? {
      var last := RailStep(t, task, newId, request, railThrows);
      OneMore(db, actions, more, last);
      more := more + [last];
    }
    OneMore(db, actions, more, Proceed(task, newId));
    more := more + [Proceed(task, newId)];
  }

  /**
   * Left to itself from click to return, an approval does what the interleaved
   * protocol does when only its task moves, whichever of its calls throw, and a
   * process is launched exactly when a grant is reported pending.
   */
  lemma ApprovalIsAProtocolRun(
      db: Database, actions: seq<Action>, task: TaskId, request: Request, newId: PayeeId, faults: Faults)
    returns (more: seq<Action>)
    requires task !in Run(db, actions).tasks
    ensures forall a :: a in more ==> OwnAction(a, task)
    ensures var s, t := Run(db, actions), Run(db, actions + more);
      var (after, result) := Approve(s.db, request, true, true, newId, faults, s.now);
      && t.db == after
      && t.launches == s.launches + if result.GrantPending? then [Launch(result.pending, request.terms, true)] else []
  {
    var begin, next := Begin(task, request), Proceed(task, newId);
    assert actions + [] == actions;
    OneMore(db, actions, [], begin);
    OneMore(db, actions, [begin], next);
    more := [begin] + [next];
    if ExistingApproval(Run(db, actions).db, request.sender).None? && !faults.recipient {
      var rest := StartIsAProtocolRun(db, actions + more, task, request, newId, faults.rail);
      assert actions + more + rest == actions + (more + rest);
      more := more + rest;
    }
  }

  // ------------------------------------------------ an approval, from the rows it finds

  predicate Overdue(db: Database, payee: PayeeId, now: Time) {
    payee in db.payees && db.payees[payee].status == PendingGrant && db.payees[payee].pendingGrantExpiresAt < now
  }

  ghost predicate LockFree(db: Database, now: Time) {
    forall p :: p in db.payees && db.payees[p].status == PendingGrant ==> db.payees[p].pendingGrantExpiresAt < now
  }

  predicate KnownAs(db: Database, sender: Sender, payee: PayeeId) {
    sender in db.identities && db.identities[sender] == payee
  }

  // A known sender's payee that has no grant, or whose grant is overdue; or a new payee and rail.
  ghost predicate CanStart(db: Database, request: Request, payee: PayeeId, newId: PayeeId, now: Time) {
    && LockFree(db, now)
    && if request.sender in db.identities
       then KnownAs(db, request.sender, payee) && payee in db.payees
            && (db.payees[payee].status == NotApproved || Overdue(db, payee, now))
       else payee == newId && newId !in db.payees && request.rail !in db.rails
  }

  ghost predicate RailFails(db: Database, request: Request, faults: Faults) {
    request.sender in db.identities && request.rail !in db.rails && faults.rail
  }

  ghost predicate IsApproved(db: Database, sender: Sender, payee: PayeeId) {
    KnownAs(db, sender, payee) && payee in db.payees && db.payees[payee].status == Status.Approved
  }

  /** Each answer of an approval, from the request and the rows it found. */
  lemma ApproveMeans(
      db: Database, request: Request, confirmed: bool, valid: bool, newId: PayeeId, faults: Faults, now: Time)
    ensures var result := Approve(db, request, confirmed, valid, newId, faults, now).1;
      && (result == ConfirmationRequired <==> !confirmed)
      && (result == InvalidRequest <==> confirmed && !valid)
      && (forall p :: result == AlreadyApproved(p) <==> confirmed && valid && IsApproved(db, request.sender, p))
      && (forall p :: result == GrantPending(p) <==>
            && confirmed && valid && !faults.recipient && CanStart(db, request, p, newId, now)
            && !RailFails(db, request, faults) && !IsApproved(db, request.sender, p))
  {
    var swept := Swept(db, now);
    assert LockFree(db, now) <==> !AnyPending(swept) by {
      if AnyPending(swept) {
        var q :| q in swept.payees && swept.payees[q].status.PendingGrant?;
        assert q in db.payees;
      } else {
        forall p | p in db.payees && db.payees[p].status == PendingGrant
          ensures db.payees[p].pendingGrantExpiresAt < now
        {
          assert swept.payees[p] == SweptPayee(db.payees[p], now);
        }
      }
    }
  }

  /** What a pending grant has written: the row, its deadline eleven minutes on, the sender and the rail. */
  lemma GrantPendingMeans(db: Database, request: Request, newId: PayeeId, faults: Faults, now: Time)
    requires Approve(db, request, true, true, newId, faults, now).1.GrantPending?
    ensures var (after, result) := Approve(db, request, true, true, newId, faults, now);
      var payee := result.pending;
      && after.payees.Keys == db.payees.Keys + {payee}
      && after.payees[payee] ==
         Payee(PendingGrant, payee in db.payees && db.payees[payee].grantApproved,
               NoOutcome, now + 660_000, request.terms)
      && (forall p :: p in db.payees && p != payee ==>
            after.payees[p] == if Overdue(db, p, now)
                               then db.payees[p].(status := NotApproved, lastGrantOutcome := Expired)
                               else db.payees[p])
      && after.identities == db.identities[request.sender := payee]
      && after.rails == if request.rail in db.rails then db.rails else db.rails[request.rail := payee]
  {
    if request.sender in db.identities {
      assert db.identities[request.sender := db.identities[request.sender]] == db.identities;
    }
  }
}

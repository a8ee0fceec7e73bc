/**
 * Every interleaving of payment executors, prepare and repair writers, the
 * stale-claim promoter, reconcilers, failing database calls and crashes.
 *
 * A run is any sequence of actions from the empty table. An action that is not
 * enabled leaves the state alone, so the theorems quantify over all sequences.
 * Claims and failures are counted from the row's own status changes, and
 * provider calls from the provider's log: no counter is kept by the protocol.
 */
module PaymentProtocol {
  import opened Common
  import opened PaymentIntents
  import opened PaymentProviders

  type ExecId = nat

  // Where one call of executePreparedPayment stands, with its local variables.
  datatype Executor =
    | Starting(email: EmailId)
    | Loaded(email: EmailId, payable: Payable)
    | ClaimWritten(email: EmailId, payable: Payable)
    | Ready(email: EmailId, payable: Payable, key: Token)
    | Awaiting(email: EmailId)
    | PayReturned(email: EmailId, reference: Token)
    | Failing(email: EmailId, outcome: Status, hint: Option<Token>)
    | Finished

  datatype ProviderCall = ProviderCall(caller: ExecId, email: EmailId, key: Token, payable: Payable, accepted: bool)

  datatype Snapshot = Snapshot(email: EmailId, reference: Token)

  datatype State = State(
    table: Table,
    execs: map<ExecId, Executor>,
    calls: seq<ProviderCall>,
    stuck: map<TaskId, Snapshot>,
    now: Time)

  datatype Action =
    | Upsert(email: EmailId, payable: Payable, key: Token)
    | Repair(email: EmailId, payable: Payable)
    | Begin(x: ExecId, email: EmailId)
    | Load(x: ExecId)
    | ClaimRow(x: ExecId)
    | Reread(x: ExecId)
    | Send(x: ExecId, accepted: bool)
    | Respond(x: ExecId, response: Response)
    | RecordPaid(x: ExecId)
    | RecordFailed(x: ExecId)
    // A database call, or the code before the request, throws; a write that
    // throws may still have committed.
    | Throw(x: ExecId, committed: bool)
    | Crash(x: ExecId)
    | Promote
    | FindStuck(task: TaskId, email: EmailId)
    | Verdict(task: TaskId, result: PayoutResult)
    // The look-up throws, or the pass dies before it.
    | Abandon(task: TaskId)
    | Tick(elapsed: nat)

  const INIT := State(map[], map[], [], map[], 0)

  function Settle(response: Response, email: EmailId): Executor {
    match response
    case Returned(reference) => PayReturned(email, reference)
    case ThrewDefinite(reference) => Failing(email, Failed, reference)
    case ThrewUnknown(reference) => Failing(email, UnknownOutcome, reference)
    case ThrewOther => Failing(email, Failed, None)
  }

  // What one atomic step of one executor does to the table, to its own local
  // state, and to the provider's log.
  datatype Effect = Effect(table: Table, exec: Executor, sent: seq<ProviderCall>)

  // The catch block: only a payment already known to have landed turns into
  // unknown_outcome here, everything else that is not the provider's own
  // unknown outcome turns into failed.
  function Thrown(table: Table, exec: Executor, committed: bool, now: Time): Effect {
    match exec
    case Starting(e) => Effect(table, Failing(e, Failed, None), [])
    case Loaded(e, _) => Effect(if committed then Claim(table, e, now) else table, Failing(e, Failed, None), [])
    case ClaimWritten(e, _) => Effect(table, Failing(e, Failed, None), [])
    case Ready(e, _, _) => Effect(table, Failing(e, Failed, None), [])
    case PayReturned(e, reference) =>
      Effect(if committed then WritePaid(table, e, reference, now) else table,
             Failing(e, UnknownOutcome, Some(reference)), [])
    case _ => Effect(table, exec, [])
  }

  predicate IsExecutorAction(a: Action) {
    a.Load? || a.ClaimRow? || a.Reread? || a.Send? || a.Respond? || a.RecordPaid? || a.RecordFailed? || a.Throw?
        || a.Crash?
  }

  function Act(table: Table, exec: Executor, a: Action, now: Time): Effect {
    match (a, exec)
    case (Load(_), Starting(e)) =>
      Effect(table, if e in table then Loaded(e, table[e].payable) else Failing(e, Failed, None), [])
    case (ClaimRow(_), Loaded(e, p)) =>
      Effect(Claim(table, e, now), if CanClaim(table, e) then ClaimWritten(e, p) else Failing(e, Failed, None), [])
    case (Reread(_), ClaimWritten(e, p)) =>
      Effect(table, if e in table then Ready(e, p, table[e].idempotencyKey) else Failing(e, Failed, None), [])
    case (Send(x, accepted), Ready(e, p, k)) => Effect(table, Awaiting(e), [ProviderCall(x, e, k, p, accepted)])
    case (Respond(_, response), Awaiting(e)) => Effect(table, Settle(response, e), [])
    case (RecordPaid(_), PayReturned(e, reference)) =>
      Effect(WritePaid(table, e, reference, now),
             if e in table then Finished else Failing(e, UnknownOutcome, Some(reference)), [])
    case (RecordFailed(_), Failing(e, outcome, hint)) => Effect(RecordFailure(table, e, outcome, hint), Finished, [])
    case (Throw(_, committed), _) => Thrown(table, exec, committed, now)
    case (Crash(_), _) => Effect(table, Finished, [])
    case _ => Effect(table, exec, [])
  }

  function Step(s: State, a: Action): State {
    match a
    case Upsert(e, p, k) => s.(table := CreateIfMissing(s.table, e, p, k))
    case Repair(e, p) => s.(table := RepairPayable(s.table, e, p))
    case Begin(x, e) => if x in s.execs then s else s.(execs := s.execs[x := Starting(e)])
    case Promote => s.(table := PromoteStaleClaims(s.table, s.now))
    case FindStuck(task, e) =>
      if e in s.table && Reconcilable(s.table[e])
      then s.(stuck := s.stuck[task := Snapshot(e, s.table[e].paymentReference.value)])
      else s
    case Verdict(task, result) =>
      // A pass handles each row it read once.
      if task in s.stuck
      then s.(table := WriteVerdict(s.table, s.stuck[task].email, result, s.now), stuck := s.stuck - {task})
      else s
    case Abandon(task) => s.(stuck := s.stuck - {task})
    case Tick(elapsed) => s.(now := s.now + elapsed)
    case _ =>
      if a.x in s.execs then
        var effect := Act(s.table, s.execs[a.x], a, s.now);
        State(effect.table, s.execs[a.x := effect.exec], s.calls + effect.sent, s.stuck, s.now)
      else s
  }

  function Run(actions: seq<Action>): State {
    if actions == [] then INIT
    else Step(Run(actions[..|actions| - 1]), actions[|actions| - 1])
  }

  // ---------------------------------------------------------------- invariant

  predicate HoldsClaim(exec: Executor) {
    exec.ClaimWritten? || exec.Ready? || exec.Awaiting? || exec.PayReturned?
  }

  ghost predicate ExecOk(table: Table, exec: Executor) {
    && (HoldsClaim(exec) ==> exec.email in table && !table[exec.email].status.Pending?)
    && (exec.Ready? ==> exec.key == table[exec.email].idempotencyKey)
    && (exec.Failing? ==> exec.outcome.Failed? || exec.outcome.UnknownOutcome?)
  }

  ghost predicate CallOk(table: Table, call: ProviderCall) {
    call.email in table && call.key == table[call.email].idempotencyKey
  }

  ghost predicate Inv(s: State) {
    && KeysUnique(s.table)
    && (forall x :: x in s.execs ==> ExecOk(s.table, s.execs[x]))
    && (forall i :: 0 <= i < |s.calls| ==> CallOk(s.table, s.calls[i]))
  }

  // The status changes a row can go through in one step.
  predicate Edge(before: Status, after: Status) {
    || before == after
    || (Retryable(before) && after.Claimed?)
    || (before.Claimed? && (after.Paid? || after.Failed? || after.UnknownOutcome?))
    || (before.UnknownOutcome? && (after.Paid? || after.Failed?))
    || (before.Failed? && after.Paid?)
  }

  ghost predicate RowStep(before: Intent, after: Intent) {
    && Edge(before.status, after.status)
    && after.idempotencyKey == before.idempotencyKey
    && (!Retryable(before.status) ==> after.payable == before.payable)
  }

  ghost predicate TableStep(before: Table, after: Table) {
    && (forall e :: e in before ==> e in after && RowStep(before[e], after[e]))
    && (forall e :: e in after && e !in before ==> after[e].status.Pending?)
    && KeysUnique(after)
  }

  lemma UpdateTable(table: Table, email: EmailId, after: Intent)
    requires KeysUnique(table)
    requires email in table && RowStep(table[email], after)
    ensures TableStep(table, table[email := after])
  {}

  lemma PromoteTable(table: Table, now: Time)
    requires KeysUnique(table)
    ensures TableStep(table, PromoteStaleClaims(table, now))
  {}

  lemma CreateTable(table: Table, email: EmailId, payable: Payable, key: Token)
    requires KeysUnique(table)
    ensures TableStep(table, CreateIfMissing(table, email, payable, key))
  {}

  lemma ThrownTable(table: Table, exec: Executor, committed: bool, now: Time)
    requires KeysUnique(table) && ExecOk(table, exec)
    ensures TableStep(table, Thrown(table, exec, committed, now).table)
  {
    if committed && exec.Loaded? && CanClaim(table, exec.email) {
      UpdateTable(table, exec.email, Claim(table, exec.email, now)[exec.email]);
    } else if committed && exec.PayReturned? {
      UpdateTable(table, exec.email, WritePaid(table, exec.email, exec.reference, now)[exec.email]);
    }
  }

  lemma ActTable(table: Table, exec: Executor, a: Action, now: Time)
    requires KeysUnique(table) && ExecOk(table, exec)
    ensures TableStep(table, Act(table, exec, a, now).table)
  {
    match (a, exec)
    case (ClaimRow(_), Loaded(e, p)) =>
      if CanClaim(table, e) { UpdateTable(table, e, Claim(table, e, now)[e]); }
    case (RecordPaid(_), PayReturned(e, reference)) =>
      UpdateTable(table, e, WritePaid(table, e, reference, now)[e]);
    case (RecordFailed(_), Failing(e, outcome, hint)) =>
      if CanRecordFailure(table, e) { UpdateTable(table, e, RecordFailure(table, e, outcome, hint)[e]); }
    case (Throw(_, committed), _) => ThrownTable(table, exec, committed, now);
    case _ =>
  }

  // The executor's own next state is justified by the table it just wrote.
  lemma ActExec(table: Table, exec: Executor, a: Action, now: Time)
    requires ExecOk(table, exec)
    ensures ExecOk(Act(table, exec, a, now).table, Act(table, exec, a, now).exec)
    ensures forall call :: call in Act(table, exec, a, now).sent ==> CallOk(table, call)
  {}

  lemma StepTable(s: State, a: Action)
    requires Inv(s)
    ensures TableStep(s.table, Step(s, a).table)
  {
    match a
    case Upsert(e, p, k) => CreateTable(s.table, e, p, k);
    case Repair(e, p) =>
      if CanClaim(s.table, e) { UpdateTable(s.table, e, s.table[e].(payable := p)); }
    case Promote => PromoteTable(s.table, s.now);
    case Verdict(task, result) =>
      if task in s.stuck && s.stuck[task].email in s.table {
        var e := s.stuck[task].email;
        UpdateTable(s.table, e, VerdictRow(s.table[e], result, s.now));
      }
    case Begin(_, _) =>
    case FindStuck(_, _) =>
    case Abandon(_) =>
    case Tick(_) =>
    case _ =>
      if a.x in s.execs {
        assert ExecOk(s.table, s.execs[a.x]);
        ActTable(s.table, s.execs[a.x], a, s.now);
      }
  }

  lemma ExecKept(before: Table, after: Table, exec: Executor)
    requires TableStep(before, after) && ExecOk(before, exec)
    ensures ExecOk(after, exec)
  {}

  lemma StepExecs(s: State, a: Action)
    requires Inv(s)
    ensures forall x :: x in Step(s, a).execs ==> ExecOk(Step(s, a).table, Step(s, a).execs[x])
  {
    var t := Step(s, a);
    StepTable(s, a);
    forall x | x in t.execs
      ensures ExecOk(t.table, t.execs[x])
    {
      if x in s.execs {
        assert ExecOk(s.table, s.execs[x]);
        if IsExecutorAction(a) && a.x == x {
          ActExec(s.table, s.execs[x], a, s.now);
        } else {
          ExecKept(s.table, t.table, s.execs[x]);
        }
      }
    }
  }

  lemma StepCalls(s: State, a: Action)
    requires Inv(s)
    ensures forall i :: 0 <= i < |Step(s, a).calls| ==> CallOk(Step(s, a).table, Step(s, a).calls[i])
  {
    var t := Step(s, a);
    StepTable(s, a);
    forall i | 0 <= i < |t.calls|
      ensures CallOk(t.table, t.calls[i])
    {
      if i < |s.calls| {
        assert CallOk(s.table, s.calls[i]);
      } else {
        assert ExecOk(s.table, s.execs[a.x]);
        ActExec(s.table, s.execs[a.x], a, s.now);
        assert t.calls[i] in Act(s.table, s.execs[a.x], a, s.now).sent;
      }
    }
  }

  lemma StepInv(s: State, a: Action)
    requires Inv(s)
    ensures Inv(Step(s, a))
  {
    StepTable(s, a);
    StepExecs(s, a);
    StepCalls(s, a);
  }

  /**
   * Every reachable state has unique keys, executors that refer to their own rows,
   * and requests that carry their rows' keys.
   */
  lemma {:induction false} RunInv(actions: seq<Action>)
    ensures Inv(Run(actions))
  {
    if actions != [] {
      var before, last := actions[..|actions| - 1], actions[|actions| - 1];
      RunInv(before);
      StepInv(Run(before), last);
    }
  }

  /** A pass reads exactly the uncertain rows whose reference is not their own key. */
  lemma SnapshotMeans(s: State, task: TaskId, email: EmailId)
    ensures Step(s, FindStuck(task, email)) ==
            if email in s.table && s.table[email].status == UnknownOutcome
               && s.table[email].paymentReference.Some?
               && s.table[email].paymentReference.value != s.table[email].idempotencyKey
            then s.(stuck := s.stuck[task := Snapshot(email, s.table[email].paymentReference.value)])
            else s
  {}
}

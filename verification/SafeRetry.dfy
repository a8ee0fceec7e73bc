/**
 * Is a pending or failed row really safe to pay again? The histories here are
 * those of one email whose executions do not overlap, at a provider that does
 * NOT deduplicate, so everything rests on how outcomes are recorded. Reconcilers
 * do overlap, with each other and with executions: a pass reads the reference,
 * asks about it for as long as that takes, and then writes the answer.
 *
 * The world holds what the code cannot see: how many payouts stand, and which
 * provider reference belongs to a payout that stands.
 */
module SafeRetry {
  import opened Common
  import opened PaymentIntents
  import opened PaymentProviders
  import opened PaymentExecution

  // `looks` holds the references that reconciler passes have read and not yet answered for.
  datatype World = World(row: Intent, standing: nat, record: map<Token, bool>, looks: map<TaskId, Token>)

  datatype Event =
    | Execution(attempt: Attempt, faults: Faults, now: Time)
    // The process dies after its claim; `reached` when the request was already out.
    | Died(reached: bool, standing: bool, now: Time)
    | PromoteStale(now: Time)
    | Look(task: TaskId)
    | VerdictEvent(task: TaskId, result: PayoutResult, now: Time)
    | RepairEvent(payable: Payable)

  const EMAIL: EmailId := 0

  function Rows(w: World): Table {
    map[EMAIL := w.row]
  }

  predicate HasOldReference(row: Intent) {
    row.paymentReference.Some? && row.paymentReference.value != row.idempotencyKey
  }

  // The provider answers truthfully, under a reference of its own that is not yet taken.
  ghost predicate AttemptPossible(w: World, attempt: Attempt) {
    && Honest(attempt)
    && var issued := IssuedReference(attempt, w.row.idempotencyKey);
       issued.Some? ==> issued.value !in w.record
  }

  // A verdict answers for the reference asked about, under that or another name of the same payout.
  predicate VerdictPossible(w: World, asked: Token, result: PayoutResult) {
    && asked in w.record
    && (result.status.PayoutPaid? ==> w.record[asked])
    && (result.status.PayoutFailed? ==> !w.record[asked])
    && (result.providerReference in w.record ==> w.record[result.providerReference] == w.record[asked])
  }

  // The conditional write tests the row's status, and nothing else.
  function AfterVerdict(w: World, asked: Token, result: PayoutResult, now: Time): World
    requires asked in w.record
  {
    w.(row := VerdictRow(w.row, result, now), record := w.record[result.providerReference := w.record[asked]])
  }

  function AfterExecution(w: World, attempt: Attempt, faults: Faults, now: Time): World {
    var row := Execute(Rows(w), EMAIL, attempt, faults, now).0;
    var after := if EMAIL in row then row[EMAIL] else w.row;
    if !Pays(Rows(w), EMAIL, faults) then w.(row := after)
    else
      var issued := IssuedReference(attempt, w.row.idempotencyKey);
      World(after,
            w.standing + (if Standing(attempt) then 1 else 0),
            if issued.Some? then w.record[issued.value := Standing(attempt)] else w.record,
            w.looks)
  }

  // Impossible events change nothing, so every sequence of events is a history.
  ghost function Advance(w: World, event: Event): World {
    match event
    case Execution(attempt, faults, now) =>
      if AttemptPossible(w, attempt) then AfterExecution(w, attempt, faults, now) else w
    case Died(reached, standing, now) =>
      if Retryable(w.row.status)
      then World(w.row.(status := Claimed, claimedAt := Some(now)),
                 w.standing + (if reached && standing then 1 else 0), w.record, w.looks)
      else w
    case PromoteStale(now) => w.(row := PromoteRow(w.row, now))
    case Look(task) => if Reconcilable(w.row) then w.(looks := w.looks[task := w.row.paymentReference.value]) else w
    case VerdictEvent(task, result, now) =>
      if task in w.looks && VerdictPossible(w, w.looks[task], result)
      then AfterVerdict(w, w.looks[task], result, now).(looks := w.looks - {task})
      else w
    case RepairEvent(payable) => if Retryable(w.row.status) then w.(row := w.row.(payable := payable)) else w
  }

  ghost function History(payable: Payable, key: Token, events: seq<Event>): World {
    if events == [] then World(FreshIntent(payable, key), 0, map[], map[])
    else Advance(History(payable, key, events[..|events| - 1]), events[|events| - 1])
  }

  // What can be checked before each event: do not execute over a claim somebody
  // may have died on, do not leave a claim unresolved on a row that still carries
  // a reference from an earlier attempt, and do not write a verdict to an
  // uncertain row that no longer carries the reference it answers for.
  predicate Careful(w: World, event: Event) {
    match event
    case Execution(_, faults, _) =>
      !w.row.status.Claimed? && (faults.failureWrite.FailsBefore? ==> !HasOldReference(w.row))
    case Died(_, _, _) => !HasOldReference(w.row)
    case VerdictEvent(task, _, _) =>
      task in w.looks && w.row.status.UnknownOutcome? ==> w.row.paymentReference == Some(w.looks[task])
    case _ => true
  }

  ghost predicate CarefulHistory(payable: Payable, key: Token, events: seq<Event>) {
    forall k :: 0 <= k < |events| ==> Careful(History(payable, key, events[..k]), events[k])
  }

  ghost predicate Safe(w: World) {
    w.standing <= 1 && (Retryable(w.row.status) ==> w.standing == 0)
  }

  ghost predicate RowConsistent(w: World) {
    && Safe(w)
    && (HasOldReference(w.row) ==> w.row.paymentReference.value in w.record)
    && (HasOldReference(w.row) && Retryable(w.row.status) ==> !w.record[w.row.paymentReference.value])
    && (HasOldReference(w.row) && w.row.status.UnknownOutcome? ==>
        (w.record[w.row.paymentReference.value] <==> w.standing == 1))
    && (w.row.status.Claimed? ==> !HasOldReference(w.row))
  }

  ghost predicate Consistent(w: World) {
    && RowConsistent(w)
    && (forall task :: task in w.looks ==> w.looks[task] != w.row.idempotencyKey)
  }

  lemma RecordKept(w: World, attempt: Attempt)
    requires AttemptPossible(w, attempt) && RowConsistent(w) && HasOldReference(w.row)
    ensures IssuedReference(attempt, w.row.idempotencyKey) != w.row.paymentReference
  {}

  lemma ExecutionKeepsRow(w: World, attempt: Attempt, faults: Faults, now: Time)
    requires RowConsistent(w) && AttemptPossible(w, attempt)
    requires Careful(w, Execution(attempt, faults, now))
    ensures RowConsistent(AfterExecution(w, attempt, faults, now))
    ensures AfterExecution(w, attempt, faults, now).row.idempotencyKey == w.row.idempotencyKey
  {
    ClassificationIsSound(attempt, w.row.idempotencyKey);
    if Pays(Rows(w), EMAIL, faults) {
      var claimed := Claim(Rows(w), EMAIL, now);
      assert claimed[EMAIL] == w.row.(status := Claimed, claimedAt := Some(now));
      if HasOldReference(w.row) { RecordKept(w, attempt); }
    }
  }

  lemma ExecutionKeeps(w: World, attempt: Attempt, faults: Faults, now: Time)
    requires Consistent(w) && AttemptPossible(w, attempt)
    requires Careful(w, Execution(attempt, faults, now))
    ensures Consistent(AfterExecution(w, attempt, faults, now))
  {
    ExecutionKeepsRow(w, attempt, faults, now);
  }

  /**
   * What one execution writes, whichever database calls throw, and that it is
   * true. If it reaches the provider: `paid` only over a payout that stands,
   * `failed` only over none, and everything less certain is unknown_outcome, or
   * stays claimed when the failure could not be written. If it does not: a row
   * claimed by then, by anyone, ends failed, or stays claimed when that could
   * not be written, and any other row keeps its status.
   */
  lemma RecordedOutcomeIsTrue(table: Table, email: EmailId, attempt: Attempt, faults: Faults, now: Time)
    requires Honest(attempt)
    ensures email !in table ==> Execute(table, email, attempt, faults, now).0 == table
    ensures email in table ==>
      var response := Pay(attempt, table[email].idempotencyKey);
      var after := Execute(table, email, attempt, faults, now).0;
      var claims := CanClaim(table, email) && !faults.load && !faults.claim.FailsBefore?;
      && email in after
      && if Pays(table, email, faults) then
           && (after[email].status.Paid? <==> response.Returned? && !faults.paidWrite.FailsBefore?)
           && (after[email].status.Failed? <==>
                 (response.ThrewDefinite? || response.ThrewOther?) && !faults.failureWrite.FailsBefore?)
           && (after[email].status.UnknownOutcome? <==>
                 && !faults.failureWrite.FailsBefore?
                 && (response.ThrewUnknown? || (response.Returned? && faults.paidWrite.FailsBefore?)))
           && !after[email].status.Pending?
           && (after[email].status.Paid? ==> Standing(attempt))
           && (after[email].status.Failed? ==> !Standing(attempt))
         else
           after[email].status ==
             if !claims && !table[email].status.Claimed? then table[email].status
             else if faults.failureWrite.FailsBefore? then Claimed
             else Failed
  {
    if email in table {
      ClassificationIsSound(attempt, table[email].idempotencyKey);
    }
  }

  lemma AdvanceKeeps(w: World, event: Event)
    requires Consistent(w) && Careful(w, event)
    ensures Consistent(Advance(w, event))
  {
    match event
    case Execution(attempt, faults, now) =>
      if AttemptPossible(w, attempt) { ExecutionKeeps(w, attempt, faults, now); }
    case _ =>
  }

  /**
   * Over every careful history, with any provider behaviour and any database
   * failures: at most one payout stands, and none while the row invites a retry.
   */
  lemma {:induction false} RetryIsSafe(payable: Payable, key: Token, events: seq<Event>)
    requires CarefulHistory(payable, key, events)
    ensures Safe(History(payable, key, events)) && Consistent(History(payable, key, events))
  {
    if events != [] {
      var before := events[..|events| - 1];
      forall k | 0 <= k < |before|
        ensures Careful(History(payable, key, before[..k]), before[k])
      {
        assert before[..k] == events[..k] && before[k] == events[k];
      }
      RetryIsSafe(payable, key, before);
      AdvanceKeeps(History(payable, key, before), events[|events| - 1]);
    }
  }

  // One reconciler pass by a task of its own: promote, look, and write the answer.
  ghost function Recovered(w: World, task: TaskId, result: PayoutResult, later: Time): World {
    Advance(Advance(Advance(w, PromoteStale(later)), Look(task)), VerdictEvent(task, result, later))
  }

  lemma RecoveryKeeps(w: World, task: TaskId, result: PayoutResult, later: Time)
    requires Consistent(w) && task !in w.looks
    ensures Consistent(Recovered(w, task, result, later))
  {
    var promoted := Advance(w, PromoteStale(later));
    AdvanceKeeps(w, PromoteStale(later));
    AdvanceKeeps(promoted, Look(task));
    AdvanceKeeps(Advance(promoted, Look(task)), VerdictEvent(task, result, later));
  }

  // An abandoned claim over a payout that stands, on a row with an older reference that failed.
  lemma OldReferenceMisleads(w: World, task: TaskId, later: Time)
    requires w.row.status.Claimed? && w.row.claimedAt.Some? && w.row.claimedAt.value + CLAIM_STALE_MS < later
    requires w.standing == 1 && HasOldReference(w.row)
    requires w.row.paymentReference.value in w.record && !w.record[w.row.paymentReference.value]
    ensures !Safe(Recovered(w, task, PayoutResult(w.row.paymentReference.value, PayoutFailed), later))
  {
    var looked := Advance(Advance(w, PromoteStale(later)), Look(task));
    assert looked.looks[task] == w.row.paymentReference.value;
    assert VerdictPossible(looked, looked.looks[task], PayoutResult(w.row.paymentReference.value, PayoutFailed));
  }

  /**
   * The care is needed. A claim died on is recovered soundly by the next pass,
   * whatever happened to its payout and whatever the provider then says, if and
   * only if the row did not already carry an earlier attempt's reference: a
   * claim does not clear it, and the reconciler would ask about that one.
   */
  lemma DeadClaimIsRecoverableIff(w: World, task: TaskId, now: Time, later: Time)
    requires Consistent(w) && Retryable(w.row.status) && now + CLAIM_STALE_MS < later && task !in w.looks
    ensures (forall standing: bool, result: PayoutResult ::
              Safe(Recovered(Advance(w, Died(true, standing, now)), task, result, later)))
            <==> !HasOldReference(w.row)
  {
    if HasOldReference(w.row) {
      OldReferenceMisleads(Advance(w, Died(true, true, now)), task, later);
    } else {
      forall standing: bool, result: PayoutResult
        ensures Safe(Recovered(Advance(w, Died(true, standing, now)), task, result, later))
      {
        AdvanceKeeps(w, Died(true, standing, now));
        RecoveryKeeps(Advance(w, Died(true, standing, now)), task, result, later);
      }
    }
  }

  const UNWRITTEN := Faults(false, Works, false, Works, FailsBefore)

  /**
   * The same of an execution that could not write its failure down: it is
   * recovered soundly if and only if no older reference was there.
   */
  lemma UnwrittenFailureIsRecoverableIff(w: World, task: TaskId, now: Time, later: Time)
    requires Consistent(w) && Retryable(w.row.status) && now + CLAIM_STALE_MS < later && task !in w.looks
    ensures (forall attempt, result ::
              Safe(Recovered(Advance(w, Execution(attempt, UNWRITTEN, now)), task, result, later)))
            <==> !HasOldReference(w.row)
  {
    if HasOldReference(w.row) {
      var silent := ViaPerflo(Killed, true);
      var paid := Advance(w, Execution(silent, UNWRITTEN, now));
      assert paid.row.status.Claimed? && paid.standing == 1 && paid.row.claimedAt == Some(now);
      OldReferenceMisleads(paid, task, later);
    } else {
      forall attempt, result
        ensures Safe(Recovered(Advance(w, Execution(attempt, UNWRITTEN, now)), task, result, later))
      {
        AdvanceKeeps(w, Execution(attempt, UNWRITTEN, now));
        RecoveryKeeps(Advance(w, Execution(attempt, UNWRITTEN, now)), task, result, later);
      }
    }
  }

  // ------------------------------------------------------- verdicts that come late

  // Everything the hidden facts allow: some consistent world has this row, and the provider is truthful.
  ghost predicate MayAnswer(w: World, row: Intent, asked: Token, result: PayoutResult) {
    w.row == row && Consistent(w) && VerdictPossible(w, asked, result)
  }

  /**
   * A verdict on an uncertain row is safe to write, whatever the hidden facts and
   * whatever truthful answer it carries, if and only if the row still carries the
   * reference it answers for. The write tests only the status.
   */
  lemma VerdictIsSafeIff(row: Intent, asked: Token, now: Time)
    requires row.status.UnknownOutcome? && asked != row.idempotencyKey
    ensures (forall w, result :: MayAnswer(w, row, asked, result) ==> Safe(AfterVerdict(w, asked, result, now)))
       <==> row.paymentReference == Some(asked)
  {
    if row.paymentReference != Some(asked) {
      var record := if HasOldReference(row) then map[asked := false, row.paymentReference.value := true]
                    else map[asked := false];
      var w := World(row, 1, record, map[]);
      assert MayAnswer(w, row, asked, PayoutResult(asked, PayoutFailed));
      assert !Safe(AfterVerdict(w, asked, PayoutResult(asked, PayoutFailed), now));
    }
  }

  const ALL_WELL := Faults(false, Works, false, Works, Works)

  // The CLI returns a reference without confirming it, and nothing stands.
  function Unconfirmed(r: Token): Event {
    Execution(ViaPerflo(Body([Ref(r)], Some(false)), false), ALL_WELL, 0)
  }

  // The CLI is killed, and its payout stands.
  const SILENT := Execution(ViaPerflo(Killed, true), ALL_WELL, 0)

  function FailedVerdict(task: TaskId, r: Token): Event {
    VerdictEvent(task, PayoutResult(r, PayoutFailed), 0)
  }

  // Attempt 1 is uncertain under reference r. Passes 0 and 1 both read r; pass 1
  // hears and writes failed, and the owner retries.
  function BeforeTheLateVerdict(r: Token): seq<Event> {
    [] + [Unconfirmed(r)] + [Look(0)] + [Look(1)] + [FailedVerdict(1, r)] + [SILENT]
  }

  lemma HistorySnoc(payable: Payable, key: Token, events: seq<Event>, event: Event)
    ensures History(payable, key, events + [event]) == Advance(History(payable, key, events), event)
    ensures CarefulHistory(payable, key, events) && Careful(History(payable, key, events), event) ==>
              CarefulHistory(payable, key, events + [event])
  {
    var longer := events + [event];
    assert longer[..|events|] == events;
    if CarefulHistory(payable, key, events) && Careful(History(payable, key, events), event) {
      forall k | 0 <= k < |longer|
        ensures Careful(History(payable, key, longer[..k]), longer[k])
      {
        if k < |events| {
          assert longer[..k] == events[..k];
        }
      }
    }
  }

  // The row after attempt 1, and after pass 1 has written its verdict.
  function FirstUncertain(payable: Payable, key: Token, r: Token): Intent {
    Intent(payable, key, UnknownOutcome, Some(r), Some(0), None)
  }

  lemma TwoPassesRead(payable: Payable, key: Token, r: Token)
    requires r != key
    ensures var events := [] + [Unconfirmed(r)] + [Look(0)] + [Look(1)];
      && CarefulHistory(payable, key, events)
      && History(payable, key, events) ==
         World(FirstUncertain(payable, key, r), 0, map[r := false], map[0 := r, 1 := r])
  {
    var e1 := [] + [Unconfirmed(r)];
    HistorySnoc(payable, key, [], Unconfirmed(r));
    HistorySnoc(payable, key, e1, Look(0));
    HistorySnoc(payable, key, e1 + [Look(0)], Look(1));
    FirstAttempt(payable, key, r);
  }

  lemma FirstAttempt(payable: Payable, key: Token, r: Token)
    requires r != key
    ensures Advance(World(FreshIntent(payable, key), 0, map[], map[]), Unconfirmed(r)) ==
            World(FirstUncertain(payable, key, r), 0, map[r := false], map[])
  {
    var attempt := ViaPerflo(Body([Ref(r)], Some(false)), false);
    assert FirstReference([Ref(r)]) == Some(r);
    assert Pay(attempt, key) == ThrewUnknown(Some(r)) && IssuedReference(attempt, key) == Some(r);
  }

  lemma SecondAttempt(w: World, key: Token)
    requires w.row.idempotencyKey == key && w.row.status.Failed? && w.standing == 0
    ensures Advance(w, SILENT) ==
            w.(row := w.row.(status := UnknownOutcome, paymentReference := Some(key), claimedAt := Some(0)),
               standing := 1)
  {
    assert Pay(SILENT.attempt, key) == ThrewUnknown(Some(key)) && IssuedReference(SILENT.attempt, key) == None;
  }

  /**
   * And it happens: pass 0 now writes the truthful answer it was given about the
   * first attempt, and the row invites a retry over the second one's payout. All
   * events but that write are careful, and no two executions overlap.
   */
  lemma LateVerdictReopens(payable: Payable, key: Token, r: Token)
    requires r != key
    ensures CarefulHistory(payable, key, BeforeTheLateVerdict(r))
    ensures var before := History(payable, key, BeforeTheLateVerdict(r));
      var after := History(payable, key, BeforeTheLateVerdict(r) + [FailedVerdict(0, r)]);
      && 0 in before.looks && VerdictPossible(before, before.looks[0], PayoutResult(r, PayoutFailed))
      && after.row.status.Failed? && after.standing == 1 && !Safe(after)
  {
    TwoPassesRead(payable, key, r);
    var events := [] + [Unconfirmed(r)] + [Look(0)] + [Look(1)];
    HistorySnoc(payable, key, events, FailedVerdict(1, r));
    var failed := History(payable, key, events + [FailedVerdict(1, r)]);
    assert failed == World(FirstUncertain(payable, key, r).(status := Failed), 0, map[r := false], map[0 := r]);
    HistorySnoc(payable, key, events + [FailedVerdict(1, r)], SILENT);
    SecondAttempt(failed, key);
    HistorySnoc(payable, key, BeforeTheLateVerdict(r), FailedVerdict(0, r));
  }

  /**
   * Executing again over a claim somebody died on never sends a request, yet
   * records its own failure on the row: the row then invites a retry although
   * the dead attempt's payout may stand.
   */
  lemma ExecutingOverADeadClaim(w: World, attempt: Attempt, now: Time, later: Time)
    requires Consistent(w) && Retryable(w.row.status)
    requires AttemptPossible(w, attempt)
    ensures var over := Advance(Advance(w, Died(true, true, now)),
        Execution(attempt, Faults(false, Works, false, Works, Works), later));
      over.row.status.Failed? && over.standing == 1 && !Safe(over)
  {
    var died := Advance(w, Died(true, true, now));
    assert !Pays(Rows(died), EMAIL, Faults(false, Works, false, Works, Works));
  }
}

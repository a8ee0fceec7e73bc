/**
 * What one execution and one reconciler pass come to, field by field, in terms
 * of the row they found, the calls that threw and what the provider said.
 */
module ExecutionOutcomes {
  import opened Common
  import opened PaymentExecution
  import opened PaymentIntents
  import opened PaymentProviders

  // ------------------------------------------------------------- one execution

  predicate ClaimCommits(table: Table, email: EmailId, faults: Faults) {
    && !faults.load && email in table && (table[email].status == Pending || table[email].status == Failed)
    && faults.claim != FailsBefore
  }

  predicate Asks(table: Table, email: EmailId, faults: Faults) {
    ClaimCommits(table, email, faults) && faults.claim == Works && !faults.reread
  }

  predicate PaidIsWritten(table: Table, email: EmailId, attempt: Attempt, faults: Faults) {
    && Asks(table, email, faults) && Pay(attempt, table[email].idempotencyKey).Returned?
    && faults.paidWrite != FailsBefore
  }

  predicate PaidIsReported(table: Table, email: EmailId, attempt: Attempt, faults: Faults) {
    PaidIsWritten(table, email, attempt, faults) && faults.paidWrite == Works
  }

  // Claimed when the failure is recorded, by this execution or by another.
  predicate ClaimedByThen(table: Table, email: EmailId, attempt: Attempt, faults: Faults) {
    && email in table && !PaidIsWritten(table, email, attempt, faults)
    && (ClaimCommits(table, email, faults) || table[email].status == Claimed)
  }

  // The status and reference that a failure is to be recorded with.
  function ToRecord(table: Table, email: EmailId, attempt: Attempt, faults: Faults): (Status, Option<Token>) {
    if !Asks(table, email, faults) then (Failed, None)
    else
      match Pay(attempt, table[email].idempotencyKey)
      case Returned(reference) => (UnknownOutcome, Some(reference))
      case ThrewDefinite(reference) => (Failed, reference)
      case ThrewUnknown(reference) => (UnknownOutcome, reference)
      case ThrewOther => (Failed, None)
  }

  /**
   * What the caller is told is what happened: paid, with the provider's
   * reference, exactly when the paid write of a returned payout worked; a
   * recorded failure exactly when a working write found a claimed row; not
   * claimed when it found none; and an error exactly when that write threw.
   */
  lemma ResultMeans(table: Table, email: EmailId, attempt: Attempt, faults: Faults, now: Time)
    ensures var result, reported :=
        Execute(table, email, attempt, faults, now).1, PaidIsReported(table, email, attempt, faults);
      && (forall reference :: result == ExecPaid(reference) <==>
            reported && Pay(attempt, table[email].idempotencyKey) == Returned(reference))
      && (forall outcome, hint :: result == ExecRecorded(outcome, hint) <==>
            && !reported && faults.failureWrite == Works && ClaimedByThen(table, email, attempt, faults)
            && ToRecord(table, email, attempt, faults) == (outcome, hint))
      && (result == NotClaimed <==>
            !reported && faults.failureWrite == Works && !ClaimedByThen(table, email, attempt, faults))
      && (result == Raised <==> !reported && faults.failureWrite != Works)
  {}

  // The whole row an execution leaves.
  function RowAfter(table: Table, email: EmailId, attempt: Attempt, faults: Faults, now: Time): Intent
    requires email in table
  {
    var row := table[email];
    var (outcome, hint) := ToRecord(table, email, attempt, faults);
    var paid := PaidIsWritten(table, email, attempt, faults);
    var claimed := ClaimedByThen(table, email, attempt, faults);
    var failed := claimed && faults.failureWrite != FailsBefore;
    Intent(
      row.payable,
      row.idempotencyKey,
      if paid then Paid else if failed then outcome else if claimed then Claimed else row.status,
      if paid then Some(Pay(attempt, row.idempotencyKey).reference)
      else if failed && hint.Some? then hint else row.paymentReference,
      if ClaimCommits(table, email, faults) then Some(now) else row.claimedAt,
      if paid then Some(now) else row.paidAt)
  }

  lemma UnaskedRow(table: Table, email: EmailId, attempt: Attempt, faults: Faults, now: Time)
    requires email in table && !Asks(table, email, faults)
    ensures email in Execute(table, email, attempt, faults, now).0
    ensures Execute(table, email, attempt, faults, now).0[email] == RowAfter(table, email, attempt, faults, now)
  {}

  lemma AskedRow(table: Table, email: EmailId, attempt: Attempt, faults: Faults, now: Time)
    requires email in table && Asks(table, email, faults)
    ensures email in Execute(table, email, attempt, faults, now).0
    ensures Execute(table, email, attempt, faults, now).0[email] == RowAfter(table, email, attempt, faults, now)
  {
    var claimed := Claim(table, email, now);
    assert claimed[email] == table[email].(status := Claimed, claimedAt := Some(now));
  }

  lemma OtherRows(table: Table, email: EmailId, attempt: Attempt, faults: Faults, now: Time)
    ensures var after := Execute(table, email, attempt, faults, now).0;
      && after.Keys == table.Keys
      && forall other :: other in table && other != email ==> after[other] == table[other]
  {}

  /** The whole row an execution leaves, and that it touches no other. */
  lemma RowMeans(table: Table, email: EmailId, attempt: Attempt, faults: Faults, now: Time)
    ensures var after := Execute(table, email, attempt, faults, now).0;
      && after.Keys == table.Keys
      && (forall other :: other in table && other != email ==> after[other] == table[other])
      && (email in table ==> after[email] == RowAfter(table, email, attempt, faults, now))
  {
    OtherRows(table, email, attempt, faults, now);
    if email in table {
      if Asks(table, email, faults) {
        AskedRow(table, email, attempt, faults, now);
      } else {
        UnaskedRow(table, email, attempt, faults, now);
      }
    }
  }

  // ------------------------------------------------------- one reconciler pass

  // Fifteen minutes, in milliseconds.
  predicate Abandoned(row: Intent, now: Time) {
    row.status == Claimed && row.claimedAt.Some? && row.claimedAt.value + 900_000 < now
  }

  /** Promotion moves exactly the claims older than fifteen minutes, and changes nothing else about them or others. */
  lemma PromotionMeans(table: Table, now: Time)
    ensures var after := PromoteStaleClaims(table, now);
      && after.Keys == table.Keys
      && forall email :: email in table ==>
           after[email] == if Abandoned(table[email], now) then table[email].(status := UnknownOutcome)
               else table[email]
    ensures forall email :: email in StaleRows(table, now) <==> email in table && Abandoned(table[email], now)
  {}

  // What the provider says of an uncertain row's own reference, if it is asked and answers.
  function Answer(row: Intent, lookup: map<Token, PayoutResult>): Option<PayoutResult> {
    if row.paymentReference.Some? && row.paymentReference.value != row.idempotencyKey
       && row.paymentReference.value in lookup
    then Some(lookup[row.paymentReference.value])
    else None
  }

  /**
   * After a pass: a row that was neither uncertain nor abandoned is as it was;
   * any other is settled as the provider answered for its reference, under the
   * provider's name for it, and is uncertain if there was no final answer.
   */
  lemma PassMeans(table: Table, lookup: map<Token, PayoutResult>, now: Time, email: EmailId)
    requires email in table
    ensures var row, after := table[email], Reconciled(table, lookup, now);
      var uncertain := row.(status := UnknownOutcome);
      && after.Keys == table.Keys
      && after[email] ==
         if row.status != UnknownOutcome && !Abandoned(row, now) then row
         else if Answer(row, lookup).None? then uncertain
         else
           var answer := Answer(row, lookup).value;
           if answer.status == PayoutPaid then
             row.(status := Paid, paidAt := Some(now), paymentReference := Some(answer.providerReference))
           else if answer.status == PayoutFailed then
             row.(status := Failed, paymentReference := Some(answer.providerReference))
           else uncertain
  {}

  /** What a pass counts as checked, and as settled: uncertain rows with a reference, and those with a final answer. */
  lemma CountsMean(table: Table, lookup: map<Token, PayoutResult>, now: Time, email: EmailId)
    ensures email in StuckRows(table) <==>
            email in table && table[email].status == UnknownOutcome && table[email].paymentReference != None
    ensures email in SettledRows(table, lookup, now) <==>
            && email in table && table[email].status == UnknownOutcome
            && Answer(table[email], lookup).Some?
            && (Answer(table[email], lookup).value.status == PayoutPaid
                || Answer(table[email], lookup).value.status == PayoutFailed)
  {}

  // --------------------------------------------------------- what it is called

  /** RazorpayX's status words, and what they are to us. */
  lemma StatusWordsMean(word: string)
    ensures MapRazorpayStatus(word) ==
            if word in {"queued", "pending", "processing"} then PayoutProcessing
            else if word == "processed" then PayoutPaid
            else if word in {"reversed", "rejected", "cancelled", "failed"} then PayoutFailed
            else PayoutUnknown
  {}

  function ReferenceIn(response: Response): Option<Token> {
    match response
    case Returned(reference) => Some(reference)
    case ThrewDefinite(reference) => reference
    case ThrewUnknown(reference) => reference
    case ThrewOther => None
  }

  /** At RazorpayX the reference is the payout's own id once it answered, and our key in every other case. */
  lemma RazorpayReference(run: RazorpayRun, standing: bool, key: Token)
    ensures ReferenceIn(Pay(ViaRazorpay(run, standing), key)) ==
            if run.inr && run.contact.Answered? && run.fundAccount.Answered? && run.payout.Answered?
            then Some(run.payout.value.id)
            else Some(key)
  {}

  predicate FirstPresent(fields: seq<Field>, k: nat) {
    k < |fields| && fields[k] != Absent && forall j :: 0 <= j < k ==> fields[j] == Absent
  }

  lemma {:induction false} FirstReferenceIs(fields: seq<Field>, k: nat)
    requires FirstPresent(fields, k)
    ensures FirstReference(fields) == if fields[k].Ref? then Some(fields[k].token) else None
  {
    if k > 0 {
      FirstReferenceIs(fields[1..], k - 1);
    }
  }

  lemma {:induction false} NoReference(fields: seq<Field>)
    requires forall k :: 0 <= k < |fields| ==> fields[k] == Absent
    ensures FirstReference(fields) == None
  {
    if fields != [] {
      NoReference(fields[1..]);
    }
  }

  /**
   * At Perflo it is the first field present, if that names anything, and otherwise
   * our key, or nothing for a bare error.
   */
  lemma PerfloReference(run: CliRun, standing: bool, key: Token)
    ensures var reference := ReferenceIn(Pay(ViaPerflo(run, standing), key));
      match run
      case RefusedBadly => reference == None
      case Body(fields, _) =>
        && (forall k: nat :: FirstPresent(fields, k) && fields[k].Ref? ==> reference == Some(fields[k].token))
        && ((forall k: nat :: FirstPresent(fields, k) ==> fields[k] == Empty) ==> reference == Some(key))
      case _ => reference == Some(key)
  {
    if run.Body? {
      var fields := run.references;
      forall k: nat | FirstPresent(fields, k)
        ensures FirstReference(fields) == if fields[k].Ref? then Some(fields[k].token) else None
      {
        FirstReferenceIs(fields, k);
      }
      if j: nat :| j < |fields| && fields[j] != Absent {
        var first := FirstAtOrBefore(fields, j);
      } else {
        NoReference(fields);
      }
    }
  }

  lemma FirstAtOrBefore(fields: seq<Field>, j: nat) returns (k: nat)
    requires j < |fields| && fields[j] != Absent
    ensures FirstPresent(fields, k)
  {
    if i: nat :| i < j && fields[i] != Absent {
      k := FirstAtOrBefore(fields, i);
    } else {
      k := j;
    }
  }

  predicate AnsweredUncertainly(run: RazorpayRun) {
    && run.inr && run.contact.Answered? && run.fundAccount.Answered? && run.payout.Answered?
    && run.payout.value.status !in {"processed", "reversed", "rejected", "cancelled", "failed"}
  }

  /**
   * So a payout RazorpayX answered for without a final word can be followed up:
   * the row it leaves carries the payout's id, and the next pass settles it as
   * the provider then says.
   */
  lemma UncertainPayoutIsSettled(
      table: Table, email: EmailId, run: RazorpayRun, standing: bool, faults: Faults, now: Time,
      lookup: map<Token, PayoutResult>, later: Time)
    requires Asks(table, email, faults) && faults.failureWrite != FailsBefore
    requires AnsweredUncertainly(run) && run.payout.value.id != table[email].idempotencyKey
    requires run.payout.value.id in lookup
    ensures var after := Execute(table, email, ViaRazorpay(run, standing), faults, now).0;
      var settled := Reconciled(after, lookup, later);
      && email in after && after[email].status == UnknownOutcome
      && after[email].paymentReference == Some(run.payout.value.id)
      && email in settled
      && (lookup[run.payout.value.id].status == PayoutPaid ==> settled[email].status == Paid)
      && (lookup[run.payout.value.id].status == PayoutFailed ==> settled[email].status == Failed)
  {
    RowMeans(table, email, ViaRazorpay(run, standing), faults, now);
    PassMeans(Execute(table, email, ViaRazorpay(run, standing), faults, now).0, lookup, later, email);
  }
}

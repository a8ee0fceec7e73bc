/** Replay detection: one lookup, and a batch processed in source order. */
module Duplicates {
  import opened Common

  datatype Amount = Amount(currency: string, value: string)

  datatype Fingerprint = Fingerprint(
    emailId: EmailId,
    payeeId: PayeeId,
    referenceNumber: Option<string>,
    referenceIsFallback: bool,
    amount: Option<Amount>)

  datatype DuplicateResult =
    | NotDuplicate
    | FallbackReferenceMatch(suspect: EmailId)
    | ReferenceAmountMismatch(suspect: EmailId)
    | Duplicate(originalEmailId: EmailId)

  // A missing and an empty reference are both no reference.
  predicate HasReference(f: Fingerprint) {
    f.referenceNumber.Some? && f.referenceNumber.value != ""
  }

  predicate SameInvoice(f: Fingerprint, g: Fingerprint) {
    f.emailId != g.emailId && f.payeeId == g.payeeId && f.referenceNumber == g.referenceNumber
  }

  // An explicit reference on both sides, and the same amount to the letter.
  predicate ExactMatch(f: Fingerprint, g: Fingerprint) {
    !f.referenceIsFallback && !g.referenceIsFallback && f.amount.Some? && f.amount == g.amount
  }

  function FirstMatch(current: Fingerprint, history: seq<Fingerprint>): Option<Fingerprint> {
    if history == [] then None
    else if SameInvoice(history[0], current) then Some(history[0])
    else FirstMatch(current, history[1..])
  }

  function FindDuplicate(current: Fingerprint, history: seq<Fingerprint>): DuplicateResult {
    var prior := FirstMatch(current, history);
    if !HasReference(current) || prior.None? then NotDuplicate
    else if current.referenceIsFallback || prior.value.referenceIsFallback then
      FallbackReferenceMatch(prior.value.emailId)
    else if current.amount.None? || prior.value.amount.None? || current.amount != prior.value.amount
    then ReferenceAmountMismatch(prior.value.emailId)
    else Duplicate(prior.value.emailId)
  }

  lemma {:induction false} FirstMatchIs(current: Fingerprint, history: seq<Fingerprint>)
    ensures match FirstMatch(current, history)
      case None => forall h :: h in history ==> !SameInvoice(h, current)
      case Some(prior) => prior in history && SameInvoice(prior, current)
  {
    if history != [] && !SameInvoice(history[0], current) {
      FirstMatchIs(current, history[1..]);
    }
  }

  // The row a verdict points at, and what must be true of it.
  predicate Accuses(prior: Fingerprint, current: Fingerprint, result: DuplicateResult) {
    && prior.emailId != current.emailId && prior.payeeId == current.payeeId
    && prior.referenceNumber == current.referenceNumber
    && current.referenceNumber != None && current.referenceNumber != Some("") &&
    match result
    case NotDuplicate => false
    case FallbackReferenceMatch(suspect) =>
        prior.emailId == suspect && (prior.referenceIsFallback || current.referenceIsFallback)
    case ReferenceAmountMismatch(suspect) =>
      && prior.emailId == suspect && !prior.referenceIsFallback && !current.referenceIsFallback
      && (prior.amount != current.amount || current.amount.None?)
    case Duplicate(original) =>
      && prior.emailId == original && !prior.referenceIsFallback && !current.referenceIsFallback
      && prior.amount == current.amount && current.amount.Some?
  }

  /**
   * Every verdict names another email of the same payee and reference and says
   * something true of it: what is suppressed repeats it to the letter. There is
   * none exactly when the reference is missing or nobody used it before.
   */
  lemma VerdictNamesARealOriginal(current: Fingerprint, history: seq<Fingerprint>)
    ensures FindDuplicate(current, history).NotDuplicate? <==>
            current.referenceNumber == None || current.referenceNumber == Some("") || !Repeats(current, history)
    ensures !FindDuplicate(current, history).NotDuplicate? ==>
              exists prior :: prior in history && Accuses(prior, current, FindDuplicate(current, history))
  {
    FirstMatchIs(current, history);
    var prior := FirstMatch(current, history);
    if HasReference(current) && prior.Some? {
      assert Accuses(prior.value, current, FindDuplicate(current, history));
    }
  }

  lemma MoveToFront(history: seq<Fingerprint>, k: nat)
    requires k < |history|
    ensures Reordering([history[k]] + history[..k] + history[k + 1..], history)
  {
    assert history == history[..k] + [history[k]] + history[k + 1..];
  }

  ghost predicate Repeats(current: Fingerprint, history: seq<Fingerprint>) {
    exists h :: h in history && h.emailId != current.emailId && h.payeeId == current.payeeId
                && h.referenceNumber == current.referenceNumber
  }

  /**
   * Rows come back from the database in no particular order, and only the first
   * one with the same payee and reference is compared. A replay is recognised
   * whatever that order exactly when there is such a row and every such row
   * matches exactly; otherwise some order hides it.
   */
  lemma DuplicateInEveryOrderIff(current: Fingerprint, history: seq<Fingerprint>)
    ensures (forall order :: Reordering(order, history) ==> FindDuplicate(current, order).Duplicate?)
      <==> HasReference(current) && Repeats(current, history)
           && forall h :: h in history && SameInvoice(h, current) ==> ExactMatch(h, current)
  {
    var every := forall h :: h in history && SameInvoice(h, current) ==> ExactMatch(h, current);
    if HasReference(current) && Repeats(current, history) && every {
      var h :| h in history && SameInvoice(h, current);
      forall order | Reordering(order, history)
        ensures FindDuplicate(current, order).Duplicate?
      {
        SameMembers(order, history);
        FirstMatchIs(current, order);
        assert h in order;
      }
    } else if !every {
      var h :| h in history && SameInvoice(h, current) && !ExactMatch(h, current);
      var k: nat :| k < |history| && history[k] == h;
      MoveToFront(history, k);
      var order := [h] + history[..k] + history[k + 1..];
      assert FirstMatch(current, order) == Some(h);
      assert !FindDuplicate(current, order).Duplicate?;
    } else {
      FirstMatchIs(current, history);
      assert !FindDuplicate(current, history).Duplicate?;
      assert Reordering(history, history);
    }
  }

  // --------------------------------------------------------------------- a batch

  // One stored email row, as far as replay detection reads it.
  datatype Row = Row(emailId: EmailId, resolvedPayee: Option<PayeeId>, referenceNumber: Option<string>,
      referenceIsFallback: bool, amount: Option<Amount>)

  function FingerprintOf(row: Row): Fingerprint
    requires row.resolvedPayee.Some?
  {
    Fingerprint(row.emailId, row.resolvedPayee.value, row.referenceNumber, row.referenceIsFallback, row.amount)
  }

  function FingerprintsFromRows(rows: seq<Row>): seq<Fingerprint> {
    if rows == [] then []
    else
      FingerprintsFromRows(rows[..|rows| - 1])
      + if rows[|rows| - 1].resolvedPayee.Some? then [FingerprintOf(rows[|rows| - 1])] else []
  }

  lemma {:induction false} FingerprintMembers(rows: seq<Row>, f: Fingerprint)
    ensures f in FingerprintsFromRows(rows) <==>
            Row(f.emailId, Some(f.payeeId), f.referenceNumber, f.referenceIsFallback, f.amount) in rows
  {
    if rows != [] {
      var last := rows[|rows| - 1];
      FingerprintMembers(rows[..|rows| - 1], f);
      assert rows == rows[..|rows| - 1] + [last];
    }
  }

  // The detector runs only for a resolved payee and an extracted amount.
  function Detect(row: Row, history: seq<Fingerprint>): DuplicateResult {
    if row.resolvedPayee.Some? && row.amount.Some? then FindDuplicate(FingerprintOf(row), history) else NotDuplicate
  }

  // What a row's verdict rests on: some reading of everything processed before it.
  ghost predicate Judged(before: seq<Row>, row: Row, history: seq<Fingerprint>, result: DuplicateResult) {
    Reordering(history, FingerprintsFromRows(before)) && result == Detect(row, history)
  }

  ghost predicate AllJudged(
      stored: seq<Row>, rows: seq<Row>, histories: seq<seq<Fingerprint>>, results: seq<DuplicateResult>) {
    && |results| == |histories| == |rows|
    && forall n :: 0 <= n < |rows| ==> Judged(stored + rows[..n], rows[n], histories[n], results[n])
  }

  lemma OneMoreJudged(stored: seq<Row>, rows: seq<Row>, histories: seq<seq<Fingerprint>>, results: seq<DuplicateResult>,
                      row: Row, history: seq<Fingerprint>, result: DuplicateResult)
    requires AllJudged(stored, rows, histories, results) && Judged(stored + rows, row, history, result)
    ensures AllJudged(stored, rows + [row], histories + [history], results + [result])
  {
    var longer := rows + [row];
    forall n | 0 <= n < |longer|
      ensures Judged(stored + longer[..n], longer[n], (histories + [history])[n], (results + [result])[n])
    {
      assert longer[..n] == rows[..n];
      assert rows[..|rows|] == rows;
    }
  }

  lemma NextJudged(
      stored: seq<Row>, rows: seq<Row>, n: nat, histories: seq<seq<Fingerprint>>, results: seq<DuplicateResult>,
                   history: seq<Fingerprint>)
    requires n < |rows| && AllJudged(stored, rows[..n], histories, results)
    requires Reordering(history, FingerprintsFromRows(stored + rows[..n]))
    ensures AllJudged(stored, rows[..n + 1], histories + [history], results + [Detect(rows[n], history)])
    ensures stored + rows[..n + 1] == stored + rows[..n] + [rows[n]]
  {
    OneMoreJudged(stored, rows[..n], histories, results, rows[n], history, Detect(rows[n], history));
    assert rows[..n + 1] == rows[..n] + [rows[n]];
  }

  class EmailTable {
    var processed: seq<Row>

    constructor (rows: seq<Row>)
      ensures processed == rows
    {
      processed := rows;
    }

    // The query has no ORDER BY: callers learn nothing about the order.
    method LoadHistory() returns (history: seq<Fingerprint>)
      ensures Reordering(history, FingerprintsFromRows(processed))
    {
      history := FingerprintsFromRows(processed);
    }

    method ProcessInsertedEmails(rows: seq<Row>)
        returns (results: seq<DuplicateResult>, histories: seq<seq<Fingerprint>>)
      modifies this
      ensures processed == old(processed) + rows
      ensures AllJudged(old(processed), rows, histories, results)
    {
      results, histories := [], [];
      assert rows[..0] == [] && old(processed) + [] == processed;
      var history := LoadHistory();
      for n := 0 to |rows|
        invariant processed == old(processed) + rows[..n]
        invariant Reordering(history, FingerprintsFromRows(processed))
        invariant AllJudged(old(processed), rows[..n], histories, results)
      {
        NextJudged(old(processed), rows, n, histories, results, history);
        results, histories := results + [Detect(rows[n], history)], histories + [history];
        processed := processed + [rows[n]];
        history := LoadHistory();
      }
      assert rows[..|rows|] == rows;
    }
  }

  // Rows of one payee and reference.
  predicate InClass(row: Row, payee: PayeeId, reference: string) {
    row.resolvedPayee == Some(payee) && row.referenceNumber == Some(reference)
  }

  ghost predicate OneAmount(rows: seq<Row>, payee: PayeeId, reference: string, amount: Amount) {
    forall row :: row in rows && InClass(row, payee, reference) ==>
        !row.referenceIsFallback && row.amount == Some(amount)
  }

  ghost predicate HasClass(rows: seq<Row>, payee: PayeeId, reference: string) {
    exists row :: row in rows && InClass(row, payee, reference)
  }

  lemma MatchIsInClass(before: seq<Row>, row: Row, prior: Fingerprint, payee: PayeeId, reference: string)
      returns (match_: Row)
    requires InClass(row, payee, reference)
    requires prior in FingerprintsFromRows(before) && SameInvoice(prior, FingerprintOf(row))
    ensures match_ in before && InClass(match_, payee, reference) && FingerprintOf(match_) == prior
  {
    FingerprintMembers(before, prior);
    match_ := Row(prior.emailId, Some(prior.payeeId), prior.referenceNumber, prior.referenceIsFallback, prior.amount);
  }

  /**
   * When every row of a payee and reference is explicit and carries one amount,
   * a row is suppressed if and only if an earlier one, in the batch or stored
   * before it, has the same payee and reference, whatever order the history was
   * read in. So a batch keeps exactly the first in source order, or none.
   */
  lemma OnlyTheFirstIsKept(
      before: seq<Row>, row: Row, history: seq<Fingerprint>, result: DuplicateResult,
      payee: PayeeId, reference: string, amount: Amount)
    requires Judged(before, row, history, result)
    requires InClass(row, payee, reference) && reference != ""
    requires OneAmount(before + [row], payee, reference, amount)
    requires forall other :: other in before ==> other.emailId != row.emailId
    ensures result.Duplicate? <==> HasClass(before, payee, reference)
  {
    var current := FingerprintOf(row);
    var prior := FirstMatch(current, history);
    SameMembers(history, FingerprintsFromRows(before));
    FirstMatchIs(current, history);
    assert row in before + [row];
    if HasClass(before, payee, reference) {
      var earlier :| earlier in before && InClass(earlier, payee, reference);
      FingerprintMembers(before, FingerprintOf(earlier));
      assert SameInvoice(FingerprintOf(earlier), current);
    }
    if prior.Some? {
      var match_ := MatchIsInClass(before, row, prior.value, payee, reference);
      assert match_ in before + [row];
    }
  }

  /** A row is looked up exactly when it has a payee and an amount, and with its own values. */
  lemma DetectMeans(row: Row, history: seq<Fingerprint>)
    ensures Detect(row, history) ==
            if row.resolvedPayee.Some? && row.amount.Some?
            then FindDuplicate(
                   Fingerprint(row.emailId, row.resolvedPayee.value, row.referenceNumber, row.referenceIsFallback,
                       row.amount),
                   history)
            else NotDuplicate
  {}

  lemma {:induction false} OneFingerprintEach(rows: seq<Row>)
    ensures |FingerprintsFromRows(rows)| == |set k | 0 <= k < |rows| && rows[k].resolvedPayee.Some?|
  {
    if rows != [] {
      var n := |rows| - 1;
      OneFingerprintEach(rows[..n]);
      var before := set k | 0 <= k < n && rows[k].resolvedPayee.Some?;
      assert before == set k | 0 <= k < n && rows[..n][k].resolvedPayee.Some?;
      assert (set k | 0 <= k < |rows| && rows[k].resolvedPayee.Some?) ==
             if rows[n].resolvedPayee.Some? then before + {n} else before;
    }
  }
}

/** A resume pass whose turns read usage from the very intents it pays. */
module ResumeCaps {
  import opened Common
  import opened PaymentIntents
  import opened PayeeResolver
  import opened Eligibility
  import opened Policy
  import opened Level1
  import opened Resume

  type Numbers = string -> Option<real>

  predicate InFlight(status: Status) {
    status.Claimed? || status.UnknownOutcome?
  }

  // Usage counts paid rows; exposure counts those in flight as well.
  datatype Scope = Settled | Exposed

  predicate Counts(rows: Table, email: EmailId, nickname: string, scope: Scope) {
    && email in rows && rows[email].payable.recipientNickname == nickname
    && (rows[email].status.Paid? || (scope.Exposed? && InFlight(rows[email].status)))
  }

  function AmountOf(payable: Payable, number: Numbers): real {
    if number(payable.amount).Some? then number(payable.amount).value else 0.0
  }

  // What one row adds; prepared amounts have been validated as numbers.
  function Added(rows: Table, email: EmailId, nickname: string, number: Numbers, scope: Scope): real {
    if Counts(rows, email, nickname, scope) then AmountOf(rows[email].payable, number) else 0.0
  }

  // The sum and count over a payee's rows, in the order the query returns them.
  function Sum(rows: Table, order: seq<EmailId>, nickname: string, number: Numbers, scope: Scope): Usage {
    if order == [] then NO_USAGE
    else
      var before, last := Sum(rows, order[..|order| - 1], nickname, number, scope), order[|order| - 1];
      Usage(before.totalPaid + Added(rows, last, nickname, number, scope),
            before.paidCount + if Counts(rows, last, nickname, scope) then 1 else 0)
  }

  function UsageOf(rows: Table, order: seq<EmailId>, nickname: string, number: Numbers): Usage {
    Sum(rows, order, nickname, number, Settled)
  }

  predicate Distinct(order: seq<EmailId>) {
    forall i, j :: 0 <= i < j < |order| ==> order[i] != order[j]
  }

  predicate AgreeBut(a: Table, b: Table, email: EmailId) {
    && (forall other :: other in a && other != email ==> other in b && b[other] == a[other])
    && (forall other :: other in b && other != email ==> other in a)
  }

  lemma {:induction false} SumElsewhere(
      a: Table, b: Table, order: seq<EmailId>, email: EmailId, nickname: string, number: Numbers, scope: Scope)
    requires AgreeBut(a, b, email) && email !in order
    ensures Sum(a, order, nickname, number, scope) == Sum(b, order, nickname, number, scope)
  {
    if order != [] {
      var last := order[|order| - 1];
      assert last in order;
      SumElsewhere(a, b, order[..|order| - 1], email, nickname, number, scope);
    }
  }

  // Changing one row changes a sum by that row alone.
  lemma {:induction false} SumOfOneRow(
      a: Table, b: Table, order: seq<EmailId>, email: EmailId, nickname: string, number: Numbers, scope: Scope)
    requires AgreeBut(a, b, email) && Distinct(order) && email in order
    ensures Sum(b, order, nickname, number, scope).totalPaid == Sum(a, order, nickname, number, scope).totalPaid
              - Added(a, email, nickname, number, scope) + Added(b, email, nickname, number, scope)
    ensures Sum(b, order, nickname, number, scope).paidCount + (if Counts(a, email, nickname, scope) then 1 else 0)
         == Sum(a, order, nickname, number, scope).paidCount + (if Counts(b, email, nickname, scope) then 1 else 0)
  {
    var n := |order| - 1;
    if order[n] == email {
      SumElsewhere(a, b, order[..n], email, nickname, number, scope);
    } else {
      SumOfOneRow(a, b, order[..n], email, nickname, number, scope);
    }
  }

  predicate WithinGrant(usage: Usage, grant: Grant) {
    && (grant.totalCapInr.Some? ==> usage.totalPaid <= grant.totalCapInr.value)
    && (grant.maxPayments.Some? ==> usage.paidCount <= grant.maxPayments.value)
  }

  // Usage is read from the rows as they are now, and a payment for this
  // nickname is measured against this grant.
  ghost predicate ReadsItsRows(
      rows: Table, row: StoredEmail, turn: Turn, order: seq<EmailId>, nickname: string, number: Numbers, grant: Grant)
  {
    turn.view.Some? ==>
      var view := turn.view.value;
      && view.number == number
      && view.usage(nickname) == UsageOf(rows, order, nickname, number)
      && (row.evidence.Some? && row.evidence.value.resolution.Resolved?
          && row.evidence.value.resolution.recipientNickname == nickname ==>
            var payee := FindPayee(view.payees, row.evidence.value.resolution.payeeId);
            payee.Some? ==> payee.value.recipientNickname == nickname && payee.value.grant == grant)
  }

  lemma PaymentFits(
      row: StoredEmail, turn: Turn, rows: Table, order: seq<EmailId>, nickname: string, number: Numbers, grant: Grant)
    requires turn.view.Some? && row.evidence.Some? && Replayed(row, turn.view.value).decision.AutoPay?
    requires ReadsItsRows(rows, row, turn, order, nickname, number, grant)
    requires Judged(row).Some? && Judged(row).value.recipientNickname == nickname
    ensures number(Judged(row).value.amount).Some?
    ensures var usage := UsageOf(rows, order, nickname, number);
      WithinGrant(Usage(usage.totalPaid + number(Judged(row).value.amount).value, usage.paidCount + 1), grant)
  {
    ReplayedAutoPayIff(row, turn.view.value);
  }

  lemma AutoPaidAgrees(rows: Table, email: EmailId, payable: Payable, turn: Turn)
    ensures AgreeBut(rows, AutoPaid(rows, email, payable, turn), email)
  {
    forall other | other != email
      ensures other in AutoPaid(rows, email, payable, turn) <==> other in rows
      ensures other in rows ==> AutoPaid(rows, email, payable, turn)[other] == rows[other]
    {
      AutoPaidFrames(rows, email, payable, turn, other);
    }
  }

  lemma PaidRow(rows: Table, email: EmailId, payable: Payable, turn: Turn)
    requires email in rows ==> rows[email].payable == payable
    ensures var after := AutoPaid(rows, email, payable, turn);
      AgreeBut(rows, after, email) && (email in after ==> after[email].payable == payable)
  {
    AutoPaidAgrees(rows, email, payable, turn);
    ExecuteKeepsThePayable(CreateIfMissing(rows, email, payable, turn.key), email, turn.attempt, turn.faults, turn.now);
  }

  // One turn: whatever its payment comes to, the payee stays within its grant.
  lemma TurnStaysWithin(
      desk: Desk, row: StoredEmail, email: EmailId, turn: Turn,
      order: seq<EmailId>, nickname: string, number: Numbers, grant: Grant)
    requires email in desk.emails && desk.emails[email] == row && Distinct(order) && email in order
    requires ReadsItsRows(desk.rows, row, turn, order, nickname, number, grant)
    requires email in desk.rows && Judged(row).Some? ==> desk.rows[email].payable == Judged(row).value
    requires WithinGrant(UsageOf(desk.rows, order, nickname, number), grant)
    ensures WithinGrant(UsageOf(One(desk, row, email, turn).rows, order, nickname, number), grant)
  {
    var after := One(desk, row, email, turn).rows;
    if after != desk.rows {
      var payable := Judged(row).value;
      PaidRow(desk.rows, email, payable, turn);
      SumOfOneRow(desk.rows, after, order, email, nickname, number, Settled);
      if payable.recipientNickname == nickname {
        PaymentFits(row, turn, desk.rows, order, nickname, number, grant);
      }
    }
  }

  // The order lists every intent there is and every email the pass may pay.
  predicate Lists(order: seq<EmailId>, rows: Table, candidates: seq<EmailId>) {
    && Distinct(order) && (forall email :: email in rows ==> email in order)
    && (forall i :: 0 <= i < |candidates| ==> candidates[i] in order)
  }

  /**
   * A resume pass keeps every payee it started within its grant there: if each
   * turn reads usage from the intents as the earlier turns left them, and no
   * candidate's intent was prepared on terms other than those judged, the paid
   * total and count stay within the caps, however its payments and their
   * database calls turn out.
   */
  lemma {:induction false} PassStaysWithinGrant(
      emails: Mailbox, rows: Table, candidates: seq<EmailId>, turns: seq<Turn>,
      order: seq<EmailId>, nickname: string, number: Numbers, grant: Grant)
    requires Candidates(emails, candidates) && |turns| == |candidates| && Lists(order, rows, candidates)
    requires forall n :: 0 <= n < |candidates| ==>
      ReadsItsRows(Before(emails, rows, candidates, turns, n).rows, emails[candidates[n]], turns[n],
                   order, nickname, number, grant)
    requires forall n :: 0 <= n < |candidates| && candidates[n] in rows && Judged(emails[candidates[n]]).Some? ==>
      rows[candidates[n]].payable == Judged(emails[candidates[n]]).value
    requires WithinGrant(UsageOf(rows, order, nickname, number), grant)
    ensures WithinGrant(UsageOf(Pass(emails, rows, candidates, turns).rows, order, nickname, number), grant)
  {
    if candidates != [] {
      var n := |candidates| - 1;
      forall k | 0 <= k < n
        ensures Before(emails, rows, candidates[..n], turns[..n], k) == Before(emails, rows, candidates, turns, k)
      {
        assert candidates[..n][..k] == candidates[..k] && turns[..n][..k] == turns[..k];
      }
      PassStaysWithinGrant(emails, rows, candidates[..n], turns[..n], order, nickname, number, grant);
      OwnTurn(emails, rows, candidates, turns, n);
      TurnStaysWithin(Before(emails, rows, candidates, turns, n), emails[candidates[n]], candidates[n], turns[n],
                      order, nickname, number, grant);
    }
  }

  // ------------------------------------------------- payments the pass leaves in flight

  // Any way the intents in flight may be settled: each stays uncertain, fails or turns out paid.
  ghost predicate SettlesTo(rows: Table, settled: Table) {
    && rows.Keys == settled.Keys
    && forall email :: email in rows ==>
         if InFlight(rows[email].status)
         then settled[email].payable == rows[email].payable && !settled[email].status.Pending?
         else settled[email] == rows[email]
  }

  ghost predicate SafeHoweverItSettles(
      rows: Table, order: seq<EmailId>, nickname: string, number: Numbers, grant: Grant)
  {
    forall settled :: SettlesTo(rows, settled) ==> WithinGrant(UsageOf(settled, order, nickname, number), grant)
  }

  predicate NoDebts(rows: Table, number: Numbers) {
    forall email :: email in rows ==> AmountOf(rows[email].payable, number) >= 0.0
  }

  lemma {:induction false} SettledIsExposed(
      rows: Table, settled: Table, order: seq<EmailId>, nickname: string, number: Numbers)
    requires NoDebts(rows, number) && SettlesTo(rows, settled)
    ensures var usage := UsageOf(settled, order, nickname, number);
      var exposure := Sum(rows, order, nickname, number, Exposed);
      usage.totalPaid <= exposure.totalPaid && usage.paidCount <= exposure.paidCount
  {
    if order != [] {
      SettledIsExposed(rows, settled, order[..|order| - 1], nickname, number);
    }
  }

  function AllPaid(rows: Table): Table {
    map email | email in rows :: if InFlight(rows[email].status) then rows[email].(status := Paid) else rows[email]
  }

  lemma {:induction false} AllPaidIsExposed(rows: Table, order: seq<EmailId>, nickname: string, number: Numbers)
    ensures UsageOf(AllPaid(rows), order, nickname, number) == Sum(rows, order, nickname, number, Exposed)
  {
    if order != [] {
      AllPaidIsExposed(rows, order[..|order| - 1], nickname, number);
    }
  }

  lemma SafeIffExposureFits(rows: Table, order: seq<EmailId>, nickname: string, number: Numbers, grant: Grant)
    requires NoDebts(rows, number)
    ensures SafeHoweverItSettles(rows, order, nickname, number, grant) <==>
            WithinGrant(Sum(rows, order, nickname, number, Exposed), grant)
  {
    if WithinGrant(Sum(rows, order, nickname, number, Exposed), grant) {
      forall settled | SettlesTo(rows, settled)
        ensures WithinGrant(UsageOf(settled, order, nickname, number), grant)
      {
        SettledIsExposed(rows, settled, order, nickname, number);
      }
    } else {
      AllPaidIsExposed(rows, order, nickname, number);
      assert SettlesTo(rows, AllPaid(rows));
    }
  }

  function Plus(a: Usage, b: Usage): Usage {
    Usage(a.totalPaid + b.totalPaid, a.paidCount + b.paidCount)
  }

  predicate Adds(a: Usage, b: Usage, sum: Usage) {
    sum.totalPaid == a.totalPaid + b.totalPaid && sum.paidCount == a.paidCount + b.paidCount
  }

  // What an intent comes to in `after`, paid or in flight, if it was neither in `before`.
  function Newly(before: Table, after: Table, email: EmailId, nickname: string, number: Numbers): Usage {
    if Counts(after, email, nickname, Exposed) && !Counts(before, email, nickname, Exposed)
    then Usage(AmountOf(after[email].payable, number), 1)
    else NO_USAGE
  }

  function HandedOver(handed: seq<EmailId>, before: Table, after: Table, nickname: string, number: Numbers): Usage {
    if handed == [] then NO_USAGE
    else
      var n := |handed| - 1;
      Plus(HandedOver(handed[..n], before, after, nickname, number), Newly(before, after, handed[n], nickname, number))
  }

  lemma TurnLeavesOthers(desk: Desk, row: StoredEmail, email: EmailId, turn: Turn)
    ensures AgreeBut(desk.rows, One(desk, row, email, turn).rows, email)
  {
    if Judged(row).Some? {
      AutoPaidAgrees(desk.rows, email, Judged(row).value, turn);
    }
  }

  // An intent that counts already has begun, and is not begun again.
  lemma TurnLeavesBegun(desk: Desk, row: StoredEmail, email: EmailId, turn: Turn, nickname: string)
    requires Counts(desk.rows, email, nickname, Exposed)
    ensures One(desk, row, email, turn).rows == desk.rows
  {
    assert PaymentHasStarted(desk.rows, email);
  }

  // Changing one row that did not count adds to exposure what that row comes to.
  lemma OneRowExposes(a: Table, b: Table, order: seq<EmailId>, email: EmailId, nickname: string, number: Numbers)
    requires AgreeBut(a, b, email) && Distinct(order) && email in order
    requires Counts(a, email, nickname, Exposed) ==> email in b && b[email] == a[email]
    ensures Adds(Sum(a, order, nickname, number, Exposed), Newly(a, b, email, nickname, number),
                 Sum(b, order, nickname, number, Exposed))
  {
    SumOfOneRow(a, b, order, email, nickname, number, Exposed);
    NewlyIsTheDifference(a, b, email, nickname, number);
  }

  lemma NewlyIsTheDifference(a: Table, b: Table, email: EmailId, nickname: string, number: Numbers)
    requires Counts(a, email, nickname, Exposed) ==> email in b && b[email] == a[email]
    ensures var newly := Newly(a, b, email, nickname, number);
      && newly.totalPaid ==
         Added(b, email, nickname, number, Exposed) - Added(a, email, nickname, number, Exposed)
      && newly.paidCount + (if Counts(a, email, nickname, Exposed) then 1 else 0) ==
         (if Counts(b, email, nickname, Exposed) then 1 else 0)
  {}

  lemma {:induction false} HandedOverElsewhere(
      handed: seq<EmailId>, before: Table, a: Table, b: Table, email: EmailId, nickname: string, number: Numbers)
    requires AgreeBut(a, b, email) && email !in handed
    ensures HandedOver(handed, before, a, nickname, number) == HandedOver(handed, before, b, nickname, number)
  {
    if handed != [] {
      assert handed[|handed| - 1] in handed;
      HandedOverElsewhere(handed[..|handed| - 1], before, a, b, email, nickname, number);
    }
  }

  /** Exposure after a pass is exposure before it and what its candidates' intents have come to. */
  lemma {:induction false} PassExposes(
      emails: Mailbox, rows: Table, candidates: seq<EmailId>, turns: seq<Turn>,
      order: seq<EmailId>, nickname: string, number: Numbers)
    requires Candidates(emails, candidates) && |turns| == |candidates| && Lists(order, rows, candidates)
    ensures var after := Pass(emails, rows, candidates, turns).rows;
      Adds(Sum(rows, order, nickname, number, Exposed), HandedOver(candidates, rows, after, nickname, number),
           Sum(after, order, nickname, number, Exposed))
  {
    if candidates != [] {
      var n := |candidates| - 1;
      var email := candidates[n];
      var before, after := Before(emails, rows, candidates, turns, n), Pass(emails, rows, candidates, turns);
      PassExposes(emails, rows, candidates[..n], turns[..n], order, nickname, number);
      OwnTurn(emails, rows, candidates, turns, n);
      TurnLeavesOthers(before, emails[email], email, turns[n]);
      if Counts(before.rows, email, nickname, Exposed) {
        TurnLeavesBegun(before, emails[email], email, turns[n], nickname);
      }
      OneRowExposes(before.rows, after.rows, order, email, nickname, number);
      HandedOverElsewhere(candidates[..n], rows, before.rows, after.rows, email, nickname, number);
      assert Newly(rows, after.rows, email, nickname, number)
          == Newly(before.rows, after.rows, email, nickname, number);
    }
  }

  predicate NotNegative(row: StoredEmail, number: Numbers) {
    Judged(row).Some? ==> AmountOf(Judged(row).value, number) >= 0.0
  }

  lemma TurnLeavesNoDebts(desk: Desk, row: StoredEmail, email: EmailId, turn: Turn, number: Numbers)
    requires NoDebts(desk.rows, number) && NotNegative(row, number)
    ensures NoDebts(One(desk, row, email, turn).rows, number)
  {
    var after := One(desk, row, email, turn).rows;
    if after != desk.rows {
      var payable := Judged(row).value;
      ExecuteKeepsThePayable(
        CreateIfMissing(desk.rows, email, payable, turn.key), email, turn.attempt, turn.faults, turn.now);
      AutoPaidAgrees(desk.rows, email, payable, turn);
    }
  }

  lemma {:induction false} PassLeavesNoDebts(
      emails: Mailbox, rows: Table, candidates: seq<EmailId>, turns: seq<Turn>, number: Numbers)
    requires Candidates(emails, candidates) && |turns| == |candidates| && NoDebts(rows, number)
    requires forall i :: 0 <= i < |candidates| ==> NotNegative(emails[candidates[i]], number)
    ensures NoDebts(Pass(emails, rows, candidates, turns).rows, number)
  {
    if candidates != [] {
      var n := |candidates| - 1;
      PassLeavesNoDebts(emails, rows, candidates[..n], turns[..n], number);
      TurnLeavesNoDebts(
        Pass(emails, rows, candidates[..n], turns[..n]), emails[candidates[n]], candidates[n], turns[n], number);
    }
  }

  /**
   * After a pass, the payee's paid total and count stay within its grant however
   * the payments in flight are settled later if and only if what was paid or in
   * flight before the pass, and what the pass paid or left in flight, fit
   * together. Its turns do not look at what is in flight.
   */
  lemma PassIsSafeIff(
      emails: Mailbox, rows: Table, candidates: seq<EmailId>, turns: seq<Turn>,
      order: seq<EmailId>, nickname: string, number: Numbers, grant: Grant)
    requires Candidates(emails, candidates) && |turns| == |candidates| && Lists(order, rows, candidates)
    requires NoDebts(rows, number)
    requires forall i :: 0 <= i < |candidates| ==> NotNegative(emails[candidates[i]], number)
    ensures var after := Pass(emails, rows, candidates, turns).rows;
      SafeHoweverItSettles(after, order, nickname, number, grant) <==>
      WithinGrant(Plus(Sum(rows, order, nickname, number, Exposed),
                       HandedOver(candidates, rows, after, nickname, number)), grant)
  {
    PassExposes(emails, rows, candidates, turns, order, nickname, number);
    PassLeavesNoDebts(emails, rows, candidates, turns, number);
    SafeIffExposureFits(Pass(emails, rows, candidates, turns).rows, order, nickname, number, grant);
  }
}

/** Re-evaluating stored emails, and the pass that resumes what only the pause held back. */
module Resume {
  import opened Common
  import opened PaymentIntents
  import opened PaymentProviders
  import opened ExecutionOutcomes
  import opened PaymentExecution
  import opened Policy
  import opened Level1

  type Mailbox = map<EmailId, StoredEmail>

  datatype Refusal = PaymentStarted(status: Status) | NoSuchEmail | NotProcessed | LoadFailed

  datatype Answer = Reached(verdict: Verdict) | Threw(refusal: Refusal)

  // Everything one turn of the pass reads from outside: the payees and settings
  // (None when loading them throws), the paid verifier, and how the payout goes.
  datatype Turn = Turn(view: Option<View>, verified: bool, key: Token, attempt: Attempt, faults: Faults, now: Time)

  // None stands for "Missing resolved payee or amount".
  datatype Blocked = Blocked(emailId: EmailId, reasons: Option<seq<Reason>>)

  datatype PassSummary = PassSummary(scanned: nat, paid: seq<EmailId>, stillBlocked: seq<Blocked>, errors: seq<EmailId>)

  // Re-processing is refused once a payment has started.
  predicate PaymentHasStarted(rows: Table, email: EmailId) {
    email in rows && !rows[email].status.Pending?
  }

  function Reevaluated(emails: Mailbox, rows: Table, email: EmailId, view: Option<View>): Answer {
    if PaymentHasStarted(rows, email) then Threw(PaymentStarted(rows[email].status))
    else if email !in emails then Threw(NoSuchEmail)
    else if emails[email].evidence.None? then Threw(NotProcessed)
    else if view.None? then Threw(LoadFailed)
    else Reached(Replayed(emails[email], view.value))
  }

  function Labelled(emails: Mailbox, email: EmailId, verdict: Verdict): Mailbox
    requires email in emails
  {
    emails[email := emails[email].(verdict := Some(verdict))]
  }

  // What the query selects, and what the loop then skips.
  predicate Queued(row: StoredEmail) {
    row.verdict.Some? && row.verdict.value.decision.NeedsApproval?
  }

  predicate PauseOnly(row: StoredEmail) {
    row.verdict.Some? && row.verdict.value.reasons == [GlobalPause]
  }

  // The payment the stored evidence asks for.
  function Judged(row: StoredEmail): Option<Payable> {
    if row.evidence.None? then None
    else
      var e := row.evidence.value;
      if !e.resolution.Resolved? || e.resolution.recipientNickname == "" || e.summary.amount.None? then None
      else Some(Payable(e.resolution.recipientNickname, e.summary.amount.value.value, e.summary.amount.value.currency))
  }

  predicate Permitted(turn: Turn) {
    turn.verified && turn.view.Some? && turn.view.value.settings.autoPayOn
  }

  function AutoPaid(rows: Table, email: EmailId, payable: Payable, turn: Turn): Table {
    if Permitted(turn)
    then Execute(CreateIfMissing(rows, email, payable, turn.key), email, turn.attempt, turn.faults, turn.now).0
    else rows
  }

  datatype Desk = Desk(emails: Mailbox, rows: Table, summary: PassSummary)

  function One(desk: Desk, snapshot: StoredEmail, email: EmailId, turn: Turn): Desk {
    if !PauseOnly(snapshot) then desk
    else
      var s := desk.summary.(scanned := desk.summary.scanned + 1);
      var answer := Reevaluated(desk.emails, desk.rows, email, turn.view);
      if answer.Threw? then desk.(summary := s.(errors := s.errors + [email]))
      else
        var emails := Labelled(desk.emails, email, answer.verdict);
        if !answer.verdict.decision.AutoPay? then
          Desk(emails, desk.rows, s.(stillBlocked := s.stillBlocked + [Blocked(email, Some(answer.verdict.reasons))]))
        else if Judged(snapshot).None? then
          Desk(emails, desk.rows, s.(stillBlocked := s.stillBlocked + [Blocked(email, None)]))
        else
          Desk(emails, AutoPaid(desk.rows, email, Judged(snapshot).value, turn), s.(paid := s.paid + [email]))
  }

  predicate Candidates(emails: Mailbox, candidates: seq<EmailId>) {
    && (forall i :: 0 <= i < |candidates| ==> candidates[i] in emails)
    && forall i, j :: 0 <= i < j < |candidates| ==> candidates[i] != candidates[j]
  }

  function Pass(emails: Mailbox, rows: Table, candidates: seq<EmailId>, turns: seq<Turn>): Desk
    requires Candidates(emails, candidates) && |turns| == |candidates|
  {
    if candidates == [] then Desk(emails, rows, PassSummary(0, [], [], []))
    else
      var n := |candidates| - 1;
      One(Pass(emails, rows, candidates[..n], turns[..n]), emails[candidates[n]], candidates[n], turns[n])
  }

  class ReviewDesk {
    var emails: Mailbox
    const store: PaymentIntentStore

    constructor (store: PaymentIntentStore)
      ensures this.store == store && emails == map[]
    {
      this.store := store;
      emails := map[];
    }

    method ReevaluatePolicy(email: EmailId, view: Option<View>) returns (answer: Answer)
      modifies this`emails
      ensures answer == Reevaluated(old(emails), store.rows, email, view)
      ensures emails == if answer.Reached? then Labelled(old(emails), email, answer.verdict) else old(emails)
    {
      if email in store.rows && !store.rows[email].status.Pending? {
        return Threw(PaymentStarted(store.rows[email].status));
      }
      if email !in emails {
        return Threw(NoSuchEmail);
      }
      if emails[email].evidence.None? {
        return Threw(NotProcessed);
      }
      if view.None? {
        return Threw(LoadFailed);
      }
      var evidence := emails[email].evidence.value;
      var verdict := DecidePolicy(ReplayInput(emails[email], evidence, view.value));
      verdict := ApplyCurrencyGuard(verdict, Currency(evidence.summary.amount));
      emails := emails[email := emails[email].(verdict := Some(verdict))];
      answer := Reached(verdict);
    }

    method ResumeAutoPay(candidates: seq<EmailId>, turns: seq<Turn>) returns (summary: PassSummary)
      requires Candidates(emails, candidates) && |turns| == |candidates|
      requires forall i :: 0 <= i < |candidates| ==> Queued(emails[candidates[i]])
      modifies this`emails, store
      ensures Desk(emails, store.rows, summary) == Pass(old(emails), old(store.rows), candidates, turns)
    {
      var snapshot := emails;
      ghost var rows := store.rows;
      summary := PassSummary(0, [], [], []);
      for n := 0 to |candidates|
        invariant Desk(emails, store.rows, summary) == Pass(snapshot, rows, candidates[..n], turns[..n])
      {
        assert candidates[..n + 1][..n] == candidates[..n] && turns[..n + 1][..n] == turns[..n];
        var email, turn := candidates[n], turns[n];
        var row := snapshot[email];
        if !PauseOnly(row) {
          continue;
        }
        summary := summary.(scanned := summary.scanned + 1);
        var answer := ReevaluatePolicy(email, turn.view);
        if answer.Threw? {
          summary := summary.(errors := summary.errors + [email]);
          continue;
        }
        if !answer.verdict.decision.AutoPay? {
          summary := summary.(stillBlocked := summary.stillBlocked + [Blocked(email, Some(answer.verdict.reasons))]);
          continue;
        }
        var payable := Judged(row);
        if payable.None? {
          summary := summary.(stillBlocked := summary.stillBlocked + [Blocked(email, None)]);
          continue;
        }
        store.RunAutoPay(email, payable.value, turn.key, Permitted(turn), turn.attempt, turn.faults, turn.now);
        summary := summary.(paid := summary.paid + [email]);
      }
      assert candidates[..|candidates|] == candidates && turns[..|turns|] == turns;
    }
  }

  // ------------------------------------------------------------------ the partition

  function Scanned(emails: Mailbox, candidates: seq<EmailId>): seq<EmailId>
    requires Candidates(emails, candidates)
  {
    if candidates == [] then []
    else
      var n := |candidates| - 1;
      Scanned(emails, candidates[..n]) + if PauseOnly(emails[candidates[n]]) then [candidates[n]] else []
  }

  function Ids(blocked: seq<Blocked>): seq<EmailId> {
    if blocked == [] then [] else Ids(blocked[..|blocked| - 1]) + [blocked[|blocked| - 1].emailId]
  }

  function Accounted(summary: PassSummary): multiset<EmailId> {
    multiset(summary.paid) + multiset(Ids(summary.stillBlocked)) + multiset(summary.errors)
  }

  lemma IdsSnoc(blocked: seq<Blocked>, last: Blocked)
    ensures Ids(blocked + [last]) == Ids(blocked) + [last.emailId]
  {
    assert (blocked + [last])[..|blocked|] == blocked;
  }

  lemma MoreAccounted(s: PassSummary, email: EmailId, reasons: Option<seq<Reason>>)
    ensures Accounted(s.(paid := s.paid + [email])) == Accounted(s) + multiset{email}
    ensures Accounted(s.(errors := s.errors + [email])) == Accounted(s) + multiset{email}
    ensures Accounted(s.(stillBlocked := s.stillBlocked + [Blocked(email, reasons)])) == Accounted(s) + multiset{email}
  {
    IdsSnoc(s.stillBlocked, Blocked(email, reasons));
  }

  predicate Extends(longer: PassSummary, s: PassSummary, email: EmailId) {
    || longer == s.(paid := s.paid + [email])
    || longer == s.(errors := s.errors + [email])
    || (longer.stillBlocked != [] &&
        var last := longer.stillBlocked[|longer.stillBlocked| - 1];
        longer == s.(stillBlocked := s.stillBlocked + [Blocked(email, last.reasons)]))
  }

  lemma OneExtends(desk: Desk, snapshot: StoredEmail, email: EmailId, turn: Turn)
    ensures var summary := One(desk, snapshot, email, turn).summary;
            if PauseOnly(snapshot) then Extends(summary, desk.summary.(scanned := desk.summary.scanned + 1), email)
            else summary == desk.summary
  {}

  lemma ExtendsAccounts(longer: PassSummary, s: PassSummary, email: EmailId)
    requires Extends(longer, s, email)
    ensures Accounted(longer) == Accounted(s) + multiset{email} && longer.scanned == s.scanned
  {
    MoreAccounted(s, email, if longer.stillBlocked == [] then None
        else longer.stillBlocked[|longer.stillBlocked| - 1].reasons);
  }

  predicate Partitions(summary: PassSummary, scanned: seq<EmailId>) {
    Accounted(summary) == multiset(scanned) && summary.scanned == |scanned|
  }

  lemma PartitionStep(before: PassSummary, after: PassSummary, scanned: seq<EmailId>, email: EmailId)
    requires Partitions(before, scanned) && Extends(after, before.(scanned := before.scanned + 1), email)
    ensures Partitions(after, scanned + [email])
  {
    ExtendsAccounts(after, before.(scanned := before.scanned + 1), email);
  }

  lemma OnePartitions(desk: Desk, snapshot: StoredEmail, email: EmailId, turn: Turn, scanned: seq<EmailId>)
    requires Partitions(desk.summary, scanned)
    ensures Partitions(One(desk, snapshot, email, turn).summary, scanned + if PauseOnly(snapshot) then [email] else [])
  {
    OneExtends(desk, snapshot, email, turn);
    if PauseOnly(snapshot) {
      PartitionStep(desk.summary, One(desk, snapshot, email, turn).summary, scanned, email);
    } else {
      assert scanned + [] == scanned;
    }
  }

  /** Every scanned row ends in exactly one of the three lists, and nothing else does. */
  lemma {:induction false} PassPartitions(emails: Mailbox, rows: Table, candidates: seq<EmailId>, turns: seq<Turn>)
    requires Candidates(emails, candidates) && |turns| == |candidates|
    ensures Partitions(Pass(emails, rows, candidates, turns).summary, Scanned(emails, candidates))
  {
    if candidates != [] {
      var n := |candidates| - 1;
      PassPartitions(emails, rows, candidates[..n], turns[..n]);
      var before := Pass(emails, rows, candidates[..n], turns[..n]);
      OnePartitions(before, emails[candidates[n]], candidates[n], turns[n], Scanned(emails, candidates[..n]));
    }
  }

  // ----------------------------------------------- what happens to one email of a pass

  // The desk as it stood when this email's turn came, seen from this email alone.
  predicate SameFor(desk: Desk, emails: Mailbox, rows: Table, email: EmailId) {
    && (email in desk.emails <==> email in emails) && (email in emails ==> desk.emails[email] == emails[email])
    && (email in desk.rows <==> email in rows) && (email in rows ==> desk.rows[email] == rows[email])
  }

  lemma AutoPaidFrames(rows: Table, email: EmailId, payable: Payable, turn: Turn, other: EmailId)
    requires other != email
    ensures other in AutoPaid(rows, email, payable, turn) <==> other in rows
    ensures other in rows ==> AutoPaid(rows, email, payable, turn)[other] == rows[other]
  {}

  lemma OneFrames(desk: Desk, snapshot: StoredEmail, email: EmailId, turn: Turn, other: EmailId)
    requires other != email
    ensures SameFor(One(desk, snapshot, email, turn), desk.emails, desk.rows, other)
    ensures other in One(desk, snapshot, email, turn).summary.paid <==> other in desk.summary.paid
    ensures other in One(desk, snapshot, email, turn).summary.errors <==> other in desk.summary.errors
  {
    if Judged(snapshot).Some? {
      AutoPaidFrames(desk.rows, email, Judged(snapshot).value, turn, other);
    }
  }

  /** Emails that are not candidates keep their label and their intent, and are in no list. */
  lemma {:induction false} PassFrames(
      emails: Mailbox, rows: Table, candidates: seq<EmailId>, turns: seq<Turn>, other: EmailId)
    requires Candidates(emails, candidates) && |turns| == |candidates| && other !in candidates
    ensures var desk := Pass(emails, rows, candidates, turns);
            SameFor(desk, emails, rows, other) && other !in desk.summary.paid && other !in desk.summary.errors
  {
    if candidates != [] {
      var n := |candidates| - 1;
      PassFrames(emails, rows, candidates[..n], turns[..n], other);
      OneFrames(Pass(emails, rows, candidates[..n], turns[..n]), emails[candidates[n]], candidates[n], turns[n], other);
    }
  }

  // The desk just before and just after the n-th candidate's own turn.
  function Before(emails: Mailbox, rows: Table, candidates: seq<EmailId>, turns: seq<Turn>, n: nat): Desk
    requires Candidates(emails, candidates) && |turns| == |candidates| && n < |candidates|
  {
    Pass(emails, rows, candidates[..n], turns[..n])
  }

  function After(emails: Mailbox, rows: Table, candidates: seq<EmailId>, turns: seq<Turn>, n: nat): Desk
    requires Candidates(emails, candidates) && |turns| == |candidates| && n < |candidates|
  {
    One(Before(emails, rows, candidates, turns, n), emails[candidates[n]], candidates[n], turns[n])
  }

  /** The other turns of a pass neither feed into an email's own turn nor disturb what came of it. */
  lemma {:induction false} OwnTurn(emails: Mailbox, rows: Table, candidates: seq<EmailId>, turns: seq<Turn>, n: nat)
    requires Candidates(emails, candidates) && |turns| == |candidates| && n < |candidates|
    ensures var e, before := candidates[n], Before(emails, rows, candidates, turns, n);
            SameFor(before, emails, rows, e) && e !in before.summary.paid && e !in before.summary.errors
    ensures var e, after, end :=
        candidates[n], After(emails, rows, candidates, turns, n), Pass(emails, rows, candidates, turns);
            && SameFor(end, after.emails, after.rows, e)
            && (e in end.summary.paid <==> e in after.summary.paid)
            && (e in end.summary.errors <==> e in after.summary.errors)
  {
    var last := |candidates| - 1;
    PassFrames(emails, rows, candidates[..n], turns[..n], candidates[n]);
    if n < last {
      assert candidates[..last][..n] == candidates[..n] && turns[..last][..n] == turns[..n];
      OwnTurn(emails, rows, candidates[..last], turns[..last], n);
      OneFrames(Pass(emails, rows, candidates[..last], turns[..last]), emails[candidates[last]], candidates[last],
          turns[last], candidates[n]);
    }
  }

  predicate PayableNow(row: StoredEmail, view: View) {
    && EvidenceStands(row)
    && PayeeMayBePaid(row.evidence.value.resolution.payeeId, row.evidence.value.summary.amount, view)
    && row.evidence.value.resolution.recipientNickname != ""
  }

  /**
   * Which emails a pass hands over for payment: held back by the pause alone,
   * no payment begun, and everything about evidence, grant, caps and switches
   * in order when its turn comes, after whatever the earlier turns paid.
   */
  lemma HandedOverIff(emails: Mailbox, rows: Table, candidates: seq<EmailId>, turns: seq<Turn>, n: nat)
    requires Candidates(emails, candidates) && |turns| == |candidates| && n < |candidates|
    ensures candidates[n] in Pass(emails, rows, candidates, turns).summary.paid <==>
            && PauseOnly(emails[candidates[n]]) && !PaymentHasStarted(rows, candidates[n])
            && turns[n].view.Some? && PayableNow(emails[candidates[n]], turns[n].view.value)
  {
    OwnTurn(emails, rows, candidates, turns, n);
    var row := emails[candidates[n]];
    if row.evidence.Some? && turns[n].view.Some? {
      ReplayedAutoPayIff(row, turns[n].view.value);
    }
  }

  lemma ReleasedNeverSaysPaused(input: PolicyInput)
    requires !input.paused
    ensures GlobalPause !in Decide(input).reasons
  {
    ReasonsAreTheBlockers(input, GlobalPause);
  }

  lemma SwitchedOnIsNotPauseOnly(row: StoredEmail, view: View)
    requires row.evidence.Some? && view.settings.autoPayOn
    ensures Replayed(row, view).reasons != [GlobalPause]
  {
    var input := ReplayInput(row, row.evidence.value, view);
    ReleasedNeverSaysPaused(input);
    var reasons := Decide(input).reasons;
    assert [GlobalPause][0] == GlobalPause;
    assert (reasons + [OnlyInr])[|reasons|] == OnlyInr;
  }

  predicate OnWhenRead(turn: Turn) {
    turn.view.Some? ==> turn.view.value.settings.autoPayOn
  }

  // One turn alone: afterwards the email is still queued for the pause alone exactly when the turn failed.
  lemma OneTurnSettles(desk: Desk, snapshot: StoredEmail, email: EmailId, turn: Turn)
    requires email in desk.emails && desk.emails[email] == snapshot && email !in desk.summary.errors
    requires Queued(snapshot) && OnWhenRead(turn)
    ensures var after := One(desk, snapshot, email, turn);
            && email in after.emails
            && (email in after.summary.errors <==>
                  after.emails[email].verdict == Some(Verdict(NeedsApproval, [GlobalPause])))
  {
    if snapshot.evidence.Some? && turn.view.Some? {
      SwitchedOnIsNotPauseOnly(snapshot, turn.view.value);
    }
  }

  /**
   * Running the action again right away scans exactly the emails whose turn
   * failed: no paid or judged row is ever taken up twice.
   */
  lemma SecondPassScansOnlyErrors(emails: Mailbox, rows: Table, candidates: seq<EmailId>, turns: seq<Turn>, n: nat)
    requires Candidates(emails, candidates) && |turns| == |candidates| && n < |candidates|
    requires Queued(emails[candidates[n]]) && OnWhenRead(turns[n])
    ensures var end := Pass(emails, rows, candidates, turns);
            && candidates[n] in end.emails
            && (candidates[n] in end.summary.errors <==>
                  end.emails[candidates[n]].verdict == Some(Verdict(NeedsApproval, [GlobalPause])))
  {
    OwnTurn(emails, rows, candidates, turns, n);
    OneTurnSettles(Before(emails, rows, candidates, turns, n), emails[candidates[n]], candidates[n], turns[n]);
  }

  // ------------------------------------------------------------- what then gets paid

  lemma ExecuteKeepsThePayable(rows: Table, email: EmailId, attempt: Attempt, faults: Faults, now: Time)
    ensures email in Execute(rows, email, attempt, faults, now).0 <==> email in rows
    ensures email in rows ==> Execute(rows, email, attempt, faults, now).0[email].payable == rows[email].payable
  {}

  /**
   * A pass leaves alone every intent that had begun; one it hands over is paid on
   * the terms just judged exactly when no intent was prepared on other terms.
   */
  lemma PaidAsJudgedIff(emails: Mailbox, rows: Table, candidates: seq<EmailId>, turns: seq<Turn>, n: nat)
    requires Candidates(emails, candidates) && |turns| == |candidates| && n < |candidates|
    ensures var e, end := candidates[n], Pass(emails, rows, candidates, turns);
            && (PaymentHasStarted(rows, e) ==> e in end.rows && end.rows[e] == rows[e])
            && (e in end.summary.paid && e in end.rows ==>
                  (Judged(emails[e]) == Some(end.rows[e].payable) <==>
                      e !in rows || Judged(emails[e]) == Some(rows[e].payable)))
  {
    var e, end := candidates[n], Pass(emails, rows, candidates, turns);
    OwnTurn(emails, rows, candidates, turns, n);
    var before := Before(emails, rows, candidates, turns, n);
    if e in end.summary.paid && Permitted(turns[n]) {
      var created := CreateIfMissing(before.rows, e, Judged(emails[e]).value, turns[n].key);
      ExecuteKeepsThePayable(created, e, turns[n].attempt, turns[n].faults, turns[n].now);
    }
  }

  // ------------------------------------------------------ one turn, written out

  /**
   * Why a re-evaluation is refused: a payment that has begun first, then a missing
   * or unprocessed email, then a failed load.
   */
  lemma RefusalMeans(emails: Mailbox, rows: Table, email: EmailId, view: Option<View>)
    ensures var answer := Reevaluated(emails, rows, email, view);
      if email in rows && rows[email].status != Pending then answer == Threw(PaymentStarted(rows[email].status))
      else if email !in emails then answer == Threw(NoSuchEmail)
      else if emails[email].evidence == None then answer == Threw(NotProcessed)
      else if view.None? then answer == Threw(LoadFailed)
      else answer == Reached(Replayed(emails[email], view.value))
  {}

  // An email that a turn takes up, and one whose re-evaluation then answers.
  predicate TakenUp(row: StoredEmail) {
    row.verdict.Some? && row.verdict.value.reasons == [GlobalPause]
  }

  predicate Answers(row: StoredEmail, rows: Table, email: EmailId, turn: Turn) {
    (email in rows ==> rows[email].status == Pending) && row.evidence.Some? && turn.view.Some?
  }

  /** A turn that is skipped changes nothing; one that throws only counts and names the email. */
  lemma FailedTurnMeans(desk: Desk, row: StoredEmail, email: EmailId, turn: Turn)
    requires email in desk.emails && desk.emails[email] == row
    ensures !TakenUp(row) ==> One(desk, row, email, turn) == desk
    ensures TakenUp(row) && !Answers(row, desk.rows, email, turn) ==>
      One(desk, row, email, turn) ==
      desk.(summary := desk.summary.(scanned := desk.summary.scanned + 1, errors := desk.summary.errors + [email]))
  {}

  /** A turn that answers relabels its email, and then names it as blocked, with the reasons, or as handed over. */
  lemma AnsweredTurnMeans(desk: Desk, row: StoredEmail, email: EmailId, turn: Turn)
    requires email in desk.emails && desk.emails[email] == row
    requires TakenUp(row) && Answers(row, desk.rows, email, turn)
    ensures var after, verdict := One(desk, row, email, turn), Replayed(row, turn.view.value);
      var s, resolution := desk.summary.(scanned := desk.summary.scanned + 1), row.evidence.value.resolution;
      && after.emails == desk.emails[email := row.(verdict := Some(verdict))]
      && (verdict.decision != AutoPay ==>
            after.summary == s.(stillBlocked := s.stillBlocked + [Blocked(email, Some(verdict.reasons))]))
      && (verdict.decision == AutoPay && resolution.recipientNickname == "" ==>
            after.summary == s.(stillBlocked := s.stillBlocked + [Blocked(email, None)]))
      && (verdict.decision == AutoPay && resolution.recipientNickname != "" ==>
            after.summary == s.(paid := s.paid + [email]))
      && (verdict.decision != AutoPay || resolution.recipientNickname == "" || !turn.verified ==>
          after.rows == desk.rows)
  {
    ReplayedAutoPayIff(row, turn.view.value);
  }

  /**
   * And an email handed over with its paid checks settled is really paid: if it
   * had no intent and nothing fails, its intent is for the resolved payee and the
   * extracted amount, under the new key, and paid as the provider returned it.
   */
  lemma HandedOverIsPaid(desk: Desk, row: StoredEmail, email: EmailId, turn: Turn)
    requires email in desk.emails && desk.emails[email] == row && email !in desk.rows
    requires TakenUp(row) && Answers(row, desk.rows, email, turn) && turn.verified
    requires Replayed(row, turn.view.value).decision == AutoPay && row.evidence.value.resolution.recipientNickname != ""
    requires forall e :: e in desk.rows ==> desk.rows[e].idempotencyKey != turn.key
    requires turn.faults == Faults(false, Works, false, Works, Works) && Pay(turn.attempt, turn.key).Returned?
    ensures var evidence := row.evidence.value;
      && evidence.summary.amount.Some?
      && One(desk, row, email, turn).rows ==
         desk.rows[email := Intent(
                     Payable(evidence.resolution.recipientNickname, evidence.summary.amount.value.value,
                             evidence.summary.amount.value.currency),
                     turn.key, Paid, Some(Pay(turn.attempt, turn.key).reference), Some(turn.now), Some(turn.now))]
  {
    ReplayedAutoPayIff(row, turn.view.value);
    JudgedMeans(row, turn.view.value);
    HandedOverRuns(desk, row, email, turn);
    FreshIntentIsPaid(desk.rows, email, Judged(row).value, turn);
  }

  lemma JudgedMeans(row: StoredEmail, view: View)
    requires row.evidence.Some? && Replayed(row, view).decision == AutoPay
    requires row.evidence.value.resolution.recipientNickname != ""
    ensures var e := row.evidence.value;
      && e.summary.amount.Some?
      && Judged(row) == Some(Payable(e.resolution.recipientNickname, e.summary.amount.value.value,
                                     e.summary.amount.value.currency))
  {
    ReplayedAutoPayIff(row, view);
  }

  lemma HandedOverRuns(desk: Desk, row: StoredEmail, email: EmailId, turn: Turn)
    requires email in desk.emails && desk.emails[email] == row && TakenUp(row) && Judged(row).Some?
    requires Answers(row, desk.rows, email, turn) && turn.verified
    requires turn.view.value.settings.autoPayOn && Replayed(row, turn.view.value).decision == AutoPay
    ensures One(desk, row, email, turn).rows ==
            Execute(CreateIfMissing(desk.rows, email, Judged(row).value, turn.key),
                    email, turn.attempt, turn.faults, turn.now).0
  {
    assert Reevaluated(desk.emails, desk.rows, email, turn.view) == Reached(Replayed(row, turn.view.value));
  }

  lemma FreshIntentIsPaid(rows: Table, email: EmailId, payable: Payable, turn: Turn)
    requires email !in rows && forall e :: e in rows ==> rows[e].idempotencyKey != turn.key
    requires turn.faults == Faults(false, Works, false, Works, Works) && Pay(turn.attempt, turn.key).Returned?
    ensures Execute(CreateIfMissing(rows, email, payable, turn.key), email, turn.attempt, turn.faults, turn.now).0 ==
            rows[email := Intent(payable, turn.key, Paid, Some(Pay(turn.attempt, turn.key).reference),
                                 Some(turn.now), Some(turn.now))]
  {
    var created := rows[email := FreshIntent(payable, turn.key)];
    assert CreateIfMissing(rows, email, payable, turn.key) == created;
    RowMeans(created, email, turn.attempt, turn.faults, turn.now);
  }
}

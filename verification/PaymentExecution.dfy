/**
 * The payment code as it is written: statements over the payment_intents
 * table, with every database call free to throw before or after it commits.
 */
module PaymentExecution {
  import opened Common
  import opened PaymentIntents
  import opened PaymentProviders
  import opened PaymentProtocol
  import opened PaymentSafety

  datatype Write = Works | FailsBefore | FailsAfter

  // Which database calls of one execution throw, and whether they had committed.
  datatype Faults = Faults(load: bool, claim: Write, reread: bool, paidWrite: Write, failureWrite: Write)

  datatype ExecutionResult =
    | ExecPaid(paid: Token)
    | ExecRecorded(outcome: Status, hint: Option<Token>)
    | NotClaimed
    | Raised

  datatype ClaimedIntent = ClaimedIntent(idempotencyKey: Token, payable: Payable)

  datatype ReconcileSummary = ReconcileSummary(checked: nat, updated: nat)

  function Catch(
      table: Table, email: EmailId, outcome: Status, hint: Option<Token>, write: Write): (Table, ExecutionResult) {
    if write.FailsBefore? then (table, Raised)
    else (RecordFailure(table, email, outcome, hint),
          if write.FailsAfter? then Raised
          else if CanRecordFailure(table, email) then ExecRecorded(outcome, hint)
          else NotClaimed)
  }

  // The request reaches payViaConfiguredExecutor only past a claim of our own.
  predicate Pays(table: Table, email: EmailId, faults: Faults) {
    !faults.load && CanClaim(table, email) && faults.claim.Works? && !faults.reread
  }

  // Recording what the provider call came to, over a row this execution has claimed.
  function Record(
      claimed: Table, email: EmailId, response: Response, faults: Faults, now: Time): (Table, ExecutionResult) {
    match response
    case Returned(reference) =>
      if faults.paidWrite.Works? then (WritePaid(claimed, email, reference, now), ExecPaid(reference))
      else Catch(if faults.paidWrite.FailsAfter? then WritePaid(claimed, email, reference, now) else claimed,
                 email, UnknownOutcome, Some(reference), faults.failureWrite)
    case ThrewDefinite(reference) => Catch(claimed, email, Failed, reference, faults.failureWrite)
    case ThrewUnknown(reference) => Catch(claimed, email, UnknownOutcome, reference, faults.failureWrite)
    case ThrewOther => Catch(claimed, email, Failed, None, faults.failureWrite)
  }

  function Execute(
      table: Table, email: EmailId, attempt: Attempt, faults: Faults, now: Time): (Table, ExecutionResult) {
    if Pays(table, email, faults)
    then Record(Claim(table, email, now), email, Pay(attempt, table[email].idempotencyKey), faults, now)
    else
      var reached := !faults.load && email in table && !faults.claim.FailsBefore?;
      Catch(if reached then Claim(table, email, now) else table, email, Failed, None, faults.failureWrite)
  }

  function StuckRows(table: Table): set<EmailId> {
    set email | email in table && table[email].status.UnknownOutcome? && table[email].paymentReference.Some?
  }

  function StaleRows(table: Table, now: Time): set<EmailId> {
    set email | email in table && StaleClaim(table[email], now)
  }

  // A reference missing from `lookup` is one whose status call threw.
  function ReconcileRow(intent: Intent, lookup: map<Token, PayoutResult>, now: Time): Intent {
    if Reconcilable(intent) && intent.paymentReference.value in lookup
    then VerdictRow(intent, lookup[intent.paymentReference.value], now)
    else intent
  }

  function Reconciled(table: Table, lookup: map<Token, PayoutResult>, now: Time): Table {
    map email | email in table :: ReconcileRow(PromoteRow(table[email], now), lookup, now)
  }

  function SettledRows(table: Table, lookup: map<Token, PayoutResult>, now: Time): set<EmailId> {
    set email | email in StuckRows(table) && ReconcileRow(table[email], lookup, now) != table[email]
  }

  // The table after the rows in `done` have been looked up.
  function Partly(table: Table, done: set<EmailId>, lookup: map<Token, PayoutResult>, now: Time): Table {
    map email | email in table :: if email in done then ReconcileRow(table[email], lookup, now) else table[email]
  }

  lemma PartlyStep(table: Table, done: set<EmailId>, email: EmailId, lookup: map<Token, PayoutResult>, now: Time)
    requires email in table && email !in done
    ensures Partly(table, done + {email}, lookup, now) ==
            Partly(table, done, lookup, now)[email := ReconcileRow(table[email], lookup, now)]
    ensures Partly(table, done, lookup, now)[email] == table[email]
  {}

  lemma PartlyAll(table: Table, lookup: map<Token, PayoutResult>, now: Time)
    ensures Partly(PromoteStaleClaims(table, now), StuckRows(PromoteStaleClaims(table, now)), lookup, now) ==
        Reconciled(table, lookup, now)
  {}

  lemma SettledStep(table: Table, todo: set<EmailId>, email: EmailId, lookup: map<Token, PayoutResult>, now: Time)
    requires email in todo && todo <= StuckRows(table)
    ensures |SettledRows(table, lookup, now) - (todo - {email})| ==
            |SettledRows(table, lookup, now) - todo| + if ReconcileRow(table[email], lookup, now) == table[email]
                then 0 else 1
  {
    var settled := SettledRows(table, lookup, now);
    assert settled - (todo - {email}) == if email in settled then (settled - todo) + {email} else settled - todo;
  }

  // What looking up one more row does to the table and to the number of settled rows.
  lemma LookUpOne(table: Table, todo: set<EmailId>, email: EmailId, lookup: map<Token, PayoutResult>, now: Time)
    requires email in todo && todo <= StuckRows(table)
    ensures email in Partly(table, StuckRows(table) - todo, lookup, now)
    ensures Partly(table, StuckRows(table) - todo, lookup, now)[email] == table[email]
    ensures Partly(table, StuckRows(table) - (todo - {email}), lookup, now) ==
            Partly(table, StuckRows(table) - todo, lookup, now)[email := ReconcileRow(table[email], lookup, now)]
    ensures |SettledRows(table, lookup, now) - (todo - {email})| ==
            |SettledRows(table, lookup, now) - todo| + if ReconcileRow(table[email], lookup, now) == table[email]
                then 0 else 1
  {
    var stuck := StuckRows(table);
    assert stuck - (todo - {email}) == (stuck - todo) + {email};
    PartlyStep(table, stuck - todo, email, lookup, now);
    SettledStep(table, todo, email, lookup, now);
  }

  lemma LookUpEnds(table: Table, lookup: map<Token, PayoutResult>, now: Time)
    ensures Partly(table, StuckRows(table) - StuckRows(table), lookup, now) == table
    ensures |SettledRows(table, lookup, now) - StuckRows(table)| == 0
    ensures StuckRows(table) - {} == StuckRows(table)
    ensures SettledRows(table, lookup, now) - {} == SettledRows(table, lookup, now)
  {
    assert SettledRows(table, lookup, now) - StuckRows(table) == {};
  }

  class PaymentIntentStore {
    var rows: Table

    constructor ()
      ensures rows == map[]
    {
      rows := map[];
    }

    method ClaimPaymentIntent(email: EmailId, now: Time) returns (claim: Option<ClaimedIntent>)
      modifies this
      ensures rows == Claim(old(rows), email, now)
      ensures claim.Some? <==> old(email in rows && (rows[email].status == Pending || rows[email].status == Failed))
      ensures claim.Some? ==>
        rows == old(rows)[email := old(rows[email]).(status := Claimed, claimedAt := Some(now))]
      ensures claim.None? ==> rows == old(rows)
      ensures claim.Some? ==> claim.value == ClaimedIntent(old(rows[email].idempotencyKey), old(rows[email].payable))
    {
      if email !in rows || !Retryable(rows[email].status) {
        return None;
      }
      rows := rows[email := rows[email].(status := Claimed, claimedAt := Some(now))];
      claim := Some(ClaimedIntent(rows[email].idempotencyKey, rows[email].payable));
    }

    method CatchFailure(email: EmailId, outcome: Status, hint: Option<Token>, write: Write)
        returns (result: ExecutionResult)
      modifies this
      ensures (rows, result) == Catch(old(rows), email, outcome, hint, write)
    {
      if write.FailsBefore? {
        return Raised;
      }
      var count := 0;
      if email in rows && rows[email].status.Claimed? {
        var reference := if hint.Some? then hint else rows[email].paymentReference;
        rows := rows[email := rows[email].(status := outcome, paymentReference := reference)];
        count := 1;
      }
      if write.FailsAfter? {
        return Raised;
      }
      result := if count == 0 then NotClaimed else ExecRecorded(outcome, hint);
    }

    method ExecutePreparedPayment(email: EmailId, attempt: Attempt, faults: Faults, now: Time)
        returns (result: ExecutionResult)
      modifies this
      ensures (rows, result) == Execute(old(rows), email, attempt, faults, now)
    {
      if faults.load || email !in rows || faults.claim.FailsBefore? {
        result := CatchFailure(email, Failed, None, faults.failureWrite);
        return;
      }
      var claim := ClaimPaymentIntent(email, now);
      if faults.claim.FailsAfter? || claim.None? || faults.reread {
        result := CatchFailure(email, Failed, None, faults.failureWrite);
        return;
      }
      match Pay(attempt, claim.value.idempotencyKey)
      case Returned(reference) =>
        if !faults.paidWrite.FailsBefore? {
          rows := rows[email := rows[email].(status := Paid, paidAt := Some(now), paymentReference := Some(reference))];
        }
        if faults.paidWrite.Works? {
          return ExecPaid(reference);
        }
        result := CatchFailure(email, UnknownOutcome, Some(reference), faults.failureWrite);
      case ThrewDefinite(reference) =>
        result := CatchFailure(email, Failed, reference, faults.failureWrite);
      case ThrewUnknown(reference) =>
        result := CatchFailure(email, UnknownOutcome, reference, faults.failureWrite);
      case ThrewOther =>
        result := CatchFailure(email, Failed, None, faults.failureWrite);
    }

    method PreparePayment(email: EmailId, payable: Payable, key: Token)
      modifies this
      ensures rows == if CanClaim(old(rows), email) then RepairPayable(old(rows), email, payable)
                      else CreateIfMissing(old(rows), email, payable, key)
      ensures rows ==
        if old(email in rows && (rows[email].status == Pending || rows[email].status == Failed))
        then old(rows)[email := old(rows[email]).(payable := payable)]
        else if email !in old(rows) && forall e :: e in old(rows) ==> old(rows)[e].idempotencyKey != key
        then old(rows)[email := Intent(payable, key, Pending, None, None, None)]
        else old(rows)
    {
      if email in rows && Retryable(rows[email].status) {
        rows := rows[email := rows[email].(payable := payable)];
      } else if email !in rows {
        var taken := set e | e in rows && rows[e].idempotencyKey == key;
        assert KeyInUse(rows, key) <==> taken != {} by {
          assert forall e :: e in rows && rows[e].idempotencyKey == key <==> e in taken;
          if taken != {} {
            var e :| e in taken;
          }
        }
        if taken == {} {
          rows := rows[email := FreshIntent(payable, key)];
        }
      }
    }

    // The auto-pay path upserts without ever rewriting an existing row.
    method RunAutoPay(
        email: EmailId, payable: Payable, key: Token, permitted: bool, attempt: Attempt, faults: Faults, now: Time)
      modifies this
      ensures rows == if permitted
          then Execute(CreateIfMissing(old(rows), email, payable, key), email, attempt, faults, now).0
                      else old(rows)
    {
      if !permitted {
        return;
      }
      if email !in rows {
        PreparePayment(email, payable, key);
      }
      var _ := ExecutePreparedPayment(email, attempt, faults, now);
    }

    method Promote(now: Time) returns (count: nat)
      modifies this
      ensures rows == PromoteStaleClaims(old(rows), now)
      ensures count == |StaleRows(old(rows), now)|
    {
      count := |StaleRows(rows, now)|;
      rows := map email | email in rows :: PromoteRow(rows[email], now);
    }

    method SettleRow(email: EmailId, lookup: map<Token, PayoutResult>, now: Time) returns (count: nat)
      requires email in StuckRows(rows)
      modifies this
      ensures rows == old(rows)[email := ReconcileRow(old(rows[email]), lookup, now)]
      ensures count == if rows[email] == old(rows[email]) then 0 else 1
    {
      var intent := rows[email];
      var reference := intent.paymentReference.value;
      if reference == intent.idempotencyKey || reference !in lookup {
        return 0;
      }
      var result := lookup[reference];
      if result.status.PayoutPaid? {
        rows := rows[email := intent.(status := Paid, paidAt := Some(now),
            paymentReference := Some(result.providerReference))];
        return 1;
      }
      if result.status.PayoutFailed? {
        rows := rows[email := intent.(status := Failed, paymentReference := Some(result.providerReference))];
        return 1;
      }
      count := 0;
    }

    // Rows are settled one by one, in whatever order the query returned them.
    method SettleStuck(lookup: map<Token, PayoutResult>, now: Time) returns (checked: nat, updated: nat)
      modifies this
      ensures rows == Partly(old(rows), StuckRows(old(rows)), lookup, now)
      ensures checked == |StuckRows(old(rows))|
      ensures updated == |SettledRows(old(rows), lookup, now)|
    {
      var todo := StuckRows(rows);
      checked, updated := |todo|, 0;
      LookUpEnds(rows, lookup, now);
      while todo != {}
        invariant todo <= StuckRows(old(rows))
        invariant rows == Partly(old(rows), StuckRows(old(rows)) - todo, lookup, now)
        invariant updated == |SettledRows(old(rows), lookup, now) - todo|
        decreases todo
      {
        var email :| email in todo;
        LookUpOne(old(rows), todo, email, lookup, now);
        var count := SettleRow(email, lookup, now);
        todo, updated := todo - {email}, updated + count;
      }
    }

    method ReconcileStuckPayments(lookup: map<Token, PayoutResult>, now: Time) returns (summary: ReconcileSummary)
      modifies this
      ensures rows == Reconciled(old(rows), lookup, now)
      ensures var promoted := PromoteStaleClaims(old(rows), now);
        && summary.checked == |StaleRows(old(rows), now)| + |StuckRows(promoted)|
        && summary.updated == |StaleRows(old(rows), now)| + |SettledRows(promoted, lookup, now)|
    {
      var promotedClaims := Promote(now);
      var checked, updated := SettleStuck(lookup, now);
      PartlyAll(old(rows), lookup, now);
      summary := ReconcileSummary(checked + promotedClaims, updated + promotedClaims);
    }
  }

  // ------------------------------------------------ one execution as a protocol run

  function PaySteps(x: ExecId, attempt: Attempt, faults: Faults, key: Token): seq<Action> {
    [Send(x, true)]
    + ([Respond(x, Pay(attempt, key))]
       + ([if faults.paidWrite.Works? then RecordPaid(x) else Throw(x, faults.paidWrite.FailsAfter?)]
          + ([if faults.failureWrite.FailsBefore? then Crash(x) else RecordFailed(x)] + [])))
  }

  // The actions of an execution nobody interrupts; steps after a failure are disabled.
  function Script(x: ExecId, attempt: Attempt, faults: Faults, key: Token): seq<Action> {
    [if faults.load then Throw(x, false) else Load(x)]
    + ([if faults.claim.Works? then ClaimRow(x) else Throw(x, faults.claim.FailsAfter?)]
       + ([if faults.reread then Throw(x, false) else Reread(x)] + PaySteps(x, attempt, faults, key)))
  }

  // Where the first three actions leave the executor.
  function Claiming(table: Table, email: EmailId, faults: Faults): Executor {
    if Pays(table, email, faults) then Ready(email, table[email].payable, table[email].idempotencyKey)
    else Failing(email, Failed, None)
  }

  function ClaimedTable(table: Table, email: EmailId, faults: Faults, now: Time): Table {
    if faults.load || faults.claim.FailsBefore? then table else Claim(table, email, now)
  }

  lemma LoadAct(table: Table, x: ExecId, email: EmailId, faults: Faults, now: Time)
    requires email in table
    ensures Act(table, Starting(email), if faults.load then Throw(x, false) else Load(x), now) ==
            Effect(table, if faults.load then Failing(email, Failed, None) else Loaded(email, table[email].payable), [])
  {}

  lemma ClaimAct(table: Table, x: ExecId, email: EmailId, payable: Payable, faults: Faults, now: Time)
    ensures Act(table, Loaded(email, payable),
                if faults.claim.Works? then ClaimRow(x) else Throw(x, faults.claim.FailsAfter?), now) ==
            Effect(if faults.claim.FailsBefore? then table else Claim(table, email, now),
                   if faults.claim.Works? && CanClaim(table, email) then ClaimWritten(email, payable)
                   else Failing(email, Failed, None), [])
  {}

  lemma RereadAct(table: Table, x: ExecId, email: EmailId, payable: Payable, faults: Faults, now: Time)
    requires email in table
    ensures Act(table, ClaimWritten(email, payable), if faults.reread then Throw(x, false) else Reread(x), now) ==
            Effect(table,
                   if faults.reread then Failing(email, Failed, None)
                   else Ready(email, payable, table[email].idempotencyKey), [])
  {}

  // Only recording the failure, or dying, moves an executor out of its catch block.
  lemma FailingAct(table: Table, exec: Executor, a: Action, now: Time)
    requires exec.Failing? && !a.RecordFailed? && !a.Crash?
    ensures Act(table, exec, a, now) == Effect(table, exec, [])
  {}

  lemma FailingThen(table: Table, exec: Executor, a: Action, rest: seq<Action>, now: Time)
    requires exec.Failing? && !a.RecordFailed? && !a.Crash?
    ensures Alone(table, exec, [a] + rest, now) == Alone(table, exec, rest, now)
  {
    AloneCons(table, exec, a, rest, now);
    FailingAct(table, exec, a, now);
  }

  lemma ClaimPhase(table: Table, x: ExecId, email: EmailId, attempt: Attempt, faults: Faults, key: Token, now: Time)
    requires email in table
    ensures Alone(table, Starting(email), Script(x, attempt, faults, key), now) ==
            Alone(ClaimedTable(table, email, faults, now), Claiming(table, email, faults),
                PaySteps(x, attempt, faults, key), now)
  {
    var a1 := if faults.load then Throw(x, false) else Load(x);
    var a2 := if faults.claim.Works? then ClaimRow(x) else Throw(x, faults.claim.FailsAfter?);
    var a3 := if faults.reread then Throw(x, false) else Reread(x);
    var rest := PaySteps(x, attempt, faults, key);
    var failing := Failing(email, Failed, None);
    var payable := table[email].payable;
    var claimed := ClaimedTable(table, email, faults, now);
    AloneCons(table, Starting(email), a1, [a2] + ([a3] + rest), now);
    LoadAct(table, x, email, faults, now);
    if faults.load {
      FailingThen(table, failing, a2, [a3] + rest, now);
      FailingThen(table, failing, a3, rest, now);
    } else {
      AloneCons(table, Loaded(email, payable), a2, [a3] + rest, now);
      ClaimAct(table, x, email, payable, faults, now);
      if faults.claim.Works? && CanClaim(table, email) {
        AloneCons(claimed, ClaimWritten(email, payable), a3, rest, now);
        RereadAct(claimed, x, email, payable, faults, now);
      } else {
        FailingThen(claimed, failing, a3, rest, now);
      }
    }
  }

  lemma CatchPhase(table: Table, exec: Executor, x: ExecId, faults: Faults, now: Time)
    requires exec.Failing?
    ensures Alone(table, exec, [if faults.failureWrite.FailsBefore? then Crash(x) else RecordFailed(x)] + [], now) ==
            Effect(Catch(table, exec.email, exec.outcome, exec.hint, faults.failureWrite).0, Finished, [])
  {
    AloneCons(table, exec, if faults.failureWrite.FailsBefore? then Crash(x) else RecordFailed(x), [], now);
  }

  lemma PaidPhase(table: Table, exec: Executor, x: ExecId, faults: Faults, now: Time)
    requires exec.PayReturned? && exec.email in table
    ensures Alone(table, exec,
                  [if faults.paidWrite.Works? then RecordPaid(x) else Throw(x, faults.paidWrite.FailsAfter?)]
                  + ([if faults.failureWrite.FailsBefore? then Crash(x) else RecordFailed(x)] + []), now) ==
            Effect(Record(table, exec.email, Returned(exec.reference), faults, now).0, Finished, [])
  {
    var a3 := if faults.paidWrite.Works? then RecordPaid(x) else Throw(x, faults.paidWrite.FailsAfter?);
    var a4 := if faults.failureWrite.FailsBefore? then Crash(x) else RecordFailed(x);
    AloneCons(table, exec, a3, [a4] + [], now);
    if faults.paidWrite.Works? {
      AloneCons(WritePaid(table, exec.email, exec.reference, now), Finished, a4, [], now);
    } else {
      CatchPhase(Act(table, exec, a3, now).table, Failing(exec.email, UnknownOutcome, Some(exec.reference)), x,
          faults, now);
    }
  }

  // From the provider's answer on.
  lemma AnsweredPhase(table: Table, e: Executor, x: ExecId, faults: Faults, now: Time)
    requires (e.PayReturned? && e.email in table) || e.Failing?
    ensures Alone(table, e, [if faults.paidWrite.Works? then RecordPaid(x) else Throw(x, faults.paidWrite.FailsAfter?)]
                            + ([if faults.failureWrite.FailsBefore? then Crash(x) else RecordFailed(x)] + []), now) ==
            Effect(if e.Failing? then Catch(table, e.email, e.outcome, e.hint, faults.failureWrite).0
                   else Record(table, e.email, Returned(e.reference), faults, now).0, Finished, [])
  {
    if e.PayReturned? {
      PaidPhase(table, e, x, faults, now);
    } else {
      var a3 := if faults.paidWrite.Works? then RecordPaid(x) else Throw(x, faults.paidWrite.FailsAfter?);
      var a4 := if faults.failureWrite.FailsBefore? then Crash(x) else RecordFailed(x);
      FailingThen(table, e, a3, [a4] + [], now);
      CatchPhase(table, e, x, faults, now);
    }
  }

  // An execution already in its catch block sends nothing.
  lemma FailedPhase(table: Table, exec: Executor, x: ExecId, attempt: Attempt, faults: Faults, key: Token, now: Time)
    requires exec.Failing?
    ensures Alone(table, exec, PaySteps(x, attempt, faults, key), now) ==
            Effect(Catch(table, exec.email, exec.outcome, exec.hint, faults.failureWrite).0, Finished, [])
  {
    var a3 := if faults.paidWrite.Works? then RecordPaid(x) else Throw(x, faults.paidWrite.FailsAfter?);
    var a4 := if faults.failureWrite.FailsBefore? then Crash(x) else RecordFailed(x);
    var respond := Respond(x, Pay(attempt, key));
    FailingThen(table, exec, Send(x, true), [respond] + ([a3] + ([a4] + [])), now);
    FailingThen(table, exec, respond, [a3] + ([a4] + []), now);
    AnsweredPhase(table, exec, x, faults, now);
  }

  lemma PayPhase(table: Table, exec: Executor, x: ExecId, attempt: Attempt, faults: Faults, key: Token, now: Time)
    requires (exec.Ready? && exec.email in table) || exec.Failing?
    ensures var effect := Alone(table, exec, PaySteps(x, attempt, faults, key), now);
      && |effect.sent| == (if exec.Ready? then 1 else 0)
      && effect.table ==
         if exec.Failing? then Catch(table, exec.email, exec.outcome, exec.hint, faults.failureWrite).0
         else Record(table, exec.email, Pay(attempt, key), faults, now).0
  {
    var a3 := if faults.paidWrite.Works? then RecordPaid(x) else Throw(x, faults.paidWrite.FailsAfter?);
    var a4 := if faults.failureWrite.FailsBefore? then Crash(x) else RecordFailed(x);
    var respond := Respond(x, Pay(attempt, key));
    var rest := [a3] + ([a4] + []);
    if exec.Failing? {
      FailedPhase(table, exec, x, attempt, faults, key, now);
    } else {
      AloneCons(table, exec, Send(x, true), [respond] + rest, now);
      AloneCons(table, Awaiting(exec.email), respond, rest, now);
      AnsweredPhase(table, Settle(Pay(attempt, key), exec.email), x, faults, now);
    }
  }

  lemma ScriptIsOwn(x: ExecId, attempt: Attempt, faults: Faults, key: Token)
    ensures forall a :: a in Script(x, attempt, faults, key) ==> IsExecutorAction(a) && a.x == x
  {}

  lemma ScriptRecords(table: Table, x: ExecId, email: EmailId, attempt: Attempt, faults: Faults, now: Time)
    ensures var effect := Alone(table, Starting(email), Script(x, attempt, faults, KeyOf(table, email)), now);
      && effect.table == Execute(table, email, attempt, faults, now).0
      && |effect.sent| == if Pays(table, email, faults) then 1 else 0
  {
    var key := KeyOf(table, email);
    if email in table {
      ClaimPhase(table, x, email, attempt, faults, key, now);
      PayPhase(ClaimedTable(table, email, faults, now), Claiming(table, email, faults), x, attempt, faults, key, now);
    } else {
      MissingRow(table, x, email, attempt, faults, key, now);
    }
  }

  lemma LoadMissing(table: Table, x: ExecId, email: EmailId, faults: Faults, now: Time)
    requires email !in table
    ensures Act(table, Starting(email), if faults.load then Throw(x, false) else Load(x), now) ==
            Effect(table, Failing(email, Failed, None), [])
  {}

  lemma SkipTwo(table: Table, failing: Executor, a: Action, b: Action, rest: seq<Action>, now: Time)
    requires failing.Failing? && !a.RecordFailed? && !a.Crash? && !b.RecordFailed? && !b.Crash?
    ensures Alone(table, failing, [a] + ([b] + rest), now) == Alone(table, failing, rest, now)
  {
    FailingThen(table, failing, a, [b] + rest, now);
    FailingThen(table, failing, b, rest, now);
  }

  // Nothing is found, nothing is claimed, and there is nothing to record a failure on.
  lemma MissingRow(table: Table, x: ExecId, email: EmailId, attempt: Attempt, faults: Faults, key: Token, now: Time)
    requires email !in table
    ensures Alone(table, Starting(email), Script(x, attempt, faults, key), now) == Effect(table, Finished, [])
  {
    var a1 := if faults.load then Throw(x, false) else Load(x);
    var a2 := if faults.claim.Works? then ClaimRow(x) else Throw(x, faults.claim.FailsAfter?);
    var a3 := if faults.reread then Throw(x, false) else Reread(x);
    var rest := PaySteps(x, attempt, faults, key);
    var failing := Failing(email, Failed, None);
    AloneCons(table, Starting(email), a1, [a2] + ([a3] + rest), now);
    LoadMissing(table, x, email, faults, now);
    SkipTwo(table, failing, a2, a3, rest, now);
    FailedPhase(table, failing, x, attempt, faults, key, now);
  }

  // A missing row has no key, and an execution of it never asks for one.
  function KeyOf(table: Table, email: EmailId): Token {
    if email in table then table[email].idempotencyKey else 0
  }

  /**
   * executePreparedPayment run without interruption is one of the protocol's
   * interleavings, whether or not the row exists: it leaves the same table, and
   * sends a request exactly when it gets past its own claim.
   */
  lemma ExecutionIsAProtocolRun(s: State, x: ExecId, email: EmailId, attempt: Attempt, faults: Faults)
    requires x !in s.execs
    ensures var script := [Begin(x, email)] + Script(x, attempt, faults, KeyOf(s.table, email));
      && Then(s, script).table == Execute(s.table, email, attempt, faults, s.now).0
      && |Then(s, script).calls| == |s.calls| + if Pays(s.table, email, faults) then 1 else 0
  {
    var key := KeyOf(s.table, email);
    ScriptIsOwn(x, attempt, faults, key);
    BeginAlone(s, x, email, Script(x, attempt, faults, key));
    ScriptRecords(s.table, x, email, attempt, faults, s.now);
  }

  // ------------------------------------------- one reconciler pass as a protocol run

  // Snapshot one stuck row and write its verdict, or leave it.
  function OneRow(row: Intent, task: TaskId, email: EmailId, lookup: map<Token, PayoutResult>): seq<Action> {
    if Reconcilable(row) && row.paymentReference.value in lookup
    then [FindStuck(task, email)] + ([Verdict(task, lookup[row.paymentReference.value])] + [])
    else []
  }

  lemma OneRowSettles(s: State, task: TaskId, email: EmailId, lookup: map<Token, PayoutResult>)
    requires email in s.table
    ensures var t := Then(s, OneRow(s.table[email], task, email, lookup));
      t.table == s.table[email := ReconcileRow(s.table[email], lookup, s.now)] && t.calls == s.calls && t.now == s.now
  {
    var row := s.table[email];
    if Reconcilable(row) && row.paymentReference.value in lookup {
      var find, verdict := FindStuck(task, email), Verdict(task, lookup[row.paymentReference.value]);
      ThenCons(s, find, [verdict] + []);
      ThenCons(Step(s, find), verdict, []);
    } else {
      assert s.table[email := row] == s.table;
    }
  }

  lemma SettlingIsAProtocolRun(
      s: State, table: Table, todo: set<EmailId>, task: TaskId, lookup: map<Token, PayoutResult>)
    returns (actions: seq<Action>)
    requires todo <= StuckRows(table) && s.table == Partly(table, StuckRows(table) - todo, lookup, s.now)
    ensures forall a :: a in actions ==> a.FindStuck? || a.Verdict?
    ensures Then(s, actions).table == Partly(table, StuckRows(table), lookup, s.now)
    ensures Then(s, actions).calls == s.calls
    decreases todo
  {
    if todo == {} {
      actions := [];
      assert StuckRows(table) - {} == StuckRows(table);
    } else {
      var email :| email in todo;
      LookUpOne(table, todo, email, lookup, s.now);
      OneRowSettles(s, task, email, lookup);
      var first := OneRow(table[email], task, email, lookup);
      var rest := SettlingIsAProtocolRun(Then(s, first), table, todo - {email}, task, lookup);
      actions := first + rest;
      ThenThen(s, first, rest);
    }
  }

  predicate IsReconcilerAction(a: Action) {
    a.Promote? || a.FindStuck? || a.Verdict?
  }

  /** A reconciler pass left alone is a run of the protocol too, and asks the provider for nothing. */
  lemma ReconciliationIsAProtocolRun(s: State, task: TaskId, lookup: map<Token, PayoutResult>)
      returns (actions: seq<Action>)
    ensures forall a :: a in actions ==> IsReconcilerAction(a)
    ensures Then(s, actions).table == Reconciled(s.table, lookup, s.now)
    ensures Then(s, actions).calls == s.calls
  {
    var promoted := Step(s, Promote);
    LookUpEnds(promoted.table, lookup, s.now);
    PartlyAll(s.table, lookup, s.now);
    var rest := SettlingIsAProtocolRun(promoted, promoted.table, StuckRows(promoted.table), task, lookup);
    actions := [Promote] + rest;
    ThenCons(s, Promote, rest);
  }
}

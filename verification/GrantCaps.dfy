/** A payee's grant caps, measured against usage that only counts payments already settled. */
module GrantCaps {
  import opened Common
  import opened PaymentIntents
  import opened PayeeResolver
  import opened Eligibility
  import Level1
  import D = Duplicates

  // Who sent the row's latest payment off.
  datatype Origin = Auto | Manual

  datatype Row = Row(email: EmailId, nickname: string, amount: real, status: Status, origin: Origin)

  type Rows = seq<Row>

  type Grants = string -> Grant

  datatype Action =
    // One automatic decision and, if it allows, the claim that follows it.
    | Decide(email: EmailId, nickname: string, amount: real, settings: Settings)
    // A person prepares or repairs a payment, and confirms one.
    | Prepare(email: EmailId, nickname: string, amount: real)
    | Confirm(row: nat)
    // An execution in flight, or the reconciler later, records how it ended.
    | Settle(row: nat, outcome: Status)

  // ---------------------------------------------------------------------- usage

  datatype Pick = PaidRows | LiveRows | AutoLiveRows

  predicate Open(row: Row) {
    row.status.Claimed? || row.status.UnknownOutcome?
  }

  predicate Picked(row: Row, nickname: string, pick: Pick) {
    row.nickname == nickname &&
    match pick
    case PaidRows => row.status.Paid?
    case LiveRows => row.status.Paid? || Open(row)
    case AutoLiveRows => row.origin.Auto? && (row.status.Paid? || Open(row))
  }

  function Weight(row: Row, nickname: string, pick: Pick): real {
    if Picked(row, nickname, pick) then row.amount else 0.0
  }

  function Unit(row: Row, nickname: string, pick: Pick): nat {
    if Picked(row, nickname, pick) then 1 else 0
  }

  function Total(rows: Rows, nickname: string, pick: Pick): real {
    if rows == [] then 0.0
    else Total(rows[..|rows| - 1], nickname, pick) + Weight(rows[|rows| - 1], nickname, pick)
  }

  function Number(rows: Rows, nickname: string, pick: Pick): nat {
    if rows == [] then 0
    else Number(rows[..|rows| - 1], nickname, pick) + Unit(rows[|rows| - 1], nickname, pick)
  }

  function LoadPayeeUsage(rows: Rows, nickname: string): Usage {
    Usage(Total(rows, nickname, PaidRows), Number(rows, nickname, PaidRows))
  }

  // ----------------------------------------------------------------------- steps

  function FindRow(rows: Rows, email: EmailId): (k: nat)
    ensures k <= |rows| && (k < |rows| ==> rows[k].email == email)
    ensures forall j :: 0 <= j < k ==> rows[j].email != email
  {
    if rows == [] || rows[0].email == email then 0 else 1 + FindRow(rows[1..], email)
  }

  predicate Admitted(rows: Rows, grants: Grants, nickname: string, amount: real, settings: Settings) {
    && GrantOk(ComputeGrantStatus(grants(nickname), amount, LoadPayeeUsage(rows, nickname), settings.now))
    && AmountAboveMinimum(amount, settings)
  }

  // The upsert never rewrites an existing intent: what is claimed is that row's own amount.
  function Step(rows: Rows, grants: Grants, action: Action): Rows {
    match action
    case Decide(email, nickname, amount, settings) =>
      var k := FindRow(rows, email);
      if !Admitted(rows, grants, nickname, amount, settings) then rows
      else if k == |rows| then rows + [Row(email, nickname, amount, Claimed, Auto)]
      else if Retryable(rows[k].status) then rows[k := rows[k].(status := Claimed, origin := Auto)]
      else rows
    case Prepare(email, nickname, amount) =>
      var k := FindRow(rows, email);
      if amount <= 0.0 then rows
      else if k == |rows| then rows + [Row(email, nickname, amount, Pending, Manual)]
      else if Retryable(rows[k].status) then rows[k := rows[k].(nickname := nickname, amount := amount)]
      else rows
    case Confirm(k) =>
      if k < |rows| && Retryable(rows[k].status) then rows[k := rows[k].(status := Claimed, origin := Manual)] else rows
    case Settle(k, outcome) =>
      if k < |rows| && Open(rows[k]) && (outcome.Paid? || outcome.Failed? || outcome.UnknownOutcome?)
      then rows[k := rows[k].(status := outcome)]
      else rows
  }

  function Run(rows: Rows, grants: Grants, actions: seq<Action>): Rows
    decreases |actions|
  {
    if actions == [] then rows else Run(Step(rows, grants, actions[0]), grants, actions[1..])
  }

  // ------------------------------------------------------------------ sums of rows

  lemma TotalSnoc(rows: Rows, row: Row, nickname: string, pick: Pick)
    ensures Total(rows + [row], nickname, pick) == Total(rows, nickname, pick) + Weight(row, nickname, pick)
    ensures Number(rows + [row], nickname, pick) == Number(rows, nickname, pick) + Unit(row, nickname, pick)
  {
    assert (rows + [row])[..|rows|] == rows;
  }

  lemma {:induction false} TotalUpdate(rows: Rows, k: nat, row: Row, nickname: string, pick: Pick)
    requires k < |rows|
    ensures Total(rows[k := row], nickname, pick) ==
            Total(rows, nickname, pick) - Weight(rows[k], nickname, pick) + Weight(row, nickname, pick)
    ensures Number(rows[k := row], nickname, pick) ==
            Number(rows, nickname, pick) - Unit(rows[k], nickname, pick) + Unit(row, nickname, pick)
  {
    var n := |rows| - 1;
    if k < n {
      TotalUpdate(rows[..n], k, row, nickname, pick);
      assert rows[k := row][..n] == rows[..n][k := row];
    } else {
      assert rows[k := row][..n] == rows[..n];
    }
  }

  ghost predicate NoDebts(rows: Rows) {
    forall k :: 0 <= k < |rows| ==> rows[k].amount >= 0.0
  }

  // Rows picked one way that are all picked another way as well.
  lemma {:induction false} TotalMonotone(rows: Rows, nickname: string, few: Pick, many: Pick)
    requires NoDebts(rows)
    requires forall k :: 0 <= k < |rows| && Picked(rows[k], nickname, few) ==> Picked(rows[k], nickname, many)
    ensures Total(rows, nickname, few) <= Total(rows, nickname, many)
    ensures Number(rows, nickname, few) <= Number(rows, nickname, many)
  {
    if rows != [] {
      var n := |rows| - 1;
      assert forall k :: 0 <= k < n ==> rows[..n][k] == rows[k];
      TotalMonotone(rows[..n], nickname, few, many);
    }
  }

  // ------------------------------------------------------- caps over whole runs

  ghost predicate Sane(grants: Grants) {
    forall nickname :: grants(nickname).totalCapInr.Some? ==> grants(nickname).totalCapInr.value >= 0.0
  }

  // Automatic payments of one payee that were made or may still turn out made.
  predicate WithinTotals(rows: Rows, grant: Grant, nickname: string) {
    && (grant.totalCapInr.Some? ==> Total(rows, nickname, AutoLiveRows) <= grant.totalCapInr.value)
    && (grant.maxPayments.Some? ==> Number(rows, nickname, AutoLiveRows) <= grant.maxPayments.value)
  }

  predicate WithinPerPayment(row: Row, grant: Grant) {
    Picked(row, row.nickname, AutoLiveRows) && grant.perPaymentCapInr.Some? ==>
        row.amount <= grant.perPaymentCapInr.value
  }

  ghost predicate WithinCaps(rows: Rows, grants: Grants) {
    && (forall nickname :: WithinTotals(rows, grants(nickname), nickname))
    && forall k :: 0 <= k < |rows| ==> WithinPerPayment(rows[k], grants(rows[k].nickname))
  }

  ghost predicate NothingOpen(rows: Rows, nickname: string) {
    forall k :: 0 <= k < |rows| && rows[k].nickname == nickname && rows[k].origin.Auto? ==> !Open(rows[k])
  }

  predicate SameTerms(rows: Rows, email: EmailId, nickname: string, amount: real) {
    var k := FindRow(rows, email);
    k < |rows| ==> rows[k].nickname == nickname && rows[k].amount == amount
  }

  // A decision is taken with the payee's earlier automatic payments settled, and on the terms its intent carries.
  ghost predicate Disciplined(rows: Rows, action: Action) {
    action.Decide? ==>
      NothingOpen(rows, action.nickname) && SameTerms(rows, action.email, action.nickname, action.amount)
  }

  ghost predicate DisciplinedRun(rows: Rows, grants: Grants, actions: seq<Action>)
    decreases |actions|
  {
    actions == [] || (Disciplined(rows, actions[0])
        && DisciplinedRun(Step(rows, grants, actions[0]), grants, actions[1..]))
  }

  lemma StepKeepsNoDebts(rows: Rows, grants: Grants, action: Action)
    requires NoDebts(rows)
    ensures NoDebts(Step(rows, grants, action))
  {
    if action.Decide? && Admitted(rows, grants, action.nickname, action.amount, action.settings) {
      MinimumIsPositive(action.amount, action.settings);
    }
  }

  lemma LighterStaysWithin(rows: Rows, k: nat, row: Row, grant: Grant, nickname: string)
    requires k < |rows| && WithinTotals(rows, grant, nickname)
    requires Weight(row, nickname, AutoLiveRows) <= Weight(rows[k], nickname, AutoLiveRows)
    requires Unit(row, nickname, AutoLiveRows) <= Unit(rows[k], nickname, AutoLiveRows)
    ensures WithinTotals(rows[k := row], grant, nickname)
  {
    TotalUpdate(rows, k, row, nickname, AutoLiveRows);
  }

  lemma WeightlessStaysWithin(rows: Rows, row: Row, grant: Grant, nickname: string)
    requires WithinTotals(rows, grant, nickname) && !Picked(row, nickname, AutoLiveRows)
    ensures WithinTotals(rows + [row], grant, nickname)
  {
    TotalSnoc(rows, row, nickname, AutoLiveRows);
  }

  // A step other than a decision for this payee adds nothing to its automatic rows.
  lemma OthersStayWithin(rows: Rows, grants: Grants, action: Action, nickname: string)
    requires NoDebts(rows) && WithinTotals(rows, grants(nickname), nickname)
    requires action.Decide? ==>
      SameTerms(rows, action.email, action.nickname, action.amount) && action.nickname != nickname
    ensures WithinTotals(Step(rows, grants, action), grants(nickname), nickname)
  {
    var after := Step(rows, grants, action);
    var k := match action case Decide(e, _, _, _) => FindRow(rows, e) case Prepare(e, _, _) => FindRow(rows, e)
                          case Confirm(r) => r case Settle(r, _) => r;
    if after != rows {
      if k < |rows| {
        assert after == rows[k := after[k]];
        LighterStaysWithin(rows, k, after[k], grants(nickname), nickname);
      } else {
        assert after == rows + [after[|rows|]];
        WeightlessStaysWithin(rows, after[|rows|], grants(nickname), nickname);
      }
    }
  }

  // The payment a decision lets through was measured against everything the payee was paid.
  lemma GateLeavesRoom(rows: Rows, grants: Grants, nickname: string, amount: real, settings: Settings)
    requires NoDebts(rows) && NothingOpen(rows, nickname) && Admitted(rows, grants, nickname, amount, settings)
    ensures var grant := grants(nickname);
            && (grant.totalCapInr.Some? ==> Total(rows, nickname, AutoLiveRows) + amount <= grant.totalCapInr.value)
            && (grant.maxPayments.Some? ==> Number(rows, nickname, AutoLiveRows) + 1 <= grant.maxPayments.value)
  {
    TotalMonotone(rows, nickname, AutoLiveRows, PaidRows);
  }

  lemma AdmittedStaysWithin(rows: Rows, grants: Grants, k: nat, row: Row, settings: Settings)
    requires NoDebts(rows) && NothingOpen(rows, row.nickname) && row.status.Claimed? && row.origin.Auto?
    requires Admitted(rows, grants, row.nickname, row.amount, settings)
    requires k <= |rows| && (k < |rows| ==> Retryable(rows[k].status))
    ensures WithinTotals(if k < |rows| then rows[k := row] else rows + [row], grants(row.nickname), row.nickname)
  {
    GateLeavesRoom(rows, grants, row.nickname, row.amount, settings);
    if k < |rows| {
      TotalUpdate(rows, k, row, row.nickname, AutoLiveRows);
    } else {
      TotalSnoc(rows, row, row.nickname, AutoLiveRows);
    }
  }

  lemma DecisionStaysWithin(
      rows: Rows, grants: Grants, email: EmailId, nickname: string, amount: real, settings: Settings)
    requires NoDebts(rows) && WithinTotals(rows, grants(nickname), nickname)
    requires NothingOpen(rows, nickname) && SameTerms(rows, email, nickname, amount)
    ensures WithinTotals(Step(rows, grants, Decide(email, nickname, amount, settings)), grants(nickname), nickname)
  {
    var k := FindRow(rows, email);
    if Admitted(rows, grants, nickname, amount, settings) && (k < |rows| ==> Retryable(rows[k].status)) {
      var row := if k < |rows| then rows[k].(status := Claimed, origin := Auto)
          else Row(email, nickname, amount, Claimed, Auto);
      AdmittedStaysWithin(rows, grants, k, row, settings);
    }
  }

  lemma StepStaysWithin(rows: Rows, grants: Grants, action: Action)
    requires NoDebts(rows) && WithinCaps(rows, grants) && Disciplined(rows, action)
    ensures WithinCaps(Step(rows, grants, action), grants)
  {
    forall nickname
      ensures WithinTotals(Step(rows, grants, action), grants(nickname), nickname)
    {
      if action.Decide? && action.nickname == nickname {
        DecisionStaysWithin(rows, grants, action.email, nickname, action.amount, action.settings);
      } else {
        OthersStayWithin(rows, grants, action, nickname);
      }
    }
  }

  /**
   * Over any run of decisions, repairs, confirmations and settlements, in which
   * no decision is taken while an earlier automatic payment of the same payee is
   * unsettled, the automatic payments made to a payee, with those that may yet
   * turn out made, stay within its total, its count and its per-payment cap,
   * whatever is paid by hand in between.
   */
  lemma {:induction false} RunStaysWithinCaps(rows: Rows, grants: Grants, actions: seq<Action>)
    requires NoDebts(rows) && WithinCaps(rows, grants) && DisciplinedRun(rows, grants, actions)
    ensures NoDebts(Run(rows, grants, actions)) && WithinCaps(Run(rows, grants, actions), grants)
    decreases |actions|
  {
    if actions != [] {
      StepKeepsNoDebts(rows, grants, actions[0]);
      StepStaysWithin(rows, grants, actions[0]);
      RunStaysWithinCaps(Step(rows, grants, actions[0]), grants, actions[1..]);
    }
  }

  /** The empty table is such a start, so the caps hold of every disciplined run. */
  lemma CapsHold(grants: Grants, actions: seq<Action>)
    requires Sane(grants) && DisciplinedRun([], grants, actions)
    ensures WithinCaps(Run([], grants, actions), grants)
  {
    RunStaysWithinCaps([], grants, actions);
  }

  // ---------------------------------------------- what one admission is worth

  ghost predicate OnlySettles(actions: seq<Action>) {
    forall i :: 0 <= i < |actions| ==> actions[i].Settle?
  }

  // However the payments in flight end, the payee's paid total is within the cap.
  ghost predicate SafeHoweverItEnds(rows: Rows, grants: Grants, nickname: string, cap: real) {
    forall actions :: OnlySettles(actions) ==> Total(Run(rows, grants, actions), nickname, PaidRows) <= cap
  }

  lemma {:induction false} SettlingNeverAdds(rows: Rows, grants: Grants, actions: seq<Action>, nickname: string)
    requires NoDebts(rows) && OnlySettles(actions)
    ensures Total(Run(rows, grants, actions), nickname, PaidRows) <= Total(rows, nickname, LiveRows)
    decreases |actions|
  {
    if actions == [] {
      TotalMonotone(rows, nickname, PaidRows, LiveRows);
    } else {
      var after := Step(rows, grants, actions[0]);
      if after != rows {
        TotalUpdate(rows, actions[0].row, after[actions[0].row], nickname, LiveRows);
      }
      StepKeepsNoDebts(rows, grants, actions[0]);
      SettlingNeverAdds(after, grants, actions[1..], nickname);
    }
  }

  function PayAll(n: nat): (actions: seq<Action>)
    ensures OnlySettles(actions)
  {
    if n == 0 then [] else [Settle(n - 1, Paid)] + PayAll(n - 1)
  }

  lemma PayOneKeeps(rows: Rows, grants: Grants, k: nat, nickname: string)
    requires k < |rows|
    ensures var after := Step(rows, grants, Settle(k, Paid));
      && |after| == |rows| && !Open(after[k]) && (forall j :: k < j < |rows| ==> after[j] == rows[j])
      && Total(after, nickname, LiveRows) == Total(rows, nickname, LiveRows)
  {
    if Open(rows[k]) {
      TotalUpdate(rows, k, rows[k].(status := Paid), nickname, LiveRows);
    }
  }

  // Paying the first n rows that are in flight turns everything live into paid.
  lemma {:induction false} PayAllPays(rows: Rows, grants: Grants, n: nat, nickname: string)
    requires n <= |rows| && forall k :: n <= k < |rows| ==> !Open(rows[k])
    ensures Total(Run(rows, grants, PayAll(n)), nickname, PaidRows) == Total(rows, nickname, LiveRows)
    decreases n
  {
    if n == 0 {
      SettledAlready(rows, nickname);
    } else {
      var after := Step(rows, grants, Settle(n - 1, Paid));
      PayOneKeeps(rows, grants, n - 1, nickname);
      PayAllPays(after, grants, n - 1, nickname);
      assert PayAll(n) == [Settle(n - 1, Paid)] + PayAll(n - 1);
    }
  }

  lemma {:induction false} SettledAlready(rows: Rows, nickname: string)
    requires forall k :: 0 <= k < |rows| ==> !Open(rows[k])
    ensures Total(rows, nickname, PaidRows) == Total(rows, nickname, LiveRows)
  {
    if rows != [] {
      assert forall k :: 0 <= k < |rows| - 1 ==> rows[..|rows| - 1][k] == rows[k];
      SettledAlready(rows[..|rows| - 1], nickname);
    }
  }

  lemma SafeIffExposureFits(rows: Rows, grants: Grants, nickname: string, cap: real)
    requires NoDebts(rows)
    ensures SafeHoweverItEnds(rows, grants, nickname, cap) <==> Total(rows, nickname, LiveRows) <= cap
  {
    if Total(rows, nickname, LiveRows) <= cap {
      forall actions | OnlySettles(actions)
        ensures Total(Run(rows, grants, actions), nickname, PaidRows) <= cap
      {
        SettlingNeverAdds(rows, grants, actions, nickname);
      }
    } else {
      PayAllPays(rows, grants, |rows|, nickname);
      assert OnlySettles(PayAll(|rows|));
    }
  }

  /**
   * The gate compares the new amount with what is already paid. That keeps the
   * paid total within the cap however everything in flight ends exactly when the
   * amounts still in flight would have fitted too: usage that leaves claimed and
   * unknown payments out is enough only once they are settled.
   */
  lemma AdmissionIsSafeIff(rows: Rows, grants: Grants, action: Action)
    requires NoDebts(rows) && action.Decide? && grants(action.nickname).totalCapInr.Some?
    requires Admitted(rows, grants, action.nickname, action.amount, action.settings)
        && FindRow(rows, action.email) == |rows|
    ensures var cap := grants(action.nickname).totalCapInr.value;
            && Total(rows, action.nickname, PaidRows) + action.amount <= cap
            && (SafeHoweverItEnds(Step(rows, grants, action), grants, action.nickname, cap)
                <==> Total(rows, action.nickname, LiveRows) + action.amount <= cap)
  {
    var after := Step(rows, grants, action);
    StepKeepsNoDebts(rows, grants, action);
    SafeIffExposureFits(after, grants, action.nickname, grants(action.nickname).totalCapInr.value);
    TotalSnoc(rows, after[|rows|], action.nickname, LiveRows);
  }

  // The pipeline and the replay only ever pay what this gate admits, reading usage from these rows.
  lemma AutoPayIsAdmitted(rows: Rows, grants: Grants, id: PayeeId, amount: Option<D.Amount>, view: Level1.View)
    requires Level1.PayeeMayBePaid(id, amount, view)
    requires var payee := Level1.FindPayee(view.payees, id).value;
             && view.usage(payee.recipientNickname) == LoadPayeeUsage(rows, payee.recipientNickname)
             && grants(payee.recipientNickname) == payee.grant
    ensures Admitted(rows, grants, Level1.FindPayee(view.payees, id).value.recipientNickname,
                     view.number(amount.value.value).value, view.settings)
  {
    var payee := Level1.FindPayee(view.payees, id).value;
    ChecksMeanTermsAllow(payee.grant, view.number(amount.value.value).value,
        LoadPayeeUsage(rows, payee.recipientNickname), view.settings);
  }

  const SMALL_GRANT := Grant(true, true, None, Some(10000.0), None, None)

  function SmallGrants(nickname: string): Grant {
    SMALL_GRANT
  }

  /**
   * Payments of 6000 under a cap of 10000: with one uncertain the gate lets the
   * next one through, and then both can be paid.
   */
  lemma UnsettledPaymentIsNotCounted(settings: Settings)
    requires settings.minAmount == Some(1000.0)
    ensures var uncertain := [Row(1, "acme", 6000.0, UnknownOutcome, Auto)];
            && Admitted(uncertain, SmallGrants, "acme", 6000.0, settings)
            && !SafeHoweverItEnds(
                  Step(uncertain, SmallGrants, Decide(2, "acme", 6000.0, settings)), SmallGrants, "acme", 10000.0)
  {
    var uncertain := [Row(1, "acme", 6000.0, UnknownOutcome, Auto)];
    assert LoadPayeeUsage(uncertain, "acme") == NO_USAGE by {
      TotalSnoc([], uncertain[0], "acme", PaidRows);
      assert [] + [uncertain[0]] == uncertain;
    }
    TotalSnoc([], uncertain[0], "acme", LiveRows);
    assert [] + [uncertain[0]] == uncertain;
    AdmissionIsSafeIff(uncertain, SmallGrants, Decide(2, "acme", 6000.0, settings));
  }

  /**
   * A decision takes its intent as it finds it: with nothing in flight, an
   * intent somebody prepared for 20000 is claimed on a decision about 6000, and
   * the payee is over its cap of 10000 as soon as it is sent.
   */
  lemma PreparedOnOtherTerms(settings: Settings)
    requires settings.minAmount == Some(1000.0)
    ensures var prepared := [Row(1, "acme", 20000.0, Pending, Manual)];
            && NothingOpen(prepared, "acme") && WithinCaps(prepared, SmallGrants)
            && Admitted(prepared, SmallGrants, "acme", 6000.0, settings)
            && !WithinTotals(Step(prepared, SmallGrants, Decide(1, "acme", 6000.0, settings)), SMALL_GRANT, "acme")
  {
    var prepared := [Row(1, "acme", 20000.0, Pending, Manual)];
    assert [] + [prepared[0]] == prepared;
    forall nickname, pick
      ensures Total(prepared, nickname, pick) == 0.0 && Number(prepared, nickname, pick) == 0
    {
      TotalSnoc([], prepared[0], nickname, pick);
    }
    var claimed := prepared[0].(status := Claimed, origin := Auto);
    TotalUpdate(prepared, 0, claimed, "acme", AutoLiveRows);
    assert Step(prepared, SmallGrants, Decide(1, "acme", 6000.0, settings)) == prepared[0 := claimed];
  }

  // What usage, exposure and a payee's automatic exposure each count.
  lemma PicksMean(row: Row, nickname: string)
    ensures Picked(row, nickname, PaidRows) <==> row.nickname == nickname && row.status == Paid
    ensures Picked(row, nickname, LiveRows) <==>
            row.nickname == nickname && row.status in {Paid, Claimed, UnknownOutcome}
    ensures Picked(row, nickname, AutoLiveRows) <==>
            row.nickname == nickname && row.origin == Auto && row.status in {Paid, Claimed, UnknownOutcome}
  {}

  /** Usage counts a payee's paid rows and no other, each by its amount. */
  lemma UsageMeans(rows: Rows, row: Row, nickname: string)
    ensures LoadPayeeUsage([], nickname) == Usage(0.0, 0)
    ensures var before, after := LoadPayeeUsage(rows, nickname), LoadPayeeUsage(rows + [row], nickname);
      if row.nickname == nickname && row.status == Paid
      then after.totalPaid == before.totalPaid + row.amount && after.paidCount == before.paidCount + 1
      else after.totalPaid == before.totalPaid && after.paidCount == before.paidCount
  {
    TotalSnoc(rows, row, nickname, PaidRows);
  }

  predicate Retried(row: Row) {
    row.status == Pending || row.status == Failed
  }

  /** A person's preparation writes terms only, and only of a missing or retryable intent. */
  lemma PrepareMeans(rows: Rows, grants: Grants, email: EmailId, nickname: string, amount: real)
    ensures var k, after := FindRow(rows, email), Step(rows, grants, Prepare(email, nickname, amount));
      after ==
      if amount <= 0.0 then rows
      else if k == |rows| then rows + [Row(email, nickname, amount, Pending, Manual)]
      else if Retried(rows[k]) then rows[k := Row(email, nickname, amount, rows[k].status, rows[k].origin)]
      else rows
  {}

  /** A decision, a confirmation and a settlement write the status and, for a claim, who made it. */
  lemma ClaimAndSettleMean(rows: Rows, grants: Grants, k: nat, outcome: Status)
    requires k < |rows|
    ensures Step(rows, grants, Confirm(k)) ==
            if Retried(rows[k]) then rows[k := Row(rows[k].email, rows[k].nickname, rows[k].amount, Claimed, Manual)]
            else rows
    ensures Step(rows, grants, Settle(k, outcome)) ==
            if (rows[k].status == Claimed || rows[k].status == UnknownOutcome) && outcome != Claimed
                && outcome != Pending
            then rows[k := Row(rows[k].email, rows[k].nickname, rows[k].amount, outcome, rows[k].origin)]
            else rows
  {}

  lemma DecideMeans(rows: Rows, grants: Grants, email: EmailId, nickname: string, amount: real, settings: Settings)
    ensures var k, after := FindRow(rows, email), Step(rows, grants, Decide(email, nickname, amount, settings));
      after ==
      if !Admitted(rows, grants, nickname, amount, settings) then rows
      else if k == |rows| then rows + [Row(email, nickname, amount, Claimed, Auto)]
      else if Retried(rows[k]) then rows[k := Row(email, rows[k].nickname, rows[k].amount, Claimed, Auto)]
      else rows
  {}

  /** The gate is the grant's own terms over the payee's paid rows, and the fee floor. */
  lemma AdmittedMeans(rows: Rows, grants: Grants, nickname: string, amount: real, settings: Settings)
    ensures Admitted(rows, grants, nickname, amount, settings) <==>
            && GrantAllows(grants(nickname), amount, LoadPayeeUsage(rows, nickname), settings.now)
            && FloorAllows(amount, settings)
  {
    ChecksMean(grants(nickname), amount, LoadPayeeUsage(rows, nickname), settings);
  }
}

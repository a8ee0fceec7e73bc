/** The decision gate over evidence gathered elsewhere. */
module Policy {
  import opened Common
  import opened PayeeResolver
  import opened Verifier
  import opened Eligibility

  datatype Decision = AutoPay | NeedsApproval | Quarantine | Ignore

  datatype Field = AmountField | PaymentMethodField | ReferenceNumberField | CurrencyField | PayeeNameField

  datatype Reason =
    | InjectionAttempt
    | OwnersConflict
    | HardFails(fails: seq<HardFail>)
    | DuplicateInvoice
    | NotPayable
    | LowClassification(classificationConfidence: real)
    | LowField(field: Field, confidence: real)
    | NotResolved(status: string)
    | NotAuthenticated
    | LowScore(score: int)
    | ChecksUnverified
    | GrantRefused
    | AboveCeiling
    | BelowMinimum
    | GlobalPause
    | PayeeAutoPayDisabled
    | OnlyInr

  datatype Verdict = Verdict(decision: Decision, reasons: seq<Reason>)

  datatype Confidences = Confidences(payeeName: real, amount: real, paymentMethod: real, referenceNumber: real,
      currency: real)

  datatype PolicyInput = PolicyInput(
    confidence: real,
    injectionDetected: bool,
    fields: Confidences,
    resolution: ResolveResult,
    dmarcPass: bool,
    alignedSpfDkimPass: bool,
    verification: Verification,
    duplicate: bool,
    grant: GrantStatus,
    amountWithinOwnerCeiling: bool,
    amountAboveMinimum: bool,
    paused: bool,
    payeeAutoPayEnabled: bool)

  const CONFIDENCE_BAR := 0.9
  const VERIFIER_SCORE_BAR := 80

  function StatusOf(resolution: ResolveResult): string {
    match resolution
    case Resolved(_, _) => "resolved"
    case NewPayee => "new_payee"
    case DetailsChanged(_, _) => "details_changed"
    case UnknownSender(_, _) => "unknown_sender"
    case IdentityMethodConflict(_, _) => "identity_method_conflict"
    case MultiplePaymentMethods => "multiple_payment_methods"
    case InvalidPaymentMethod => "invalid_payment_method"
  }

  function If(condition: bool, reason: Reason): seq<Reason> {
    if condition then [reason] else []
  }

  // ------------------------------------------------------- what each reason claims

  predicate Condemns(input: PolicyInput, reason: Reason) {
    match reason
    case InjectionAttempt => input.injectionDetected
    case OwnersConflict => input.resolution.IdentityMethodConflict?
    case HardFails(fails) => fails == input.verification.hardFails && fails != []
    case _ => false
  }

  function ConfidenceOf(fields: Confidences, field: Field): real {
    match field
    case AmountField => fields.amount
    case PaymentMethodField => fields.paymentMethod
    case ReferenceNumberField => fields.referenceNumber
    case CurrencyField => fields.currency
    case PayeeNameField => fields.payeeName
  }

  predicate Holds(fields: Confidences, field: Field, c: real) {
    match field
    case AmountField => c == fields.amount
    case PaymentMethodField => c == fields.paymentMethod
    case ReferenceNumberField => c == fields.referenceNumber
    case CurrencyField => c == fields.currency
    case PayeeNameField => c == fields.payeeName
  }

  predicate Says(status: string, resolution: ResolveResult) {
    match resolution
    case Resolved(_, _) => status == "resolved"
    case NewPayee => status == "new_payee"
    case DetailsChanged(_, _) => status == "details_changed"
    case UnknownSender(_, _) => status == "unknown_sender"
    case IdentityMethodConflict(_, _) => status == "identity_method_conflict"
    case MultiplePaymentMethods => status == "multiple_payment_methods"
    case InvalidPaymentMethod => status == "invalid_payment_method"
  }

  // An exact resolution outweighs the extracted display name, so only then is the name not consulted.
  predicate Consulted(input: PolicyInput, field: Field) {
    field.PayeeNameField? ==> !input.resolution.Resolved?
  }

  predicate Blocks(input: PolicyInput, reason: Reason) {
    match reason
    case LowClassification(c) => c == input.confidence && c < 0.9
    case LowField(field, c) => Holds(input.fields, field, c) && c < 0.9 && Consulted(input, field)
    case NotResolved(status) => Says(status, input.resolution) && !input.resolution.Resolved?
    case NotAuthenticated => !input.dmarcPass && !input.alignedSpfDkimPass
    case LowScore(score) => score == input.verification.score && score < 80
    case ChecksUnverified => input.verification.unverified
    case GrantRefused =>
      !(&& input.grant.active && input.grant.notExpired && input.grant.perPaymentCapOk
        && input.grant.remainingAmountOk && input.grant.remainingCountOk)
    case AboveCeiling => !input.amountWithinOwnerCeiling
    case BelowMinimum => !input.amountAboveMinimum
    case GlobalPause => input.paused
    case PayeeAutoPayDisabled => !input.payeeAutoPayEnabled
    case _ => false
  }

  // -------------------------------------------------------------- the decision

  function QuarantineReasons(input: PolicyInput): seq<Reason> {
    If(input.injectionDetected, InjectionAttempt)
    + If(input.resolution.IdentityMethodConflict?, OwnersConflict)
    + If(input.verification.hardFails != [], HardFails(input.verification.hardFails))
  }

  function ConsultedFields(input: PolicyInput): seq<Field> {
    [AmountField, PaymentMethodField, ReferenceNumberField, CurrencyField]
    + if input.resolution.Resolved? then [] else [PayeeNameField]
  }

  function LowFields(fields: Confidences, names: seq<Field>): seq<Reason> {
    if names == [] then []
    else
      var field := names[|names| - 1];
      LowFields(fields, names[..|names| - 1])
      + If(ConfidenceOf(fields, field) < CONFIDENCE_BAR, LowField(field, ConfidenceOf(fields, field)))
  }

  // Everything that is not the global switch, in two halves around it.
  function EvidenceBlockers(input: PolicyInput): seq<Reason> {
    If(input.confidence < CONFIDENCE_BAR, LowClassification(input.confidence))
    + LowFields(input.fields, ConsultedFields(input))
    + If(!input.resolution.Resolved?, NotResolved(StatusOf(input.resolution)))
    + If(!input.dmarcPass && !input.alignedSpfDkimPass, NotAuthenticated)
    + If(input.verification.score < VERIFIER_SCORE_BAR, LowScore(input.verification.score))
    + If(input.verification.unverified, ChecksUnverified)
  }

  function AmountBlockers(input: PolicyInput): seq<Reason> {
    If(!GrantOk(input.grant), GrantRefused)
    + If(!input.amountWithinOwnerCeiling, AboveCeiling)
    + If(!input.amountAboveMinimum, BelowMinimum)
  }

  function Blockers(input: PolicyInput): seq<Reason> {
    EvidenceBlockers(input) + AmountBlockers(input)
    + If(input.paused, GlobalPause) + If(!input.payeeAutoPayEnabled, PayeeAutoPayDisabled)
  }

  function Decide(input: PolicyInput): Verdict {
    if QuarantineReasons(input) != [] then Verdict(Quarantine, QuarantineReasons(input))
    else if input.duplicate then Verdict(Ignore, [DuplicateInvoice])
    else Verdict(if Blockers(input) != [] then NeedsApproval else AutoPay, Blockers(input))
  }

  method CollectEvidence(input: PolicyInput) returns (reasons: seq<Reason>)
    ensures reasons == EvidenceBlockers(input)
  {
    reasons := If(input.confidence < CONFIDENCE_BAR, LowClassification(input.confidence));
    var fields := [AmountField, PaymentMethodField, ReferenceNumberField, CurrencyField];
    if !input.resolution.Resolved? {
      fields := fields + [PayeeNameField];
    }
    assert fields == ConsultedFields(input);
    ghost var before := reasons;
    for i := 0 to |fields|
      invariant reasons == before + LowFields(input.fields, fields[..i])
    {
      assert fields[..i + 1][..i] == fields[..i];
      var confidence := ConfidenceOf(input.fields, fields[i]);
      if confidence < CONFIDENCE_BAR {
        reasons := reasons + [LowField(fields[i], confidence)];
      }
    }
    assert fields[..|fields|] == fields;
    reasons := reasons + If(!input.resolution.Resolved?, NotResolved(StatusOf(input.resolution)));
    reasons := reasons + If(!input.dmarcPass && !input.alignedSpfDkimPass, NotAuthenticated);
    reasons := reasons + If(input.verification.score < VERIFIER_SCORE_BAR, LowScore(input.verification.score));
    reasons := reasons + If(input.verification.unverified, ChecksUnverified);
  }

  method CollectQuarantine(input: PolicyInput) returns (reasons: seq<Reason>)
    ensures reasons == QuarantineReasons(input)
  {
    reasons := If(input.injectionDetected, InjectionAttempt);
    reasons := reasons + If(input.resolution.IdentityMethodConflict?, OwnersConflict);
    reasons := reasons + If(|input.verification.hardFails| > 0, HardFails(input.verification.hardFails));
  }

  method DecidePolicy(input: PolicyInput) returns (verdict: Verdict)
    ensures verdict == Decide(input)
  {
    var quarantine := CollectQuarantine(input);
    if |quarantine| > 0 {
      return Verdict(Quarantine, quarantine);
    }
    if input.duplicate {
      return Verdict(Ignore, [DuplicateInvoice]);
    }
    var reasons := CollectEvidence(input);
    ghost var evidence := reasons;
    reasons := reasons + If(!GrantOk(input.grant), GrantRefused);
    reasons := reasons + If(!input.amountWithinOwnerCeiling, AboveCeiling);
    reasons := reasons + If(!input.amountAboveMinimum, BelowMinimum);
    assert reasons == evidence + AmountBlockers(input);
    reasons := reasons + If(input.paused, GlobalPause);
    reasons := reasons + If(!input.payeeAutoPayEnabled, PayeeAutoPayDisabled);
    if |reasons| > 0 {
      return Verdict(NeedsApproval, reasons);
    }
    verdict := Verdict(AutoPay, []);
  }

  // The source guards a non-empty currency only.
  predicate Guarded(currency: Option<string>) {
    currency.Some? && currency.value != "" && currency.value != "INR"
  }

  function ApplyCurrencyGuard(verdict: Verdict, currency: Option<string>): Verdict {
    if Guarded(currency) && verdict.decision.AutoPay? then Verdict(NeedsApproval, verdict.reasons + [OnlyInr])
        else verdict
  }

  // ------------------------------------------------------------- what it means

  lemma {:induction false} LowFieldsContains(fields: Confidences, names: seq<Field>, r: Reason)
    ensures r in LowFields(fields, names) <==>
            r.LowField? && r.field in names && r.confidence == ConfidenceOf(fields, r.field)
                && r.confidence < CONFIDENCE_BAR
  {
    if names != [] {
      var field := names[|names| - 1];
      LowFieldsContains(fields, names[..|names| - 1], r);
      assert names == names[..|names| - 1] + [field];
    }
  }

  lemma ConsultedIff(input: PolicyInput, field: Field)
    ensures field in ConsultedFields(input) <==> Consulted(input, field)
  {
    var always := [AmountField, PaymentMethodField, ReferenceNumberField, CurrencyField];
    assert always[0] == AmountField && always[1] == PaymentMethodField;
    assert always[2] == ReferenceNumberField && always[3] == CurrencyField;
    assert field in ConsultedFields(input) <==>
      field in always || field in (if input.resolution.Resolved? then [] else [PayeeNameField]);
  }

  lemma MoreEvidenceContains(
      a: seq<Reason>, c1: bool, status: string, c2: bool, c3: bool, score: int, c4: bool, r: Reason)
    ensures r in a + If(c1, NotResolved(status)) + If(c2, NotAuthenticated) + If(c3, LowScore(score))
                 + If(c4, ChecksUnverified) <==>
            || r in a || (c1 && r == NotResolved(status)) || (c2 && r == NotAuthenticated)
            || (c3 && r == LowScore(score)) || (c4 && r == ChecksUnverified)
  {}

  lemma ExtractionContains(input: PolicyInput, r: Reason)
    ensures r in If(input.confidence < CONFIDENCE_BAR, LowClassification(input.confidence))
                 + LowFields(input.fields, ConsultedFields(input)) <==>
            (r.LowClassification? || r.LowField?) && Blocks(input, r)
  {
    LowFieldsContains(input.fields, ConsultedFields(input), r);
    if r.LowField? {
      ConsultedIff(input, r.field);
    }
  }

  lemma EvidenceContains(input: PolicyInput, r: Reason)
    ensures r in EvidenceBlockers(input) <==>
            (|| r.LowClassification? || r.LowField? || r.NotResolved? || r.NotAuthenticated?
             || r.LowScore? || r.ChecksUnverified?) && Blocks(input, r)
  {
    ExtractionContains(input, r);
    MoreEvidenceContains(
      If(input.confidence < CONFIDENCE_BAR, LowClassification(input.confidence))
      + LowFields(input.fields, ConsultedFields(input)),
      !input.resolution.Resolved?, StatusOf(input.resolution), !input.dmarcPass && !input.alignedSpfDkimPass,
      input.verification.score < VERIFIER_SCORE_BAR, input.verification.score, input.verification.unverified, r);
  }

  lemma AmountContains(input: PolicyInput, r: Reason)
    ensures r in AmountBlockers(input) <==> (r.GrantRefused? || r.AboveCeiling? || r.BelowMinimum?) && Blocks(input, r)
  {}

  /** A stated reason is a true one, and no true one goes unstated. */
  lemma ReasonsAreTheBlockers(input: PolicyInput, r: Reason)
    ensures r in Blockers(input) <==> Blocks(input, r)
    ensures r in QuarantineReasons(input) <==> Condemns(input, r)
  {
    EvidenceContains(input, r);
    AmountContains(input, r);
  }

  ghost predicate NothingBlocks(input: PolicyInput) {
    forall r :: !Blocks(input, r)
  }

  ghost predicate NothingCondemns(input: PolicyInput) {
    forall r :: !Condemns(input, r)
  }

  /**
   * The four outcomes, by which reasons hold: quarantine outranks replay, replay
   * outranks review, and auto-pay needs none.
   */
  lemma DecisionMeans(input: PolicyInput)
    ensures Decide(input).decision.Quarantine? <==> !NothingCondemns(input)
    ensures Decide(input).decision.Ignore? <==> NothingCondemns(input) && input.duplicate
    ensures Decide(input).decision.NeedsApproval? <==>
        NothingCondemns(input) && !input.duplicate && !NothingBlocks(input)
    ensures Decide(input).decision.AutoPay? <==> NothingCondemns(input) && !input.duplicate && NothingBlocks(input)
  {
    forall r
      ensures r in Blockers(input) <==> Blocks(input, r)
      ensures r in QuarantineReasons(input) <==> Condemns(input, r)
    {
      ReasonsAreTheBlockers(input, r);
    }
    if Blockers(input) != [] { assert Blocks(input, Blockers(input)[0]); }
    if QuarantineReasons(input) != [] { assert Condemns(input, QuarantineReasons(input)[0]); }
  }

  predicate AllGatesOpen(input: PolicyInput) {
    && !input.injectionDetected && input.verification.hardFails == [] && !input.duplicate
    && input.confidence >= 0.9 && input.resolution.Resolved?
    && input.fields.amount >= 0.9 && input.fields.paymentMethod >= 0.9
    && input.fields.referenceNumber >= 0.9 && input.fields.currency >= 0.9
    && (input.dmarcPass || input.alignedSpfDkimPass)
    && input.verification.score >= 80 && !input.verification.unverified
    && GrantOk(input.grant) && input.amountWithinOwnerCeiling && input.amountAboveMinimum
    && !input.paused && input.payeeAutoPayEnabled
  }

  lemma OpenGatesLetThrough(input: PolicyInput)
    requires AllGatesOpen(input)
    ensures Decide(input).decision.AutoPay?
  {
    DecisionMeans(input);
  }

  lemma ThroughMeansOpen(input: PolicyInput)
    requires Decide(input).decision.AutoPay?
    ensures AllGatesOpen(input)
  {
    DecisionMeans(input);
    assert !Condemns(input, InjectionAttempt) && !Condemns(input, HardFails(input.verification.hardFails));
    assert !Blocks(input, LowClassification(input.confidence))
        && !Blocks(input, NotResolved(StatusOf(input.resolution)));
    forall field: Field | Consulted(input, field)
      ensures ConfidenceOf(input.fields, field) >= CONFIDENCE_BAR
    {
      assert !Blocks(input, LowField(field, ConfidenceOf(input.fields, field)));
    }
    assert Consulted(input, AmountField) && Consulted(input, PaymentMethodField);
    assert Consulted(input, ReferenceNumberField) && Consulted(input, CurrencyField);
    assert !Blocks(input, NotAuthenticated) && !Blocks(input, LowScore(input.verification.score));
    assert !Blocks(input, ChecksUnverified) && !Blocks(input, GrantRefused);
    assert !Blocks(input, AboveCeiling) && !Blocks(input, BelowMinimum);
    assert !Blocks(input, GlobalPause) && !Blocks(input, PayeeAutoPayDisabled);
  }

  /** Money moves unattended exactly when every gate is open. */
  lemma OpenIff(input: PolicyInput)
    ensures Decide(input).decision.AutoPay? <==> AllGatesOpen(input)
  {
    if AllGatesOpen(input) { OpenGatesLetThrough(input); }
    if Decide(input).decision.AutoPay? { ThroughMeansOpen(input); }
  }

  /** What stands in the way besides the global switch is what would still stand in the way with it released. */
  lemma PauseAloneIff(paused: PolicyInput)
    requires paused.paused
    ensures Decide(paused).reasons == [GlobalPause] <==> Decide(paused.(paused := false)).decision.AutoPay?
  {
    var released := paused.(paused := false);
    assert EvidenceBlockers(released) == EvidenceBlockers(paused) && AmountBlockers(released) == AmountBlockers(paused);
    assert QuarantineReasons(released) == QuarantineReasons(paused);
    var e, a, p := EvidenceBlockers(paused), AmountBlockers(paused),
        If(!paused.payeeAutoPayEnabled, PayeeAutoPayDisabled);
    assert |Blockers(paused)| == |e| + |a| + 1 + |p| && |Blockers(released)| == |e| + |a| + |p|;
    if QuarantineReasons(paused) != [] {
      assert !Condemns(paused, GlobalPause);
      ReasonsAreTheBlockers(paused, GlobalPause);
      assert GlobalPause in [GlobalPause];
    } else if !paused.duplicate && Blockers(released) == [] {
      assert Blockers(paused) == [GlobalPause];
    }
  }

  // Where a reason stands among the others.
  function Rank(reason: Reason): nat {
    match reason
    case InjectionAttempt => 0
    case OwnersConflict => 1
    case HardFails(_) => 2
    case DuplicateInvoice => 3
    case NotPayable => 4
    case LowClassification(_) => 5
    case LowField(AmountField, _) => 6
    case LowField(PaymentMethodField, _) => 7
    case LowField(ReferenceNumberField, _) => 8
    case LowField(CurrencyField, _) => 9
    case LowField(PayeeNameField, _) => 10
    case NotResolved(_) => 11
    case NotAuthenticated => 12
    case LowScore(_) => 13
    case ChecksUnverified => 14
    case GrantRefused => 15
    case AboveCeiling => 16
    case BelowMinimum => 17
    case GlobalPause => 18
    case PayeeAutoPayDisabled => 19
    case OnlyInr => 20
  }

  ghost predicate Ranked(reasons: seq<Reason>, from: nat, below: nat) {
    && (forall i :: 0 <= i < |reasons| ==> from <= Rank(reasons[i]) < below)
    && forall i, j :: 0 <= i < j < |reasons| ==> Rank(reasons[i]) < Rank(reasons[j])
  }

  lemma RankedJoin(a: seq<Reason>, b: seq<Reason>, from: nat, middle: nat, below: nat)
    requires Ranked(a, from, middle) && Ranked(b, middle, below) && from <= middle <= below
    ensures Ranked(a + b, from, below)
  {}

  lemma {:induction false} LowFieldsRanked(fields: Confidences, names: seq<Field>, upTo: nat)
    requires |names| <= 5 && upTo == 6 + |names|
    requires forall i :: 0 <= i < |names| ==> forall c :: Rank(LowField(names[i], c)) == 6 + i
    ensures Ranked(LowFields(fields, names), 6, upTo)
  {
    if names != [] {
      var n := |names| - 1;
      LowFieldsRanked(fields, names[..n], upTo - 1);
      var last := If(ConfidenceOf(fields, names[n]) < CONFIDENCE_BAR,
          LowField(names[n], ConfidenceOf(fields, names[n])));
      RankedJoin(LowFields(fields, names[..n]), last, 6, upTo - 1, upTo);
    }
  }

  lemma FieldsRanked(input: PolicyInput)
    ensures Ranked(LowFields(input.fields, ConsultedFields(input)), 6, 11)
  {
    var names := ConsultedFields(input);
    assert names[0] == AmountField && names[1] == PaymentMethodField;
    assert names[2] == ReferenceNumberField && names[3] == CurrencyField;
    assert |names| == 5 ==> names[4] == PayeeNameField;
    LowFieldsRanked(input.fields, names, 6 + |names|);
  }

  lemma RankedIf(a: seq<Reason>, condition: bool, reason: Reason, from: nat)
    requires Ranked(a, from, Rank(reason)) && from <= Rank(reason)
    ensures Ranked(a + If(condition, reason), from, Rank(reason) + 1)
  {}

  lemma ExtractionRanked(input: PolicyInput)
    ensures Ranked(If(input.confidence < CONFIDENCE_BAR, LowClassification(input.confidence))
                   + LowFields(input.fields, ConsultedFields(input)), 5, 11)
  {
    FieldsRanked(input);
    RankedJoin(If(input.confidence < CONFIDENCE_BAR, LowClassification(input.confidence)),
               LowFields(input.fields, ConsultedFields(input)), 5, 6, 11);
  }

  lemma MoreEvidenceRanked(a: seq<Reason>, c1: bool, status: string, c2: bool, c3: bool, score: int, c4: bool)
    requires Ranked(a, 5, 11)
    ensures Ranked(a + If(c1, NotResolved(status)) + If(c2, NotAuthenticated) + If(c3, LowScore(score))
                   + If(c4, ChecksUnverified), 5, 15)
  {
    var b := a + If(c1, NotResolved(status));
    var c := b + If(c2, NotAuthenticated);
    RankedIf(a, c1, NotResolved(status), 5);
    RankedIf(b, c2, NotAuthenticated, 5);
    RankedIf(c, c3, LowScore(score), 5);
    RankedIf(c + If(c3, LowScore(score)), c4, ChecksUnverified, 5);
  }

  lemma EvidenceRanked(input: PolicyInput)
    ensures Ranked(EvidenceBlockers(input), 5, 15)
  {
    ExtractionRanked(input);
    MoreEvidenceRanked(
      If(input.confidence < CONFIDENCE_BAR, LowClassification(input.confidence))
      + LowFields(input.fields, ConsultedFields(input)),
      !input.resolution.Resolved?, StatusOf(input.resolution), !input.dmarcPass && !input.alignedSpfDkimPass,
      input.verification.score < VERIFIER_SCORE_BAR, input.verification.score, input.verification.unverified);
  }

  lemma AmountRanked(input: PolicyInput)
    ensures Ranked(AmountBlockers(input), 15, 18)
  {}

  lemma QuarantineRanked(input: PolicyInput)
    ensures Ranked(QuarantineReasons(input), 0, 3)
  {}

  lemma SwitchesRanked(a: seq<Reason>, paused: bool, disabled: bool)
    requires Ranked(a, 5, 18)
    ensures Ranked(a + If(paused, GlobalPause) + If(disabled, PayeeAutoPayDisabled), 5, 20)
  {
    RankedIf(a, paused, GlobalPause, 5);
    RankedIf(a + If(paused, GlobalPause), disabled, PayeeAutoPayDisabled, 5);
  }

  lemma BlockersRanked(input: PolicyInput)
    ensures Ranked(Blockers(input), 5, 20)
  {
    EvidenceRanked(input);
    AmountRanked(input);
    RankedJoin(EvidenceBlockers(input), AmountBlockers(input), 5, 15, 18);
    SwitchesRanked(EvidenceBlockers(input) + AmountBlockers(input), input.paused, !input.payeeAutoPayEnabled);
  }

  /** The reasons for review, and those for quarantine, stand in the order of the checks, each once. */
  lemma ReasonsInOrder(input: PolicyInput)
    ensures Ranked(Blockers(input), 5, 20) && Ranked(QuarantineReasons(input), 0, 3)
  {
    BlockersRanked(input);
    QuarantineRanked(input);
  }

  /** Only an automatic payment in a named currency other than INR is turned back, for that one further reason. */
  lemma CurrencyGuardMeans(verdict: Verdict, currency: Option<string>)
    ensures ApplyCurrencyGuard(verdict, currency) ==
            if verdict.decision == AutoPay && currency != None && currency != Some("") && currency != Some("INR")
            then Verdict(NeedsApproval, verdict.reasons + [OnlyInr])
            else verdict
  {}
}

/** What the pipeline and the replay say of an email, reason by reason and in the email's own terms. */
module Level1Reasons {
  import opened Common
  import opened Eligibility
  import opened Level1
  import opened PayeeResolver
  import opened PaymentMethods
  import opened Policy
  import opened Verifier
  import D = Duplicates

  function From(email: Email): string {
    if email.fromAddr == None then "" else email.fromAddr.value
  }

  /** One rail is resolved against the sender; several, and none, are not resolved at all. */
  lemma ResolutionMeans(email: Email, payees: seq<ApprovedPayee>)
    ensures var methods, resolution := email.extraction.paymentMethods, Resolution(email, payees);
      && (|methods| == 0 ==> resolution == NewPayee)
      && (|methods| > 1 ==> resolution == MultiplePaymentMethods)
      && (|methods| == 1 ==>
            if Normalize(methods[0]) == None then resolution == InvalidPaymentMethod
            else Means(payees, From(email), MethodKey(methods[0]).value, resolution))
  {
    var methods := email.extraction.paymentMethods;
    if |methods| == 1 && Normalize(methods[0]).Some? {
      ResolveMeans(From(email), methods[0], payees);
    }
  }

  // When a mismatch of rails says nothing about fraud.
  predicate Excused(resolution: ResolveResult, auth: Auth) {
    resolution == MultiplePaymentMethods || (resolution.DetailsChanged? && Aligned(auth))
  }

  /** The evidence kept: the verifier's own flags, less an excused mismatch of rails. */
  lemma EvidenceMeans(email: Email, payees: seq<ApprovedPayee>)
    ensures var e, v := Evidence(email, payees), Verified(EvidenceInput(email, payees));
      && e.authPassed == Aligned(email.auth) && e.softFlags == v.softFlags && e.score == v.score && e.score >= 90
      && (e.unverified <==> email.checksUnverified == Some(true))
      && forall fail :: fail in e.hardFails <==>
           fail in v.hardFails
           && !(fail == PaymentMethodMismatch && Excused(Resolution(email, payees), email.auth))
  {
    VerifierMeans(EvidenceInput(email, payees));
    forall fail
      ensures fail in Without(Verified(EvidenceInput(email, payees)).hardFails, PaymentMethodMismatch) <==>
              fail in Verified(EvidenceInput(email, payees)).hardFails && fail != PaymentMethodMismatch
    {
      WithoutContains(Verified(EvidenceInput(email, payees)).hardFails, PaymentMethodMismatch, fail);
    }
  }

  /** Changed details that do not authenticate are quarantined, and nothing unauthenticated is paid. */
  lemma UnalignedMailIsHeld(email: Email, history: seq<D.Fingerprint>, view: View)
    requires !email.auth.dmarcAligned && !(email.auth.spfAligned && email.auth.dkimAligned)
    ensures IsBill(email.classification.kind) && Resolution(email, view.payees).DetailsChanged? ==>
              Process(email, history, view).verdict.decision.Quarantine?
    ensures !Process(email, history, view).verdict.decision.AutoPay?
  {
    QuarantineIff(email, history, view);
    AutoPayIff(email, history, view);
  }

  // --------------------------------------------------------------- reasons for review

  // A payee's part of the gate: who it is, and the amount as a number.
  datatype Terms = Terms(payee: Option<ApprovedPayee>, amount: Option<real>)

  ghost predicate GrantStands(terms: Terms, view: View) {
    && terms.payee.Some? && terms.amount.Some?
    && GrantAllows(terms.payee.value.grant, terms.amount.value,
                   view.usage(terms.payee.value.recipientNickname), view.settings.now)
  }

  // Whether a reason about the payee, the amount or the switches is true.
  ghost predicate TermsBlock(terms: Terms, view: View, r: Reason) {
    match r
    case GrantRefused => !GrantStands(terms, view)
    case AboveCeiling => !(terms.amount.Some? && CeilingAllows(terms.amount.value, view.settings))
    case BelowMinimum => !(terms.amount.Some? && FloorAllows(terms.amount.value, view.settings))
    case GlobalPause => !view.settings.autoPayOn
    case PayeeAutoPayDisabled => !(terms.payee.Some? && terms.payee.value.grant.autoPayEnabled)
    case _ => false
  }

  // Whether a reason about what was read from the email is true.
  ghost predicate ReadingBlocks(email: Email, resolution: ResolveResult, r: Reason) {
    var x := email.extraction;
    match r
    case LowClassification(c) => c == email.classification.confidence && c < 0.9
    case LowField(AmountField, c) => c == x.amountConfidence && c < 0.9
    case LowField(PaymentMethodField, c) => c == x.paymentMethodConfidence && c < 0.9
    case LowField(ReferenceNumberField, c) => c == x.referenceNumberConfidence && c < 0.9
    case LowField(CurrencyField, c) => c == (if x.amount.Some? then x.amountConfidence else 0.0) && c < 0.9
    case LowField(PayeeNameField, c) => c == x.payeeNameConfidence && c < 0.9 && !resolution.Resolved?
    case NotResolved(status) => Says(status, resolution) && !resolution.Resolved?
    case NotAuthenticated => !Authenticated(email.auth)
    case ChecksUnverified => email.checksUnverified == Some(true)
    case _ => false
  }

  function LiveTerms(email: Email, view: View): Terms {
    var resolution := Resolution(email, view.payees);
    Terms(if resolution.Resolved? then FindPayee(view.payees, resolution.payeeId) else None,
          if email.extraction.amount.Some? then view.number(email.extraction.amount.value.value) else None)
  }

  predicate AboutTerms(r: Reason) {
    r.GrantRefused? || r.AboveCeiling? || r.BelowMinimum? || r.GlobalPause? || r.PayeeAutoPayDisabled?
  }

  lemma TermsBlockIff(input: PolicyInput, terms: Terms, view: View, r: Reason)
    requires input.grant == GrantFor(terms.payee, terms.amount, view)
    requires input.amountWithinOwnerCeiling <==>
             terms.amount.Some? && AmountWithinOwnerCeiling(terms.amount.value, view.settings)
    requires input.amountAboveMinimum <==> terms.amount.Some? && AmountAboveMinimum(terms.amount.value, view.settings)
    requires input.paused == !view.settings.autoPayOn
    requires input.payeeAutoPayEnabled <==> terms.payee.Some? && terms.payee.value.grant.autoPayEnabled
    requires AboutTerms(r)
    ensures Blocks(input, r) <==> TermsBlock(terms, view, r)
  {
    if terms.amount.Some? {
      var grant := if terms.payee.Some? then terms.payee.value.grant else Grant(false, false, None, None, None, None);
      var usage := if terms.payee.Some? then view.usage(terms.payee.value.recipientNickname) else NO_USAGE;
      ChecksMean(grant, terms.amount.value, usage, view.settings);
    }
  }

  lemma ReadingBlocksIff(email: Email, history: seq<D.Fingerprint>, view: View, r: Reason)
    requires !AboutTerms(r)
    ensures Blocks(LiveInput(email, history, view), r) <==> ReadingBlocks(email, Resolution(email, view.payees), r)
  {
    EvidenceMeans(email, view.payees);
  }

  lemma LiveBlocksIff(email: Email, history: seq<D.Fingerprint>, view: View, r: Reason)
    ensures Blocks(LiveInput(email, history, view), r) <==>
            ReadingBlocks(email, Resolution(email, view.payees), r) || TermsBlock(LiveTerms(email, view), view, r)
  {
    if AboutTerms(r) {
      TermsBlockIff(LiveInput(email, history, view), LiveTerms(email, view), view, r);
    } else {
      ReadingBlocksIff(email, history, view, r);
    }
  }

  /**
   * Of a bill that is neither quarantined nor a replay, each reason is given
   * exactly when it is true of the email, its payee and the settings; a currency
   * the grants cannot measure is one exactly when there is no other.
   */
  lemma ReviewReasonsIff(email: Email, history: seq<D.Fingerprint>, view: View, r: Reason)
    requires IsBill(email.classification.kind)
    requires var verdict := Process(email, history, view).verdict;
      !verdict.decision.Quarantine? && !verdict.decision.Ignore?
    ensures r in Process(email, history, view).verdict.reasons <==>
            if r == OnlyInr then !MeasuredByGrants(email.extraction.amount) && Unblocked(email, view)
            else ReadingBlocks(email, Resolution(email, view.payees), r) || TermsBlock(LiveTerms(email, view), view, r)
  {
    var input := LiveInput(email, history, view);
    DecisionMeans(input);
    if r == OnlyInr {
      UnblockedIff(email, history, view);
      ReasonsAreTheBlockers(input, OnlyInr);
    } else {
      ReasonsAreTheBlockers(input, r);
      LiveBlocksIff(email, history, view, r);
    }
  }

  lemma UnblockedIff(email: Email, history: seq<D.Fingerprint>, view: View)
    ensures Unblocked(email, view) <==> NothingBlocks(LiveInput(email, history, view))
  {
    forall r
      ensures Blocks(LiveInput(email, history, view), r) <==>
              ReadingBlocks(email, Resolution(email, view.payees), r) || TermsBlock(LiveTerms(email, view), view, r)
    {
      LiveBlocksIff(email, history, view, r);
    }
  }

  ghost predicate Unblocked(email: Email, view: View) {
    forall r :: !ReadingBlocks(email, Resolution(email, view.payees), r) && !TermsBlock(LiveTerms(email, view), view, r)
  }

  // -------------------------------------------------------------- replays and the rest

  /** A bill is ignored exactly when it is not quarantined and its own fingerprint is found to repeat another email. */
  lemma IgnoredIff(email: Email, history: seq<D.Fingerprint>, view: View)
    requires IsBill(email.classification.kind)
    ensures var x, resolution, verdict :=
        email.extraction, Resolution(email, view.payees), Process(email, history, view).verdict;
      && (verdict.decision.Ignore? <==>
            && !verdict.decision.Quarantine? && resolution.Resolved? && x.amount.Some?
            && D.FindDuplicate(D.Fingerprint(email.id, resolution.payeeId, x.referenceNumber,
                                             0.0 < x.referenceNumberConfidence < 0.85, x.amount), history).Duplicate?)
      && (verdict.decision.Ignore? ==> verdict.reasons == [DuplicateInvoice])
  {
    DecisionMeans(LiveInput(email, history, view));
  }

  /** The reasons for quarantine of a bill, exactly. */
  lemma QuarantineReasonsAre(email: Email, history: seq<D.Fingerprint>, view: View, r: Reason)
    requires IsBill(email.classification.kind) && Process(email, history, view).verdict.decision.Quarantine?
    ensures r in Process(email, history, view).verdict.reasons <==>
            match r
            case InjectionAttempt => email.classification.injectionDetected
            case OwnersConflict => Resolution(email, view.payees).IdentityMethodConflict?
            case HardFails(fails) => fails == Evidence(email, view.payees).hardFails && fails != []
            case _ => false
  {
    ReasonsAreTheBlockers(LiveInput(email, history, view), r);
    DecisionMeans(LiveInput(email, history, view));
  }

  /** Mail that is no bill is ignored for that, unless it carries an injection, which is all that is held against it. */
  lemma UnpayableMeans(email: Email, history: seq<D.Fingerprint>, view: View)
    requires !IsBill(email.classification.kind)
    ensures var result := Process(email, history, view);
      && result.extraction == email.extraction && result.resolution == NewPayee && result.duplicate == D.NotDuplicate
      && result.verdict ==
         if email.classification.injectionDetected
         then Verdict(Quarantine, [InjectionAttempt, HardFails([PromptInjection])])
         else Verdict(Ignore, [NotPayable])
  {
    var input := VerifierInput("", None, NO_AUTH, [], [], [], [], email.classification.injectionDetected);
    assert Verified(input).hardFails == if email.classification.injectionDetected then [PromptInjection] else [];
    if email.classification.injectionDetected {
      assert QuarantineReasons(UnpayableInput(email)) == [InjectionAttempt, HardFails([PromptInjection])];
    }
  }

  // The row that later emails are compared with, as the history query reads it.
  function HistoryRow(id: EmailId, row: StoredEmail): D.Row
    requires row.evidence.Some?
  {
    var e := row.evidence.value;
    D.Row(id, e.resolvedPayeeId, e.summary.referenceNumber, e.summary.referenceIsFallback, e.summary.amount)
  }

  /** The summary kept of an extraction: everything later steps read, and of the rails only how many there were. */
  lemma SummaryMeans(x: Extraction)
    ensures ExtractionSummary(x) ==
            Summary(x.payeeNameConfidence, x.amount, x.amountConfidence,
                    if x.amount == None then 0.0 else x.amountConfidence,
                    x.referenceNumber, x.referenceNumberConfidence, 0.0 < x.referenceNumberConfidence < 0.85,
                    |x.paymentMethods|, x.paymentMethodConfidence)
  {}

  /** What is stored of a bill is what it was itself compared by. */
  lemma StoredAsCompared(email: Email, history: seq<D.Fingerprint>, view: View, any: seq<D.Fingerprint>)
    requires IsBill(email.classification.kind)
    ensures D.Detect(HistoryRow(email.id, Store(email, Process(email, history, view))), any) ==
            ReplayCheck(email, Resolution(email, view.payees), any)
    ensures Store(email, Process(email, history, view)).verdict == Some(Process(email, history, view).verdict)
  {}

  // ---------------------------------------------------------------------- the replay

  function StoredTerms(e: StoredEvidence, view: View): Terms {
    Terms(if e.resolution.Resolved? then FindPayee(view.payees, e.resolution.payeeId)
          else if e.resolvedPayeeId.Some? then FindPayee(view.payees, e.resolvedPayeeId.value)
          else None,
          if e.summary.amount.Some? then view.number(e.summary.amount.value.value) else None)
  }

  ghost predicate StoredBlocks(row: StoredEmail, e: StoredEvidence, r: Reason) {
    match r
    case LowClassification(c) => c == row.confidence && c < 0.9
    case LowField(AmountField, c) => c == e.summary.amountConfidence && c < 0.9
    case LowField(PaymentMethodField, c) => c == e.summary.paymentMethodConfidence && c < 0.9
    case LowField(ReferenceNumberField, c) => c == e.summary.referenceNumberConfidence && c < 0.9
    case LowField(CurrencyField, c) =>
      c == (if e.summary.amount.Some? then e.summary.amountConfidence else 0.0) && c < 0.9
    case LowField(PayeeNameField, c) => c == e.summary.payeeNameConfidence && c < 0.9 && !e.resolution.Resolved?
    case NotResolved(status) => Says(status, e.resolution) && !e.resolution.Resolved?
    case NotAuthenticated =>
      !(e.verification.authPassed && (row.auth.dmarcPass || (row.auth.spfPass && row.auth.dkimPass)))
    case LowScore(score) => score == e.verification.score && score < 80
    case ChecksUnverified => e.verification.unverified
    case _ => false
  }

  lemma StoredBlocksIff(row: StoredEmail, view: View, r: Reason)
    requires row.evidence.Some?
    ensures Blocks(ReplayInput(row, row.evidence.value, view), r) <==>
            StoredBlocks(row, row.evidence.value, r) || TermsBlock(StoredTerms(row.evidence.value, view), view, r)
  {
    var e := row.evidence.value;
    if AboutTerms(r) {
      TermsBlockIff(ReplayInput(row, e, view), StoredTerms(e, view), view, r);
    }
  }

  /**
   * The same of a replay that neither quarantines nor ignores: each reason
   * exactly when it is true of what is stored and read now.
   */
  lemma ReplayReasonsIff(row: StoredEmail, view: View, r: Reason)
    requires row.evidence.Some? && r != OnlyInr
    requires !Replayed(row, view).decision.Quarantine? && !Replayed(row, view).decision.Ignore?
    ensures r in Replayed(row, view).reasons <==>
            StoredBlocks(row, row.evidence.value, r) || TermsBlock(StoredTerms(row.evidence.value, view), view, r)
  {
    var input := ReplayInput(row, row.evidence.value, view);
    ReasonsAreTheBlockers(input, r);
    DecisionMeans(input);
    StoredBlocksIff(row, view, r);
  }
}

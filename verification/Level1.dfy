/** The decision pipeline over one email, and its replay from stored evidence. */
module Level1 {
  import opened Common
  import opened Text
  import opened PaymentMethods
  import opened PayeeResolver
  import opened Verifier
  import opened Eligibility
  import opened Policy
  import D = Duplicates

  datatype Kind = Invoice | PaymentRequest | Reminder | Receipt | Statement | Unrelated

  datatype Classification = Classification(kind: Kind, confidence: real, injectionDetected: bool)

  datatype Extraction = Extraction(
    payeeNameConfidence: real,
    amount: Option<D.Amount>,
    amountConfidence: real,
    paymentMethods: seq<PaymentMethod>,
    paymentMethodConfidence: real,
    referenceNumber: Option<string>,
    referenceNumberConfidence: real)

  datatype Email = Email(
    id: EmailId,
    fromAddr: Option<string>,
    replyTo: Option<string>,
    auth: Auth,
    linkDomains: seq<string>,
    classification: Classification,
    extraction: Extraction,
    // Paid checks are optional here; Some(true) is a run that did not settle.
    checksUnverified: Option<bool>)

  // What a decision reads besides the email: the loaded payees, a payee's paid
  // usage by nickname, the settings, and how an amount string reads as a number.
  datatype View = View(
    payees: seq<ApprovedPayee>,
    usage: string -> Usage,
    number: string -> Option<real>,
    settings: Settings)

  datatype Processed = Processed(
    extraction: Extraction, resolution: ResolveResult, verification: Verification, duplicate: D.DuplicateResult,
        verdict: Verdict)

  predicate Payable(kind: Kind) {
    kind.Invoice? || kind.PaymentRequest? || kind.Reminder?
  }

  function Sender(email: Email): string {
    if email.fromAddr.Some? then email.fromAddr.value else ""
  }

  function Keys(methods: seq<PaymentMethod>): seq<string> {
    if methods == [] then []
    else (if MethodKey(methods[0]).Some? then [MethodKey(methods[0]).value] else []) + Keys(methods[1..])
  }

  function SendersOf(payees: seq<ApprovedPayee>): seq<string> {
    seq(|payees|, k requires 0 <= k < |payees| => payees[k].senderAddr)
  }

  function MethodsOf(payees: seq<ApprovedPayee>): seq<PaymentMethod> {
    seq(|payees|, k requires 0 <= k < |payees| => payees[k].paymentMethod)
  }

  function EvidenceInput(email: Email, payees: seq<ApprovedPayee>): VerifierInput {
    VerifierInput(Sender(email), email.replyTo, email.auth, SendersOf(payees), Keys(MethodsOf(payees)),
                  Keys(email.extraction.paymentMethods), email.linkDomains, email.classification.injectionDetected)
  }

  function Resolution(email: Email, payees: seq<ApprovedPayee>): ResolveResult {
    var methods := email.extraction.paymentMethods;
    if |methods| == 1 then ResolvePayee(Sender(email), methods[0], payees)
    else if |methods| > 1 then MultiplePaymentMethods
    else NewPayee
  }

  function Without(fails: seq<HardFail>, fail: HardFail): seq<HardFail> {
    if fails == [] then []
    else (if fails[0] == fail then [] else [fails[0]]) + Without(fails[1..], fail)
  }

  predicate MismatchIsNoise(resolution: ResolveResult, authPassed: bool) {
    resolution.MultiplePaymentMethods? || (resolution.DetailsChanged? && authPassed)
  }

  function Evidence(email: Email, payees: seq<ApprovedPayee>): Verification {
    var raw := Verified(EvidenceInput(email, payees)).(unverified := email.checksUnverified == Some(true));
    if MismatchIsNoise(Resolution(email, payees), raw.authPassed)
    then raw.(hardFails := Without(raw.hardFails, PaymentMethodMismatch))
    else raw
  }

  predicate ReferenceIsFallback(confidence: real) {
    0.0 < confidence < 0.85
  }

  function ReplayCheck(email: Email, resolution: ResolveResult, history: seq<D.Fingerprint>): D.DuplicateResult {
    var x := email.extraction;
    var payee := if resolution.Resolved? then Some(resolution.payeeId) else None;
    D.Detect(
      D.Row(email.id, payee, x.referenceNumber, ReferenceIsFallback(x.referenceNumberConfidence), x.amount),
      history)
  }

  function FindPayee(payees: seq<ApprovedPayee>, id: PayeeId): Option<ApprovedPayee> {
    if payees == [] then None
    else if payees[0].payeeId == id then Some(payees[0])
    else FindPayee(payees[1..], id)
  }

  function AmountInr(amount: Option<D.Amount>, number: string -> Option<real>): Option<real> {
    if amount.Some? then number(amount.value.value) else None
  }

  function Currency(amount: Option<D.Amount>): Option<string> {
    if amount.Some? then Some(amount.value.currency) else None
  }

  function GrantFor(payee: Option<ApprovedPayee>, amount: Option<real>, view: View): GrantStatus {
    if payee.Some? && amount.Some?
    then ComputeGrantStatus(payee.value.grant, amount.value, view.usage(payee.value.recipientNickname),
        view.settings.now)
    else NO_GRANT
  }

  // What the gate is asked while the email is processed.
  function LiveInput(email: Email, history: seq<D.Fingerprint>, view: View): PolicyInput {
    var x := email.extraction;
    var resolution := Resolution(email, view.payees);
    var evidence := Evidence(email, view.payees);
    var payee := if resolution.Resolved? then FindPayee(view.payees, resolution.payeeId) else None;
    var amount := AmountInr(x.amount, view.number);
    PolicyInput(
      email.classification.confidence, email.classification.injectionDetected,
      Confidences(x.payeeNameConfidence, x.amountConfidence, x.paymentMethodConfidence, x.referenceNumberConfidence,
                  if x.amount.Some? then x.amountConfidence else 0.0),
      resolution,
      evidence.authPassed && email.auth.dmarcPass,
      evidence.authPassed && email.auth.spfPass && email.auth.dkimPass,
      evidence,
      ReplayCheck(email, resolution, history).Duplicate?,
      GrantFor(payee, amount, view),
      amount.Some? && AmountWithinOwnerCeiling(amount.value, view.settings),
      amount.Some? && AmountAboveMinimum(amount.value, view.settings),
      !view.settings.autoPayOn,
      payee.Some? && payee.value.grant.autoPayEnabled)
  }

  // An email of any other kind is ignored, unless it tries to inject instructions.
  const NO_CONFIDENCE := Confidences(0.0, 0.0, 0.0, 0.0, 0.0)

  function UnpayableInput(email: Email): PolicyInput {
    PolicyInput(email.classification.confidence, email.classification.injectionDetected,
                NO_CONFIDENCE, NewPayee, false, false,
                Verified(VerifierInput("", None, NO_AUTH, [], [], [], [], email.classification.injectionDetected)),
                false, NO_GRANT, false, false, true, true)
  }

  function ProcessedUnpayable(email: Email): Processed {
    var input := UnpayableInput(email);
    Processed(email.extraction, NewPayee, input.verification, D.NotDuplicate,
              if email.classification.injectionDetected then Decide(input) else Verdict(Ignore, [NotPayable]))
  }

  function Process(email: Email, history: seq<D.Fingerprint>, view: View): Processed {
    if !Payable(email.classification.kind) then ProcessedUnpayable(email)
    else
      var resolution := Resolution(email, view.payees);
      Processed(email.extraction, resolution, Evidence(email, view.payees), ReplayCheck(email, resolution, history),
                ApplyCurrencyGuard(Decide(LiveInput(email, history, view)), Currency(email.extraction.amount)))
  }

  method ProcessLevel1(email: Email, history: seq<D.Fingerprint>, view: View) returns (result: Processed)
    ensures result == Process(email, history, view)
  {
    if !Payable(email.classification.kind) {
      var none := VerifyEmail(VerifierInput("", None, NO_AUTH, [], [], [], [], email.classification.injectionDetected));
      var verdict := Verdict(Ignore, [NotPayable]);
      if email.classification.injectionDetected {
        verdict := DecidePolicy(UnpayableInput(email));
      }
      return Processed(email.extraction, NewPayee, none, D.NotDuplicate, verdict);
    }
    var verification := VerifyEmail(EvidenceInput(email, view.payees));
    verification := verification.(unverified := email.checksUnverified == Some(true));
    var resolution := Resolution(email, view.payees);
    if resolution.MultiplePaymentMethods? || (resolution.DetailsChanged? && verification.authPassed) {
      verification := verification.(hardFails := Without(verification.hardFails, PaymentMethodMismatch));
    }
    var duplicate := ReplayCheck(email, resolution, history);
    var verdict := DecidePolicy(LiveInput(email, history, view));
    verdict := ApplyCurrencyGuard(verdict, Currency(email.extraction.amount));
    result := Processed(email.extraction, resolution, verification, duplicate, verdict);
  }

  // ------------------------------------------------------------- stored evidence

  // The extraction summary: rails are left out of it on purpose.
  datatype Summary = Summary(
    payeeNameConfidence: real,
    amount: Option<D.Amount>,
    amountConfidence: real,
    currencyConfidence: real,
    referenceNumber: Option<string>,
    referenceNumberConfidence: real,
    referenceIsFallback: bool,
    paymentMethodCount: nat,
    paymentMethodConfidence: real)

  datatype StoredEvidence = StoredEvidence(
    summary: Summary, resolution: ResolveResult, verification: Verification, duplicate: D.DuplicateResult,
    resolvedPayeeId: Option<PayeeId>)

  datatype StoredEmail = StoredEmail(
    confidence: real, injectionDetected: bool, auth: Auth, evidence: Option<StoredEvidence>, verdict: Option<Verdict>)

  function ExtractionSummary(x: Extraction): Summary {
    Summary(x.payeeNameConfidence, x.amount, x.amountConfidence,
            if x.amount.Some? then x.amountConfidence else 0.0,
            x.referenceNumber, x.referenceNumberConfidence, ReferenceIsFallback(x.referenceNumberConfidence),
            |x.paymentMethods|, x.paymentMethodConfidence)
  }

  function Store(email: Email, result: Processed): StoredEmail {
    StoredEmail(
      email.classification.confidence, email.classification.injectionDetected, email.auth,
      Some(StoredEvidence(
             ExtractionSummary(result.extraction), result.resolution, result.verification, result.duplicate,
             if result.resolution.Resolved? then Some(result.resolution.payeeId) else None)),
      Some(result.verdict))
  }

  function PayeeOf(evidence: StoredEvidence): Option<PayeeId> {
    if evidence.resolution.Resolved? then Some(evidence.resolution.payeeId) else evidence.resolvedPayeeId
  }

  function ReplayInput(row: StoredEmail, evidence: StoredEvidence, view: View): PolicyInput {
    var summary := evidence.summary;
    var payeeId := PayeeOf(evidence);
    var payee := if payeeId.Some? then FindPayee(view.payees, payeeId.value) else None;
    var amount := AmountInr(summary.amount, view.number);
    PolicyInput(
      row.confidence, row.injectionDetected,
      Confidences(summary.payeeNameConfidence, summary.amountConfidence, summary.paymentMethodConfidence,
                  summary.referenceNumberConfidence, if summary.amount.Some? then summary.amountConfidence else 0.0),
      evidence.resolution,
      evidence.verification.authPassed && row.auth.dmarcPass,
      evidence.verification.authPassed && row.auth.spfPass && row.auth.dkimPass,
      evidence.verification,
      evidence.duplicate.Duplicate?,
      GrantFor(payee, amount, view),
      amount.Some? && AmountWithinOwnerCeiling(amount.value, view.settings),
      amount.Some? && AmountAboveMinimum(amount.value, view.settings),
      !view.settings.autoPayOn,
      payee.Some? && payee.value.grant.autoPayEnabled)
  }

  function Replayed(row: StoredEmail, view: View): Verdict
    requires row.evidence.Some?
  {
    var evidence := row.evidence.value;
    ApplyCurrencyGuard(Decide(ReplayInput(row, evidence, view)), Currency(evidence.summary.amount))
  }

  predicate IsBill(kind: Kind) {
    kind == Invoice || kind == PaymentRequest || kind == Reminder
  }

  // Grant terms are in INR; no currency at all is let through as well.
  predicate MeasuredByGrants(amount: Option<D.Amount>) {
    amount.Some? ==> amount.value.currency == "INR" || amount.value.currency == ""
  }

  // -------------------------------------------------- resolver and verifier agree

  lemma {:induction false} KeysContain(methods: seq<PaymentMethod>, key: string)
    ensures key in Keys(methods) <==> exists k :: 0 <= k < |methods| && MethodKey(methods[k]) == Some(key)
  {
    if methods != [] {
      KeysContain(methods[1..], key);
      if k :| 0 <= k < |methods| && MethodKey(methods[k]) == Some(key) {
        assert k > 0 ==> methods[1..][k - 1] == methods[k];
      }
      if k :| 0 <= k < |methods[1..]| && MethodKey(methods[1..][k]) == Some(key) {
        assert methods[k + 1] == methods[1..][k];
      }
    }
  }

  lemma KnownKeys(payees: seq<ApprovedPayee>, key: string)
    ensures key in Keys(MethodsOf(payees)) <==> FindMethod(payees, key).Some?
  {
    KeysContain(MethodsOf(payees), key);
    FindMethodIs(payees, key);
    if a :| a in payees && MethodKey(a.paymentMethod) == Some(key) {
      var k :| 0 <= k < |payees| && payees[k] == a;
      assert MethodsOf(payees)[k] == a.paymentMethod;
    }
    if k :| 0 <= k < |MethodsOf(payees)| && MethodKey(MethodsOf(payees)[k]) == Some(key) {
      assert payees[k] in payees;
    }
  }

  lemma KnownSenders(email: Email, payees: seq<ApprovedPayee>)
    ensures SenderIsKnown(EvidenceInput(email, payees)) <==> FindSender(payees, Sender(email)).Some?
  {
    FindSenderIs(payees, Sender(email));
    var input := EvidenceInput(email, payees);
    if a :| a in payees && Lower(a.senderAddr) == Lower(Sender(email)) {
      var k :| 0 <= k < |payees| && payees[k] == a;
      assert input.knownSenders[k] == a.senderAddr;
    }
    if SenderIsKnown(input) {
      var k :| 0 <= k < |input.knownSenders| && Lower(input.knownSenders[k]) == Lower(input.fromAddr);
      assert payees[k] in payees;
    }
  }

  lemma NewRailOfOne(email: Email, payees: seq<ApprovedPayee>, m: PaymentMethod)
    requires email.extraction.paymentMethods == [m]
    ensures NewRail(EvidenceInput(email, payees)) <==>
            MethodKey(m).Some? && FindMethod(payees, MethodKey(m).value).None?
  {
    var input := EvidenceInput(email, payees);
    assert Keys([m]) == if MethodKey(m).Some? then [MethodKey(m).value] else [];
    if MethodKey(m).Some? {
      KnownKeys(payees, MethodKey(m).value);
      assert input.extractedKeys[0] == MethodKey(m).value;
    }
  }

  /**
   * With one rail on the invoice the verifier's mismatch flag and the resolver's
   * answer say the same thing: a resolved rail never carries it, and the flag
   * goes up exactly for a known sender's changed details.
   */
  lemma MismatchIffDetailsChanged(email: Email, payees: seq<ApprovedPayee>)
    requires |email.extraction.paymentMethods| <= 1
    ensures PaymentMethodMismatch in Verified(EvidenceInput(email, payees)).hardFails <==>
        Resolution(email, payees).DetailsChanged?
  {
    var input := EvidenceInput(email, payees);
    HardFailIff(input, PaymentMethodMismatch);
    KnownSenders(email, payees);
    if |email.extraction.paymentMethods| == 1 {
      var m := email.extraction.paymentMethods[0];
      assert email.extraction.paymentMethods == [m];
      NewRailOfOne(email, payees, m);
    }
  }

  lemma {:induction false} WithoutContains(fails: seq<HardFail>, fail: HardFail, f: HardFail)
    ensures f in Without(fails, fail) <==> f in fails && f != fail
  {
    if fails != [] {
      WithoutContains(fails[1..], fail, f);
    }
  }

  // The frauds that do not depend on who is approved for what: instructions in
  // the text, a sender domain that only looks like an approved one, or a link
  // that leads elsewhere.
  ghost predicate LooksForged(email: Email, payees: seq<ApprovedPayee>) {
    var domain := DomainOf(if email.fromAddr == None then "" else email.fromAddr.value);
    || email.classification.injectionDetected
    || (&& (forall a :: a in payees ==> DomainOf(a.senderAddr) != domain)
        && exists a :: a in payees && CompactDomain(DomainOf(a.senderAddr)) == CompactDomain(domain))
    || exists link :: link in email.linkDomains && !Under(Lower(link), domain)
  }

  predicate Aligned(auth: Auth) {
    auth.dmarcAligned || (auth.spfAligned && auth.dkimAligned)
  }

  predicate TakeoverPattern(resolution: ResolveResult, auth: Auth) {
    resolution.IdentityMethodConflict? || (resolution.DetailsChanged? && !Aligned(auth))
  }

  lemma SendersMean(payees: seq<ApprovedPayee>, sender: string)
    ensures sender in SendersOf(payees) <==> exists a :: a in payees && a.senderAddr == sender
  {
    if sender in SendersOf(payees) {
      var k :| 0 <= k < |SendersOf(payees)| && SendersOf(payees)[k] == sender;
      assert payees[k] in payees;
    }
    if a :| a in payees && a.senderAddr == sender {
      var k :| 0 <= k < |payees| && payees[k] == a;
      assert SendersOf(payees)[k] == sender;
    }
  }

  lemma LookalikeOfPayees(email: Email, payees: seq<ApprovedPayee>)
    ensures Raises(EvidenceInput(email, payees), LookalikeSenderDomain) <==>
            var domain := DomainOf(if email.fromAddr == None then "" else email.fromAddr.value);
            && (forall a :: a in payees ==> DomainOf(a.senderAddr) != domain)
            && exists a :: a in payees && CompactDomain(DomainOf(a.senderAddr)) == CompactDomain(domain)
  {
    var input := EvidenceInput(email, payees);
    LookalikeMeans(input);
    HardFailIff(input, LookalikeSenderDomain);
    forall sender
      ensures sender in input.knownSenders <==> exists a :: a in payees && a.senderAddr == sender
    {
      SendersMean(payees, sender);
    }
    assert forall a :: a in payees ==> a.senderAddr in input.knownSenders;
  }

  lemma ForgedIff(email: Email, payees: seq<ApprovedPayee>)
    ensures var input := EvidenceInput(email, payees);
      LooksForged(email, payees) <==>
      Raises(input, PromptInjection) || Raises(input, LookalikeSenderDomain) || Raises(input, LinkDomainMismatch)
  {
    LookalikeOfPayees(email, payees);
    LinkMeans(EvidenceInput(email, payees));
    HardFailIff(EvidenceInput(email, payees), LinkDomainMismatch);
  }

  lemma EvidenceFails(email: Email, payees: seq<ApprovedPayee>)
    ensures Evidence(email, payees).hardFails != [] <==>
            LooksForged(email, payees) || (Resolution(email, payees).DetailsChanged? && !Aligned(email.auth))
  {
    var input := EvidenceInput(email, payees);
    ForgedIff(email, payees);
    var fails := Evidence(email, payees).hardFails;
    forall f
      ensures f in Verified(input).hardFails <==> Raises(input, f)
      ensures f in Without(Verified(input).hardFails, PaymentMethodMismatch) <==>
          Raises(input, f) && f != PaymentMethodMismatch
    {
      HardFailIff(input, f);
      WithoutContains(Verified(input).hardFails, PaymentMethodMismatch, f);
    }
    if |email.extraction.paymentMethods| <= 1 {
      MismatchIffDetailsChanged(email, payees);
    }
    if fails != [] {
      assert fails[0] in fails;
    }
    assert (|| PromptInjection in fails || LookalikeSenderDomain in fails
            || LinkDomainMismatch in fails || PaymentMethodMismatch in fails) ==> fails != [];
  }

  /**
   * What gets quarantined, for every email and every list of payees: visible
   * forgery, or a sender and a rail of two different payees, or changed details
   * on a message that does not authenticate. Nothing else is, however many rails.
   */
  lemma QuarantineIff(email: Email, history: seq<D.Fingerprint>, view: View)
    ensures Process(email, history, view).verdict.decision.Quarantine? <==>
            if IsBill(email.classification.kind)
            then LooksForged(email, view.payees) || TakeoverPattern(Resolution(email, view.payees), email.auth)
            else email.classification.injectionDetected
  {
    if Payable(email.classification.kind) {
      EvidenceFails(email, view.payees);
    }
  }

  // ---------------------------------------------------------- what auto-pay requires

  lemma {:induction false} FindPayeeIs(payees: seq<ApprovedPayee>, id: PayeeId)
    ensures match FindPayee(payees, id)
      case None => forall a :: a in payees ==> a.payeeId != id
      case Some(a) =>
        exists k :: 0 <= k < |payees| && payees[k] == a && a.payeeId == id
                    && forall j :: 0 <= j < k ==> payees[j].payeeId != id
  {
    if payees != [] && payees[0].payeeId != id {
      FindPayeeIs(payees[1..], id);
      if FindPayee(payees, id).Some? {
        var a := FindPayee(payees, id).value;
        var k :| 0 <= k < |payees[1..]| && payees[1..][k] == a && forall j :: 0 <= j < k ==>
            payees[1..][j].payeeId != id;
        assert payees[k + 1] == a && forall j :: 0 < j < k + 1 ==> payees[j] == payees[1..][j - 1];
      }
    }
  }

  predicate WellExtracted(email: Email) {
    var x := email.extraction;
    && email.classification.confidence >= 0.9 && x.amount.Some? && x.amountConfidence >= 0.9
    && x.paymentMethodConfidence >= 0.9 && x.referenceNumberConfidence >= 0.9
  }

  predicate Authenticated(auth: Auth) {
    Aligned(auth) && (auth.dmarcPass || (auth.spfPass && auth.dkimPass))
  }

  predicate MayPay(payee: ApprovedPayee, amount: real, view: View) {
    && TermsAllow(payee.grant, amount, view.usage(payee.recipientNickname), view.settings)
    && payee.grant.autoPayEnabled && view.settings.autoPayOn
  }

  predicate PayeeMayBePaid(id: PayeeId, amount: Option<D.Amount>, view: View) {
    && amount.Some? && view.number(amount.value.value).Some?
    && FindPayee(view.payees, id).Some?
    && MayPay(FindPayee(view.payees, id).value, view.number(amount.value.value).value, view)
  }

  // The whole gate in the pipeline's own terms; the verifier's score is not in
  // it, because one soft flag cannot bring it below the bar.
  ghost predicate Automatic(email: Email, history: seq<D.Fingerprint>, view: View) {
    var resolution := Resolution(email, view.payees);
    && IsBill(email.classification.kind) && !LooksForged(email, view.payees)
    && |email.extraction.paymentMethods| == 1 && resolution.Resolved?
    && WellExtracted(email) && Authenticated(email.auth) && email.checksUnverified != Some(true)
    && !ReplayCheck(email, resolution, history).Duplicate?
    && PayeeMayBePaid(resolution.payeeId, email.extraction.amount, view)
    && MeasuredByGrants(email.extraction.amount)
  }

  lemma PayeeGates(id: PayeeId, amount: Option<D.Amount>, view: View)
    ensures PayeeMayBePaid(id, amount, view) <==>
            var payee, inr := FindPayee(view.payees, id), AmountInr(amount, view.number);
            && payee.Some? && inr.Some? && GrantOk(GrantFor(payee, inr, view)) && payee.value.grant.autoPayEnabled
            && view.settings.autoPayOn
            && AmountWithinOwnerCeiling(inr.value, view.settings) && AmountAboveMinimum(inr.value, view.settings)
  {
    var payee, inr := FindPayee(view.payees, id), AmountInr(amount, view.number);
    if payee.Some? && inr.Some? {
      ChecksMeanTermsAllow(payee.value.grant, inr.value, view.usage(payee.value.recipientNickname), view.settings);
    }
  }

  lemma GatesAreOpenIff(email: Email, history: seq<D.Fingerprint>, view: View)
    requires IsBill(email.classification.kind)
    ensures AllGatesOpen(LiveInput(email, history, view)) && MeasuredByGrants(email.extraction.amount) <==>
            Automatic(email, history, view)
  {
    EvidenceFails(email, view.payees);
    VerifierMeans(EvidenceInput(email, view.payees));
    if Resolution(email, view.payees).Resolved? {
      PayeeGates(Resolution(email, view.payees).payeeId, email.extraction.amount, view);
    }
  }

  /** An email is paid without anyone looking exactly when all of Automatic holds. */
  lemma AutoPayIff(email: Email, history: seq<D.Fingerprint>, view: View)
    ensures Process(email, history, view).verdict.decision.AutoPay? <==> Automatic(email, history, view)
  {
    if Payable(email.classification.kind) {
      OpenIff(LiveInput(email, history, view));
      GatesAreOpenIff(email, history, view);
    } else {
      OpenIff(UnpayableInput(email));
    }
  }

  // --------------------------------------------------------------------- replay

  // The replay may load payees again and read usage again; this much must not have moved.
  ghost predicate SameFacts(resolution: ResolveResult, view: View, later: View) {
    && later.settings == view.settings && later.number == view.number
    && (resolution.Resolved? ==>
          var payee := FindPayee(view.payees, resolution.payeeId);
          && FindPayee(later.payees, resolution.payeeId) == payee
          && (payee.Some? ==> later.usage(payee.value.recipientNickname) == view.usage(payee.value.recipientNickname)))
  }

  lemma SameQuestion(email: Email, history: seq<D.Fingerprint>, view: View, later: View)
    requires Payable(email.classification.kind)
    requires SameFacts(Resolution(email, view.payees), view, later)
    ensures var row := Store(email, Process(email, history, view));
            ReplayInput(row, row.evidence.value, later) == LiveInput(email, history, view)
  {}

  /**
   * Replaying stored evidence under unchanged facts gives the original decision
   * and reasons exactly when the email was of a payable kind or was quarantined
   * for injection: the replay does not know that other mail was ignored by kind.
   */
  lemma ReplayIff(email: Email, history: seq<D.Fingerprint>, view: View, later: View)
    requires SameFacts(Process(email, history, view).resolution, view, later)
    ensures Replayed(Store(email, Process(email, history, view)), later) == Process(email, history, view).verdict <==>
            IsBill(email.classification.kind) || email.classification.injectionDetected
  {
    var result := Process(email, history, view);
    var row := Store(email, result);
    if Payable(email.classification.kind) {
      SameQuestion(email, history, view, later);
    } else {
      var input := ReplayInput(row, row.evidence.value, later);
      assert QuarantineReasons(input) == QuarantineReasons(UnpayableInput(email));
      if !email.classification.injectionDetected {
        DecisionMeans(input);
        assert Blocks(input, NotResolved(StatusOf(NewPayee)));
      }
    }
  }

  function WithAutoPay(view: View, on: bool): View {
    view.(settings := view.settings.(autoPayOn := on))
  }

  lemma PauseChangesOnlyThePause(row: StoredEmail, view: View)
    requires row.evidence.Some?
    ensures ReplayInput(row, row.evidence.value, WithAutoPay(view, true))
         == ReplayInput(row, row.evidence.value, WithAutoPay(view, false)).(paused := false)
  {}

  /**
   * For any stored evidence: the global switch is the one thing in the way exactly
   * when releasing it gives auto-pay, up to the currency.
   */
  lemma PauseOnlyIff(row: StoredEmail, view: View)
    requires row.evidence.Some?
    ensures (&& Replayed(row, WithAutoPay(view, false)).reasons == [GlobalPause]
             && MeasuredByGrants(row.evidence.value.summary.amount))
       <==> Replayed(row, WithAutoPay(view, true)).decision.AutoPay?
  {
    var paused := ReplayInput(row, row.evidence.value, WithAutoPay(view, false));
    PauseChangesOnlyThePause(row, view);
    PauseAloneIff(paused);
    DecisionMeans(paused);
    assert Blocks(paused, GlobalPause);
  }

  /**
   * An email processed while paused is queued with the pause as its only reason
   * exactly when its replay with the switch on, all else equal, is auto-pay; for
   * a currency the grants cannot measure the queue entry promises too much.
   */
  lemma QueuedOnlyByPauseIff(email: Email, history: seq<D.Fingerprint>, view: View, later: View)
    requires SameFacts(Process(email, history, WithAutoPay(view, false)).resolution, WithAutoPay(view, false),
        WithAutoPay(later, false))
    ensures (&& Process(email, history, WithAutoPay(view, false)).verdict.reasons == [GlobalPause]
             && MeasuredByGrants(email.extraction.amount))
       <==> Replayed(Store(email, Process(email, history, WithAutoPay(view, false))),
           WithAutoPay(later, true)).decision.AutoPay?
  {
    var result := Process(email, history, WithAutoPay(view, false));
    var row := Store(email, result);
    PauseOnlyIff(row, later);
    if Payable(email.classification.kind) {
      ReplayIff(email, history, WithAutoPay(view, false), WithAutoPay(later, false));
    } else {
      OpenIff(ReplayInput(row, row.evidence.value, WithAutoPay(later, true)));
      ReasonsAreTheBlockers(UnpayableInput(email), GlobalPause);
      assert GlobalPause in [GlobalPause];
    }
  }

  // The fields of the evidence a later replay cannot re-check.
  predicate EvidenceStands(row: StoredEmail) {
    row.evidence.Some? &&
    var e := row.evidence.value;
    && !row.injectionDetected && e.resolution.Resolved? && e.verification.hardFails == [] && !e.duplicate.Duplicate?
    && row.confidence >= 0.9 && e.summary.amountConfidence >= 0.9
    && e.summary.paymentMethodConfidence >= 0.9 && e.summary.referenceNumberConfidence >= 0.9
    && e.verification.authPassed && (row.auth.dmarcPass || (row.auth.spfPass && row.auth.dkimPass))
    && e.verification.score >= 80 && !e.verification.unverified
    && MeasuredByGrants(e.summary.amount)
  }

  /**
   * Sender and rail of an automatic payment both belong to the approved payee
   * that is paid, and the caps checked are the ones listed first for that payee.
   */
  lemma AutoPayIsOwned(email: Email, history: seq<D.Fingerprint>, view: View)
    requires Process(email, history, view).verdict.decision.AutoPay?
    ensures exists p, n, key ::
              && Resolution(email, view.payees) == Resolved(p, n)
              && MethodKey(email.extraction.paymentMethods[0]) == Some(key)
              && OwnsSender(view.payees, p, n, Sender(email)) && (exists m :: OwnsMethod(view.payees, p, m, key))
              && PayeeMayBePaid(p, email.extraction.amount, view)
  {
    AutoPayIff(email, history, view);
    var method_ := email.extraction.paymentMethods[0];
    ResolveMeans(Sender(email), method_, view.payees);
    assert Means(view.payees, Sender(email), MethodKey(method_).value, Resolution(email, view.payees));
  }

  /**
   * However the facts have moved since, a replay allows a payment exactly when the
   * stored evidence stands and the payee may be paid now.
   */
  lemma ReplayedAutoPayIff(row: StoredEmail, view: View)
    requires row.evidence.Some?
    ensures Replayed(row, view).decision.AutoPay? <==>
            && EvidenceStands(row)
            && PayeeMayBePaid(row.evidence.value.resolution.payeeId, row.evidence.value.summary.amount, view)
  {
    var evidence := row.evidence.value;
    OpenIff(ReplayInput(row, evidence, view));
    if evidence.resolution.Resolved? {
      PayeeGates(evidence.resolution.payeeId, evidence.summary.amount, view);
    }
  }
}

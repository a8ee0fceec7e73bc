/**
 * What one payout attempt can look like at RazorpayX or at the Perflo CLI, how
 * the adapters classify it, and what that classification is worth given what
 * really happened to the money.
 */
module PaymentProviders {
  import opened Common
  import opened PaymentIntents

  // What payViaConfiguredExecutor does: return a reference, or throw.
  datatype Response =
    | Returned(reference: Token)
    | ThrewDefinite(reason: Option<Token>)
    | ThrewUnknown(hint: Option<Token>)
    | ThrewOther

  // ------------------------------------------------------------------ RazorpayX

  // A non-2xx answer with a readable body, or no usable answer at all.
  datatype Reply<T> = Answered(value: T) | Rejected | NoResponse

  datatype Payout = Payout(id: Token, status: string)

  datatype RazorpayRun = RazorpayRun(inr: bool, contact: Reply<()>, fundAccount: Reply<()>, payout: Reply<Payout>)

  function MapRazorpayStatus(raw: string): PayoutStatus {
    if raw == "queued" || raw == "pending" || raw == "processing" then PayoutProcessing
    else if raw == "processed" then PayoutPaid
    else if raw == "reversed" || raw == "rejected" || raw == "cancelled" || raw == "failed" then PayoutFailed
    else PayoutUnknown
  }

  // The payout request itself goes out only after both preparatory calls were answered.
  predicate RazorpayAsked(run: RazorpayRun) {
    run.inr && run.contact.Answered? && run.fundAccount.Answered?
  }

  function RazorpayCreatePayout(run: RazorpayRun, key: Token): PayoutResult {
    if !run.inr then PayoutResult(key, PayoutFailed)
    else if !run.contact.Answered? then PayoutResult(key, PayoutFailed)
    else if !run.fundAccount.Answered? then PayoutResult(key, PayoutFailed)
    else match run.payout
      case Answered(payout) => PayoutResult(payout.id, MapRazorpayStatus(payout.status))
      case Rejected => PayoutResult(key, PayoutFailed)
      case NoResponse => PayoutResult(key, PayoutUnknown)
  }

  // ------------------------------------------------------------------ Perflo CLI

  // A string field of the JSON answer: JavaScript's ?? skips only absent ones.
  datatype Field = Absent | Empty | Ref(token: Token)

  datatype CliRun =
    | Killed
    | NoJson
    | Unparseable
    | Refused
    // A refusal without an error object, on a non-zero exit, escapes as a plain error.
    | RefusedBadly
    | Body(references: seq<Field>, confirmed: Option<bool>)

  function FirstReference(fields: seq<Field>): Option<Token> {
    if fields == [] then None
    else match fields[0]
      case Absent => FirstReference(fields[1..])
      case Empty => None
      case Ref(token) => Some(token)
  }

  function PerfloCreatePayout(run: CliRun, key: Token): Option<PayoutResult> {
    match run
    case Refused => Some(PayoutResult(key, PayoutFailed))
    case RefusedBadly => None
    case Body(references, confirmed) =>
      if FirstReference(references).None? then Some(PayoutResult(key, PayoutUnknown))
      else if confirmed == Some(false) then Some(PayoutResult(FirstReference(references).value, PayoutUnknown))
      else Some(PayoutResult(FirstReference(references).value, PayoutPaid))
    case _ => Some(PayoutResult(key, PayoutUnknown))
  }

  // -------------------------------------------------------------------- one payout

  // `standing` is the truth nobody on our side sees: money moved, or will.
  datatype Attempt =
    | NothingSent // no approved rail, or an amount that does not parse
    | ViaRazorpay(razorpay: RazorpayRun, standing: bool)
    | ViaPerflo(perflo: CliRun, standing: bool)

  // payoutResultToLegacyPayResult: processing has no state of its own.
  function ToLegacy(result: PayoutResult): Response {
    match result.status
    case PayoutPaid => Returned(result.providerReference)
    case PayoutFailed => ThrewDefinite(Some(result.providerReference))
    case _ => ThrewUnknown(Some(result.providerReference))
  }

  function Pay(attempt: Attempt, key: Token): Response {
    match attempt
    case NothingSent => ThrewOther
    case ViaRazorpay(run, _) => ToLegacy(RazorpayCreatePayout(run, key))
    case ViaPerflo(run, _) =>
      var result := PerfloCreatePayout(run, key);
      if result.None? then ThrewOther else ToLegacy(result.value)
  }

  predicate Standing(attempt: Attempt) {
    !attempt.NothingSent? && attempt.standing
  }

  // The provider's own words for a payout that happened and for one that will not.
  const RAZORPAY_DONE: set<string> := {"processed"}
  const RAZORPAY_REFUSED: set<string> := {"reversed", "rejected", "cancelled", "failed"}

  // The first field that is there at all names a payout.
  ghost predicate NamesAPayout(fields: seq<Field>) {
    exists k :: 0 <= k < |fields| && fields[k].Ref? && forall j :: 0 <= j < k ==> fields[j].Absent?
  }

  // Providers may stay silent but do not lie: a confirmed payout stands, a
  // refused or failed one does not, and nothing stands that was never asked for.
  ghost predicate HonestRazorpay(run: RazorpayRun, standing: bool) {
    if !RazorpayAsked(run) then !standing
    else match run.payout
      case Answered(payout) => (payout.status in RAZORPAY_DONE ==> standing)
          && (payout.status in RAZORPAY_REFUSED ==> !standing)
      case Rejected => !standing
      case NoResponse => true
  }

  ghost predicate HonestPerflo(run: CliRun, standing: bool) {
    match run
    case Refused => !standing
    case RefusedBadly => !standing
    case Body(references, confirmed) => NamesAPayout(references) && confirmed != Some(false) ==> standing
    case _ => true
  }

  ghost predicate Honest(attempt: Attempt) {
    match attempt
    case NothingSent => true
    case ViaRazorpay(run, standing) => HonestRazorpay(run, standing)
    case ViaPerflo(run, standing) => HonestPerflo(run, standing)
  }

  function IssuedReference(attempt: Attempt, key: Token): Option<Token> {
    match Pay(attempt, key)
    case Returned(reference) => if reference == key then None else Some(reference)
    case ThrewDefinite(reference) => if reference == Some(key) then None else reference
    case ThrewUnknown(reference) => if reference == Some(key) then None else reference
    case ThrewOther => None
  }

  lemma {:induction false} FirstReferenceNames(fields: seq<Field>)
    ensures FirstReference(fields).Some? <==> NamesAPayout(fields)
  {
    if fields != [] && fields[0].Absent? {
      FirstReferenceNames(fields[1..]);
      if NamesAPayout(fields) {
        var k :| 0 <= k < |fields| && fields[k].Ref? && forall j :: 0 <= j < k ==> fields[j].Absent?;
        assert fields[1..][k - 1].Ref?;
      }
      if NamesAPayout(fields[1..]) {
        var k :| 0 <= k < |fields[1..]| && fields[1..][k].Ref? && forall j :: 0 <= j < k ==> fields[1..][j].Absent?;
        assert fields[k + 1].Ref?;
        assert forall j :: 0 < j < k + 1 ==> fields[j] == fields[1..][j - 1];
      }
    } else if fields != [] && fields[0].Ref? {
      assert NamesAPayout(fields);
    }
  }

  // What an adapter's result claims about the money, and that it claims no less than it could.
  ghost predicate SoundFor(status: PayoutStatus, standing: bool, eitherWay: bool) {
    && (status.PayoutPaid? ==> standing)
    && (status.PayoutFailed? ==> !standing)
    && (eitherWay <==> status.PayoutUnknown? || status.PayoutProcessing?)
  }

  // The RazorpayX half of ClassificationIsSound.
  lemma RazorpayIsSound(run: RazorpayRun, standing: bool, key: Token)
    requires HonestRazorpay(run, standing)
    ensures SoundFor(RazorpayCreatePayout(run, key).status, standing,
                     HonestRazorpay(run, true) && HonestRazorpay(run, false))
  {}

  // And the Perflo half, where a bare error escapes only when nothing was sent.
  lemma PerfloIsSound(run: CliRun, standing: bool, key: Token)
    requires HonestPerflo(run, standing)
    ensures PerfloCreatePayout(run, key).None? ==> !standing
    ensures PerfloCreatePayout(run, key).Some? ==>
              SoundFor(PerfloCreatePayout(run, key).value.status, standing,
                       HonestPerflo(run, true) && HonestPerflo(run, false))
  {
    if run.Body? {
      FirstReferenceNames(run.references);
    }
  }

  /**
   * The classification is exactly as strong as the evidence: a success is
   * always real, a failure never hides a payment, and when what the provider
   * said leaves both possible (the same answer is honest either way) the
   * attempt is reported as unknown, always with something to look it up by.
   */
  lemma ClassificationIsSound(attempt: Attempt, key: Token)
    requires Honest(attempt)
    ensures Pay(attempt, key).Returned? ==> Standing(attempt)
    ensures Pay(attempt, key).ThrewDefinite? || Pay(attempt, key).ThrewOther? ==> !Standing(attempt)
    ensures Pay(attempt, key).ThrewUnknown? ==> Pay(attempt, key).hint.Some?
    ensures !attempt.NothingSent? ==>
              (Honest(attempt.(standing := true)) && Honest(attempt.(standing := false)) <==>
                  Pay(attempt, key).ThrewUnknown?)
  {
    match attempt
    case NothingSent =>
    case ViaRazorpay(run, standing) => RazorpayIsSound(run, standing, key);
    case ViaPerflo(run, standing) => PerfloIsSound(run, standing, key);
  }
}

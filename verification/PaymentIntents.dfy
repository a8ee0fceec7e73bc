/**
 * The payment_intents table and the single-statement reads and writes that the
 * payment code issues against it. Every function below is one conditional
 * UPDATE or INSERT of the source, so it is also one atomic step of the
 * interleaving model in PaymentProtocol.
 */
module PaymentIntents {
  import opened Common

  // Idempotency keys and provider references share one type because the
  // reconciler compares one with the other.
  type Token = nat

  // Times are milliseconds.
  const CLAIM_STALE_MS: nat := 15 * 60 * 1000

  datatype Status = Pending | Claimed | Paid | Failed | UnknownOutcome

  datatype Payable = Payable(recipientNickname: string, amount: string, currency: string)

  datatype Intent = Intent(
    payable: Payable,
    idempotencyKey: Token,
    status: Status,
    paymentReference: Option<Token>,
    claimedAt: Option<Time>,
    paidAt: Option<Time>)

  type Table = map<EmailId, Intent>

  // The only two states a claim, or a rewrite of the payable fields, starts from.
  predicate Retryable(status: Status) {
    status.Pending? || status.Failed?
  }

  predicate CanClaim(table: Table, email: EmailId) {
    email in table && Retryable(table[email].status)
  }

  function Claim(table: Table, email: EmailId, now: Time): Table {
    if CanClaim(table, email)
    then table[email := table[email].(status := Claimed, claimedAt := Some(now))]
    else table
  }

  // The "paid" write is an unconditional update of an existing row.
  function WritePaid(table: Table, email: EmailId, reference: Token, now: Time): Table {
    if email in table
    then table[email := table[email].(status := Paid, paidAt := Some(now), paymentReference := Some(reference))]
    else table
  }

  predicate CanRecordFailure(table: Table, email: EmailId) {
    email in table && table[email].status.Claimed?
  }

  // The failure write matches any claimed row, whoever claimed it.
  function RecordFailure(table: Table, email: EmailId, outcome: Status, reference: Option<Token>): Table {
    if CanRecordFailure(table, email)
    then table[email := table[email].(
                 status := outcome,
                 paymentReference := if reference.Some? then reference else table[email].paymentReference)]
    else table
  }

  // claimedAt < now - CLAIM_STALE_MS; a claim without a timestamp never compares true.
  predicate StaleClaim(intent: Intent, now: Time) {
    intent.status.Claimed? && intent.claimedAt.Some? && intent.claimedAt.value + CLAIM_STALE_MS < now
  }

  function PromoteRow(intent: Intent, now: Time): Intent {
    if StaleClaim(intent, now) then intent.(status := UnknownOutcome) else intent
  }

  function PromoteStaleClaims(table: Table, now: Time): Table {
    map email | email in table :: PromoteRow(table[email], now)
  }

  predicate Reconcilable(intent: Intent) {
    && intent.status.UnknownOutcome?
    && intent.paymentReference.Some?
    && intent.paymentReference.value != intent.idempotencyKey
  }

  datatype PayoutStatus = PayoutProcessing | PayoutPaid | PayoutFailed | PayoutUnknown

  datatype PayoutResult = PayoutResult(providerReference: Token, status: PayoutStatus)

  // A provider verdict settles a row only while it is still unknown_outcome.
  function VerdictRow(intent: Intent, result: PayoutResult, now: Time): Intent {
    if !intent.status.UnknownOutcome? then intent
    else match result.status
      case PayoutPaid => intent.(status := Paid, paidAt := Some(now),
          paymentReference := Some(result.providerReference))
      case PayoutFailed => intent.(status := Failed, paymentReference := Some(result.providerReference))
      case _ => intent
  }

  function WriteVerdict(table: Table, email: EmailId, result: PayoutResult, now: Time): Table {
    if email in table then table[email := VerdictRow(table[email], result, now)] else table
  }

  function RepairPayable(table: Table, email: EmailId, payable: Payable): Table {
    if CanClaim(table, email) then table[email := table[email].(payable := payable)] else table
  }

  predicate KeyInUse(table: Table, key: Token) {
    exists email :: email in table && table[email].idempotencyKey == key
  }

  function FreshIntent(payable: Payable, key: Token): Intent {
    Intent(payable, key, Pending, None, None, None)
  }

  // An upsert whose update half is empty. The unique index on the key makes
  // the insert throw, and so change nothing, when the key already exists.
  function CreateIfMissing(table: Table, email: EmailId, payable: Payable, key: Token): Table {
    if email in table || KeyInUse(table, key) then table
    else table[email := FreshIntent(payable, key)]
  }

  ghost predicate KeysUnique(table: Table) {
    forall e, f :: e in table && f in table && e != f ==> table[e].idempotencyKey != table[f].idempotencyKey
  }
}

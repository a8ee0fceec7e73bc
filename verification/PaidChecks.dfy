/** The budgeted x402 purchase loop, and the cents / USDC conversions it relies on. */
module PaidChecks {
  import opened Common
  import opened Amounts

  const X402_DEFAULT_BUDGET_MINOR: nat := 5
  const X402_EXCEPTION_BUDGET_MINOR: nat := 50
  const USDC_MINOR_PER_CENT: nat := 10_000
  const MAX_SAFE_INTEGER: nat := 9_007_199_254_740_991

  function UsdToUsdcMinor(value: string): Option<nat> {
    ParseFixed(value, 6)
  }

  // Rounds up; None is the thrown error for a number that is not a safe integer.
  function CentsFromUsdcMinor(value: nat): Option<nat> {
    var cents := (value + USDC_MINOR_PER_CENT - 1) / USDC_MINOR_PER_CENT;
    if cents <= MAX_SAFE_INTEGER then Some(cents) else None
  }

  lemma LimitParses(cents: nat)
    ensures UsdToUsdcMinor(ToFixed2(cents)) == Some(cents * USDC_MINOR_PER_CENT)
  {
    var whole, rest := cents / 100, cents % 100;
    Pad2Value(rest);
    ParsePrinted(whole, Pad2(rest), 6);
    Powers();
    assert whole * 1_000_000 + rest * 10_000 == cents * USDC_MINOR_PER_CENT;
  }

  /** A price fits the printed limit exactly when its price in cents, rounded up, fits the limit. */
  lemma LimitIsExact(price: nat, limit: nat)
    requires limit <= MAX_SAFE_INTEGER
    ensures UsdToUsdcMinor(ToFixed2(limit)).Some?
    ensures price <= UsdToUsdcMinor(ToFixed2(limit)).value <==>
            CentsFromUsdcMinor(price).Some? && CentsFromUsdcMinor(price).value <= limit
  {
    LimitParses(limit);
  }

  // ------------------------------------------------------------------ one purchase

  datatype Settlement = SettledPayment | UnverifiedPayment | NoPayment

  datatype Fetch =
    | FetchThrew
    // `reported` is the price in the vendor's answer, absent when it gave none.
    | Fetched(reported: Option<nat>, settlement: Option<Settlement>, hasTxHash: bool)

  datatype Vendor = Unavailable | NoPrice | Priced(quoted: nat, fetch: Fetch)

  datatype Purchase = PurchaseThrew | Purchased(cost: nat, settlement: Settlement, hasTxHash: bool)

  function CliPurchase(vendor: Vendor, maxPriceUsd: string): Purchase {
    var limit := UsdToUsdcMinor(maxPriceUsd);
    if !vendor.Priced? || limit.None? || vendor.quoted > limit.value || vendor.fetch.FetchThrew? then PurchaseThrew
    else
      var fetch := vendor.fetch;
      var cents := CentsFromUsdcMinor(if fetch.reported.Some? then fetch.reported.value else vendor.quoted);
      var settlement := if fetch.settlement.Some? then fetch.settlement.value
                        else if fetch.hasTxHash then SettledPayment else UnverifiedPayment;
      if cents.None? then PurchaseThrew else Purchased(cents.value, settlement, fetch.hasTxHash)
  }

  /** A purchase charges more than its limit only when the vendor reports a price above the one it quoted. */
  lemma OverchargeIff(vendor: Vendor, limit: nat)
    requires limit <= MAX_SAFE_INTEGER && CliPurchase(vendor, ToFixed2(limit)).Purchased?
    ensures CliPurchase(vendor, ToFixed2(limit)).cost > limit <==>
            vendor.fetch.reported.Some? && vendor.fetch.reported.value > limit * USDC_MINOR_PER_CENT
  {
    LimitParses(limit);
    LimitIsExact(vendor.quoted, limit);
    if vendor.fetch.reported.Some? { LimitIsExact(vendor.fetch.reported.value, limit); }
  }

  // ---------------------------------------------------------------------- the loop

  datatype Tool = EmailVerify | Browser

  datatype SpendRecord = SpendRecord(tool: Tool, cost: nat, settlement: Settlement, hasTxHash: bool)

  datatype Check = Check(tool: Tool, verified: bool)

  // The sender is checked first, then every link.
  function ToolFor(n: nat): Tool {
    if n == 0 then EmailVerify else Browser
  }

  function Spent(records: seq<SpendRecord>): nat {
    if records == [] then 0 else Spent(records[..|records| - 1]) + records[|records| - 1].cost
  }

  function Recorded(n: nat, purchase: Purchase): SpendRecord {
    match purchase
    case PurchaseThrew => SpendRecord(ToolFor(n), 0, NoPayment, false)
    case Purchased(cost, settlement, hasTxHash) => SpendRecord(ToolFor(n), cost, settlement, hasTxHash)
  }

  predicate Verifies(record: SpendRecord) {
    record.settlement.SettledPayment? && record.hasTxHash
  }

  // What a client answers to the n-th request under a limit in cents.
  type Client = (nat, nat) -> Purchase

  // A request is made only while budget is left, with exactly what is left as its limit.
  ghost predicate AsPlanned(before: seq<SpendRecord>, record: SpendRecord, client: Client, budget: nat) {
    && Spent(before) < budget
    && record == Recorded(|before|, client(|before|, budget - Spent(before)))
  }

  ghost predicate WithinPlan(records: seq<SpendRecord>, client: Client, budget: nat) {
    forall n :: 0 <= n < |records| ==> AsPlanned(records[..n], records[n], client, budget)
  }

  ghost predicate ChecksFollow(checks: seq<Check>, records: seq<SpendRecord>) {
    && |checks| <= |records|
    && forall n :: 0 <= n < |checks| ==> checks[n] == Check(records[n].tool, Verifies(records[n]))
  }

  function Budget(isNewPayee: bool, amountAboveOwnerThreshold: bool): nat {
    if isNewPayee || amountAboveOwnerThreshold then X402_EXCEPTION_BUDGET_MINOR else X402_DEFAULT_BUDGET_MINOR
  }

  method RunPaidVerifierChecks(links: nat, isNewPayee: bool, amountAboveOwnerThreshold: bool, client: Client)
    returns (verified: bool, checks: seq<Check>, records: seq<SpendRecord>, spent: nat)
    ensures WithinPlan(records, client, Budget(isNewPayee, amountAboveOwnerThreshold))
    ensures spent == Spent(records)
    ensures ChecksFollow(checks, records)
    // Only the last request can have failed; it leaves a check unless it threw.
    ensures forall n :: 0 <= n < |records| - 1 ==> Verifies(records[n])
    ensures |records| <= |checks| + 1 && |records| <= 1 + links
    ensures verified <==> |checks| == 1 + links && forall n :: 0 <= n < |checks| ==> checks[n].verified
    // Stopping early always has a reason.
    ensures !verified ==> |records| == |checks| + 1 || spent >= Budget(isNewPayee, amountAboveOwnerThreshold)
                          || (checks != [] && !checks[|checks| - 1].verified)
  {
    checks, records, spent := [], [], 0;
    var budget := Budget(isNewPayee, amountAboveOwnerThreshold);
    var n := 0;
    while n < 1 + links
      invariant n == |checks| == |records| <= 1 + links
      invariant WithinPlan(records, client, budget) && ChecksFollow(checks, records)
      invariant spent == Spent(records)
      invariant forall m :: 0 <= m < n ==> Verifies(records[m]) && checks[m].verified
    {
      if spent >= budget {
        return false, checks, records, spent;
      }
      var purchase := client(n, budget - spent);
      var record := Recorded(n, purchase);
      PlanGrows(records, client, budget, record);
      records := records + [record];
      if purchase.PurchaseThrew? {
        return false, checks, records, spent;
      }
      spent := spent + purchase.cost;
      var ok := purchase.settlement.SettledPayment? && purchase.hasTxHash;
      checks := checks + [Check(ToolFor(n), ok)];
      if !ok {
        return false, checks, records, spent;
      }
      n := n + 1;
    }
    verified := true;
  }

  lemma PlanGrows(records: seq<SpendRecord>, client: Client, budget: nat, record: SpendRecord)
    requires WithinPlan(records, client, budget)
    requires AsPlanned(records, record, client, budget)
    ensures WithinPlan(records + [record], client, budget)
    ensures Spent(records + [record]) == Spent(records) + record.cost
  {
    var longer := records + [record];
    assert longer[..|records|] == records;
    forall n | 0 <= n < |longer|
      ensures AsPlanned(longer[..n], longer[n], client, budget)
    {
      if n < |records| {
        assert longer[..n] == records[..n];
      }
    }
  }

  lemma LastPlanned(records: seq<SpendRecord>, client: Client, budget: nat)
    requires WithinPlan(records, client, budget) && records != []
    ensures var n, before := |records| - 1, Spent(records[..|records| - 1]);
      before < budget && records[n] == Recorded(n, client(n, budget - before))
          && Spent(records) == before + records[n].cost
  {
    var n := |records| - 1;
    assert AsPlanned(records[..n], records[n], client, budget);
  }

  // The budget is exceeded exactly when the last purchase charged more than the limit it was given.
  lemma BudgetExceededIff(records: seq<SpendRecord>, client: Client, budget: nat)
    requires WithinPlan(records, client, budget) && records != []
    ensures Spent(records[..|records| - 1]) < budget
    ensures Spent(records) > budget <==> records[|records| - 1].cost > budget - Spent(records[..|records| - 1])
  {
    LastPlanned(records, client, budget);
  }

  function CliClient(vendors: seq<Vendor>): Client {
    (n: nat, limit: nat) => if n < |vendors| then CliPurchase(vendors[n], ToFixed2(limit)) else PurchaseThrew
  }

  // The vendor charges no more than it quoted.
  predicate KeepsItsQuote(vendor: Vendor) {
    vendor.Priced? && vendor.fetch.Fetched? && vendor.fetch.reported.Some? ==>
        vendor.fetch.reported.value <= vendor.quoted
  }

  lemma QuoteKept(vendor: Vendor, limit: nat)
    requires limit <= MAX_SAFE_INTEGER && KeepsItsQuote(vendor)
    requires CliPurchase(vendor, ToFixed2(limit)).Purchased?
    ensures CliPurchase(vendor, ToFixed2(limit)).cost <= limit
  {
    LimitParses(limit);
    OverchargeIff(vendor, limit);
  }

  // No purchase is charged more than the limit passed to it.
  ghost predicate RespectsLimits(client: Client, budget: nat) {
    forall n: nat, limit: nat :: limit <= budget ==> Recorded(n, client(n, limit)).cost <= limit
  }

  /** Whatever the client, one that respects its limits keeps the whole loop within the budget. */
  lemma LimitsKeepTheBudget(records: seq<SpendRecord>, client: Client, budget: nat)
    requires WithinPlan(records, client, budget) && RespectsLimits(client, budget)
    ensures Spent(records) <= budget
  {
    if records != [] {
      LastPlanned(records, client, budget);
    }
  }

  lemma QuotesRespectLimits(vendors: seq<Vendor>, budget: nat)
    requires budget <= MAX_SAFE_INTEGER
    requires forall n :: 0 <= n < |vendors| ==> KeepsItsQuote(vendors[n])
    ensures RespectsLimits(CliClient(vendors), budget)
  {
    forall n: nat, limit: nat | limit <= budget
      ensures Recorded(n, CliClient(vendors)(n, limit)).cost <= limit
    {
      if n < |vendors| && CliPurchase(vendors[n], ToFixed2(limit)).Purchased? {
        QuoteKept(vendors[n], limit);
      }
    }
  }

  /** Through the CLI client, vendors that keep their quotes never cost more than the invoice's budget. */
  lemma CliStaysWithinBudget(records: seq<SpendRecord>, vendors: seq<Vendor>, budget: nat)
    requires budget <= MAX_SAFE_INTEGER
    requires WithinPlan(records, CliClient(vendors), budget)
    requires forall n :: 0 <= n < |vendors| ==> KeepsItsQuote(vendors[n])
    ensures Spent(records) <= budget
  {
    QuotesRespectLimits(vendors, budget);
    LimitsKeepTheBudget(records, CliClient(vendors), budget);
  }

  // ------------------------------------------------------------- what a purchase is

  // The price in cents, rounded up.
  predicate Cents(price: nat, cents: nat) {
    10_000 * cents >= price && (cents > 0 ==> 10_000 * (cents - 1) < price)
  }

  predicate Settles(settlement: Option<Settlement>, hasTxHash: bool, settled: Settlement) {
    if settlement.Some? then settled == settlement.value
    else settled == if hasTxHash then SettledPayment else UnverifiedPayment
  }

  /**
   * A purchase under a limit in cents is made exactly when the vendor names a
   * price that fits it and answers; it costs what was charged, rounded up to a
   * cent, and carries the settlement it reports, or what its transaction shows.
   */
  lemma PurchaseMeans(vendor: Vendor, limit: nat, cost: nat, settlement: Settlement, hasTxHash: bool)
    ensures CliPurchase(vendor, ToFixed2(limit)) == Purchased(cost, settlement, hasTxHash) <==>
            && vendor.Priced? && vendor.quoted <= limit * 10_000 && vendor.fetch.Fetched?
            && Cents(if vendor.fetch.reported.Some? then vendor.fetch.reported.value else vendor.quoted, cost)
            && cost <= 9_007_199_254_740_991
            && vendor.fetch.hasTxHash == hasTxHash && Settles(vendor.fetch.settlement, hasTxHash, settlement)
  {
    LimitParses(limit);
    if vendor.Priced? && vendor.fetch.Fetched? {
      CentsAreUnique(if vendor.fetch.reported.Some? then vendor.fetch.reported.value else vendor.quoted, cost);
    }
  }

  lemma CentsAreUnique(price: nat, cents: nat)
    ensures Cents(price, cents) <==> cents == (price + 9_999) / 10_000
  {}

  /** What is recorded of the n-th request, what verifies, and what an email may spend. */
  lemma RecordMeans(n: nat, purchase: Purchase, isNewPayee: bool, aboveThreshold: bool)
    ensures var record := Recorded(n, purchase);
      && record.tool == (if n == 0 then EmailVerify else Browser)
      && (purchase == PurchaseThrew ==> record.cost == 0 && record.settlement == NoPayment && !record.hasTxHash)
      && (purchase.Purchased? ==> purchase == Purchased(record.cost, record.settlement, record.hasTxHash))
      && (Verifies(record) <==> record.settlement == SettledPayment && record.hasTxHash)
    ensures Budget(isNewPayee, aboveThreshold) == if isNewPayee || aboveThreshold then 50 else 5
  {}
}

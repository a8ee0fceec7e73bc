/** Grant terms and deployment-wide bounds that an automatic payment must meet. */
module Eligibility {
  import opened Common
  import opened PayeeResolver

  datatype Usage = Usage(totalPaid: real, paidCount: nat)

  const NO_USAGE := Usage(0.0, 0)

  datatype GrantStatus = GrantStatus(
    active: bool, notExpired: bool, perPaymentCapOk: bool, remainingAmountOk: bool, remainingCountOk: bool)

  const NO_GRANT := GrantStatus(false, false, false, false, false)

  // Process settings; None is unset or not a finite number.
  datatype Settings = Settings(
    autoPayOn: bool,
    maxAmount: Option<real>,
    minAmount: Option<real>,
    fee: Option<real>,
    maxFeeShare: Option<real>,
    now: Time)

  function ComputeGrantStatus(grant: Grant, amount: real, usage: Usage, now: Time): GrantStatus {
    GrantStatus(
      grant.approved,
      grant.expiresAt.None? || grant.expiresAt.value > now,
      grant.perPaymentCapInr.None? || amount <= grant.perPaymentCapInr.value,
      grant.totalCapInr.None? || usage.totalPaid + amount <= grant.totalCapInr.value,
      grant.maxPayments.None? || usage.paidCount < grant.maxPayments.value)
  }

  predicate GrantOk(status: GrantStatus) {
    status.active && status.notExpired && status.perPaymentCapOk && status.remainingAmountOk && status.remainingCountOk
  }

  predicate AmountWithinOwnerCeiling(amount: real, settings: Settings) {
    settings.maxAmount.None? || settings.maxAmount.value <= 0.0 || amount <= settings.maxAmount.value
  }

  function PositiveOr(setting: Option<real>, default_: real): (r: real)
    requires default_ > 0.0
    ensures r > 0.0
  {
    if setting.Some? && setting.value > 0.0 then setting.value else default_
  }

  predicate AmountAboveMinimum(amount: real, settings: Settings) {
    if settings.minAmount.Some? && settings.minAmount.value > 0.0 then amount > settings.minAmount.value
    else amount > PositiveOr(settings.fee, 100.0) / PositiveOr(settings.maxFeeShare, 0.10)
  }

  // What a grant allows on its own terms.
  predicate GrantAllows(grant: Grant, amount: real, usage: Usage, now: Time) {
    && grant.approved
    && (grant.expiresAt.Some? ==> now < grant.expiresAt.value)
    && (grant.perPaymentCapInr.Some? ==> amount <= grant.perPaymentCapInr.value)
    && (grant.totalCapInr.Some? ==> usage.totalPaid + amount <= grant.totalCapInr.value)
    && (grant.maxPayments.Some? ==> usage.paidCount + 1 <= grant.maxPayments.value)
  }

  predicate CeilingAllows(amount: real, settings: Settings) {
    settings.maxAmount.Some? && settings.maxAmount.value > 0.0 ==> amount <= settings.maxAmount.value
  }

  // The floor as what it is for: the fee's share of the payment, unless a flat floor is set.
  predicate FloorAllows(amount: real, settings: Settings) {
    if settings.minAmount.Some? && settings.minAmount.value > 0.0 then settings.minAmount.value < amount
    else
      var fee := if settings.fee.Some? && settings.fee.value > 0.0 then settings.fee.value else 100.0;
      var share := if settings.maxFeeShare.Some? && settings.maxFeeShare.value > 0.0 then settings.maxFeeShare.value
                   else 0.10;
      fee < share * amount
  }

  predicate TermsAllow(grant: Grant, amount: real, usage: Usage, settings: Settings) {
    GrantAllows(grant, amount, usage, settings.now) && CeilingAllows(amount, settings) && FloorAllows(amount, settings)
  }

  lemma Quotient(x: real, y: real, amount: real)
    requires x > 0.0 && y > 0.0
    ensures x / y > 0.0 && (amount > x / y <==> x < y * amount)
  {
    assert (x / y) * y == x;
    if amount > x / y {
      assert amount * y > (x / y) * y;
    } else {
      assert amount * y <= (x / y) * y;
    }
  }

  // The checks one by one, against the terms they are there for.
  lemma ChecksMean(grant: Grant, amount: real, usage: Usage, settings: Settings)
    ensures GrantAllows(grant, amount, usage, settings.now) <==>
            var status := ComputeGrantStatus(grant, amount, usage, settings.now);
            && status.active && status.notExpired && status.perPaymentCapOk
            && status.remainingAmountOk && status.remainingCountOk
    ensures var status := ComputeGrantStatus(grant, amount, usage, settings.now);
            && (status.active <==> grant.approved)
            && (status.notExpired <==> (grant.expiresAt.Some? ==> settings.now < grant.expiresAt.value))
            && (status.perPaymentCapOk <==> (grant.perPaymentCapInr.Some? ==> amount <= grant.perPaymentCapInr.value))
            && (status.remainingAmountOk <==>
                  (grant.totalCapInr.Some? ==> usage.totalPaid + amount <= grant.totalCapInr.value))
            && (status.remainingCountOk <==>
                  (grant.maxPayments.Some? ==> usage.paidCount + 1 <= grant.maxPayments.value))
    ensures CeilingAllows(amount, settings) <==> AmountWithinOwnerCeiling(amount, settings)
    ensures FloorAllows(amount, settings) <==> AmountAboveMinimum(amount, settings)
  {
    Quotient(PositiveOr(settings.fee, 100.0), PositiveOr(settings.maxFeeShare, 0.10), amount);
  }

  lemma ChecksMeanTermsAllow(grant: Grant, amount: real, usage: Usage, settings: Settings)
    ensures TermsAllow(grant, amount, usage, settings) <==>
            && GrantOk(ComputeGrantStatus(grant, amount, usage, settings.now))
            && AmountWithinOwnerCeiling(amount, settings) && AmountAboveMinimum(amount, settings)
  {
    ChecksMean(grant, amount, usage, settings);
  }

  // Whatever the settings, only a positive amount passes the floor.
  lemma MinimumIsPositive(amount: real, settings: Settings)
    requires AmountAboveMinimum(amount, settings)
    ensures amount > 0.0
  {
    Quotient(PositiveOr(settings.fee, 100.0), PositiveOr(settings.maxFeeShare, 0.10), amount);
  }
}

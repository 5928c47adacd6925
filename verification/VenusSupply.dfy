/** The rounding check on a buyer's Venus supply: minted shares, at the exchange rate of the block, must account for the
    deposited amount up to one raw share. */
module VenusSupply {
  const FIXED_SCALE: nat := 1000000000000000000

  /** The underlying value of raw shares, rounded down. */
  function UnderlyingValue(shares: nat, rate: nat): nat {
    shares * rate / FIXED_SCALE
  }

  /** The underlying value of one raw share, rounded up. */
  function MaximumRounding(rate: nat): nat {
    (rate + FIXED_SCALE - 1) / FIXED_SCALE
  }

  predicate WithinRounding(amount: nat, shares: nat, rate: nat) {
    UnderlyingValue(shares, rate) + MaximumRounding(rate) >= amount
  }

  predicate AcceptsSupply(amount: nat, shares: nat, rate: nat) {
    rate > 0 && shares > 0 && UnderlyingValue(shares, rate) > 0 && WithinRounding(amount, shares, rate)
  }

  /** What Venus mints for an amount. */
  function MintedShares(amount: nat, rate: nat): nat
    requires rate > 0
  {
    amount * FIXED_SCALE / rate
  }

  lemma Division(x: nat, d: nat)
    requires d > 0
    ensures x / d * d <= x < x / d * d + d
  {
  }

  /** A quotient reaches a bound exactly when its dividend does. */
  lemma QuotientReaches(x: nat, d: nat, k: nat)
    requires d > 0
    ensures x / d >= k <==> x >= k * d
  {
    Division(x, d);
    if x / d >= k {
      Grows(k, x / d, d);
    } else {
      Grows(x / d + 1, k, d);
      assert (x / d + 1) * d == x / d * d + d;
    }
  }

  lemma Grows(a: nat, b: nat, d: nat)
    requires a <= b
    ensures a * d <= b * d
  {
  }

  /** Whatever one more share could be worth is enough to be accepted. */
  lemma AcceptsUpToOneShare(amount: nat, shares: nat, rate: nat)
    requires amount * FIXED_SCALE <= (shares + 1) * rate
    ensures WithinRounding(amount, shares, rate)
  {
  }

  /** An accepted amount falls short of one more share by less than one raw unit of the underlying. */
  lemma AcceptedShortfall(amount: nat, shares: nat, rate: nat)
    requires WithinRounding(amount, shares, rate)
    ensures amount * FIXED_SCALE < (shares + 1) * rate + FIXED_SCALE
  {
  }

  /** The bound cannot be improved: an accepted supply reaches it up to one unit. */
  lemma ShortfallIsTight()
    ensures AcceptsSupply(2, FIXED_SCALE, 1)
    ensures 2 * FIXED_SCALE == (FIXED_SCALE + 1) * 1 + FIXED_SCALE - 1
  {
  }

  /** Every real mint with a positive value passes. */
  lemma EveryMintIsAccepted(amount: nat, rate: nat)
    requires rate > 0 && UnderlyingValue(MintedShares(amount, rate), rate) > 0
    ensures AcceptsSupply(amount, MintedShares(amount, rate), rate)
  {
  }

  lemma QuotientGrows(x: nat, y: nat, d: nat)
    requires d > 0 && x <= y
    ensures x / d <= y / d
  {
    Division(x, d);
    QuotientReaches(y, d, x / d);
  }

  /** A higher exchange rate never turns acceptance into rejection. */
  lemma AcceptanceIsMonotone(amount: nat, shares: nat, rate: nat, higher: nat)
    requires rate <= higher && AcceptsSupply(amount, shares, rate)
    ensures AcceptsSupply(amount, shares, higher)
  {
    Grows(rate, higher, shares);
    assert shares * rate == rate * shares && shares * higher == higher * shares;
    QuotientGrows(shares * rate, shares * higher, FIXED_SCALE);
    QuotientGrows(rate + FIXED_SCALE - 1, higher + FIXED_SCALE - 1, FIXED_SCALE);
  }

  /** The value of the shares, in whole raw units, and that of one share, up to the next unit, at a scale of 18 decimals. */
  ghost predicate Worth(value: int, margin: int, shares: nat, rate: nat) {
    && value * 1_000_000_000_000_000_000 <= shares * rate < (value + 1) * 1_000_000_000_000_000_000
    && (margin - 1) * 1_000_000_000_000_000_000 < rate <= margin * 1_000_000_000_000_000_000
  }

  /** A supply is accepted exactly when its shares are worth something, and with the value of one more at least the amount. */
  lemma AcceptanceExact(amount: nat, shares: nat, rate: nat, value: int, margin: int)
    requires Worth(value, margin, shares, rate)
    ensures AcceptsSupply(amount, shares, rate) <==> value > 0 && amount <= value + margin
  {
    Division(shares * rate, FIXED_SCALE);
    assert UnderlyingValue(shares, rate) == value;
    Division(rate + FIXED_SCALE - 1, FIXED_SCALE);
    assert MaximumRounding(rate) == margin;
    if shares == 0 || rate == 0 { assert shares * rate == 0; }
  }
}

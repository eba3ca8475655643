/** Scaled-integer arithmetic shared by the book, the executor and the policies.
    Prices, shares and collateral are integers in units of one millionth. */
module FixedPoint {

  const SCALE: int := 1_000_000
  const PPM: int := 1_000_000

  datatype Option<+T> = None | Some(value: T)

  function Min(a: int, b: int): int { if a <= b then a else b }

  function Max(a: int, b: int): int { if a >= b then a else b }

  /** Collateral value of `size` shares at `price`, rounded half up. */
  function Notional(size: nat, price: nat): nat
  {
    (2 * (size * price) + SCALE) / (2 * SCALE)
  }

  /** Multiply by a parts-per-million rate, truncating symmetrically toward zero. */
  function PpmOf(value: int, rate: nat): int
  {
    if value < 0 then -((-value) * rate / PPM) else value * rate / PPM
  }

  function CeilDiv(numerator: int, denominator: int): int
    requires denominator > 0
  {
    -((-numerator) / denominator)
  }

  lemma MulLe(a: int, b: int, c: int)
    requires a <= b && 0 <= c
    ensures a * c <= b * c
  {
    assert (b - a) * c >= 0;
  }

  /** The quotient is the unique integer whose multiple brackets the dividend. */
  lemma DivBracket(a: int, d: int, q: int)
    requires d > 0
    requires q * d <= a < q * d + d
    ensures a / d == q
  {
    var r := a / d;
    assert a == r * d + a % d;
    if r < q { MulLe(r + 1, q, d); }
    if r > q { MulLe(q + 1, r, d); }
  }

  lemma DivLe(a: int, b: int, d: int)
    requires d > 0 && a <= b
    ensures a / d <= b / d
  {
    var p, q := a / d, b / d;
    assert a == p * d + a % d && b == q * d + b % d;
    if p > q { MulLe(q + 1, p, d); }
  }

  /** `q <= a / d` exactly when `q` copies of `d` fit into `a`. */
  lemma DivGe(a: int, d: int, q: int)
    requires d > 0
    ensures q <= a / d <==> q * d <= a
  {
    var r := a / d;
    assert a == r * d + a % d;
    if q <= r { MulLe(q, r, d); } else { MulLe(r + 1, q, d); }
  }

  lemma NotionalMonotone(s: nat, t: nat, price: nat)
    requires s <= t
    ensures Notional(s, price) <= Notional(t, price)
  {
    MulLe(s, t, price);
    DivLe(2 * (s * price) + SCALE, 2 * (t * price) + SCALE, 2 * SCALE);
  }

  /** The notional is the integer nearest to the exact value, and the upper one of two equally near. */
  lemma NotionalIsNearest(size: nat, price: nat, k: int)
    ensures k == Notional(size, price) <==>
      2 * SCALE * k - SCALE <= 2 * (size * price) < 2 * SCALE * k + SCALE
  {
    NotionalAtMost(size, price, k);
    NotionalAtMost(size, price, k - 1);
  }

  /** A notional stays within `k` exactly when the exact value is below `k + 1/2`. */
  lemma NotionalAtMost(size: nat, price: nat, k: int)
    ensures Notional(size, price) <= k <==> 2 * (size * price) < 2 * SCALE * k + SCALE
  {
    DivGe(2 * (size * price) + SCALE, 2 * SCALE, k + 1);
  }

  lemma PpmMonotone(value: nat, low: nat, high: nat)
    requires low <= high
    ensures 0 <= PpmOf(value, low) <= PpmOf(value, high)
  {
    MulLe(low, high, value);
    assert value * low == low * value && value * high == high * value;
    DivLe(value * low, value * high, PPM);
  }

  lemma PpmOfAtMost(value: nat, rate: nat)
    requires rate <= PPM
    ensures 0 <= PpmOf(value, rate) <= value
  {
    PpmMonotone(value, rate, PPM);
    DivBracket(value * PPM, PPM, value);
  }

  lemma PpmValueMonotone(low: nat, high: nat, rate: nat)
    requires low <= high
    ensures 0 <= PpmOf(low, rate) <= PpmOf(high, rate)
  {
    MulLe(low, high, rate);
    DivLe(low * rate, high * rate, PPM);
  }

  lemma CeilDivMonotone(a: int, b: int, d: int)
    requires d > 0 && a <= b
    ensures CeilDiv(a, d) <= CeilDiv(b, d)
  {
    DivLe(-b, -a, d);
  }

  lemma CeilDivExact(q: int, d: int)
    requires d > 0
    ensures CeilDiv(q * d, d) == q
  {
    assert (-q) * d == -(q * d);
    DivBracket(-(q * d), d, -q);
  }
}

/** The taker fee schedule. The rate is a rational, the curve exponent a natural number and all
    intermediate arithmetic exact. */
module Fees {
  import opened FixedPoint

  datatype Rounding = HalfUp | Floor | Ceiling

  datatype FeeConfig = FeeConfig(
    zeroFormula: bool, maker: bool,
    rateNum: int, rateDen: int, exponent: nat, minimum: int, rounding: Rounding)
  {
    /** A written decimal rate always has a positive denominator. */
    ghost predicate Valid() { rateDen > 0 }
  }

  function Pow(b: int, e: nat): int
  {
    if e == 0 then 1 else b * Pow(b, e - 1)
  }

  lemma {:induction false} PowPositive(b: int, e: nat)
    requires b > 0
    ensures Pow(b, e) > 0
  {
    if e > 0 {
      PowPositive(b, e - 1);
      MulLe(1, b, Pow(b, e - 1));
    }
  }

  /** Rounds the non-negative fraction `num / den` to an integer. */
  function RoundTo(num: int, den: int, rounding: Rounding): int
    requires den > 0
  {
    match rounding
    case HalfUp => (2 * num + den) / (2 * den)
    case Floor => num / den
    case Ceiling => CeilDiv(num, den)
  }

  /** Numerator of the fee charged per share unit. */
  function FeeFactor(cfg: FeeConfig, price: int): int
  {
    cfg.rateNum * Pow(price * (SCALE - price), cfg.exponent)
  }

  function FeeDenominator(cfg: FeeConfig): (d: int)
    requires cfg.Valid()
    ensures d > 0
  {
    PowPositive(SCALE * SCALE, cfg.exponent);
    MulLe(1, cfg.rateDen, Pow(SCALE * SCALE, cfg.exponent));
    cfg.rateDen * Pow(SCALE * SCALE, cfg.exponent)
  }

  function Fee(cfg: FeeConfig, shares: nat, price: int): (fee: int)
    requires cfg.Valid()
    ensures fee >= 0
  {
    var raw := shares * FeeFactor(cfg, price);
    if cfg.zeroFormula || cfg.maker || raw <= 0 then 0
    else
      RoundNonNegative(raw, FeeDenominator(cfg), cfg.rounding);
      Max(RoundTo(raw, FeeDenominator(cfg), cfg.rounding), cfg.minimum)
  }

  lemma RoundNonNegative(num: int, den: int, rounding: Rounding)
    requires den > 0 && num >= 0
    ensures RoundTo(num, den, rounding) >= 0
  {
    DivGe(2 * num + den, 2 * den, 0);
    DivGe(num, den, 0);
    DivGe(-num, den, 1);
  }

  lemma RoundMonotone(a: int, b: int, den: int, rounding: Rounding)
    requires den > 0 && a <= b
    ensures RoundTo(a, den, rounding) <= RoundTo(b, den, rounding)
  {
    DivLe(2 * a + den, 2 * b + den, 2 * den);
    DivLe(a, b, den);
    CeilDivMonotone(a, b, den);
  }

  /** More shares at one price never cost a smaller fee, whatever the schedule. */
  lemma FeeMonotone(cfg: FeeConfig, s: nat, t: nat, price: int)
    requires cfg.Valid() && s <= t
    ensures Fee(cfg, s, price) <= Fee(cfg, t, price)
  {
    var k := FeeFactor(cfg, price);
    if k > 0 {
      MulLe(s, t, k);
      RoundMonotone(s * k, t * k, FeeDenominator(cfg), cfg.rounding);
    } else if s * k > 0 {
      MulLe(0, s, -k);
    }
  }

  /** `k` is the fraction `num / den` rounded: to the nearest integer with halves up, down, or up. */
  ghost predicate RoundedTo(num: int, den: int, rounding: Rounding, k: int)
  {
    match rounding
    case HalfUp => (2 * k - 1) * den <= 2 * num < (2 * k + 1) * den
    case Floor => k * den <= num < (k + 1) * den
    case Ceiling => (k - 1) * den < num <= k * den
  }

  lemma RoundIsRounded(num: int, den: int, rounding: Rounding)
    requires den > 0
    ensures RoundedTo(num, den, rounding, RoundTo(num, den, rounding))
  {
    var k := RoundTo(num, den, rounding);
    match rounding
    case HalfUp =>
      DivGe(2 * num + den, 2 * den, k);
      DivGe(2 * num + den, 2 * den, k + 1);
      assert k * (2 * den) == (2 * k - 1) * den + den && (k + 1) * (2 * den) == (2 * k + 1) * den + den;
    case Floor =>
      DivGe(num, den, k);
      DivGe(num, den, k + 1);
    case Ceiling =>
      DivGe(-num, den, -k);
      DivGe(-num, den, -k + 1);
      assert (-k) * den == -(k * den) && (-k + 1) * den == -((k - 1) * den);
  }

  /** The fee: the rate times the shares times the variance of the price to the exponent, rounded, and never below the
      minimum once anything is charged. */
  lemma FeeIsRoundedVariance(cfg: FeeConfig, shares: nat, price: int)
    requires cfg.Valid()
    ensures var num, den := shares * (cfg.rateNum * Pow(price * (SCALE - price), cfg.exponent)),
                            cfg.rateDen * Pow(SCALE * SCALE, cfg.exponent);
      if cfg.zeroFormula || cfg.maker || num <= 0 then Fee(cfg, shares, price) == 0
      else exists k :: RoundedTo(num, den, cfg.rounding, k) && Fee(cfg, shares, price) == Max(k, cfg.minimum)
  {
    hide RoundTo, RoundedTo, Pow;
    RoundIsRounded(shares * FeeFactor(cfg, price), FeeDenominator(cfg), cfg.rounding);
    assert cfg.zeroFormula || cfg.maker || shares * FeeFactor(cfg, price) <= 0
      || Fee(cfg, shares, price) == Max(RoundTo(shares * FeeFactor(cfg, price), FeeDenominator(cfg), cfg.rounding), cfg.minimum);
  }

  /** The shipped schedule, spelled out. */
  lemma DefaultFee(shares: nat, price: int)
    requires DEFAULT_FEE.Valid() && 0 < price < SCALE && shares > 0
    ensures exists k ::
      && RoundedTo(7 * shares * price * (SCALE - price), 100 * SCALE * SCALE, HalfUp, k)
      && Fee(DEFAULT_FEE, shares, price) == Max(k, 1)
  {
    hide RoundedTo, RoundTo;
    var x := price * (SCALE - price);
    MulLe(1, price, SCALE - price);
    assert Pow(x, 1) == x * Pow(x, 0) && Pow(SCALE * SCALE, 1) == SCALE * SCALE * Pow(SCALE * SCALE, 0);
    FeeIsRoundedVariance(DEFAULT_FEE, shares, price);
    MulLe(1, shares, 7 * x);
    assert shares * (7 * x) == 7 * shares * price * (SCALE - price);
  }

  /** The schedules that charge at least one unit on every positive size at `price`. */
  predicate AlwaysCharges(cfg: FeeConfig, price: int)
  {
    !cfg.zeroFormula && !cfg.maker && FeeFactor(cfg, price) > 0 && cfg.minimum >= 1
  }

  /** The shipped schedule: seven percent of the variance of the price, at least one unit, half up. */
  const DEFAULT_FEE: FeeConfig := FeeConfig(false, false, 7, 100, 1, 1, HalfUp)

  /** Inside (0, 1) the shipped schedule charges every fill. */
  lemma DefaultAlwaysCharges(price: int)
    requires 0 < price < SCALE
    ensures DEFAULT_FEE.Valid() && AlwaysCharges(DEFAULT_FEE, price)
  {
    MulLe(1, price, SCALE - price);
    assert Pow(price * (SCALE - price), 1) == price * (SCALE - price) * Pow(price * (SCALE - price), 0);
  }

  lemma ChargedAtLeastOne(cfg: FeeConfig, shares: nat, price: int)
    requires cfg.Valid() && AlwaysCharges(cfg, price) && shares > 0
    ensures Fee(cfg, shares, price) >= 1
  {
    MulLe(1, shares, FeeFactor(cfg, price));
  }

  lemma FeeOfNothing(cfg: FeeConfig, price: int)
    requires cfg.Valid()
    ensures Fee(cfg, 0, price) == 0
  {
  }

  /** All-in cost of buying `shares` at `price`. */
  function Cost(cfg: FeeConfig, shares: nat, price: nat): (c: int)
    requires cfg.Valid()
    ensures c >= 0
  {
    Notional(shares, price) + Fee(cfg, shares, price)
  }

  lemma CostMonotone(cfg: FeeConfig, s: nat, t: nat, price: nat)
    requires cfg.Valid() && s <= t
    ensures Cost(cfg, s, price) <= Cost(cfg, t, price)
  {
    NotionalMonotone(s, t, price);
    FeeMonotone(cfg, s, t, price);
  }

  /** Selling a single share unit below one half never pays for the minimum fee. */
  lemma DustSaleLoses(cfg: FeeConfig, price: nat)
    requires cfg.Valid() && AlwaysCharges(cfg, price) && 2 * price < SCALE
    ensures Notional(1, price) < Fee(cfg, 1, price)
  {
    ChargedAtLeastOne(cfg, 1, price);
    DivBracket(2 * price + SCALE, 2 * SCALE, 0);
  }
}

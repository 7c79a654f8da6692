/** The energy of a request on a cloud model, as a low, middle and high
    estimate, over the reals (internal/estimator/cloud.go:8-347). */
module Estimator {

  datatype Tier = Hyperscaler | MajorCloud | SmallProvider

  datatype Preset = Preset(
    tier: Tier,
    pueLow: real, pueHigh: real,
    wattsLow: real, wattsHigh: real,
    minWattsLow: real, minWattsHigh: real)

  function PresetOf(t: Tier): Preset {
    match t
    case Hyperscaler => Preset(t, 1.05, 1.15, 0.10, 0.50, 2.0, 20.0)
    case MajorCloud => Preset(t, 1.10, 1.40, 0.30, 1.00, 8.0, 50.0)
    case SmallProvider => Preset(t, 1.20, 1.60, 0.50, 2.00, 20.0, 100.0)
  }

  /** Square root and power. */
  datatype Math = Math(sqrt: real -> real, pow: (real, real) -> real)

  ghost predicate Lawful(m: Math) {
    && (forall x :: x >= 0.0 ==> m.sqrt(x) >= 0.0 && m.sqrt(x) * m.sqrt(x) == x)
    && (forall x, y :: x > 0.0 ==> m.pow(x, y) > 0.0)
  }

  datatype Point = Point(joules: real, wh: real, kwh: real, joulesPerToken: real, whPerToken: real, durationMs: real)

  datatype Range = Range(low: Point, high: Point, mid: Point, tdpMidWh: real, flopMidWh: real, floorActive: bool)

  function NewPoint(joules: real, totalTokens: nat, durationMs: real): Point {
    var wh := joules / 3600.0;
    if totalTokens > 0 then
      Point(joules, wh, wh / 1000.0, joules / totalTokens as real, wh / totalTokens as real, durationMs)
    else Point(joules, wh, wh / 1000.0, 0.0, 0.0, durationMs)
  }

  function Max(a: real, b: real): real { if a >= b then a else b }

  function Min(a: real, b: real): real { if a <= b then a else b }

  function GeometricMean(m: Math, a: real, b: real): real {
    if a <= 0.0 || b <= 0.0 then (a + b) / 2.0 else m.sqrt(a * b)
  }

  // ---- Durations -------------------------------------------------------

  function TokensPerSec(m: Math, params: real, optimistic: bool): real
    requires params > 0.0 && Lawful(m)
  {
    var base := 200.0 / m.pow(params / 1000000000.0, 0.4);
    if optimistic then base else base * 0.5
  }

  function DecodeDuration(output: nat, tps: real): real {
    if tps <= 0.0 then 0.0 else output as real / tps
  }

  function PrefillSpeedup(input: nat): (r: real)
    ensures r > 0.0
  {
    20.0 / (1.0 + input as real / 10000.0)
  }

  function PrefillDuration(input: nat, tps: real): real {
    if tps <= 0.0 || input == 0 then 0.0
    else
      Product(tps, PrefillSpeedup(input));
      input as real / (tps * PrefillSpeedup(input))
  }

  function Duration(input: nat, output: nat, tps: real): real {
    DecodeDuration(output, tps) + PrefillDuration(input, tps)
  }

  // ---- The two methods -------------------------------------------------

  /** The power drawn, never under the infrastructure's floor. */
  function Power(watts: real, minWatts: real, params: real): real {
    Max(minWatts, watts * (params / 1000000000.0))
  }

  function TdpEnergy(watts: real, minWatts: real, pue: real, params: real, duration: real): real {
    Power(watts, minWatts, params) * duration * pue * 1.20
  }

  function Efficiency(t: Tier): (real, real) {
    match t
    case Hyperscaler => (700.0, 1000.0)
    case MajorCloud => (350.0, 700.0)
    case SmallProvider => (150.0, 350.0)
  }

  function Attention(input: nat): real {
    1.0 + input as real / (input as real + 5000.0)
  }

  function TokenFlops(params: real, tokens: nat): real {
    2.0 * params * tokens as real
  }

  function Flops(params: real, input: nat, output: nat): real {
    PlainFlops(params, input, output) * Attention(input)
  }

  function PlainFlops(params: real, input: nat, output: nat): real {
    TokenFlops(params, input) + TokenFlops(params, output)
  }

  function FlopEnergy(flops: real, efficiency: real, pue: real): real
    requires efficiency > 0.0
  {
    flops / (efficiency * 1000000000.0) * pue * 1.20
  }

  // ---- The estimate ----------------------------------------------------

  datatype Methods = Methods(tdpLow: real, tdpHigh: real, flopLow: real, flopHigh: real)

  function MethodsOf(p: Preset, params: real, input: nat, output: nat, tpsLow: real, tpsHigh: real): Methods {
    var (effLow, effHigh) := Efficiency(p.tier);
    var flops := Flops(params, input, output);
    Methods(
      TdpEnergy(p.wattsLow, p.minWattsLow, p.pueLow, params, Duration(input, output, tpsLow)),
      TdpEnergy(p.wattsHigh, p.minWattsHigh, p.pueHigh, params, Duration(input, output, tpsHigh)),
      FlopEnergy(flops, effHigh, p.pueLow),
      FlopEnergy(flops, effLow, p.pueHigh))
  }

  predicate FloorActive(p: Preset, params: real) {
    p.wattsLow * (params / 1000000000.0) < p.minWattsLow
  }

  datatype Energies = Energies(low: real, mid: real, high: real)

  function Combined(m: Math, e: Methods, floor: bool): Energies {
    if floor then Energies(e.flopLow, GeometricMean(m, e.flopLow, e.flopHigh), e.flopHigh)
    else Energies(Min(e.tdpLow, e.flopLow),
                  GeometricMean(m, GeometricMean(m, e.tdpLow, e.tdpHigh), GeometricMean(m, e.flopLow, e.flopHigh)),
                  Max(e.tdpHigh, e.flopHigh))
  }

  /** A throughput not given is estimated. */
  function Throughput(m: Math, params: real, given: real, optimistic: bool): real
    requires params > 0.0 && Lawful(m)
  {
    if given <= 0.0 then TokensPerSec(m, params, optimistic) else given
  }

  function Estimate(m: Math, p: Preset, params: real, input: nat, output: nat, givenLow: real, givenHigh: real): Range
    requires params > 0.0 && Lawful(m)
  {
    if input + output == 0 then
      var zero := NewPoint(0.0, 0, 0.0);
      Range(zero, zero, zero, 0.0, 0.0, false)
    else
      var low, high := Throughput(m, params, givenLow, true), Throughput(m, params, givenHigh, false);
      RangeOf(m, MethodsOf(p, params, input, output, low, high), FloorActive(p, params), input + output,
              Duration(input, output, low), Duration(input, output, high))
  }

  /** The three points and the middles of the methods. */
  function RangeOf(m: Math, e: Methods, floor: bool, tokens: nat, dLow: real, dHigh: real): Range {
    var joules := Combined(m, e, floor);
    Range(NewPoint(joules.low, tokens, dLow * 1000.0), NewPoint(joules.high, tokens, dHigh * 1000.0),
          NewPoint(joules.mid, tokens, (dLow + dHigh) / 2.0 * 1000.0),
          GeometricMean(m, e.tdpLow, e.tdpHigh) / 3600.0, GeometricMean(m, e.flopLow, e.flopHigh) / 3600.0, floor)
  }

  // ---- Arithmetic ------------------------------------------------------

  lemma Product(a: real, b: real)
    ensures a > 0.0 && b > 0.0 ==> a * b > 0.0
    ensures a >= 0.0 && b >= 0.0 ==> a * b >= 0.0
  {
  }

  lemma TimesUp(a: real, b: real, c: real)
    requires a <= b && c >= 0.0
    ensures a * c <= b * c && c * a <= c * b
  {
    Product(b - a, c);
    assert (b - a) * c == b * c - a * c;
  }

  lemma ProductsUp(a: real, b: real, c: real, d: real)
    requires 0.0 <= a <= b && 0.0 <= c <= d
    ensures 0.0 <= a * c <= b * d
  {
    TimesUp(a, b, c);
    TimesUp(c, d, b);
    Product(a, c);
  }

  lemma QuotientUp(a: real, b: real, c: real, d: real)
    requires 0.0 <= a <= b && 0.0 < d <= c
    ensures 0.0 <= a / c <= b / d
  {
    var q, r := a / c, b / d;
    assert q * c == a && r * d == b;
    Cancel(q, c);
    TimesUp(d, c, q);
    assert (r - q) * d == r * d - q * d;
    Cancel(r - q, d);
  }

  lemma Cancel(x: real, d: real)
    requires d > 0.0 && x * d >= 0.0
    ensures x >= 0.0
  {
  }

  lemma SquareIsLarger(a: real, b: real)
    requires b >= 0.0 && a > b
    ensures a * a > b * b
  {
    var d := a - b;
    Product(d, a);
    Product(d, b);
    assert a * a == a * b + d * a;
    assert a * b == b * b + d * b;
    assert a * a == b * b + d * b + d * a;
  }

  /** Of two numbers that are not negative, the one with the larger square is
      the larger. */
  lemma SquareUp(a: real, b: real)
    requires a >= 0.0 && b >= 0.0
    ensures a * a <= b * b <==> a <= b
  {
    if a <= b {
      ProductsUp(a, b, a, b);
    } else {
      SquareIsLarger(a, b);
    }
  }

  lemma MeanOf(m: Math, a: real, b: real)
    requires Lawful(m) && a > 0.0 && b > 0.0
    ensures var g := GeometricMean(m, a, b); g > 0.0 && g * g == a * b
  {
    Product(a, b);
  }

  lemma MeanUp(m: Math, a: real, b: real, c: real, d: real)
    requires Lawful(m) && 0.0 < a <= c && 0.0 < b <= d
    ensures 0.0 < GeometricMean(m, a, b) <= GeometricMean(m, c, d)
  {
    MeanOf(m, a, b);
    MeanOf(m, c, d);
    ProductsUp(a, c, b, d);
    SquareUp(GeometricMean(m, a, b), GeometricMean(m, c, d));
  }

  lemma MeanBetween(m: Math, lo: real, a: real, b: real, hi: real)
    requires Lawful(m) && 0.0 < lo <= a <= hi && lo <= b <= hi
    ensures lo <= GeometricMean(m, a, b) <= hi
  {
    MeanOf(m, a, b);
    ProductsUp(lo, a, lo, b);
    ProductsUp(a, hi, b, hi);
    SquareUp(lo, GeometricMean(m, a, b));
    SquareUp(GeometricMean(m, a, b), hi);
  }

  // ---- Order -----------------------------------------------------------

  /** A preset's low values are its more efficient ones. */
  predicate Proper(p: Preset) {
    && 0.0 < p.pueLow <= p.pueHigh
    && 0.0 < p.wattsLow <= p.wattsHigh
    && 0.0 < p.minWattsLow <= p.minWattsHigh
  }

  lemma PresetsAreProper(t: Tier)
    ensures Proper(PresetOf(t)) && PresetOf(t).tier == t && var (low, high) := Efficiency(t); 0.0 < low <= high
  {
  }

  lemma AutoIsOrdered(m: Math, params: real)
    requires params > 0.0 && Lawful(m)
    ensures TokensPerSec(m, params, true) >= TokensPerSec(m, params, false) > 0.0
  {
    var x := m.pow(params / 1000000000.0, 0.4);
    QuotientUp(1.0, 200.0, x, x);
    assert 1.0 / x * x == 1.0;
    assert 200.0 / x > 0.0;
  }

  lemma CombinedIsOrdered(m: Math, e: Methods, floor: bool)
    requires Lawful(m) && 0.0 < e.flopLow <= e.flopHigh && 0.0 < e.tdpLow <= e.tdpHigh
    ensures var j := Combined(m, e, floor); 0.0 < j.low <= j.mid <= j.high
  {
    MeanBetween(m, e.flopLow, e.flopLow, e.flopHigh, e.flopHigh);
    MeanBetween(m, e.tdpLow, e.tdpLow, e.tdpHigh, e.tdpHigh);
    MeanBetween(m, Min(e.tdpLow, e.flopLow), GeometricMean(m, e.tdpLow, e.tdpHigh),
        GeometricMean(m, e.flopLow, e.flopHigh), Max(e.tdpHigh, e.flopHigh));
  }

  /** The floor regime looks at the second method only. */
  lemma FloorIsOrdered(m: Math, e: Methods)
    requires Lawful(m) && 0.0 < e.flopLow <= e.flopHigh
    ensures var j := Combined(m, e, true); 0.0 < j.low <= j.mid <= j.high
  {
    MeanBetween(m, e.flopLow, e.flopLow, e.flopHigh, e.flopHigh);
  }

  function Cube(x: real): real { x * x * x }

  function Fourth(x: real): real { (x * x) * (x * x) }

  lemma FourthUp(a: real, b: real)
    requires a >= 0.0 && b >= 0.0
    ensures Fourth(a) <= Fourth(b) <==> a <= b
  {
    Product(a, a);
    Product(b, b);
    SquareUp(a * a, b * b);
    SquareUp(a, b);
  }

  lemma FourthOfMean(g: real, t: real, f: real)
    requires g * g == t * f
    ensures Fourth(g) == (t * t) * (f * f)
  {
    assert (t * f) * (t * f) == (t * t) * (f * f);
  }

  /** The middle of the hybrid regime: its fourth power is the product of the
      four estimates. */
  lemma MidOfHybrid(m: Math, e: Methods)
    requires Lawful(m) && 0.0 < e.flopLow && 0.0 < e.flopHigh && 0.0 < e.tdpLow && 0.0 < e.tdpHigh
    ensures Combined(m, e, false).mid > 0.0
    ensures Fourth(Combined(m, e, false).mid) == (e.tdpLow * e.tdpHigh) * (e.flopLow * e.flopHigh)
  {
    var t, f := GeometricMean(m, e.tdpLow, e.tdpHigh), GeometricMean(m, e.flopLow, e.flopHigh);
    MeanOf(m, e.tdpLow, e.tdpHigh);
    MeanOf(m, e.flopLow, e.flopHigh);
    MeanOf(m, t, f);
    FourthOfMean(GeometricMean(m, t, f), t, f);
  }

  /** One of four factors is at most their geometric mean exactly when its cube
      is at most the product of the others. */
  lemma FactorUnderMean(x: real, y: real, z: real, u: real)
    requires x > 0.0
    ensures Fourth(x) <= x * y * z * u <==> Cube(x) <= y * z * u
    ensures x * y * z * u <= Fourth(x) <==> y * z * u <= Cube(x)
  {
    assert Fourth(x) == Cube(x) * x;
    assert x * y * z * u == (y * z * u) * x;
    ScaleIff(Cube(x), y * z * u, x);
    ScaleIff(y * z * u, Cube(x), x);
  }

  lemma ScaleIff(a: real, b: real, k: real)
    requires k > 0.0
    ensures a <= b <==> a * k <= b * k
  {
    if a <= b {
      TimesUp(a, b, k);
    } else {
      Product(a - b, k);
      assert (a - b) * k == a * k - b * k;
    }
  }

  /** The cube of one of the two low estimates a and c is at most the product of
      the other three. */
  predicate LowFits(a: real, b: real, c: real, d: real) {
    Cube(a) <= b * c * d || Cube(c) <= a * b * d
  }

  predicate HighFits(a: real, b: real, c: real, d: real) {
    a * c * d <= Cube(b) || a * b * c <= Cube(d)
  }

  lemma HybridLowIff(m: Math, e: Methods)
    requires Lawful(m) && 0.0 < e.flopLow && 0.0 < e.flopHigh && 0.0 < e.tdpLow && 0.0 < e.tdpHigh
    ensures Combined(m, e, false).low <= Combined(m, e, false).mid <==>
            LowFits(e.tdpLow, e.tdpHigh, e.flopLow, e.flopHigh)
  {
    MidOfHybrid(m, e);
    LowUnderMean(Combined(m, e, false).mid, e.tdpLow, e.tdpHigh, e.flopLow, e.flopHigh);
  }

  lemma HybridHighIff(m: Math, e: Methods)
    requires Lawful(m) && 0.0 < e.flopLow && 0.0 < e.flopHigh && 0.0 < e.tdpLow && 0.0 < e.tdpHigh
    ensures Combined(m, e, false).mid <= Combined(m, e, false).high <==>
            HighFits(e.tdpLow, e.tdpHigh, e.flopLow, e.flopHigh)
  {
    MidOfHybrid(m, e);
    MeanUnderHigh(Combined(m, e, false).mid, e.tdpLow, e.tdpHigh, e.flopLow, e.flopHigh);
  }

  lemma LowUnderMean(g: real, a: real, b: real, c: real, d: real)
    requires g > 0.0 && a > 0.0 && c > 0.0 && Fourth(g) == (a * b) * (c * d)
    ensures Min(a, c) <= g <==> LowFits(a, b, c, d)
  {
    FourthUp(a, g);
    FourthUp(c, g);
    assert (a * b) * (c * d) == a * b * c * d == c * a * b * d;
    FactorUnderMean(a, b, c, d);
    FactorUnderMean(c, a, b, d);
  }

  lemma MeanUnderHigh(g: real, a: real, b: real, c: real, d: real)
    requires g > 0.0 && b > 0.0 && d > 0.0 && Fourth(g) == (a * b) * (c * d)
    ensures g <= Max(b, d) <==> HighFits(a, b, c, d)
  {
    FourthUp(g, b);
    FourthUp(g, d);
    assert (a * b) * (c * d) == b * a * c * d == d * a * b * c;
    FactorUnderMean(b, a, c, d);
    FactorUnderMean(d, a, b, c);
  }

  // ---- Order and growth of the methods ---------------------------------

  lemma DurationPositive(input: nat, output: nat, tps: real)
    requires tps > 0.0 && input + output > 0
    ensures Duration(input, output, tps) > 0.0
  {
    QuotientPositive(output as real, tps);
    if input > 0 {
      Product(tps, PrefillSpeedup(input));
      QuotientPositive(input as real, tps * PrefillSpeedup(input));
    }
  }

  lemma QuotientPositive(a: real, b: real)
    requires a >= 0.0 && b > 0.0
    ensures a / b >= 0.0 && (a > 0.0 ==> a / b > 0.0)
  {
    QuotientUp(0.0, a, b, b);
    assert a / b * b == a;
  }

  /** More tokens, or a lower throughput, take longer. */
  lemma DurationUp(input: nat, output: nat, input': nat, output': nat, tps: real, tps': real)
    requires 0.0 < tps' <= tps && input <= input' && output <= output'
    ensures 0.0 <= Duration(input, output, tps) <= Duration(input', output', tps')
  {
    QuotientUp(output as real, output' as real, tps, tps');
    PrefillUp(input, input', tps, tps');
  }

  lemma PrefillUp(input: nat, input': nat, tps: real, tps': real)
    requires 0.0 < tps' <= tps && input <= input'
    ensures 0.0 <= PrefillDuration(input, tps) <= PrefillDuration(input', tps')
  {
    SpeedupDown(input, input');
    ProductsUp(tps', tps, PrefillSpeedup(input'), PrefillSpeedup(input));
    Product(tps', PrefillSpeedup(input'));
    QuotientUp(input as real, input' as real, tps * PrefillSpeedup(input), tps' * PrefillSpeedup(input'));
  }

  lemma SpeedupDown(input: nat, input': nat)
    requires input <= input'
    ensures PrefillSpeedup(input') <= PrefillSpeedup(input)
  {
    QuotientUp(input as real, input' as real, 10000.0, 10000.0);
    QuotientUp(20.0, 20.0, 1.0 + input' as real / 10000.0, 1.0 + input as real / 10000.0);
  }

  lemma AttentionUp(input: nat, input': nat)
    requires input <= input'
    ensures 1.0 <= Attention(input) <= Attention(input')
  {
    var a, b := input as real, input' as real;
    QuotientUp(5000.0, 5000.0, b + 5000.0, a + 5000.0);
    assert a / (a + 5000.0) == 1.0 - 5000.0 / (a + 5000.0);
    assert b / (b + 5000.0) == 1.0 - 5000.0 / (b + 5000.0);
    QuotientUp(0.0, a, a + 5000.0, a + 5000.0);
  }

  lemma FlopsUp(params: real, input: nat, output: nat, input': nat, output': nat)
    requires params > 0.0 && input <= input' && output <= output'
    ensures 0.0 <= Flops(params, input, output) <= Flops(params, input', output')
    ensures input + output > 0 ==> Flops(params, input, output) > 0.0
  {
    PlainFlopsUp(params, input, output, input', output');
    assert 0.0 < Attention(input) <= Attention(input') by { AttentionUp(input, input'); }
    ScaledUp(PlainFlops(params, input, output), PlainFlops(params, input', output'), Attention(input),
        Attention(input'));
  }

  lemma PlainFlopsUp(params: real, input: nat, output: nat, input': nat, output': nat)
    requires params > 0.0 && input <= input' && output <= output'
    ensures 0.0 <= PlainFlops(params, input, output) <= PlainFlops(params, input', output')
    ensures input + output > 0 ==> PlainFlops(params, input, output) > 0.0
  {
    TokenFlopsUp(params, input, input');
    TokenFlopsUp(params, output, output');
  }

  lemma TokenFlopsUp(params: real, n: nat, n': nat)
    requires params > 0.0 && n <= n'
    ensures 0.0 <= TokenFlops(params, n) <= TokenFlops(params, n')
    ensures n > 0 ==> TokenFlops(params, n) > 0.0
  {
    ProductsUp(2.0 * params, 2.0 * params, n as real, n' as real);
    Product(2.0 * params, n as real);
  }

  lemma ScaledUp(n: real, n': real, a: real, a': real)
    requires 0.0 <= n <= n' && 0.0 < a <= a'
    ensures 0.0 <= n * a <= n' * a' && (n > 0.0 ==> n * a > 0.0)
  {
    ProductsUp(n, n', a, a');
    Product(n, a);
  }

  lemma FlopEnergyUp(flops: real, flops': real, eff: real, eff': real, pue: real, pue': real)
    requires 0.0 <= flops <= flops' && 0.0 < eff' <= eff && 0.0 < pue <= pue'
    ensures 0.0 <= FlopEnergy(flops, eff, pue) <= FlopEnergy(flops', eff', pue')
    ensures flops > 0.0 ==> FlopEnergy(flops, eff, pue) > 0.0
  {
    QuotientUp(flops, flops', eff * 1000000000.0, eff' * 1000000000.0);
    QuotientPositive(flops, eff * 1000000000.0);
    ProductsUp(flops / (eff * 1000000000.0), flops' / (eff' * 1000000000.0), pue, pue');
    Product(flops / (eff * 1000000000.0), pue);
  }

  lemma TdpEnergyUp(w: real, w': real, min: real, min': real, pue: real, pue': real, params: real, d: real, d': real)
    requires 0.0 < w <= w' && 0.0 < min <= min' && 0.0 < pue <= pue' && params > 0.0 && 0.0 <= d <= d'
    ensures 0.0 <= TdpEnergy(w, min, pue, params, d) <= TdpEnergy(w', min', pue', params, d')
    ensures d > 0.0 ==> TdpEnergy(w, min, pue, params, d) > 0.0
  {
    PowerUp(w, w', min, min', params);
    FactorsUp(Power(w, min, params), Power(w', min', params), d, d', pue, pue');
  }

  lemma PowerUp(w: real, w': real, min: real, min': real, params: real)
    requires 0.0 < w <= w' && 0.0 < min <= min' && params > 0.0
    ensures 0.0 < Power(w, min, params) <= Power(w', min', params)
  {
    QuotientPositive(params, 1000000000.0);
    TimesUp(w, w', params / 1000000000.0);
    MaxUp(min, w * (params / 1000000000.0), min', w' * (params / 1000000000.0));
  }

  lemma MaxUp(a: real, b: real, a': real, b': real)
    requires 0.0 < a <= a' && b <= b'
    ensures 0.0 < Max(a, b) <= Max(a', b')
  {
  }

  lemma FactorsUp(a: real, a': real, d: real, d': real, p: real, p': real)
    requires 0.0 < a <= a' && 0.0 <= d <= d' && 0.0 < p <= p'
    ensures 0.0 <= a * d * p * 1.20 <= a' * d' * p' * 1.20
    ensures d > 0.0 ==> a * d * p * 1.20 > 0.0
  {
    ProductsUp(a, a', d, d');
    ProductsUp(a * d, a' * d', p, p');
    Product(a, d);
    Product(a * d, p);
  }

  lemma FlopsAreOrdered(p: Preset, params: real, input: nat, output: nat)
    requires Proper(p) && params > 0.0 && input + output > 0
    ensures var (effLow, effHigh) := Efficiency(p.tier);
            0.0 < FlopEnergy(Flops(params, input, output), effHigh, p.pueLow) <=
                FlopEnergy(Flops(params, input, output), effLow, p.pueHigh)
  {
    PresetsAreProper(p.tier);
    var (effLow, effHigh) := Efficiency(p.tier);
    var flops := Flops(params, input, output);
    FlopsUp(params, input, output, input, output);
    FlopEnergyUp(flops, flops, effHigh, effLow, p.pueLow, p.pueHigh);
  }

  lemma MethodsGrow(p: Preset, params: real, input: nat, output: nat, input': nat, output': nat, low: real, high: real)
    requires Proper(p) && params > 0.0 && 0.0 < low && 0.0 < high
    requires input <= input' && output <= output' && input + output > 0
    ensures var e, e' := MethodsOf(p, params, input, output, low, high),
            MethodsOf(p, params, input', output', low, high);
            && 0.0 < e.tdpLow <= e'.tdpLow && 0.0 < e.tdpHigh <= e'.tdpHigh
            && 0.0 < e.flopLow <= e'.flopLow && 0.0 < e.flopHigh <= e'.flopHigh
  {
    PresetsAreProper(p.tier);
    var (effLow, effHigh) := Efficiency(p.tier);
    var flops, flops' := Flops(params, input, output), Flops(params, input', output');
    FlopsUp(params, input, output, input', output');
    FlopEnergyUp(flops, flops', effHigh, effHigh, p.pueLow, p.pueLow);
    FlopEnergyUp(flops, flops', effLow, effLow, p.pueHigh, p.pueHigh);
    TdpGrows(p.wattsLow, p.minWattsLow, p.pueLow, params, input, output, input', output', low);
    TdpGrows(p.wattsHigh, p.minWattsHigh, p.pueHigh, params, input, output, input', output', high);
  }

  lemma TdpGrows(
    w: real, min: real, pue: real, params: real, input: nat, output: nat, input': nat, output': nat, tps: real)
    requires w > 0.0 && min > 0.0 && pue > 0.0 && params > 0.0 && tps > 0.0
    requires input <= input' && output <= output' && input + output > 0
    ensures 0.0 < TdpEnergy(w, min, pue, params, Duration(input, output, tps))
              <= TdpEnergy(w, min, pue, params, Duration(input', output', tps))
  {
    DurationUp(input, output, input', output', tps, tps);
    DurationPositive(input, output, tps);
    TdpEnergyUp(w, w, min, min, pue, pue, params, Duration(input, output, tps), Duration(input', output', tps));
  }

  lemma CombinedGrows(m: Math, e: Methods, e': Methods, floor: bool)
    requires Lawful(m)
    requires 0.0 < e.tdpLow <= e'.tdpLow && 0.0 < e.tdpHigh <= e'.tdpHigh
    requires 0.0 < e.flopLow <= e'.flopLow && 0.0 < e.flopHigh <= e'.flopHigh
    ensures var j, j' := Combined(m, e, floor), Combined(m, e', floor);
            0.0 < j.low <= j'.low && 0.0 < j.mid <= j'.mid && 0.0 < j.high <= j'.high
  {
    MeanUp(m, e.flopLow, e.flopHigh, e'.flopLow, e'.flopHigh);
    MeanUp(m, e.tdpLow, e.tdpHigh, e'.tdpLow, e'.tdpHigh);
    MeanUp(m, GeometricMean(m, e.tdpLow, e.tdpHigh), GeometricMean(m, e.flopLow, e.flopHigh),
           GeometricMean(m, e'.tdpLow, e'.tdpHigh), GeometricMean(m, e'.flopLow, e'.flopHigh));
  }

  // ---- The parts of an estimate ----------------------------------------

  /** The units of a point agree, and its shares per token make up the whole. */
  ghost predicate UnitsAgree(p: Point, tokens: nat) {
    && p.joules == 3600.0 * p.wh && p.wh == 1000.0 * p.kwh
    && p.joulesPerToken * tokens as real == p.joules && p.whPerToken * tokens as real == p.wh
  }

  lemma PointUnits(joules: real, tokens: nat, duration: real)
    requires tokens == 0 ==> joules == 0.0
    ensures UnitsAgree(NewPoint(joules, tokens, duration), tokens)
  {
    if tokens > 0 {
      assert joules / tokens as real * tokens as real == joules;
      assert joules / 3600.0 / tokens as real * tokens as real == joules / 3600.0;
    }
  }

  /** A point for the tokens, whose units agree by PointUnits. */
  predicate IsPoint(p: Point, tokens: nat) {
    p == NewPoint(p.joules, tokens, p.durationMs)
  }

  /** The three points are for the same tokens, the middle takes the mean time, and
      with the floor active it is the middle of the second method. */
  ghost predicate RangeAgrees(r: Range, tokens: nat) {
    && IsPoint(r.low, tokens) && IsPoint(r.mid, tokens) && IsPoint(r.high, tokens)
    && 2.0 * r.mid.durationMs == r.low.durationMs + r.high.durationMs
    && (r.floorActive ==> r.mid.wh == r.flopMidWh)
  }

  lemma EstimateParts(m: Math, p: Preset, params: real, input: nat, output: nat, givenLow: real, givenHigh: real)
    requires params > 0.0 && Lawful(m)
    ensures RangeAgrees(Estimate(m, p, params, input, output, givenLow, givenHigh), input + output)
  {
    if input + output > 0 {
      var low, high := Throughput(m, params, givenLow, true), Throughput(m, params, givenHigh, false);
      RangeParts(m, MethodsOf(p, params, input, output, low, high), FloorActive(p, params), input + output,
                 Duration(input, output, low), Duration(input, output, high));
    }
  }

  lemma RangeParts(m: Math, e: Methods, floor: bool, tokens: nat, dLow: real, dHigh: real)
    requires tokens > 0
    ensures RangeAgrees(RangeOf(m, e, floor, tokens, dLow, dHigh), tokens)
  {
  }

  /** The floor is active exactly when it lifts the low power. */
  lemma FloorLifts(p: Preset, params: real)
    ensures FloorActive(p, params) <==>
            Power(p.wattsLow, p.minWattsLow, params) > p.wattsLow * (params / 1000000000.0)
  {
  }

  /** A worked example: five thousand tokens read by a model of a billion parameters
      at a small provider, ten tokens a second, take 37.5 seconds; the first method
      gives 1080 and 7200 joules, the second 432/7 and 192. */
  lemma WorkedExample()
    ensures var e := MethodsOf(PresetOf(SmallProvider), 1000000000.0, 5000, 0, 10.0, 10.0);
            && Duration(5000, 0, 10.0) == 37.5
            && e == Methods(1080.0, 7200.0, 432.0 / 7.0, 192.0)
  {
    assert PrefillSpeedup(5000) * 1.5 == 20.0;
    assert 10.0 * PrefillSpeedup(5000) * 37.5 == 5000.0;
  }

  // ---- The methods as functions of the throughputs ---------------------

  /** The tokens of a request as decoding steps, prefill counting for its share. */
  function Work(input: nat, output: nat): real {
    output as real + input as real * (1.0 + input as real / 10000.0) / 20.0
  }

  lemma PrefillIsWork(input: nat, tps: real)
    requires tps > 0.0
    ensures PrefillDuration(input, tps) * tps == input as real * (1.0 + input as real / 10000.0) / 20.0
  {
    if input > 0 {
      var q, s := 1.0 + input as real / 10000.0, PrefillSpeedup(input);
      assert s * q == 20.0;
      Product(tps, s);
      var d := PrefillDuration(input, tps);
      assert d * (tps * s) == input as real;
      assert d * tps * 20.0 == d * (tps * s) * q;
    }
  }

  /** Durations are inversely proportional to the throughput. */
  lemma DurationIsWork(input: nat, output: nat, tps: real)
    requires tps > 0.0
    ensures Duration(input, output, tps) * tps == Work(input, output)
  {
    PrefillIsWork(input, tps);
    var a, b := DecodeDuration(output, tps), PrefillDuration(input, tps);
    assert a * tps == output as real;
    assert (a + b) * tps == a * tps + b * tps;
  }

  /** What the first method gives at one token per second. */
  function TdpAtOne(watts: real, minWatts: real, pue: real, params: real, input: nat, output: nat): real {
    Power(watts, minWatts, params) * Work(input, output) * pue * 1.20
  }

  lemma TdpIsInverse(watts: real, minWatts: real, pue: real, params: real, input: nat, output: nat, tps: real)
    requires tps > 0.0
    ensures TdpEnergy(watts, minWatts, pue, params, Duration(input, output, tps)) * tps
         == TdpAtOne(watts, minWatts, pue, params, input, output)
  {
    DurationIsWork(input, output, tps);
    Regroup(Power(watts, minWatts, params), Duration(input, output, tps), pue, tps);
  }

  lemma Regroup(a: real, d: real, p: real, t: real)
    ensures (a * d * p * 1.20) * t == a * (d * t) * p * 1.20
  {
  }

  function TdpLowAtOne(p: Preset, params: real, input: nat, output: nat): real {
    TdpAtOne(p.wattsLow, p.minWattsLow, p.pueLow, params, input, output)
  }

  function TdpHighAtOne(p: Preset, params: real, input: nat, output: nat): real {
    TdpAtOne(p.wattsHigh, p.minWattsHigh, p.pueHigh, params, input, output)
  }

  /** Whether two throughputs leave the middle of the hybrid regime between its
      ends, from the preset, the parameters and the tokens alone. */
  predicate ThroughputsFit(p: Preset, params: real, input: nat, output: nat, low: real, high: real) {
    var (effLow, effHigh) := Efficiency(p.tier);
    var a, b := TdpLowAtOne(p, params, input, output), TdpHighAtOne(p, params, input, output);
    var c := FlopEnergy(Flops(params, input, output), effHigh, p.pueLow);
    var d := FlopEnergy(Flops(params, input, output), effLow, p.pueHigh);
    LowFitsAt(a, b, c, d, low, high) && HighFitsAt(a, b, c, d, low, high)
  }

  predicate LowFitsAt(a: real, b: real, c: real, d: real, low: real, high: real) {
    Cube(a) * high <= b * c * d * Cube(low) || Cube(c) * (low * high) <= a * b * d
  }

  predicate HighFitsAt(a: real, b: real, c: real, d: real, low: real, high: real) {
    a * c * d * Cube(high) <= Cube(b) * low || a * b * c <= Cube(d) * (low * high)
  }

  /** The comparisons of x and y, cleared of the quotients they are. */
  lemma ClearLow(x: real, y: real, c: real, d: real, l: real, h: real)
    requires l > 0.0 && h > 0.0
    ensures LowFits(x, y, c, d) <==> LowFitsAt(x * l, y * h, c, d, l, h)
  {
    ClearCube(x, y, c, d, l, h);
    Product(l, h);
    assert (x * y * d) * (l * h) == (x * l) * (y * h) * d;
    ScaleIff(Cube(c), x * y * d, l * h);
  }

  lemma ClearHigh(x: real, y: real, c: real, d: real, l: real, h: real)
    requires l > 0.0 && h > 0.0
    ensures HighFits(x, y, c, d) <==> HighFitsAt(x * l, y * h, c, d, l, h)
  {
    ClearCube'(y, x, c, d, h, l);
    Product(l, h);
    assert (x * y * c) * (l * h) == (x * l) * (y * h) * c;
    ScaleIff(x * y * c, Cube(d), l * h);
  }

  lemma ClearLowAt(x: real, y: real, a: real, b: real, c: real, d: real, l: real, h: real)
    requires l > 0.0 && h > 0.0 && x * l == a && y * h == b
    ensures LowFits(x, y, c, d) <==> LowFitsAt(a, b, c, d, l, h)
  {
    ClearLow(x, y, c, d, l, h);
    assert LowFitsAt(x * l, y * h, c, d, l, h) == LowFitsAt(a, b, c, d, l, h);
  }

  lemma ClearHighAt(x: real, y: real, a: real, b: real, c: real, d: real, l: real, h: real)
    requires l > 0.0 && h > 0.0 && x * l == a && y * h == b
    ensures HighFits(x, y, c, d) <==> HighFitsAt(a, b, c, d, l, h)
  {
    ClearHigh(x, y, c, d, l, h);
    assert HighFitsAt(x * l, y * h, c, d, l, h) == HighFitsAt(a, b, c, d, l, h);
  }

  lemma CubeOfProduct(x: real, l: real)
    ensures Cube(x * l) == Cube(x) * Cube(l)
  {
    var s := x * l;
    assert s * s == (x * x) * (l * l);
    assert (x * x) * (l * l) * s == ((x * x) * x) * ((l * l) * l);
  }

  lemma CubePositive(x: real)
    requires x > 0.0
    ensures Cube(x) > 0.0
  {
    Product(x, x);
    Product(x * x, x);
  }

  lemma ClearCube(x: real, y: real, c: real, d: real, l: real, h: real)
    requires l > 0.0 && h > 0.0
    ensures Cube(x) <= y * c * d <==> Cube(x * l) * h <= (y * h) * c * d * Cube(l)
  {
    CubePositive(l);
    Product(Cube(l), h);
    ScaleIff(Cube(x), y * c * d, Cube(l) * h);
    CubeOfProduct(x, l);
    Reorder(Cube(x), y, c * d, Cube(l), h);
    assert y * c * d == y * (c * d) && (y * h) * c * d == (y * h) * (c * d);
  }

  lemma ClearCube'(x: real, y: real, c: real, d: real, l: real, h: real)
    requires l > 0.0 && h > 0.0
    ensures y * c * d <= Cube(x) <==> (y * h) * c * d * Cube(l) <= Cube(x * l) * h
  {
    CubePositive(l);
    Product(Cube(l), h);
    ScaleIff(y * c * d, Cube(x), Cube(l) * h);
    CubeOfProduct(x, l);
    Reorder(Cube(x), y, c * d, Cube(l), h);
    assert y * c * d == y * (c * d) && (y * h) * c * d == (y * h) * (c * d);
  }

  lemma Reorder(x3: real, y: real, k: real, l3: real, h: real)
    ensures x3 * (l3 * h) == x3 * l3 * h
    ensures y * k * (l3 * h) == (y * h) * k * l3
  {
  }

  lemma FitLowIff(p: Preset, params: real, input: nat, output: nat, low: real, high: real)
    requires low > 0.0 && high > 0.0
    ensures var e := MethodsOf(p, params, input, output, low, high);
            LowFits(e.tdpLow, e.tdpHigh, e.flopLow, e.flopHigh)
            <==> LowFitsAt(TdpLowAtOne(p, params, input, output), TdpHighAtOne(p, params, input, output), e.flopLow,
                e.flopHigh, low, high)
  {
    var e := MethodsOf(p, params, input, output, low, high);
    TdpIsInverse(p.wattsLow, p.minWattsLow, p.pueLow, params, input, output, low);
    TdpIsInverse(p.wattsHigh, p.minWattsHigh, p.pueHigh, params, input, output, high);
    ClearLowAt(e.tdpLow, e.tdpHigh, TdpLowAtOne(p, params, input, output), TdpHighAtOne(p, params, input, output),
        e.flopLow, e.flopHigh, low, high);
  }

  lemma FitHighIff(p: Preset, params: real, input: nat, output: nat, low: real, high: real)
    requires low > 0.0 && high > 0.0
    ensures var e := MethodsOf(p, params, input, output, low, high);
            HighFits(e.tdpLow, e.tdpHigh, e.flopLow, e.flopHigh)
            <==> HighFitsAt(TdpLowAtOne(p, params, input, output), TdpHighAtOne(p, params, input, output), e.flopLow,
                e.flopHigh, low, high)
  {
    var e := MethodsOf(p, params, input, output, low, high);
    TdpIsInverse(p.wattsLow, p.minWattsLow, p.pueLow, params, input, output, low);
    TdpIsInverse(p.wattsHigh, p.minWattsHigh, p.pueHigh, params, input, output, high);
    ClearHighAt(e.tdpLow, e.tdpHigh, TdpLowAtOne(p, params, input, output), TdpHighAtOne(p, params, input, output),
        e.flopLow, e.flopHigh, low, high);
  }

  lemma FitIff(m: Math, p: Preset, params: real, input: nat, output: nat, low: real, high: real)
    requires Lawful(m) && Proper(p) && params > 0.0 && low > 0.0 && high > 0.0 && input + output > 0
    ensures var j := Combined(m, MethodsOf(p, params, input, output, low, high), false);
            j.low <= j.mid <= j.high <==> ThroughputsFit(p, params, input, output, low, high)
  {
    var e := MethodsOf(p, params, input, output, low, high);
    MethodsGrow(p, params, input, output, input, output, low, high);
    HybridLowIff(m, e);
    HybridHighIff(m, e);
    FitLowIff(p, params, input, output, low, high);
    FitHighIff(p, params, input, output, low, high);
  }

  /** The first method's estimates are in order exactly when the throughputs
      differ by no more than the powers do; the tokens play no part. */
  predicate PowersOrdered(p: Preset, params: real, low: real, high: real) {
    Power(p.wattsLow, p.minWattsLow, params) * p.pueLow * high <=
        Power(p.wattsHigh, p.minWattsHigh, params) * p.pueHigh * low
  }

  lemma TdpIsOrderedIff(p: Preset, params: real, input: nat, output: nat, low: real, high: real)
    requires low > 0.0 && high > 0.0 && input + output > 0
    ensures TdpEnergy(p.wattsLow, p.minWattsLow, p.pueLow, params, Duration(input, output, low))
            <= TdpEnergy(p.wattsHigh, p.minWattsHigh, p.pueHigh, params, Duration(input, output, high))
            <==> PowersOrdered(p, params, low, high)
  {
    WorkPositive(input, output);
    DurationIsWork(input, output, low);
    DurationIsWork(input, output, high);
    PowersIff(Power(p.wattsLow, p.minWattsLow, params), Power(p.wattsHigh, p.minWattsHigh, params), p.pueLow, p.pueHigh,
              Work(input, output), Duration(input, output, low), Duration(input, output, high), low, high);
  }

  lemma WorkPositive(input: nat, output: nat)
    requires input + output > 0
    ensures Work(input, output) > 0.0
  {
    DurationIsWork(input, output, 1.0);
    DurationPositive(input, output, 1.0);
  }

  lemma PowersIff(x: real, y: real, p: real, q: real, work: real, d: real, e: real, l: real, h: real)
    requires work > 0.0 && l > 0.0 && h > 0.0 && d * l == work && e * h == work
    ensures x * d * p * 1.20 <= y * e * q * 1.20 <==> x * p * h <= y * q * l
  {
    Regroup(x, d, p, l);
    Regroup(y, e, q, h);
    AtOneIs(x, p, work);
    AtOneIs(y, q, work);
    CrossIff(x * d * p * 1.20, y * e * q * 1.20, x * p, y * q, work * 1.20, l, h);
  }

  lemma AtOneIs(power: real, pue: real, work: real)
    ensures power * work * pue * 1.20 == power * pue * (work * 1.20)
  {
  }

  lemma CrossIff(a: real, b: real, x: real, y: real, w: real, l: real, h: real)
    requires w > 0.0 && l > 0.0 && h > 0.0 && a * l == x * w && b * h == y * w
    ensures a <= b <==> x * h <= y * l
  {
    Product(l, h);
    ScaleIff(a, b, l * h);
    ScaleIff(x * h, y * l, w);
    assert a * (l * h) == (a * l) * h == x * h * w;
    assert b * (l * h) == (b * h) * l == y * l * w;
  }

  // ---- Main results ----------------------------------------------------

  function LowThroughput(m: Math, params: real, given: real): (t: real)
    requires params > 0.0 && Lawful(m)
    ensures t > 0.0
  {
    AutoIsOrdered(m, params);
    Throughput(m, params, given, true)
  }

  function HighThroughput(m: Math, params: real, given: real): (t: real)
    requires params > 0.0 && Lawful(m)
    ensures t > 0.0
  {
    AutoIsOrdered(m, params);
    Throughput(m, params, given, false)
  }

  lemma AutoThroughputsOrdered(m: Math, params: real)
    requires params > 0.0 && Lawful(m)
    ensures HighThroughput(m, params, 0.0) <= LowThroughput(m, params, 0.0)
  {
    AutoIsOrdered(m, params);
  }

  predicate EnergyOrdered(r: Range) {
    r.low.joules <= r.mid.joules <= r.high.joules
  }

  predicate DurationOrdered(r: Range) {
    r.low.durationMs <= r.mid.durationMs <= r.high.durationMs
  }

  /** The ends are always in order. The middle energy is between them in the
      floor regime whatever the throughputs, and in the hybrid one exactly when
      the throughputs fit. */
  lemma EstimateIsOrderedIff(m: Math, p: Preset, params: real, input: nat, output: nat, givenLow: real, givenHigh: real)
    requires Lawful(m) && Proper(p) && params > 0.0
    ensures var r := Estimate(m, p, params, input, output, givenLow, givenHigh);
            && 0.0 <= r.low.joules <= r.high.joules
            && (EnergyOrdered(r) <==>
                || input + output == 0 || FloorActive(p, params)
                || ThroughputsFit(p, params, input, output, LowThroughput(m, params, givenLow),
                    HighThroughput(m, params, givenHigh)))
  {
    if input + output > 0 {
      var low, high := LowThroughput(m, params, givenLow), HighThroughput(m, params, givenHigh);
      MethodsGrow(p, params, input, output, input, output, low, high);
      FlopsAreOrdered(p, params, input, output);
      if FloorActive(p, params) {
        FloorIsOrdered(m, MethodsOf(p, params, input, output, low, high));
      } else {
        FitIff(m, p, params, input, output, low, high);
        assert Combined(m, MethodsOf(p, params, input, output, low, high), false).low
            <= Combined(m, MethodsOf(p, params, input, output, low, high), false).high;
      }
    }
  }

  /** The energies are in order as soon as the throughputs differ by no more than
      the powers do, so whenever the low estimate takes the faster one; the
      durations are in order exactly then. */
  lemma EstimateIsOrdered(m: Math, p: Preset, params: real, input: nat, output: nat, givenLow: real, givenHigh: real)
    requires Lawful(m) && Proper(p) && params > 0.0
    ensures var low, high := LowThroughput(m, params, givenLow), HighThroughput(m, params, givenHigh);
            var r := Estimate(m, p, params, input, output, givenLow, givenHigh);
            && (PowersOrdered(p, params, low, high) ==> EnergyOrdered(r))
            && (high <= low ==> PowersOrdered(p, params, low, high))
            && (DurationOrdered(r) <==> input + output == 0 || high <= low)
  {
    var low, high := LowThroughput(m, params, givenLow), HighThroughput(m, params, givenHigh);
    if high <= low { FasterIsOrdered(p, params, low, high); }
    if input + output > 0 {
      var e := MethodsOf(p, params, input, output, low, high);
      MethodsGrow(p, params, input, output, input, output, low, high);
      FlopsAreOrdered(p, params, input, output);
      TdpIsOrderedIff(p, params, input, output, low, high);
      if e.tdpLow <= e.tdpHigh { CombinedIsOrdered(m, e, FloorActive(p, params)); }
      DurationOrderedIff(input, output, low, high);
    }
  }

  lemma FasterIsOrdered(p: Preset, params: real, low: real, high: real)
    requires Proper(p) && params > 0.0 && 0.0 < high <= low
    ensures PowersOrdered(p, params, low, high)
  {
    var x, y := Power(p.wattsLow, p.minWattsLow, params), Power(p.wattsHigh, p.minWattsHigh, params);
    PowerUp(p.wattsLow, p.wattsHigh, p.minWattsLow, p.minWattsHigh, params);
    ProductsUp(x, y, p.pueLow, p.pueHigh);
    ProductsUp(x * p.pueLow, y * p.pueHigh, high, low);
  }

  lemma DurationOrderedIff(input: nat, output: nat, low: real, high: real)
    requires low > 0.0 && high > 0.0 && input + output > 0
    ensures Duration(input, output, low) <= Duration(input, output, high) <==> high <= low
  {
    DurationIsWork(input, output, low);
    DurationIsWork(input, output, high);
    WorkPositive(input, output);
    CrossIff(Duration(input, output, low), Duration(input, output, high), 1.0, 1.0, Work(input, output), low, high);
  }

  /** Under twenty billion parameters the floor holds in every tier, so the
      energies are in order however the throughputs are configured. */
  lemma SmallModelsAreOrdered(m: Math, t: Tier, params: real, input: nat, output: nat, givenLow: real, givenHigh: real)
    requires Lawful(m) && 0.0 < params < 20000000000.0
    ensures EnergyOrdered(Estimate(m, PresetOf(t), params, input, output, givenLow, givenHigh))
  {
    PresetsAreProper(t);
    EstimateIsOrderedIff(m, PresetOf(t), params, input, output, givenLow, givenHigh);
  }

  /** More input or output tokens never lower an estimate; the throughputs need
      no order for that. */
  lemma EstimateGrows(
    m: Math, p: Preset, params: real, input: nat, output: nat, input': nat, output': nat, givenLow: real,
    givenHigh: real)
    requires Lawful(m) && Proper(p) && params > 0.0 && input <= input' && output <= output'
    ensures var r, r' := Estimate(m, p, params, input, output, givenLow, givenHigh),
            Estimate(m, p, params, input', output', givenLow, givenHigh);
            r.low.joules <= r'.low.joules && r.mid.joules <= r'.mid.joules && r.high.joules <= r'.high.joules
  {
    AutoIsOrdered(m, params);
    if input' + output' > 0 {
      var low, high := Throughput(m, params, givenLow, true), Throughput(m, params, givenHigh, false);
      var e' := MethodsOf(p, params, input', output', low, high);
      if input + output > 0 {
        MethodsGrow(p, params, input, output, input', output', low, high);
        CombinedGrows(m, MethodsOf(p, params, input, output, low, high), e', FloorActive(p, params));
      } else {
        MethodsGrow(p, params, input', output', input', output', low, high);
        CombinedGrows(m, e', e', FloorActive(p, params));
      }
    }
  }

  /** Throughputs given the other way round put the middle above the high end:
      a hundred billion parameters at a small provider, a thousand output
      tokens, one and a thousand tokens per second. */
  lemma ReversedThroughputsBreakOrder(m: Math)
    requires Lawful(m)
    ensures var r := Estimate(m, PresetOf(SmallProvider), 100000000000.0, 0, 1000, 1.0, 1000.0);
            !(r.low.joules <= r.mid.joules <= r.high.joules) && r.low.joules <= r.high.joules
  {
    ReversedMethods();
    var e := MethodsOf(PresetOf(SmallProvider), 100000000000.0, 0, 1000, 1.0, 1000.0);
    HybridHighIff(m, e);
    assert !FloorActive(PresetOf(SmallProvider), 100000000000.0);
  }

  lemma ReversedMethods()
    ensures MethodsOf(PresetOf(SmallProvider), 100000000000.0, 0, 1000, 1.0, 1000.0) ==
            Methods(72000.0, 384.0, 5760.0 / 7.0, 2560.0)
    ensures 72000.0 * (5760.0 / 7.0) * 2560.0 > Cube(384.0) && 72000.0 * 384.0 * (5760.0 / 7.0) > Cube(2560.0)
  {
    assert Duration(0, 1000, 1.0) == 1000.0 && Duration(0, 1000, 1000.0) == 1.0;
    assert Flops(100000000000.0, 0, 1000) == 200000000000000.0;
    assert 350.0 * 1000000000.0 == 350000000000.0;
    assert 200000000000000.0 / 350000000000.0 == 4000.0 / 7.0;
    assert 200000000000000.0 / 150000000000.0 == 4000.0 / 3.0;
  }
}

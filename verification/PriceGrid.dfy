/**
 Amounts and prices put on the exchange's grid.  All quantities are whole
 numbers of one atomic unit fine enough for every price, tick and step.
 */
module PriceGrid {
  import opened Options

  // ---- Amounts ------------------------------------------------------------

  // `one` is the number 1.0 in atomic units.
  function ClampToStep(amount: int, minAmount: int, step: int, one: int): (r: Option<int>)
    requires one > 0
    ensures var s := if step > 0 then step else if minAmount > 0 then minAmount else one;
            && (r.Some? ==>
                  && r.value % s == 0 && 0 < r.value <= amount < r.value + s && minAmount <= r.value)
            && (r.None? ==> forall m: int :: m % s == 0 && 0 < m <= amount ==> m < minAmount)
  {
    var s := if step > 0 then step else if minAmount > 0 then minAmount else one;
    var clamped := amount / s * s;
    FloorIsGreatest(amount, s);
    if clamped < minAmount || clamped <= 0 then None else Some(clamped)
  }

  lemma MultiplesApart(a: int, b: int, t: int)
    requires t > 0 && a % t == 0 && b % t == 0
    ensures a < b ==> a + t <= b
  {
    var x, y := a / t, b / t;
    assert a == x * t && b == y * t;
    if x + 1 <= y { Scaled(x + 1, y, t); } else { Scaled(y, x, t); }
  }

  lemma Scaled(a: int, b: int, t: int)
    requires a <= b && t > 0
    ensures a * t <= b * t
  {
  }

  lemma MultipleOf(k: int, t: int)
    requires t > 0
    ensures k * t % t == 0 && k * t / t == k
  {
    var d := k * t / t - k;
    assert k * t == k * t / t * t + k * t % t;
    assert d * t == -(k * t % t);
    if d > 0 { Scaled(1, d, t); }
    if d < 0 { Scaled(d, -1, t); }
  }

  lemma FloorIsGreatest(amount: int, s: int)
    requires s > 0
    ensures var c := amount / s * s;
            c % s == 0 && c <= amount < c + s && forall m: int :: m % s == 0 && m <= amount ==> m <= c
  {
    var c := amount / s * s;
    MultipleOf(amount / s, s);
    forall m: int | m % s == 0 && m <= amount ensures m <= c {
      MultiplesApart(c, m, s);
    }
  }

  // ---- Ticks --------------------------------------------------------------

  // One band override; either part may be missing from the exchange's data.
  datatype TickStep = TickStep(above: Option<int>, tick: Option<int>)

  predicate Applies(s: TickStep, price: int) {
    s.above.Some? && s.tick.Some? && s.tick.value != 0 && price >= s.above.value
  }

  // The last override that applies wins.
  function TickAt(price: int, base: int, steps: seq<TickStep>): int {
    if steps == [] then base
    else if Applies(steps[|steps| - 1], price) then steps[|steps| - 1].tick.value
    else TickAt(price, base, steps[..|steps| - 1])
  }

  // The tick is that of the last override whose threshold the price has reached,
  // an override that lacks a threshold or a tick aside, and else the base.
  lemma {:induction false} TickIsLastReached(price: int, base: int, steps: seq<TickStep>) returns (k: int)
    ensures -1 <= k < |steps|
    ensures if k < 0 then TickAt(price, base, steps) == base
            else
              && steps[k].above.Some? && steps[k].above.value <= price
              && steps[k].tick == Some(TickAt(price, base, steps)) && TickAt(price, base, steps) != 0
    ensures forall j :: k < j < |steps| ==>
              steps[j].above.None? || steps[j].above.value > price || steps[j].tick.None? || steps[j].tick == Some(0)
  {
    k := -1;
    if steps != [] {
      if Applies(steps[|steps| - 1], price) { k := |steps| - 1; }
      else { k := TickIsLastReached(price, base, steps[..|steps| - 1]); }
    }
  }

  method EffectiveTickSize(price: int, base: int, steps: seq<TickStep>) returns (tick: int)
    ensures tick == TickAt(price, base, steps)
  {
    tick := base;
    for k := 0 to |steps|
      invariant tick == TickAt(price, base, steps[..k])
    {
      assert steps[..k + 1][..k] == steps[..k];
      if Applies(steps[k], price) { tick := steps[k].tick.value; }
    }
    assert steps[..|steps|] == steps;
  }

  // ---- Rounding -----------------------------------------------------------

  // To the nearest multiple of t, halves away from zero.
  function HalfUp(p: int, t: int): int
    requires t > 0
  {
    if p >= 0 then (2 * p + t) / (2 * t) * t else -((-2 * p + t) / (2 * t) * t)
  }

  // To the nearest multiple of t, halves to the even one.
  function HalfEven(p: int, t: int): int
    requires t > 0
  {
    var q, r := p / t, p % t;
    if 2 * r < t || (2 * r == t && q % 2 == 0) then q * t else (q + 1) * t
  }

  lemma HalfUpOfNonNegative(p: int, t: int)
    requires t > 0 && p >= 0
    ensures var r := HalfUp(p, t); r >= 0 && r % t == 0 && -t <= 2 * (p - r) < t
  {
    var q := (2 * p + t) / (2 * t);
    assert 2 * p + t == q * (2 * t) + (2 * p + t) % (2 * t);
    assert q * (2 * t) == 2 * (q * t);
    MultipleOf(q, t);
  }

  // On the grid and within half a tick, a half going away from zero.
  lemma HalfUpSnaps(p: int, t: int)
    requires t > 0
    ensures var r := HalfUp(p, t);
            && r % t == 0
            && (p >= 0 ==> r >= 0 && -t <= 2 * (p - r) < t)
            && (p < 0 ==> r <= 0 && -t < 2 * (p - r) <= t)
  {
    if p >= 0 {
      HalfUpOfNonNegative(p, t);
    } else {
      HalfUpOfNonNegative(-p, t);
      var q := (-2 * p + t) / (2 * t);
      MultipleOf(-q, t);
      assert HalfUp(p, t) == -HalfUp(-p, t) == -q * t;
    }
  }

  // HalfUp is the nearest multiple, and of two equally near the one farther from
  // zero.
  lemma HalfUpIsNearest(p: int, t: int, m: int)
    requires t > 0 && m % t == 0
    ensures var r := HalfUp(p, t);
            && r % t == 0
            && -t <= 2 * (r - p) <= t
            && Apart(p, r) <= Apart(p, m)
            && (Apart(p, r) == Apart(p, m) && r != m ==> Apart(0, r) > Apart(0, m))
  {
    var r := HalfUp(p, t);
    HalfUpSnaps(p, t);
    MultiplesApart(r, m, t);
    MultiplesApart(m, r, t);
  }

  function Apart(a: int, b: int): int {
    if a >= b then a - b else b - a
  }

  lemma HalfEvenSnaps(p: int, t: int)
    requires t > 0
    ensures var r := HalfEven(p, t);
            r % t == 0 && -t <= 2 * (p - r) <= t && (2 * (p - r) == t || 2 * (p - r) == -t ==> r / t % 2 == 0)
  {
    var floor := p / t * t;
    GridAround(p, t);
    assert HalfEven(p, t) == floor || HalfEven(p, t) == floor + t;
  }

  // The multiples of t around p, and their quotients.
  lemma GridAround(p: int, t: int)
    requires t > 0
    ensures var floor := p / t * t;
            && p == floor + p % t && (p / t + 1) * t == floor + t
            && floor % t == 0 && floor / t == p / t && (floor + t) % t == 0 && (floor + t) / t == p / t + 1
  {
    MultipleOf(p / t, t);
    MultipleOf(p / t + 1, t);
  }

  // So is HalfEven, but of two equally near it is the even multiple.
  lemma HalfEvenIsNearest(p: int, t: int, m: int)
    requires t > 0 && m % t == 0
    ensures var r := HalfEven(p, t);
            && r % t == 0
            && Apart(p, r) <= Apart(p, m)
            && (Apart(p, r) == Apart(p, m) && r != m ==> r / t % 2 == 0)
  {
    var r := HalfEven(p, t);
    HalfEvenSnaps(p, t);
    MultiplesApart(r, m, t);
    MultiplesApart(m, r, t);
  }

  lemma HalfUpFixesTheGrid(p: int, t: int)
    requires t > 0 && p % t == 0
    ensures HalfUp(p, t) == p
  {
    HalfUpIsNearest(p, t, p);
  }

  lemma HalfUpKeepsOrder(a: int, b: int, t: int)
    requires t > 0 && a <= b
    ensures HalfUp(a, t) <= HalfUp(b, t)
  {
    HalfUpSnaps(a, t);
    HalfUpSnaps(b, t);
    MultiplesApart(HalfUp(b, t), HalfUp(a, t), t);
  }

  // A multiple of the tick cannot be rounded across.
  lemma HalfUpStaysBetween(p: int, t: int, m: int)
    requires t > 0 && m % t == 0
    ensures p <= m ==> HalfUp(p, t) <= m
    ensures p >= m ==> HalfUp(p, t) >= m
  {
    HalfUpIsNearest(p, t, m);
    MultiplesApart(m, HalfUp(p, t), t);
    MultiplesApart(HalfUp(p, t), m, t);
  }

  // The tick in force at a price; a non-positive override falls back to the base.
  function GridAt(price: int, base: int, steps: seq<TickStep>): int {
    var t := TickAt(price, base, steps);
    if t <= 0 then base else t
  }

  // `unit` is 0.0001 in atomic units, the grid used for an unknown instrument.
  function Rounded(price: int, base: Option<int>, steps: seq<TickStep>, unit: int): int
    requires unit > 0
  {
    if base.None? then HalfEven(price, unit)
    else if base.value <= 0 then price
    else HalfUp(price, GridAt(price, base.value, steps))
  }

  // What rounding gives, case by case: m is any other price on the grid.
  lemma RoundedIsNearest(price: int, base: Option<int>, steps: seq<TickStep>, unit: int, m: int)
    requires unit > 0
    ensures var r := Rounded(price, base, steps, unit);
            if base.None? then
              r % unit == 0 && (m % unit == 0 ==> Apart(price, r) <= Apart(price, m))
            else if base.value <= 0 then r == price
            else
              var told := TickAt(price, base.value, steps);
              var t := if told > 0 then told else base.value;
              && r % t == 0 && (m % t == 0 ==> Apart(price, r) <= Apart(price, m))
              && (m % t == 0 && Apart(price, r) == Apart(price, m) && r != m ==> Apart(0, r) > Apart(0, m))
  {
    if base.None? {
      HalfEvenIsNearest(price, unit, if m % unit == 0 then m else 0);
    } else if base.value > 0 {
      var t := GridAt(price, base.value, steps);
      HalfUpIsNearest(price, t, if m % t == 0 then m else 0);
    }
  }

  method RoundToTick(price: int, instrument: string, tick: Option<int>, steps: Option<seq<TickStep>>, unit: int,
                     tickCache: map<string, int>, stepsCache: map<string, seq<TickStep>>) returns (r: int)
    requires unit > 0
    ensures var base := if tick.None? && instrument in tickCache then Some(tickCache[instrument]) else tick;
            var bands := if steps.Some? then steps.value
                         else if instrument in stepsCache then stepsCache[instrument] else [];
            r == Rounded(price, base, bands, unit)
  {
    var base := tick;
    if base.None? && instrument in tickCache { base := Some(tickCache[instrument]); }
    var bands := [];
    if steps.Some? { bands := steps.value; } else if instrument in stepsCache { bands := stepsCache[instrument]; }
    if base.None? { return HalfEven(price, unit); }
    if base.value <= 0 { return price; }
    var t := EffectiveTickSize(price, base.value, bands);
    if t <= 0 { t := base.value; }
    r := HalfUp(price, t);
  }

  // ---- Bands --------------------------------------------------------------

  function LastTick(base: int, steps: seq<TickStep>): int {
    if steps == [] || steps[|steps| - 1].tick.None? then base else steps[|steps| - 1].tick.value
  }

  // Bands ascend and each threshold is a multiple of the ticks on both sides.
  predicate Aligned(base: int, steps: seq<TickStep>) {
    if steps == [] then base > 0
    else
      var init, last := steps[..|steps| - 1], steps[|steps| - 1];
      && Aligned(base, init)
      && last.above.Some? && last.tick.Some? && last.tick.value > 0
      && last.above.value % last.tick.value == 0 && LastTick(base, init) > 0
      && last.above.value % LastTick(base, init) == 0
      && (init != [] ==> init[|init| - 1].above.Some? && init[|init| - 1].above.value < last.above.value)
  }

  lemma {:induction false} AlignedTicksPositive(price: int, base: int, steps: seq<TickStep>)
    requires Aligned(base, steps)
    ensures TickAt(price, base, steps) > 0 && GridAt(price, base, steps) == TickAt(price, base, steps)
  {
    if steps != [] { AlignedTicksPositive(price, base, steps[..|steps| - 1]); }
  }

  // Rounding below a next threshold never gets past it.
  lemma {:induction false} RoundsUpToThreshold(price: int, base: int, steps: seq<TickStep>, next: int)
    requires Aligned(base, steps) && price < next && LastTick(base, steps) > 0 && next % LastTick(base, steps) == 0
    requires steps != [] ==> steps[|steps| - 1].above.value < next
    ensures TickAt(price, base, steps) > 0 && HalfUp(price, TickAt(price, base, steps)) <= next
  {
    if steps == [] || Applies(steps[|steps| - 1], price) {
      HalfUpStaysBetween(price, LastTick(base, steps), next);
    } else {
      RoundsUpToThreshold(price, base, steps[..|steps| - 1], steps[|steps| - 1].above.value);
    }
  }

  lemma {:induction false} LandsOnGrid(price: int, base: int, steps: seq<TickStep>)
    requires Aligned(base, steps)
    ensures TickAt(price, base, steps) > 0
    ensures var r := HalfUp(price, TickAt(price, base, steps));
            TickAt(r, base, steps) > 0 && r % TickAt(r, base, steps) == 0
  {
    AlignedTicksPositive(price, base, steps);
    var r := HalfUp(price, TickAt(price, base, steps));
    AlignedTicksPositive(r, base, steps);
    if steps == [] {
      HalfUpIsNearest(price, base, 0);
    } else {
      var init, last := steps[..|steps| - 1], steps[|steps| - 1];
      if Applies(last, price) {
        HalfUpStaysBetween(price, last.tick.value, last.above.value);
        HalfUpIsNearest(price, last.tick.value, last.above.value);
      } else {
        RoundsUpToThreshold(price, base, init, last.above.value);
        LandsOnGrid(price, base, init);
      }
    }
  }

  // With aligned bands, a rounded price is on the grid of the band it lands in,
  // within half the tick of the band it came from, and rounding again is idle.
  lemma RoundingIsOnGrid(price: int, base: int, steps: seq<TickStep>, unit: int)
    requires unit > 0 && Aligned(base, steps) && base > 0
    ensures var r := Rounded(price, Some(base), steps, unit);
            && GridAt(r, base, steps) > 0 && r % GridAt(r, base, steps) == 0
            && -GridAt(price, base, steps) <= 2 * (r - price) <= GridAt(price, base, steps)
            && Rounded(r, Some(base), steps, unit) == r
  {
    var r := Rounded(price, Some(base), steps, unit);
    AlignedTicksPositive(price, base, steps);
    AlignedTicksPositive(r, base, steps);
    LandsOnGrid(price, base, steps);
    HalfUpIsNearest(price, TickAt(price, base, steps), 0);
    HalfUpFixesTheGrid(r, TickAt(r, base, steps));
  }

  // ---- Any bands ----------------------------------------------------------

  // The rounded price is on the grid of the band it lands in.
  predicate Lands(price: int, base: int, steps: seq<TickStep>)
    requires base > 0
  {
    var r := HalfUp(price, GridAt(price, base, steps));
    r % GridAt(r, base, steps) == 0
  }

  // Rounding again does nothing.
  predicate Settles(price: int, base: int, steps: seq<TickStep>)
    requires base > 0
  {
    var r := Rounded(price, Some(base), steps, 1);
    Rounded(r, Some(base), steps, 1) == r
  }

  lemma SettlesIffLands(price: int, base: int, steps: seq<TickStep>)
    requires base > 0
    ensures Settles(price, base, steps) <==> Lands(price, base, steps)
  {
    var r := HalfUp(price, GridAt(price, base, steps));
    var t := GridAt(r, base, steps);
    if r % t == 0 { HalfUpFixesTheGrid(r, t); } else { HalfUpSnaps(r, t); }
  }

  // The prices at which the tick may change.
  predicate Threshold(steps: seq<TickStep>, m: int) {
    exists k :: 0 <= k < |steps| && steps[k].above == Some(m) && Applies(steps[k], m)
  }

  // The greatest threshold a price has reached and the least it has not.
  function Reached(price: int, steps: seq<TickStep>): (m: Option<int>)
    ensures m.Some? ==> Threshold(steps, m.value) && m.value <= price
    ensures forall n :: Threshold(steps, n) && n <= price ==> m.Some? && n <= m.value
  {
    if steps == [] then None
    else
      var init, last := steps[..|steps| - 1], steps[|steps| - 1];
      var before := Reached(price, init);
      ThresholdsOf(steps);
      if Applies(last, price) && (before.Some? ==> before.value < last.above.value) then last.above else before
  }

  function Ahead(price: int, steps: seq<TickStep>): (m: Option<int>)
    ensures m.Some? ==> Threshold(steps, m.value) && m.value > price
    ensures forall n :: Threshold(steps, n) && n > price ==> m.Some? && n >= m.value
  {
    if steps == [] then None
    else
      var init, last := steps[..|steps| - 1], steps[|steps| - 1];
      var before := Ahead(price, init);
      ThresholdsOf(steps);
      if last.above.Some? && Applies(last, last.above.value) && last.above.value > price
           && (before.Some? ==> last.above.value < before.value) then last.above
      else before
  }

  lemma ThresholdsOf(steps: seq<TickStep>)
    requires steps != []
    ensures var init, last := steps[..|steps| - 1], steps[|steps| - 1];
            forall m :: Threshold(steps, m) <==> Threshold(init, m) || (last.above == Some(m) && Applies(last, m))
  {
    var init, last := steps[..|steps| - 1], steps[|steps| - 1];
    forall m ensures Threshold(steps, m) <==> Threshold(init, m) || (last.above == Some(m) && Applies(last, m)) {
      if Threshold(init, m) {
        var k :| 0 <= k < |init| && init[k].above == Some(m) && Applies(init[k], m);
        assert steps[k].above == Some(m);
      }
      if last.above == Some(m) && Applies(last, m) { assert steps[|steps| - 1].above == Some(m); }
    }
  }

  // Between two thresholds the tick stays the same.
  lemma {:induction false} SameBand(p: int, q: int, base: int, steps: seq<TickStep>)
    requires forall m :: Threshold(steps, m) ==> (m <= p <==> m <= q)
    ensures TickAt(p, base, steps) == TickAt(q, base, steps)
  {
    if steps != [] {
      ThresholdsOf(steps);
      var last := steps[|steps| - 1];
      assert last.above.Some? && Applies(last, last.above.value) ==> Threshold(steps, last.above.value);
      SameBand(p, q, base, steps[..|steps| - 1]);
    }
  }

  ghost predicate ThresholdsLand(base: int, steps: seq<TickStep>)
    requires base > 0
  {
    forall m :: Threshold(steps, m) ==> Lands(m, base, steps) && Lands(m - 1, base, steps)
  }

  // What falls below its band is where the band's threshold lands, and what rises
  // above it where the last price of the band does.
  lemma LandsByItsThresholds(p: int, base: int, steps: seq<TickStep>)
    requires base > 0 && ThresholdsLand(base, steps)
    ensures Lands(p, base, steps)
  {
    var t := GridAt(p, base, steps);
    var r := HalfUp(p, t);
    var lo, hi := Reached(p, steps), Ahead(p, steps);
    HalfUpSnaps(p, t);
    if lo.Some? && r < lo.value {
      var edge := lo.value;
      assert Lands(edge, base, steps);
      SameBand(p, edge, base, steps);
      SameLanding(edge, p, t);
    } else if hi.Some? && hi.value <= r {
      var edge := hi.value - 1;
      assert Threshold(steps, hi.value) && Lands(edge, base, steps);
      SameBand(p, edge, base, steps);
      SameLanding(p, edge, t);
    } else {
      SameBand(p, r, base, steps);
    }
  }

  // Two prices on one side of where one of them is rounded to are rounded to the
  // same price.
  lemma SameLanding(a: int, b: int, t: int)
    requires t > 0 && a <= b && (HalfUp(b, t) <= a || b <= HalfUp(a, t))
    ensures HalfUp(a, t) == HalfUp(b, t)
  {
    HalfUpKeepsOrder(a, b, t);
    HalfUpSnaps(a, t);
    HalfUpSnaps(b, t);
    if HalfUp(b, t) <= a { HalfUpStaysBetween(a, t, HalfUp(b, t)); } else { HalfUpStaysBetween(b, t, HalfUp(a, t)); }
  }

  // Whatever the bands, every price is rounded to the grid exactly when each
  // threshold and the price one unit below it are, and so is every price rounded
  // once and for all.
  lemma OnGridIffThresholdsAre(base: int, steps: seq<TickStep>)
    requires base > 0
    ensures (forall p :: Lands(p, base, steps)) <==> ThresholdsLand(base, steps)
    ensures (forall p :: Settles(p, base, steps)) <==> ThresholdsLand(base, steps)
  {
    forall p ensures Settles(p, base, steps) <==> Lands(p, base, steps) { SettlesIffLands(p, base, steps); }
    if ThresholdsLand(base, steps) {
      forall p ensures Lands(p, base, steps) { LandsByItsThresholds(p, base, steps); }
    }
  }

  // Bands can miss the grid: with tick 5 below 13 and 6 from 13 on, 13 is rounded
  // to 12, which is no multiple of 5, and then to 10.
  lemma BandsCanMissTheGrid()
    ensures var steps := [TickStep(Some(13), Some(6))];
            && !Lands(13, 5, steps)
            && Rounded(13, Some(5), steps, 1) == 12 && GridAt(12, 5, steps) == 5
            && Rounded(12, Some(5), steps, 1) == 10
  {
    var steps := [TickStep(Some(13), Some(6))];
    assert steps[..0] == [];
    assert HalfUp(13, 6) == 12 && HalfUp(12, 5) == 10;
  }

  // And they need not be aligned to hit it: tick 5 below 12 and 12 from 12 on.
  lemma UnalignedBandsCanHitTheGrid(p: int)
    ensures var steps := [TickStep(Some(12), Some(12))]; !Aligned(5, steps) && Lands(p, 5, steps)
  {
    var steps := [TickStep(Some(12), Some(12))];
    assert steps[..0] == [];
    assert HalfUp(12, 12) == 12 && HalfUp(11, 5) == 10;
    OnGridIffThresholdsAre(5, steps);
  }
}

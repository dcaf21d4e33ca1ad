/** The three independently written price rounders, over exact reals.

    Prices are rupees.  Go's float-to-int conversion truncates toward zero, its
    integer division truncates toward zero, and `math.Round` rounds halves away
    from zero; all three are written out below, so that negative prices take the
    branches they take in the program.
 */
module TickRounding {

  // ---- Go's arithmetic ----

  function Trunc(x: real): int {
    if x >= 0.0 then x.Floor else -((-x).Floor)
  }

  function GoDiv(a: int, b: int): int
    requires b > 0
  {
    if a >= 0 then a / b else -((-a) / b)
  }

  function MathRound(x: real): int {
    if x >= 0.0 then (x + 0.5).Floor else -((-x + 0.5).Floor)
  }

  // ---- The rounders ----

  function Ticks(k: int, tick: real): real {
    k as real * tick
  }

  /** The clamp to two decimals both paise rounders end with. */
  function ToPaise(x: real): real {
    MathRound(x * 100.0) as real / 100.0
  }

  /** `roundNSE`: to whole paise first, then to a multiple of five paise. */
  function RoundNSE(price: real): real {
    var paise := Trunc(price * 100.0 + 0.5);
    (GoDiv(paise + 2, 5) * 5) as real / 100.0
  }

  const SCALE: real := 100000000.0

  /** `roundToTickSize`: integer arithmetic in units of 1e-8 rupee. */
  function RoundScaled(price: real, tickSize: real): real {
    if tickSize <= 0.0 then price
    else
      var priceSc := MathRound(price * SCALE);
      var tickSc := MathRound(tickSize * SCALE);
      if tickSc <= 0 then price
      else (GoDiv(priceSc + GoDiv(tickSc, 2), tickSc) * tickSc) as real / SCALE
  }

  /** `RoundToTick`: the default of RoundToTickSize, five paise from one rupee up. */
  function RoundToTick(price: real): real {
    if price <= 0.0 then price
    else
      var tick := if price < 1.0 then 0.01 else 0.05;
      ToPaise(Ticks(MathRound(price / tick), tick))
  }

  /** `RoundToTickSize`: nearest tick, then clamped to two decimals. */
  function RoundToTickSize(price: real, tickSize: real): real {
    if price <= 0.0 then price
    else if tickSize <= 0.0 then RoundToTick(price)
    else ToPaise(Ticks(MathRound(price / tickSize), tickSize))
  }

  // ---- What a rounder is for ----

  /** A price given in units of 1e-8 rupee. */
  function Grid(n: int): real {
    n as real / SCALE
  }

  ghost predicate OnGrid(p: real, tick: real) {
    exists k: int :: p == Ticks(k, tick)
  }

  /** `r` is the multiple of `tick` nearest to `p`, the higher one on a tie. */
  ghost predicate IsNearestTick(p: real, tick: real, r: real) {
    OnGrid(r, tick) && r - tick / 2.0 <= p < r + tick / 2.0
  }

  lemma NearestTickIsUnique(p: real, tick: real, r: real, s: real)
    requires tick > 0.0
    requires IsNearestTick(p, tick, r) && IsNearestTick(p, tick, s)
    ensures r == s
  {
    var j: int :| r == Ticks(j, tick);
    var k: int :| s == Ticks(k, tick);
    if j < k {
      TicksApart(j, k, tick);
    } else if k < j {
      TicksApart(k, j, tick);
    }
  }

  lemma TicksApart(j: int, k: int, tick: real)
    requires tick > 0.0 && j < k
    ensures Ticks(k, tick) >= Ticks(j, tick) + tick
  {
    MulMonotone(1.0, (k - j) as real, tick);
    assert (k - j) as real * tick == Ticks(k, tick) - Ticks(j, tick);
  }

  lemma MulMonotone(a: real, b: real, c: real)
    requires a <= b && c >= 0.0
    ensures a * c <= b * c
    ensures a < b && c > 0.0 ==> a * c < b * c
  {
  }

  /** Two-stage rounding is no double rounding: on every non-negative price it
      is the nearest five-paise multiple, ties up. */
  lemma RoundNSEIsNearest(p: real)
    requires p >= 0.0
    ensures IsNearestTick(p, 0.05, RoundNSE(p))
  {
    var paise := (p * 100.0 + 0.5).Floor;
    var k := (paise + 2) / 5;
    assert RoundNSE(p) == Ticks(k, 0.05);
    assert 5 * k - 2 <= paise <= 5 * k + 2;
  }

  lemma RoundScaledOnGrid(n: nat, m: nat)
    requires m > 0
    ensures RoundScaled(Grid(n), Grid(m)) == Grid((n + m / 2) / m * m)
  {
    assert Grid(n) * SCALE == n as real && Grid(m) * SCALE == m as real;
    assert Grid(m) > 0.0;
    assert MathRound(n as real) == n && MathRound(m as real) == m;
  }

  lemma GridTicks(k: int, m: nat)
    ensures Grid(k * m) == Ticks(k, Grid(m))
  {
    assert (k * m) as real == k as real * m as real;
  }

  lemma RoundScaledIsNearest(n: nat, m: nat)
    requires m > 0
    ensures IsNearestTick(Grid(n), Grid(m), RoundScaled(Grid(n), Grid(m)))
  {
    RoundScaledOnGrid(n, m);
    var k := (n + m / 2) / m;
    GridTicks(k, m);
    DivBounds(n + m / 2, m);
    GridBounds(n, k * m, m);
  }

  lemma DivBounds(a: nat, m: nat)
    requires m > 0
    ensures (a / m) * m <= a < (a / m) * m + m
  {
  }

  lemma GridBounds(n: int, km: int, m: nat)
    requires km <= n + m / 2 < km + m
    ensures Grid(km) - Grid(m) / 2.0 <= Grid(n) < Grid(km) + Grid(m) / 2.0
  {
    assert 2 * km - m <= 2 * n < 2 * km + m;
  }

  /** At five paise the clamp to two decimals changes nothing. */
  lemma RoundToTickSizeIsNearest(p: real)
    requires p >= 0.0
    ensures IsNearestTick(p, 0.05, RoundToTickSize(p, 0.05))
  {
    if p == 0.0 {
      assert 0.0 == Ticks(0, 0.05);
    } else {
      RoundToTickSizeWholePaise(p, 5);
    }
  }

  /** The three rounders agree at five paise on every non-negative price that is
      a multiple of 1e-8 rupee, and what they return is the nearest tick. */
  lemma RoundersAgree(n: nat)
    ensures RoundNSE(Grid(n)) == RoundScaled(Grid(n), 0.05) == RoundToTickSize(Grid(n), 0.05)
    ensures IsNearestTick(Grid(n), 0.05, RoundNSE(Grid(n)))
  {
    var p := Grid(n);
    RoundNSEIsNearest(p);
    assert Grid(5000000) == 0.05;
    RoundScaledIsNearest(n, 5000000);
    RoundToTickSizeIsNearest(p);
    NearestTickIsUnique(p, 0.05, RoundNSE(p), RoundScaled(p, 0.05));
    NearestTickIsUnique(p, 0.05, RoundNSE(p), RoundToTickSize(p, 0.05));
  }

  /** The prices the scaled rounder takes up to the next tie before rounding them:
      less than half a unit of 1e-8 rupee below a midpoint between ticks. */
  ghost predicate JustBelowTie(p: real) {
    exists k: int :: Ticks(k, 0.05) + 0.024999995 <= p < Ticks(k, 0.05) + 0.025
  }

  /** The scaled rounder at five paise, on every non-negative price: it rounds the
      price to the grid first, and the grid price to the nearest tick. */
  lemma RoundScaledIsTwoStage(p: real)
    requires p >= 0.0
    ensures var n := (p * SCALE + 0.5).Floor; n >= 0 && RoundScaled(p, 0.05) == RoundNSE(Grid(n))
  {
    var n := (p * SCALE + 0.5).Floor;
    RoundersAgree(n);
    assert MathRound(Grid(n) * SCALE) == n == MathRound(p * SCALE);
  }

  /** The grid price of the midpoint above tick `i`, in units of 1e-8. */
  function Tie(i: int): int {
    5000000 * i + 2500000
  }

  lemma GridAtTie(n: int, i: int)
    ensures Grid(n) >= Ticks(i, 0.05) + 0.025 <==> n >= Tie(i)
    ensures Ticks(i + 1, 0.05) == Ticks(i, 0.05) + 0.05
  {
  }

  lemma ReachesTie(p: real, i: int)
    ensures (p * SCALE + 0.5).Floor >= Tie(i) <==> p >= Ticks(i, 0.05) + 0.024999995
  {
  }

  lemma OnlyTie(p: real, i: int, k: int)
    requires Ticks(i, 0.05) - 0.025 <= p < Ticks(i, 0.05) + 0.025
    requires Ticks(k, 0.05) + 0.024999995 <= p < Ticks(k, 0.05) + 0.025
    ensures k == i
  {
  }

  /** Exactly when rounding to the grid first makes a difference: on a price just
      below a tie, which it takes a tick up. */
  lemma OffGridAgreeIff(p: real)
    requires p >= 0.0
    ensures RoundScaled(p, 0.05) == RoundNSE(p) <==> !JustBelowTie(p)
    ensures RoundScaled(p, 0.05) != RoundNSE(p) ==> RoundScaled(p, 0.05) == RoundNSE(p) + 0.05
  {
    var n := (p * SCALE + 0.5).Floor;
    RoundScaledIsTwoStage(p);
    RoundNSEIsNearest(p);
    RoundNSEIsNearest(Grid(n));
    var r, s := RoundNSE(p), RoundNSE(Grid(n));
    hide RoundNSE, RoundScaled, Ticks, Grid, Tie;
    var i: int :| r == Ticks(i, 0.05);
    ReachesTie(p, i);
    ReachesTie(p, i - 1);
    ReachesTie(p, i + 1);
    GridAtTie(n, i);
    GridAtTie(n, i - 1);
    GridAtTie(n, i + 1);
    if n >= Tie(i) {
      NearestTickIsUnique(Grid(n), 0.05, s, Ticks(i + 1, 0.05));
    } else {
      NearestTickIsUnique(Grid(n), 0.05, s, r);
    }
    if k: int :| Ticks(k, 0.05) + 0.024999995 <= p < Ticks(k, 0.05) + 0.025 {
      OnlyTie(p, i, k);
    }
  }

  /** The rounder that divides has no such prices: it agrees with `roundNSE` on every
      non-negative price. */
  lemma DividingRounderAgrees(p: real)
    requires p >= 0.0
    ensures RoundToTickSize(p, 0.05) == RoundNSE(p)
  {
    RoundNSEIsNearest(p);
    RoundToTickSizeIsNearest(p);
    NearestTickIsUnique(p, 0.05, RoundNSE(p), RoundToTickSize(p, 0.05));
  }

  /** One such price. */
  lemma RoundersDisagreeOffGrid()
    ensures RoundNSE(0.024999999999) == RoundToTickSize(0.024999999999, 0.05) == 0.0
    ensures RoundScaled(0.024999999999, 0.05) == 0.05
  {
    assert MathRound(0.024999999999 * SCALE) == 2500000;
    assert MathRound(0.05 * SCALE) == 5000000;
    assert MathRound(0.024999999999 / 0.05) == 0;
  }

  ghost predicate AgreeAtTick(m: nat) {
    forall n: nat :: RoundScaled(Grid(n), Grid(m)) == RoundToTickSize(Grid(n), Grid(m))
  }

  /** For a general tick the two tick-size rounders agree on all grid prices
      exactly when the tick is a whole number of paise: the clamp to two decimals
      destroys any finer tick. */
  lemma TickSizeRoundersAgreeIff(m: nat)
    requires m > 0
    ensures AgreeAtTick(m) <==> m % 1000000 == 0
  {
    if m % 1000000 == 0 {
      forall n: nat ensures RoundScaled(Grid(n), Grid(m)) == RoundToTickSize(Grid(n), Grid(m)) {
        WholePaiseTickAgrees(n, m);
      }
    } else {
      FinerTickDisagrees(m);
    }
  }

  lemma WholePaiseTickAgrees(n: nat, m: nat)
    requires m > 0 && m % 1000000 == 0
    ensures RoundScaled(Grid(n), Grid(m)) == RoundToTickSize(Grid(n), Grid(m))
  {
    RoundScaledIsNearest(n, m);
    if n == 0 {
      assert Ticks(0, Grid(m)) == 0.0;
    } else {
      RoundToTickSizeWholePaise(Grid(n), m / 1000000);
      assert Grid(m) == (m / 1000000) as real / 100.0;
    }
    NearestTickIsUnique(Grid(n), Grid(m), RoundScaled(Grid(n), Grid(m)), RoundToTickSize(Grid(n), Grid(m)));
  }

  /** With a tick of `c` paise the clamp is the identity. */
  lemma RoundToTickSizeWholePaise(p: real, c: nat)
    requires p > 0.0 && c > 0
    ensures IsNearestTick(p, c as real / 100.0, RoundToTickSize(p, c as real / 100.0))
  {
    var tick := c as real / 100.0;
    var x := p / tick;
    assert x > 0.0 && x * tick == p;
    var k := (x + 0.5).Floor;
    assert tick > 0.0 && MathRound(x) == k;
    ClampWholePaise(k, c);
    QuotientBounds(x, tick, k);
  }

  lemma QuotientBounds(x: real, tick: real, k: int)
    requires tick > 0.0 && k as real - 0.5 <= x < k as real + 0.5
    ensures Ticks(k, tick) - tick / 2.0 <= x * tick < Ticks(k, tick) + tick / 2.0
  {
    MulMonotone(k as real - 0.5, x, tick);
    MulMonotone(x, k as real + 0.5, tick);
    assert (k as real - 0.5) * tick == Ticks(k, tick) - tick / 2.0;
    assert (k as real + 0.5) * tick == Ticks(k, tick) + tick / 2.0;
  }

  lemma ClampWholePaise(k: nat, c: nat)
    ensures ToPaise(Ticks(k, c as real / 100.0)) == Ticks(k, c as real / 100.0)
  {
    assert Ticks(k, c as real / 100.0) * 100.0 == (k * c) as real;
    assert MathRound((k * c) as real) == k * c;
  }

  lemma FinerTickDisagrees(m: nat)
    requires m > 0 && m % 1000000 != 0
    ensures RoundScaled(Grid(m), Grid(m)) != RoundToTickSize(Grid(m), Grid(m))
  {
    RoundScaledOnGrid(m, m);
    OnceInto(m);
    var tick := Grid(m);
    assert tick > 0.0;
    SelfDivides(tick);
    assert Ticks(1, tick) == tick;
    var q := MathRound(tick * 100.0);
    if q as real / 100.0 == tick {
      WholePaise(m, q);
    }
  }

  lemma SelfDivides(x: real)
    requires x > 0.0
    ensures x / x == 1.0 && MathRound(x / x) == 1
  {
  }

  lemma WholePaise(m: nat, q: int)
    requires q as real / 100.0 == Grid(m)
    ensures m % 1000000 == 0
  {
    assert m as real == (q * 1000000) as real;
    assert m == q * 1000000;
  }

  lemma OnceInto(m: nat)
    requires m > 0
    ensures (m + m / 2) / m * m == m
  {
    var k := (m + m / 2) / m;
    DivBounds(m + m / 2, m);
    AtMostOnce(k, m);
  }

  lemma AtMostOnce(k: nat, m: nat)
    requires k * m < 2 * m && 0 < k * m
    ensures k == 1
  {
  }

  // ---- The function all three compute ----

  lemma RoundNSEMonotone(p: real, q: real)
    requires p <= q
    ensures RoundNSE(p) <= RoundNSE(q)
  {
    var a, b := Trunc(p * 100.0 + 0.5), Trunc(q * 100.0 + 0.5);
    assert a <= b;
    assert GoDiv(a + 2, 5) <= GoDiv(b + 2, 5);
  }

  lemma RoundNSEFixesGrid(k: nat)
    ensures RoundNSE(Ticks(k, 0.05)) == Ticks(k, 0.05)
  {
    assert Trunc(k as real * 0.05 * 100.0 + 0.5) == 5 * k;
  }

  /** The common rounder is idempotent and moves a price by at most half a tick. */
  lemma RoundNSEIdempotentAndClose(p: real)
    requires p >= 0.0
    ensures RoundNSE(RoundNSE(p)) == RoundNSE(p) >= 0.0
    ensures p - 0.025 < RoundNSE(p) <= p + 0.025
  {
    RoundNSEIsNearest(p);
    var paise := (p * 100.0 + 0.5).Floor;
    var k := (paise + 2) / 5;
    assert RoundNSE(p) == Ticks(k, 0.05);
    RoundNSEFixesGrid(k);
  }
}

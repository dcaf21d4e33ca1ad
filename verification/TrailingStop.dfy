/** Trailing stop-losses of the OCO groups and of the multi-level groups.

    A tick carries the last traded price and whether the broker accepts the
    modify request the tick may cause; modifies are done one at a time.
 */
module TrailingStop {
  import opened Orders
  import opened TickRounding

  const TICK: real := 0.05

  datatype Tick = Tick(ltp: real, modifyAccepted: bool)

  // ---- OCO groups ----

  /** The fields of an OCO group that trailing reads and writes. */
  datatype OcoStop = OcoStop(
    side: Side, trailing: bool, active: bool, trailingPct: real,
    highest: real, trigger: real, moves: nat)

  function MinStepPct(pct: real): real {
    if pct <= 0.0 || pct > 0.5 then 0.1 else pct
  }

  function Abs(x: real): real {
    if x < 0.0 then -x else x
  }

  /** The trigger moved in proportion to the price. */
  function Proportional(trigger: real, ltp: real, highest: real): real
    requires highest > 0.0
  {
    trigger * (ltp / highest)
  }

  function ChangePct(from: real, to: real): real
    requires from > 0.0
  {
    (to - from) / from * 100.0
  }

  /** `CalculateTrailingSL`: the new trigger, or None when no update is due. */
  function CalculateTrailingSL(g: OcoStop, ltp: real): Option<real> {
    if !g.trailing || !g.active then None
    else if g.highest <= 0.0 || g.trigger <= 0.0 then None
    else if g.side.Buy? && ltp <= g.highest then None
    else if g.side.Sell? && ltp >= g.highest then None
    else
      var trigger := Proportional(g.trigger, ltp, g.highest);
      if g.side.Buy? && trigger <= g.trigger then None
      else if g.side.Sell? && trigger >= g.trigger then None
      else if Abs(ChangePct(g.trigger, trigger)) < MinStepPct(g.trailingPct) then None
      else Some(RoundNSE(trigger))
  }

  /** One tick: trigger and high-water mark move together, and only when the
      broker accepted the modify. */
  function OcoTick(g: OcoStop, t: Tick): OcoStop {
    match CalculateTrailingSL(g, t.ltp)
    case None => g
    case Some(trigger) =>
      if !t.modifyAccepted then g
      else g.(trigger := trigger, highest := if t.ltp > 0.0 then t.ltp else g.highest, moves := g.moves + 1)
  }

  function OcoRun(g: OcoStop, ticks: seq<Tick>): OcoStop {
    if ticks == [] then g else OcoTick(OcoRun(g, ticks[..|ticks| - 1]), ticks[|ticks| - 1])
  }

  ghost predicate Positive(ticks: seq<Tick>) {
    forall i :: 0 <= i < |ticks| ==> ticks[i].ltp > 0.0
  }

  ghost predicate AllOnGrid(ticks: seq<Tick>) {
    forall i :: 0 <= i < |ticks| ==> OnGrid(ticks[i].ltp, TICK)
  }

  /** The stop is on the tick grid, on its own side of the high-water mark. */
  ghost predicate GoodStop(g: OcoStop) {
    && g.highest > 0.0 && g.trigger >= 0.0 && OnGrid(g.trigger, TICK)
  }

  ghost predicate Protective(g: OcoStop) {
    if g.side.Buy? then g.trigger <= g.highest else g.trigger >= g.highest
  }

  ghost predicate NotLoosened(g: OcoStop, g': OcoStop) {
    if g.side.Buy? then g'.trigger >= g.trigger && g'.highest >= g.highest
    else g'.trigger <= g.trigger && g'.highest <= g.highest
  }

  lemma RoundingKeepsOrderWithGrid(x: real, p: real)
    requires p >= 0.0 && OnGrid(p, TICK)
    ensures x >= p ==> RoundNSE(x) >= p
    ensures x <= p ==> RoundNSE(x) <= p
  {
    var k: int :| p == Ticks(k, TICK);
    assert k >= 0;
    RoundNSEFixesGrid(k);
    if x >= p {
      RoundNSEMonotone(p, x);
    }
    if x <= p {
      RoundNSEMonotone(x, p);
    }
  }

  lemma ProportionalFacts(trigger: real, ltp: real, highest: real)
    requires trigger > 0.0 && highest > 0.0 && ltp > 0.0
    ensures Proportional(trigger, ltp, highest) > 0.0
    ensures ltp >= highest ==> Proportional(trigger, ltp, highest) >= trigger
    ensures ltp <= highest ==> Proportional(trigger, ltp, highest) <= trigger
    ensures trigger <= highest ==> Proportional(trigger, ltp, highest) <= ltp
    ensures trigger >= highest ==> Proportional(trigger, ltp, highest) >= ltp
    ensures Proportional(trigger, ltp, highest) / ltp == trigger / highest
  {
    var r := ltp / highest;
    var q := trigger / highest;
    assert r * highest == ltp && q * highest == trigger;
    QuotientVsOne(ltp, highest);
    QuotientVsOne(trigger, highest);
    Reassociate(trigger, ltp, highest, r, q);
    ProportionalVsTrigger(trigger, ltp, highest);
    MulCompare(ltp, q);
    CancelFactor(ltp, q);
  }

  lemma ProportionalVsTrigger(trigger: real, ltp: real, highest: real)
    requires trigger > 0.0 && highest > 0.0 && ltp > 0.0
    ensures Proportional(trigger, ltp, highest) > 0.0
    ensures ltp >= highest ==> Proportional(trigger, ltp, highest) >= trigger
    ensures ltp <= highest ==> Proportional(trigger, ltp, highest) <= trigger
  {
    QuotientVsOne(ltp, highest);
    MulCompare(trigger, ltp / highest);
  }

  lemma CancelFactor(a: real, b: real)
    requires a > 0.0
    ensures a * b / a == b
  {
  }

  lemma Reassociate(trigger: real, ltp: real, highest: real, r: real, q: real)
    requires r * highest == ltp && q * highest == trigger
    ensures trigger * r == ltp * q
  {
    assert trigger * r == q * highest * r;
    assert q * highest * r == q * (r * highest);
  }

  lemma MulCompare(a: real, r: real)
    requires a > 0.0 && r > 0.0
    ensures a * r > 0.0
    ensures r >= 1.0 ==> a * r >= a
    ensures r <= 1.0 ==> a * r <= a
  {
  }

  lemma QuotientVsOne(a: real, b: real)
    requires a > 0.0 && b > 0.0
    ensures a / b > 0.0
    ensures a >= b ==> a / b >= 1.0
    ensures a <= b ==> a / b <= 1.0
  {
  }

  lemma OcoTickKeepsGood(g: OcoStop, t: Tick)
    requires GoodStop(g) && t.ltp > 0.0
    ensures GoodStop(OcoTick(g, t)) && NotLoosened(g, OcoTick(g, t))
    ensures Protective(g) && OnGrid(t.ltp, TICK) ==> Protective(OcoTick(g, t))
  {
    hide RoundNSE, Proportional, ChangePct;
    if CalculateTrailingSL(g, t.ltp).Some? && t.modifyAccepted {
      var raw := Proportional(g.trigger, t.ltp, g.highest);
      ProportionalFacts(g.trigger, t.ltp, g.highest);
      RoundNSEIdempotentAndClose(raw);
      RoundNSEIsNearest(raw);
      RoundingKeepsOrderWithGrid(raw, g.trigger);
      if OnGrid(t.ltp, TICK) {
        RoundingKeepsOrderWithGrid(raw, t.ltp);
      }
    }
  }

  /** Over any tick sequence the OCO trigger stays on the tick grid and is never
      loosened; when the prices are on the grid it never crosses the high (BUY)
      or low (SELL) it trails. */
  lemma {:induction false} OcoTrailingSafety(g: OcoStop, ticks: seq<Tick>)
    requires GoodStop(g) && Positive(ticks)
    ensures GoodStop(OcoRun(g, ticks)) && NotLoosened(g, OcoRun(g, ticks)) && OcoRun(g, ticks).side == g.side
    ensures Protective(g) && AllOnGrid(ticks) ==> Protective(OcoRun(g, ticks))
  {
    if ticks != [] {
      OcoTrailingSafety(g, ticks[..|ticks| - 1]);
      OcoTickKeepsGood(OcoRun(g, ticks[..|ticks| - 1]), ticks[|ticks| - 1]);
    }
  }

  /** How far the trigger may be from exact proportional trailing: half a tick,
      relative to the lowest price trailed from, for each modify. */
  function DriftBound(k: nat, lowest: real): real
    requires lowest > 0.0
  {
    0.025 * k as real / lowest
  }

  lemma RoundingDrift(trigger: real, ltp: real, highest: real, lowest: real)
    requires trigger > 0.0 && highest > 0.0 && 0.0 < lowest <= ltp
    ensures Abs(RoundNSE(Proportional(trigger, ltp, highest)) / ltp - trigger / highest) <= 0.025 / lowest
  {
    hide RoundNSE, Proportional;
    var raw := Proportional(trigger, ltp, highest);
    ProportionalFacts(trigger, ltp, highest);
    RoundNSEIdempotentAndClose(raw);
    QuotientsClose(RoundNSE(raw), raw, ltp, lowest);
  }

  lemma QuotientsClose(a: real, b: real, c: real, lowest: real)
    requires -0.025 <= a - b <= 0.025 && 0.0 < lowest <= c
    ensures Abs(a / c - b / c) <= 0.025 / lowest
  {
    var u := 1.0 / c;
    var v := 1.0 / lowest;
    Reciprocals(c, lowest);
    assert a / c == a * u && b / c == b * u && 0.025 / lowest == 0.025 * v;
    assert a / c - b / c == (a - b) * u;
    MulMonotone(a - b, 0.025, u);
    MulMonotone(-0.025, a - b, u);
  }

  lemma Reciprocals(c: real, lowest: real)
    requires 0.0 < lowest <= c
    ensures 0.0 < 1.0 / c <= 1.0 / lowest
  {
    var u, v := 1.0 / c, 1.0 / lowest;
    assert u * c == 1.0 && v * lowest == 1.0;
    MulMonotone(lowest, c, u);
    if u > v {
      MulMonotone(v, u, lowest);
    }
  }

  lemma DriftStep(k: nat, lowest: real)
    requires lowest > 0.0
    ensures DriftBound(k + 1, lowest) == DriftBound(k, lowest) + 0.025 / lowest
  {
  }

  /** After k accepted modifies the ratio trigger/high differs from its initial
      value by at most 0.025*k over the lowest price trailed from, which for a
      BUY group is the initial high. */
  lemma {:induction false} OcoTrailingDrift(g: OcoStop, ticks: seq<Tick>, lowest: real)
    requires GoodStop(g) && Positive(ticks) && g.moves == 0
    requires 0.0 < lowest <= (if g.side.Buy? then g.highest else OcoRun(g, ticks).highest)
    ensures var h := OcoRun(g, ticks);
            h.highest > 0.0 && Abs(h.trigger / h.highest - g.trigger / g.highest) <= DriftBound(h.moves, lowest)
  {
    hide RoundNSE, Proportional, ChangePct, DriftBound;
    if ticks != [] {
      var prefix, last := ticks[..|ticks| - 1], ticks[|ticks| - 1];
      var mid := OcoRun(g, prefix);
      OcoTrailingSafety(g, prefix);
      OcoTickKeepsGood(mid, last);
      OcoTrailingDrift(g, prefix, lowest);
      if OcoTick(mid, last) != mid {
        RoundingDrift(mid.trigger, last.ltp, mid.highest, lowest);
        DriftStep(mid.moves, lowest);
      }
    } else {
      assert DriftBound(0, lowest) == 0.0 by { DriftZero(lowest); }
    }
  }

  lemma DriftZero(lowest: real)
    requires lowest > 0.0
    ensures DriftBound(0, lowest) == 0.0
  {
  }

  // ---- Multi-level groups ----

  /** The fields of a multi-level group that trailing reads and writes. */
  datatype LevelStop = LevelStop(
    side: Side, trailingPct: real, hasBrokerOrder: bool,
    highest: real, trigger: real, moves: nat)

  function LevelStepPct(pct: real): real {
    if pct <= 0.0 then 0.1 else pct
  }

  function BelowByPct(x: real, pct: real): real {
    x * (1.0 - pct / 100.0)
  }

  function AboveByPct(x: real, pct: real): real {
    x * (1.0 + pct / 100.0)
  }

  /** `CalcTrailingSL`; called before the high-water mark is advanced. */
  function CalcTrailingSL(g: LevelStop, ltp: real): Option<real> {
    if !g.hasBrokerOrder then None
    else if g.side.Buy? then
      if ltp <= g.highest then None
      else
        var t := RoundNSE(BelowByPct(ltp, g.trailingPct));
        if g.trigger > 0.0 && t <= g.trigger then None
        else if g.trigger > 0.0 && ChangePct(g.trigger, t) < LevelStepPct(g.trailingPct) then None
        else Some(t)
    else if g.highest <= 0.0 || ltp >= g.highest then None
    else
      var t := RoundNSE(AboveByPct(ltp, g.trailingPct));
      if g.trigger > 0.0 && t >= g.trigger then None
      else if g.trigger > 0.0 && -ChangePct(g.trigger, t) < LevelStepPct(g.trailingPct) then None
      else Some(t)
  }

  /** `evaluateTrailingSL`: the high-water mark moves as soon as an update is
      due, the trigger only once the broker accepted the modify. */
  function LevelTick(g: LevelStop, t: Tick): LevelStop {
    match CalcTrailingSL(g, t.ltp)
    case None => g
    case Some(trigger) =>
      var g' := g.(highest := t.ltp);
      if t.modifyAccepted then g'.(trigger := trigger, moves := g.moves + 1) else g'
  }

  function LevelRun(g: LevelStop, ticks: seq<Tick>): LevelStop {
    if ticks == [] then g else LevelTick(LevelRun(g, ticks[..|ticks| - 1]), ticks[|ticks| - 1])
  }

  function Pow(b: real, k: nat): real {
    if k == 0 then 1.0 else b * Pow(b, k - 1)
  }

  lemma PctStep(from: real, to: real, pct: real)
    requires from > 0.0
    ensures ChangePct(from, to) >= pct ==> to >= AboveByPct(from, pct)
    ensures -ChangePct(from, to) >= pct ==> to <= BelowByPct(from, pct)
  {
    var x := (to - from) / from;
    assert x * from == to - from;
    assert AboveByPct(from, pct) == from + pct / 100.0 * from;
    assert BelowByPct(from, pct) == from - pct / 100.0 * from;
    if x * 100.0 >= pct {
      MulMonotone(pct / 100.0, x, from);
    }
    if -x * 100.0 >= pct {
      MulMonotone(pct / 100.0, -x, from);
    }
  }

  lemma BuyStepGrows(g: LevelStop, t: Tick)
    requires g.side.Buy? && g.trigger > 0.0
    ensures LevelTick(g, t).moves != g.moves ==>
              LevelTick(g, t).trigger >= AboveByPct(g.trigger, LevelStepPct(g.trailingPct))
  {
    hide RoundNSE, BelowByPct, AboveByPct, ChangePct;
    if LevelTick(g, t).moves != g.moves {
      PctStep(g.trigger, LevelTick(g, t).trigger, LevelStepPct(g.trailingPct));
    }
  }

  lemma SellStepShrinks(g: LevelStop, t: Tick)
    requires g.side.Sell? && g.trigger > 0.0
    ensures LevelTick(g, t).moves != g.moves ==>
              LevelTick(g, t).trigger <= BelowByPct(g.trigger, LevelStepPct(g.trailingPct))
  {
    hide RoundNSE, BelowByPct, AboveByPct, ChangePct;
    if LevelTick(g, t).moves != g.moves {
      PctStep(g.trigger, LevelTick(g, t).trigger, LevelStepPct(g.trailingPct));
    }
  }

  /** Initial trigger compounded by `pct` percent k times; pct may be negative. */
  function Compounded(initial: real, pct: real, k: nat): real {
    initial * Pow(1.0 + pct / 100.0, k)
  }

  lemma CompoundZero(initial: real, pct: real)
    ensures Compounded(initial, pct, 0) == initial
  {
  }

  lemma CompoundStep(initial: real, pct: real, k: nat, mid: real)
    requires pct >= -100.0
    ensures mid >= Compounded(initial, pct, k) ==> AboveByPct(mid, pct) >= Compounded(initial, pct, k + 1)
    ensures mid <= Compounded(initial, pct, k) ==> AboveByPct(mid, pct) <= Compounded(initial, pct, k + 1)
  {
    var b := 1.0 + pct / 100.0;
    var c := Compounded(initial, pct, k);
    assert c * b == initial * (b * Pow(b, k)) by {
      assert initial * Pow(b, k) * b == initial * (Pow(b, k) * b);
    }
    if mid >= c {
      MulMonotone(c, mid, b);
    }
    if mid <= c {
      MulMonotone(mid, c, b);
    }
  }

  lemma {:induction false} CompoundNonNegative(initial: real, pct: real, k: nat)
    requires initial >= 0.0 && pct >= -100.0
    ensures Compounded(initial, pct, k) >= 0.0
  {
    if k == 0 {
      CompoundZero(initial, pct);
    } else {
      CompoundNonNegative(initial, pct, k - 1);
      CompoundStep(initial, pct, k - 1, 0.0);
      CompoundStep(initial, pct, k - 1, Compounded(initial, pct, k - 1));
      MulMonotone(0.0, Compounded(initial, pct, k - 1), 1.0 + pct / 100.0);
    }
  }

  lemma AboveGrows(x: real, pct: real)
    requires x > 0.0 && pct >= 0.0
    ensures AboveByPct(x, pct) >= x
  {
    MulMonotone(0.0, pct / 100.0, x);
    assert AboveByPct(x, pct) == x + pct / 100.0 * x;
  }

  /** A BUY trigger grows geometrically with the number of accepted modifies:
      the minimum step is met after rounding to ticks. */
  lemma {:induction false} LevelTrailingGrowth(g: LevelStop, ticks: seq<Tick>)
    requires g.side.Buy? && g.trigger > 0.0 && g.moves == 0
    ensures var h := LevelRun(g, ticks);
            && h.side == g.side && h.trailingPct == g.trailingPct && h.trigger >= g.trigger
            && h.trigger >= Compounded(g.trigger, LevelStepPct(g.trailingPct), h.moves)
  {
    hide RoundNSE, BelowByPct, AboveByPct, ChangePct, Compounded;
    if ticks == [] {
      CompoundZero(g.trigger, LevelStepPct(g.trailingPct));
    } else {
      var prefix, last := ticks[..|ticks| - 1], ticks[|ticks| - 1];
      var mid := LevelRun(g, prefix);
      LevelTrailingGrowth(g, prefix);
      BuyStepGrows(mid, last);
      CompoundStep(g.trigger, LevelStepPct(g.trailingPct), mid.moves, mid.trigger);
      AboveGrows(mid.trigger, LevelStepPct(g.trailingPct));
    }
  }

  lemma BelowIsAboveNegated(x: real, pct: real)
    ensures BelowByPct(x, pct) == AboveByPct(x, -pct)
  {
  }

  lemma AboveMonotone(x: real, y: real, pct: real)
    requires 0.0 < x <= y && pct >= 0.0
    ensures 0.0 < AboveByPct(x, pct) <= AboveByPct(y, pct)
  {
    MulMonotone(x, y, 1.0 + pct / 100.0);
    MulMonotone(1.0, 1.0 + pct / 100.0, x);
  }

  /** Once a SELL trigger has been rounded down to zero it stays there. */
  ghost predicate AtZeroForGood(g: LevelStop) {
    g.trigger <= 0.0 ==> RoundNSE(AboveByPct(g.highest, g.trailingPct)) <= 0.0
  }

  lemma SellTickInvariant(g: LevelStop, t: Tick)
    requires g.side.Sell? && g.trigger >= 0.0 && AtZeroForGood(g)
    requires 0.0 <= g.trailingPct && t.ltp > 0.0
    ensures LevelTick(g, t).trigger >= 0.0 && AtZeroForGood(LevelTick(g, t))
    ensures g.trigger <= 0.0 ==> LevelTick(g, t).trigger <= 0.0
  {
    hide RoundNSE, BelowByPct, AboveByPct, ChangePct;
    if CalcTrailingSL(g, t.ltp).Some? {
      AboveMonotone(t.ltp, g.highest, g.trailingPct);
      RoundNSEMonotone(AboveByPct(t.ltp, g.trailingPct), AboveByPct(g.highest, g.trailingPct));
      RoundNSEIdempotentAndClose(AboveByPct(t.ltp, g.trailingPct));
    }
  }

  /** A SELL trigger shrinks geometrically. */
  lemma {:induction false} LevelTrailingShrink(g: LevelStop, ticks: seq<Tick>)
    requires g.side.Sell? && g.trigger > 0.0 && g.moves == 0 && Positive(ticks)
    requires 0.0 <= g.trailingPct <= 100.0
    ensures var h := LevelRun(g, ticks);
            && h.side == g.side && h.trailingPct == g.trailingPct && h.trigger >= 0.0 && AtZeroForGood(h)
            && h.trigger <= Compounded(g.trigger, -LevelStepPct(g.trailingPct), h.moves)
  {
    hide RoundNSE, BelowByPct, AboveByPct, ChangePct, Compounded;
    var pct := -LevelStepPct(g.trailingPct);
    if ticks == [] {
      CompoundZero(g.trigger, pct);
    } else {
      var prefix, last := ticks[..|ticks| - 1], ticks[|ticks| - 1];
      var mid := LevelRun(g, prefix);
      LevelTrailingShrink(g, prefix);
      SellTickInvariant(mid, last);
      if mid.trigger > 0.0 {
        SellStepShrinks(mid, last);
        BelowIsAboveNegated(mid.trigger, -pct);
        CompoundStep(g.trigger, pct, mid.moves, mid.trigger);
      } else {
        CompoundNonNegative(g.trigger, pct, LevelTick(mid, last).moves);
      }
    }
  }

  /** The number of broker modifies a BUY trigger's climb can cost. */
  lemma {:induction false} LevelModifiesBounded(g: LevelStop, ticks: seq<Tick>)
    requires g.side.Buy? && g.trigger > 0.0 && g.moves == 0
    ensures var h := LevelRun(g, ticks);
            h.trigger - g.trigger >= h.moves as real * (LevelStepPct(g.trailingPct) / 100.0 * g.trigger)
  {
    hide RoundNSE, BelowByPct, AboveByPct, ChangePct, Compounded;
    if ticks != [] {
      var prefix, last := ticks[..|ticks| - 1], ticks[|ticks| - 1];
      var mid := LevelRun(g, prefix);
      LevelModifiesBounded(g, prefix);
      LevelTrailingGrowth(g, prefix);
      BuyStepGrows(mid, last);
      ClimbStep(g.trigger, mid.trigger, LevelStepPct(g.trailingPct), mid.moves);
    }
  }

  lemma ClimbStep(initial: real, mid: real, pct: real, k: nat)
    requires pct >= 0.0 && 0.0 < initial <= mid
    requires mid - initial >= k as real * (pct / 100.0 * initial)
    ensures AboveByPct(mid, pct) - initial >= (k + 1) as real * (pct / 100.0 * initial)
  {
    var step := pct / 100.0 * initial;
    assert AboveByPct(mid, pct) == mid + pct / 100.0 * mid;
    MulMonotone(initial, mid, pct / 100.0);
    assert (k + 1) as real * step == k as real * step + step;
  }

  // ---- When an update is due, and where it puts the trigger ----

  lemma FractionOf(x: real, pct: real)
    ensures BelowByPct(x, pct) == x - x * pct / 100.0 && AboveByPct(x, pct) == x + x * pct / 100.0
  {
  }

  lemma NonNegativeTimes(x: real, y: real)
    requires x >= 0.0 && y >= 0.0
    ensures x * y >= 0.0
  {
  }

  /** A due update puts the trigger of a multi-level group at its configured percentage
      from the price that caused it, to within half a tick: below it for BUY, above it
      for SELL. */
  lemma LevelTriggerDistance(g: LevelStop, ltp: real)
    requires CalcTrailingSL(g, ltp).Some? && ltp >= 0.0 && 0.0 <= g.trailingPct <= 100.0
    ensures var t := CalcTrailingSL(g, ltp).value;
            var d, part := if g.side.Buy? then ltp - t else t - ltp, ltp * g.trailingPct / 100.0;
            part - 0.025 <= d <= part + 0.025
  {
    hide RoundNSE, ChangePct;
    var pct := g.trailingPct;
    FractionOf(ltp, pct);
    NonNegativeTimes(ltp, if g.side.Buy? then 1.0 - pct / 100.0 else 1.0 + pct / 100.0);
    RoundNSEIdempotentAndClose(if g.side.Buy? then BelowByPct(ltp, pct) else AboveByPct(ltp, pct));
    hide BelowByPct, AboveByPct;
  }

  lemma MovedByPct(from: real, to: real, pct: real)
    requires from > 0.0
    ensures ChangePct(from, to) >= pct <==> to >= AboveByPct(from, pct)
    ensures -ChangePct(from, to) >= pct <==> to <= BelowByPct(from, pct)
  {
    var r := (to - from) / from;
    Ratio(to - from, from);
    TimesOrder(r, pct / 100.0, from);
    TimesOrder(r, -(pct / 100.0), from);
    assert AboveByPct(from, pct) == from + pct / 100.0 * from;
    assert BelowByPct(from, pct) == from + -(pct / 100.0) * from;
  }

  lemma Ratio(x: real, y: real)
    requires y > 0.0
    ensures x / y * y == x
  {
  }

  lemma TimesOrder(a: real, b: real, c: real)
    requires c > 0.0
    ensures a >= b <==> a * c >= b * c
    ensures a <= b <==> a * c <= b * c
  {
    if a < b {
      assert (b - a) * c > 0.0;
    } else if a > b {
      assert (a - b) * c > 0.0;
    }
  }

  lemma StepIsMove(trigger: real, pct: real)
    requires trigger > 0.0 && pct > 0.0
    ensures BelowByPct(trigger, pct) < trigger < AboveByPct(trigger, pct)
  {
    FractionOf(trigger, pct);
    NonNegativeTimes(trigger, pct);
    assert trigger * pct > 0.0;
  }

  /** Where the new trigger of a multi-level group would be. */
  function LevelTarget(g: LevelStop, ltp: real): real {
    RoundNSE(if g.side.Buy? then BelowByPct(ltp, g.trailingPct) else AboveByPct(ltp, g.trailingPct))
  }

  /** Exactly when an update is due: there is a broker order, the price is a new
      extreme, and the trigger, if one is set, would move its way by the minimum
      step. */
  lemma LevelUpdateIff(g: LevelStop, ltp: real)
    ensures CalcTrailingSL(g, ltp).Some? <==>
              && g.hasBrokerOrder
              && (if g.side.Buy? then ltp > g.highest else g.highest > 0.0 && ltp < g.highest)
              && (g.trigger <= 0.0 ||
                  if g.side.Buy? then LevelTarget(g, ltp) >= AboveByPct(g.trigger, LevelStepPct(g.trailingPct))
                  else LevelTarget(g, ltp) <= BelowByPct(g.trigger, LevelStepPct(g.trailingPct)))
    ensures CalcTrailingSL(g, ltp).Some? ==> CalcTrailingSL(g, ltp).value == LevelTarget(g, ltp)
  {
    hide RoundNSE;
    if g.trigger > 0.0 {
      MovedByPct(g.trigger, LevelTarget(g, ltp), LevelStepPct(g.trailingPct));
      StepIsMove(g.trigger, LevelStepPct(g.trailingPct));
    }
    hide ChangePct, BelowByPct, AboveByPct;
  }

  lemma ProportionalMove(trigger: real, ltp: real, highest: real, pct: real)
    requires trigger > 0.0 && highest > 0.0
    ensures Proportional(trigger, ltp, highest) >= AboveByPct(trigger, pct) <==> ltp >= AboveByPct(highest, pct)
    ensures Proportional(trigger, ltp, highest) <= BelowByPct(trigger, pct) <==> ltp <= BelowByPct(highest, pct)
  {
    var r := ltp / highest;
    Ratio(ltp, highest);
    TimesOrder(r, 1.0 + pct / 100.0, trigger);
    TimesOrder(r, 1.0 + pct / 100.0, highest);
    TimesOrder(r, 1.0 - pct / 100.0, trigger);
    TimesOrder(r, 1.0 - pct / 100.0, highest);
    assert Proportional(trigger, ltp, highest) == r * trigger;
    assert AboveByPct(trigger, pct) == (1.0 + pct / 100.0) * trigger && AboveByPct(highest, pct) == (1.0 + pct / 100.0) * highest;
    assert BelowByPct(trigger, pct) == (1.0 - pct / 100.0) * trigger && BelowByPct(highest, pct) == (1.0 - pct / 100.0) * highest;
  }

  /** Exactly when an OCO update is due: trailing is on, the group is active, high and
      trigger are set, and the price lies beyond the high by the minimum step; the
      trigger moves in proportion, to within half a tick. */
  lemma OcoUpdateIff(g: OcoStop, ltp: real)
    ensures CalculateTrailingSL(g, ltp).Some? <==>
              && g.trailing && g.active && g.highest > 0.0 && g.trigger > 0.0
              && if g.side.Buy? then ltp >= AboveByPct(g.highest, MinStepPct(g.trailingPct))
                 else ltp <= BelowByPct(g.highest, MinStepPct(g.trailingPct))
    ensures CalculateTrailingSL(g, ltp).Some? && ltp >= 0.0 ==>
              Proportional(g.trigger, ltp, g.highest) - 0.025 <= CalculateTrailingSL(g, ltp).value
                                                              <= Proportional(g.trigger, ltp, g.highest) + 0.025
  {
    hide RoundNSE;
    var pct := MinStepPct(g.trailingPct);
    if g.highest > 0.0 && g.trigger > 0.0 {
      var raw := Proportional(g.trigger, ltp, g.highest);
      MovedByPct(g.trigger, raw, pct);
      ProportionalMove(g.trigger, ltp, g.highest, pct);
      StepIsMove(g.trigger, pct);
      StepIsMove(g.highest, pct);
      if ltp >= 0.0 {
        NonNegativeProportion(g.trigger, ltp, g.highest);
        RoundNSEIdempotentAndClose(raw);
      }
      hide ChangePct, BelowByPct, AboveByPct, Proportional;
    }
  }

  lemma NonNegativeProportion(trigger: real, ltp: real, highest: real)
    requires trigger > 0.0 && highest > 0.0 && ltp >= 0.0
    ensures Proportional(trigger, ltp, highest) >= 0.0
  {
    assert ltp / highest >= 0.0;
  }
}

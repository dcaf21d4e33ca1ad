/** Splitting a quantity over exit levels in proportion to their percentages.

    `ComputeRebalancedQtys` is written as "round at one half, then repair the
    drift".  The module proves that what it computes is exactly the
    largest-remainder (Hamilton) split, and that no integer split of the same
    quantity deviates less from the exact shares.
 */
module Apportionment {

  function Sum(s: seq<int>): int {
    if s == [] then 0 else Sum(s[..|s| - 1]) + s[|s| - 1]
  }

  function SumReal(s: seq<real>): real {
    if s == [] then 0.0 else SumReal(s[..|s| - 1]) + s[|s| - 1]
  }

  function Frac(x: real): real {
    x - x.Floor as real
  }

  function Share(pct: real, totalPct: real, qty: int): real
    requires totalPct != 0.0
  {
    qty as real * pct / totalPct
  }

  /** The exact share of each percentage. */
  function Shares(pcts: seq<real>, totalPct: real, qty: int): (raw: seq<real>)
    requires totalPct != 0.0
  {
    seq(|pcts|, i requires 0 <= i < |pcts| => Share(pcts[i], totalPct, qty))
  }

  lemma {:induction false} SharesSum(pcts: seq<real>, totalPct: real, qty: int)
    requires totalPct != 0.0
    ensures SumReal(Shares(pcts, totalPct, qty)) == qty as real * SumReal(pcts) / totalPct
  {
    if pcts != [] {
      var n := |pcts| - 1;
      SharesSum(pcts[..n], totalPct, qty);
      assert Shares(pcts, totalPct, qty)[..n] == Shares(pcts[..n], totalPct, qty);
      Distribute(qty as real, SumReal(pcts[..n]), pcts[n], totalPct);
    }
  }

  lemma Distribute(q: real, a: real, b: real, t: real)
    requires t != 0.0
    ensures q * (a + b) / t == q * a / t + q * b / t
  {
  }

  /** With the total they were computed from, the shares add up to the quantity. */
  lemma SharesExact(pcts: seq<real>, qty: int)
    requires SumReal(pcts) != 0.0
    ensures SumReal(Shares(pcts, SumReal(pcts), qty)) == qty as real
  {
    SharesSum(pcts, SumReal(pcts), qty);
  }

  // ---- The largest-remainder split ----

  predicate RoundedDown(raw: seq<real>, out: seq<int>, i: nat)
    requires i < |raw| == |out|
  {
    out[i] == raw[i].Floor
  }

  predicate RoundedUp(raw: seq<real>, out: seq<int>, i: nat)
    requires i < |raw| == |out|
  {
    out[i] == raw[i].Floor + 1
  }

  /** Floors and floors plus one, adding up to `total`, where the levels that got
      the extra unit have the largest fractional parts. */
  ghost predicate IsLargestRemainder(raw: seq<real>, total: int, out: seq<int>) {
    && |out| == |raw|
    && Sum(out) == total
    && (forall i :: 0 <= i < |raw| ==> RoundedDown(raw, out, i) || RoundedUp(raw, out, i))
    && (forall i, j :: 0 <= i < |raw| && 0 <= j < |raw| && RoundedUp(raw, out, i) && RoundedDown(raw, out, j)
          ==> Frac(raw[j]) <= Frac(raw[i]))
  }

  // ---- Sums ----

  lemma {:induction false} SumUpdate(s: seq<int>, k: nat, x: int)
    requires k < |s|
    ensures Sum(s[k := x]) == Sum(s) - s[k] + x
  {
    var n := |s| - 1;
    if k == n {
      assert s[k := x][..n] == s[..n];
    } else {
      SumUpdate(s[..n], k, x);
      assert s[k := x][..n] == s[..n][k := x];
    }
  }

  lemma {:induction false} SumAtLeastReal(out: seq<int>, raw: seq<real>)
    requires |out| == |raw|
    requires forall i :: 0 <= i < |raw| ==> raw[i] <= out[i] as real
    ensures SumReal(raw) <= Sum(out) as real
    ensures (exists i :: 0 <= i < |raw| && raw[i] < out[i] as real) ==> SumReal(raw) < Sum(out) as real
  {
    if raw != [] {
      var n := |raw| - 1;
      SumAtLeastReal(out[..n], raw[..n]);
      if i :| 0 <= i < |raw| && raw[i] < out[i] as real {
        if i < n {
          assert raw[..n][i] < out[..n][i] as real;
        }
      }
    }
  }

  lemma {:induction false} SumAtMostReal(out: seq<int>, raw: seq<real>)
    requires |out| == |raw|
    requires forall i :: 0 <= i < |raw| ==> out[i] as real <= raw[i]
    ensures Sum(out) as real <= SumReal(raw)
  {
    if raw != [] {
      SumAtMostReal(out[..|raw| - 1], raw[..|raw| - 1]);
    }
  }

  // ---- What the split guarantees ----

  /** Every entry is strictly within one unit of its share, and non-negative for
      non-negative shares. */
  lemma WithinOneUnit(raw: seq<real>, total: int, out: seq<int>, i: nat)
    requires IsLargestRemainder(raw, total, out) && SumReal(raw) == total as real && i < |raw|
    ensures raw[i] - 1.0 < out[i] as real < raw[i] + 1.0
    ensures raw[i] >= 0.0 ==> out[i] >= 0
  {
    if RoundedUp(raw, out, i) && Frac(raw[i]) == 0.0 {
      forall j | 0 <= j < |raw| ensures raw[j] <= out[j] as real {
        if RoundedDown(raw, out, j) {
          assert Frac(raw[j]) <= Frac(raw[i]);
        }
      }
      assert raw[i] < out[i] as real;
      SumAtLeastReal(out, raw);
      assert false;
    }
  }

  function Deviation(raw: seq<real>, out: seq<int>): real
    requires |raw| == |out|
  {
    if raw == [] then 0.0
    else
      var n := |raw| - 1;
      Deviation(raw[..n], out[..n]) + Distance(out[n], raw[n])
  }

  function Distance(x: int, r: real): real {
    if x as real >= r then x as real - r else r - x as real
  }

  /** A fractional part separating the levels rounded up from the others. */
  ghost predicate Separates(raw: seq<real>, out: seq<int>, theta: real)
    requires |raw| == |out|
  {
    && 0.0 <= theta <= 1.0
    && forall i :: 0 <= i < |raw| ==>
         && (RoundedUp(raw, out, i) ==> theta <= Frac(raw[i]))
         && (RoundedDown(raw, out, i) ==> Frac(raw[i]) <= theta)
  }

  /** The smallest fractional part among the first `n` levels rounded up, or 1. */
  ghost function Threshold(raw: seq<real>, out: seq<int>, n: nat): (theta: real)
    requires n <= |raw| == |out|
    ensures 0.0 <= theta <= 1.0
    ensures forall i :: 0 <= i < n && RoundedUp(raw, out, i) ==> theta <= Frac(raw[i])
    ensures theta == 1.0 || exists i :: 0 <= i < n && RoundedUp(raw, out, i) && theta == Frac(raw[i])
  {
    if n == 0 then 1.0
    else
      var theta := Threshold(raw, out, n - 1);
      if RoundedUp(raw, out, n - 1) && Frac(raw[n - 1]) < theta then Frac(raw[n - 1]) else theta
  }

  /** The price of moving `k` units, at the slope of the separating fraction. */
  function Gain(theta: real, k: int): real {
    (1.0 - 2.0 * theta) * k as real
  }

  /** Moving any level away from its entry costs at least its slope. */
  lemma EntryIsBest(r: real, x: int, y: int, theta: real)
    requires 0.0 <= theta <= 1.0
    requires (x == r.Floor && Frac(r) <= theta) || (x == r.Floor + 1 && theta <= Frac(r))
    ensures Distance(y, r) - Distance(x, r) >= Gain(theta, y - x)
  {
    hide Gain;
    GainBounds(theta, if y >= x then y - x else x - y);
  }

  /** Beyond the first unit, no unit costs more or less than one. */
  lemma GainBounds(theta: real, k: nat)
    requires 0.0 <= theta <= 1.0
    ensures k == 0 ==> Gain(theta, 0) == 0.0
    ensures k >= 1 ==> Gain(theta, k) <= 1.0 - 2.0 * theta + (k - 1) as real
    ensures k >= 1 ==> Gain(theta, 0 - k) <= 2.0 * theta - 1.0 + (k - 1) as real
  {
    if k >= 1 {
      SlopeBounds(1.0 - 2.0 * theta, k);
      SlopeBounds(2.0 * theta - 1.0, k);
      assert Gain(theta, 0 - k) == (2.0 * theta - 1.0) * k as real;
    }
  }

  lemma SlopeBounds(slope: real, k: nat)
    requires -1.0 <= slope <= 1.0 && k >= 1
    ensures slope * k as real <= slope + (k - 1) as real
  {
    assert (1.0 - slope) * (k - 1) as real >= 0.0;
    assert (1.0 - slope) * (k - 1) as real == (k - 1) as real - slope * k as real + slope;
  }

  lemma {:induction false} DeviationGap(raw: seq<real>, out: seq<int>, other: seq<int>, theta: real)
    requires |raw| == |out| == |other|
    requires forall i :: 0 <= i < |raw| ==> RoundedDown(raw, out, i) || RoundedUp(raw, out, i)
    requires Separates(raw, out, theta)
    ensures Deviation(raw, other) - Deviation(raw, out) >= Gain(theta, Sum(other) - Sum(out))
  {
    hide Gain, Distance, Frac;
    if raw == [] {
      GapStep(theta, 0, 0);
    } else {
      var n := |raw| - 1;
      forall i | 0 <= i < n
        ensures RoundedDown(raw[..n], out[..n], i) == RoundedDown(raw, out, i)
        ensures RoundedUp(raw[..n], out[..n], i) == RoundedUp(raw, out, i)
      {
      }
      DeviationGap(raw[..n], out[..n], other[..n], theta);
      EntryIsBest(raw[n], out[n], other[n], theta);
      GapStep(theta, Sum(other[..n]) - Sum(out[..n]), other[n] - out[n]);
    }
  }

  lemma GapStep(theta: real, a: int, b: int)
    ensures Gain(theta, a + b) == Gain(theta, a) + Gain(theta, b)
    ensures Gain(theta, 0) == 0.0
  {
    SplitProduct(1.0 - 2.0 * theta, a, b);
  }

  lemma SplitProduct(slope: real, a: int, b: int)
    ensures slope * (a + b) as real == slope * a as real + slope * b as real
  {
  }

  /** No integer split of the same total deviates less from the exact shares. */
  lemma LargestRemainderIsOptimal(raw: seq<real>, total: int, out: seq<int>, other: seq<int>)
    requires IsLargestRemainder(raw, total, out)
    requires |other| == |raw| && Sum(other) == total
    ensures Deviation(raw, out) <= Deviation(raw, other)
  {
    var theta := Threshold(raw, out, |raw|);
    assert Separates(raw, out, theta);
    DeviationGap(raw, out, other, theta);
    GapStep(theta, 0, 0);
  }

  // ---- computeRebalancedQtys ----

  /** A level whose entry may be adjusted. */
  datatype Cand = Cand(idx: nat, frac: real)

  ghost predicate DistinctIdx(cands: seq<Cand>) {
    forall a, b :: 0 <= a < b < |cands| ==> cands[a].idx != cands[b].idx
  }

  predicate Before(a: Cand, b: Cand, descending: bool) {
    if descending then a.frac >= b.frac else a.frac <= b.frac
  }

  ghost predicate Ordered(cands: seq<Cand>, descending: bool) {
    forall a, b :: 0 <= a < b < |cands| ==> Before(cands[a], cands[b], descending)
  }

  /** The library sort: only order and contents are promised, not how ties are
      broken. */
  method SortCands(cands: seq<Cand>, descending: bool) returns (out: seq<Cand>)
    requires DistinctIdx(cands)
    ensures |out| == |cands| && DistinctIdx(out) && Ordered(out, descending)
    ensures forall c :: c in out <==> c in cands
  {
    out := [];
    for n := 0 to |cands|
      invariant |out| == n && DistinctIdx(out) && Ordered(out, descending)
      invariant forall c :: c in out <==> c in cands[..n]
    {
      var c := cands[n];
      var p := 0;
      while p < n && Before(out[p], c, descending)
        invariant p <= n
        invariant forall a :: 0 <= a < p ==> Before(out[a], c, descending)
      {
        p := p + 1;
      }
      forall a | 0 <= a < n ensures out[a].idx != c.idx {
        assert out[a] in cands[..n];
      }
      out := out[..p] + [c] + out[p..];
      assert cands[..n + 1] == cands[..n] + [c];
    }
    assert cands[..|cands|] == cands;
  }

  /** The levels whose rounding went one way, with their fractional parts. */
  method Candidates(fracs: seq<real>, roundedUp: array<bool>, up: bool) returns (cands: seq<Cand>)
    requires |fracs| == roundedUp.Length
    ensures DistinctIdx(cands)
    ensures forall c :: c in cands <==> c.idx < |fracs| && roundedUp[c.idx] == up && c.frac == fracs[c.idx]
  {
    cands := [];
    for i := 0 to |fracs|
      invariant DistinctIdx(cands)
      invariant forall c :: c in cands <==> c.idx < i && roundedUp[c.idx] == up && c.frac == fracs[c.idx]
    {
      if roundedUp[i] == up {
        cands := cands + [Cand(i, fracs[i])];
      }
    }
  }

  /** The drift still to be repaired after `done` adjustments of `cands`. */
  ghost predicate Repaired(raw: seq<real>, out: seq<int>, roundedUp: seq<bool>, cands: seq<Cand>, done: nat)
  {
    && |out| == |raw| == |roundedUp| && done <= |cands|
    && (forall a :: 0 <= a < |cands| ==> cands[a].idx < |raw|)
    && (forall i :: 0 <= i < |raw| && (forall a :: 0 <= a < done ==> cands[a].idx != i) ==>
          out[i] == raw[i].Floor + (if roundedUp[i] then 1 else 0))
    && (forall a :: 0 <= a < done ==>
          out[cands[a].idx] == raw[cands[a].idx].Floor + (if roundedUp[cands[a].idx] then 0 else 1))
  }

  /** Exact shares, rounded at one half. */
  ghost predicate HalfRounded(raw: seq<real>, fracs: seq<real>, roundedUp: seq<bool>) {
    && |fracs| == |raw| == |roundedUp|
    && forall i :: 0 <= i < |raw| ==> fracs[i] == Frac(raw[i]) && (roundedUp[i] <==> fracs[i] >= 0.5)
  }

  ghost predicate CandsOf(fracs: seq<real>, roundedUp: seq<bool>, up: bool, cands: seq<Cand>)
    requires |fracs| == |roundedUp|
  {
    && DistinctIdx(cands) && Ordered(cands, !up)
    && forall c :: c in cands <==> c.idx < |fracs| && roundedUp[c.idx] == up && c.frac == fracs[c.idx]
  }

  /** When `done` adjustments brought the sum to the total, the result is the
      largest-remainder split, whichever way the drift went. */
  lemma RepairedIsLargestRemainder(raw: seq<real>, total: int, out: seq<int>, fracs: seq<real>,
                                   roundedUp: seq<bool>, up: bool, cands: seq<Cand>, done: nat)
    requires HalfRounded(raw, fracs, roundedUp) && CandsOf(fracs, roundedUp, up, cands)
    requires Repaired(raw, out, roundedUp, cands, done) && Sum(out) == total
    ensures IsLargestRemainder(raw, total, out)
  {
    forall i | 0 <= i < |raw|
      ensures out[i] == raw[i].Floor + (if roundedUp[i] then 1 else 0)
           || exists a :: 0 <= a < done && cands[a].idx == i && out[i] == raw[i].Floor + (if up then 0 else 1)
    {
      if exists a :: 0 <= a < done && cands[a].idx == i {
        var a :| 0 <= a < done && cands[a].idx == i;
        assert cands[a] in cands;
      }
    }
    forall i, j | 0 <= i < |raw| && 0 <= j < |raw| && RoundedUp(raw, out, i) && RoundedDown(raw, out, j)
      ensures Frac(raw[j]) <= Frac(raw[i])
    {
      RepairOrder(raw, out, fracs, roundedUp, up, cands, done, i, j);
    }
  }

  lemma RepairOrder(raw: seq<real>, out: seq<int>, fracs: seq<real>,
                    roundedUp: seq<bool>, up: bool, cands: seq<Cand>, done: nat, i: nat, j: nat)
    requires HalfRounded(raw, fracs, roundedUp) && CandsOf(fracs, roundedUp, up, cands)
    requires Repaired(raw, out, roundedUp, cands, done)
    requires i < |raw| && j < |raw| && RoundedUp(raw, out, i) && RoundedDown(raw, out, j)
    ensures Frac(raw[j]) <= Frac(raw[i])
  {
    assert Cand(i, fracs[i]) in cands <==> roundedUp[i] == up;
    assert Cand(j, fracs[j]) in cands <==> roundedUp[j] == up;
    if roundedUp[i] == up && roundedUp[j] == up {
      var a :| 0 <= a < |cands| && cands[a] == Cand(i, fracs[i]);
      var b :| 0 <= b < |cands| && cands[b] == Cand(j, fracs[j]);
      assert up ==> b < done && done <= a;
      assert !up ==> a < done && done <= b;
    } else if roundedUp[i] != up {
      forall a | 0 <= a < done ensures cands[a].idx != i {
        assert cands[a] in cands;
      }
      assert roundedUp[i];
    } else {
      forall a | 0 <= a < done ensures cands[a].idx != j {
        assert cands[a] in cands;
      }
      assert !roundedUp[j];
    }
  }

  /** There are always enough candidates: were they used up before the drift was
      repaired, every entry would lie on the same side of its share. */
  lemma EnoughCandidates(raw: seq<real>, total: int, out: seq<int>, fracs: seq<real>,
                         roundedUp: seq<bool>, up: bool, cands: seq<Cand>)
    requires HalfRounded(raw, fracs, roundedUp) && CandsOf(fracs, roundedUp, up, cands)
    requires Repaired(raw, out, roundedUp, cands, |cands|)
    requires SumReal(raw) == total as real && raw != []
    ensures up ==> Sum(out) <= total
    ensures !up ==> Sum(out) >= total
  {
    forall i | 0 <= i < |raw|
      ensures out[i] == raw[i].Floor + (if up then 0 else 1)
    {
      if roundedUp[i] == up {
        assert Cand(i, fracs[i]) in cands;
        var a :| 0 <= a < |cands| && cands[a] == Cand(i, fracs[i]);
      } else {
        forall a | 0 <= a < |cands| ensures cands[a].idx != i {
          assert cands[a] in cands;
        }
      }
    }
    if up {
      SumAtMostReal(out, raw);
    } else {
      SumAtLeastReal(out, raw);
    }
  }

  lemma RepairedStep(raw: seq<real>, out: seq<int>, fracs: seq<real>, roundedUp: seq<bool>, up: bool,
                     cands: seq<Cand>, done: nat)
    requires HalfRounded(raw, fracs, roundedUp) && CandsOf(fracs, roundedUp, up, cands)
    requires Repaired(raw, out, roundedUp, cands, done) && done < |cands|
    ensures cands[done].idx < |out|
    ensures var k := cands[done].idx;
            Repaired(raw, out[k := out[k] + (if up then -1 else 1)], roundedUp, cands, done + 1)
  {
    assert cands[done] in cands;
    assert forall a :: 0 <= a < done ==> cands[a].idx != cands[done].idx;
  }

  /** Adjust the entries of the first candidates by one unit until the sum is the
      total: the drift-repair loop of either direction. */
  method RepairDrift(rounded: array<int>, ghost raw: seq<real>, total: int, ghost fracs: seq<real>,
                     ghost roundedUp: seq<bool>, up: bool, cands: seq<Cand>, diff: nat)
    requires HalfRounded(raw, fracs, roundedUp) && CandsOf(fracs, roundedUp, up, cands)
    requires Repaired(raw, rounded[..], roundedUp, cands, 0)
    requires SumReal(raw) == total as real && raw != []
    requires Sum(rounded[..]) == if up then total + diff else total - diff
    modifies rounded
    ensures IsLargestRemainder(raw, total, rounded[..])
  {
    hide IsLargestRemainder, HalfRounded, CandsOf, Repaired, Sum;
    var i := 0;
    while i < diff && i < |cands|
      invariant i <= diff && i <= |cands|
      invariant Repaired(raw, rounded[..], roundedUp, cands, i)
      invariant Sum(rounded[..]) == if up then total + (diff - i) else total - (diff - i)
    {
      RepairedStep(raw, rounded[..], fracs, roundedUp, up, cands, i);
      var k := cands[i].idx;
      ghost var before := rounded[..];
      SumUpdate(before, k, if up then before[k] - 1 else before[k] + 1);
      rounded[k] := if up then rounded[k] - 1 else rounded[k] + 1;
      assert rounded[..] == before[k := before[k] + (if up then -1 else 1)];
      i := i + 1;
    }
    if i < diff {
      EnoughCandidates(raw, total, rounded[..], fracs, roundedUp, up, cands);
    }
    RepairedIsLargestRemainder(raw, total, rounded[..], fracs, roundedUp, up, cands, i);
  }

  /** The first loop: every share rounded at one half. */
  method RoundAtHalf(activePcts: seq<real>, totalPct: real, remainingQty: int, rounded: array<int>)
    returns (fracs: seq<real>, roundedUp: array<bool>)
    requires totalPct != 0.0 && rounded.Length == |activePcts|
    modifies rounded
    ensures fresh(roundedUp) && roundedUp.Length == |activePcts|
    ensures var raw := Shares(activePcts, totalPct, remainingQty);
            && HalfRounded(raw, fracs, roundedUp[..])
            && Repaired(raw, rounded[..], roundedUp[..], [], 0)
  {
    var n := |activePcts|;
    ghost var raws := Shares(activePcts, totalPct, remainingQty);
    roundedUp := new bool[n];
    fracs := [];
    for i := 0 to n
      invariant |fracs| == i
      invariant forall k :: 0 <= k < i ==> fracs[k] == Frac(raws[k]) && (roundedUp[k] <==> fracs[k] >= 0.5)
      invariant forall k :: 0 <= k < i ==> rounded[k] == raws[k].Floor + (if roundedUp[k] then 1 else 0)
    {
      hide Share;
      var raw := Share(activePcts[i], totalPct, remainingQty);
      var fl := raw.Floor;
      var frac := raw - fl as real;
      fracs := fracs + [frac];
      roundedUp[i] := frac >= 0.5;
      rounded[i] := if frac >= 0.5 then fl + 1 else fl;
    }
  }

  method SumOf(a: array<int>) returns (sum: int)
    ensures sum == Sum(a[..])
  {
    sum := 0;
    for i := 0 to a.Length
      invariant sum == Sum(a[..i])
    {
      assert a[..i + 1][..i] == a[..i];
      sum := sum + a[i];
    }
    assert a[..a.Length] == a[..];
  }

  /** `computeRebalancedQtys`. */
  method ComputeRebalancedQtys(activePcts: seq<real>, totalPct: real, remainingQty: int) returns (rounded: array<int>)
    requires totalPct == SumReal(activePcts)
    requires activePcts != [] ==> totalPct != 0.0
    ensures fresh(rounded) && rounded.Length == |activePcts|
    ensures activePcts != [] ==>
              IsLargestRemainder(Shares(activePcts, totalPct, remainingQty), remainingQty, rounded[..])
  {
    rounded := new int[|activePcts|];
    if |activePcts| == 0 {
      return;
    }
    SharesExact(activePcts, remainingQty);
    hide IsLargestRemainder, HalfRounded;
    ghost var raw := Shares(activePcts, totalPct, remainingQty);
    var fracs, roundedUp := RoundAtHalf(activePcts, totalPct, remainingQty, rounded);
    var sum := SumOf(rounded);
    var diff := remainingQty - sum;
    var up := diff < 0;
    var cands := Candidates(fracs, roundedUp, up);
    cands := SortCands(cands, !up);
    InRange(raw, fracs, roundedUp[..], up, cands);
    RepairDrift(rounded, raw, remainingQty, fracs, roundedUp[..], up, cands, if up then -diff else diff);
  }

  lemma InRange(raw: seq<real>, fracs: seq<real>, roundedUp: seq<bool>, up: bool, cands: seq<Cand>)
    requires HalfRounded(raw, fracs, roundedUp) && CandsOf(fracs, roundedUp, up, cands)
    ensures forall a :: 0 <= a < |cands| ==> cands[a].idx < |raw|
  {
    forall a | 0 <= a < |cands| ensures cands[a].idx < |raw| {
      assert cands[a] in cands;
    }
  }

  // ---- Every level gets its own share ----

  function Times(x: real, y: real): real {
    x * y
  }

  lemma TimesLess(x: real, y: real, z: real)
    requires x < y && z > 0.0
    ensures Times(x, z) < Times(y, z) && Times(z, x) < Times(z, y)
  {
  }

  /** `q` units are within one unit of what the percentage entitles to, with no
      division: the percentages are taken out of `total`. */
  predicate WithinOneUnitOf(q: int, pct: real, total: real, qty: int) {
    Times((q - 1) as real, total) < Times(qty as real, pct) < Times((q + 1) as real, total)
  }

  lemma ShareTimesTotal(pct: real, total: real, qty: int)
    requires total > 0.0
    ensures Times(Share(pct, total, qty), total) == Times(qty as real, pct)
  {
    Undivide(qty as real * pct, total);
  }

  lemma Undivide(x: real, total: real)
    requires total > 0.0
    ensures x / total * total == x
  {
  }

  lemma ScaledShare(q: int, pct: real, total: real, qty: int)
    requires total > 0.0 && Share(pct, total, qty) - 1.0 < q as real < Share(pct, total, qty) + 1.0
    ensures WithinOneUnitOf(q, pct, total, qty)
  {
    ShareTimesTotal(pct, total, qty);
    hide Share, Times;
    TimesLess((q - 1) as real, Share(pct, total, qty), total);
    TimesLess(Share(pct, total, qty), (q + 1) as real, total);
  }

  /** A largest-remainder split gives every level its own percentage of the quantity,
      to within one unit. */
  lemma EachGetsItsShare(pcts: seq<real>, qty: int, out: seq<int>, i: nat)
    requires SumReal(pcts) > 0.0 && IsLargestRemainder(Shares(pcts, SumReal(pcts), qty), qty, out) && i < |pcts|
    ensures i < |out| && WithinOneUnitOf(out[i], pcts[i], SumReal(pcts), qty)
  {
    var raw := Shares(pcts, SumReal(pcts), qty);
    SharesExact(pcts, qty);
    WithinOneUnit(raw, qty, out, i);
    ScaledShare(out[i], pcts[i], SumReal(pcts), qty);
  }

  lemma LargerShare(pct: real, other: real, total: real, qty: nat)
    requires pct > other && total > 0.0
    ensures Share(other, total, qty) <= Share(pct, total, qty)
    ensures qty > 0 ==> Share(other, total, qty) < Share(pct, total, qty)
  {
    if qty > 0 {
      TimesLess(other, pct, qty as real);
      DivideBoth(Times(qty as real, other), Times(qty as real, pct), total);
    } else {
      NoShareOfNothing(pct, total);
      NoShareOfNothing(other, total);
    }
  }

  lemma DivideBoth(x: real, y: real, total: real)
    requires x <= y && total > 0.0
    ensures x / total <= y / total
    ensures x < y ==> x / total < y / total
  {
  }

  /** A level with the larger percentage never gets less. */
  lemma LargerShareGetsNoLess(pcts: seq<real>, qty: nat, out: seq<int>, i: nat, j: nat)
    requires SumReal(pcts) > 0.0 && IsLargestRemainder(Shares(pcts, SumReal(pcts), qty), qty, out)
    requires i < |pcts| && j < |pcts| && pcts[i] > pcts[j]
    ensures |out| == |pcts| && out[j] <= out[i]
  {
    var total := SumReal(pcts);
    var raw := Shares(pcts, total, qty);
    LargerShare(pcts[i], pcts[j], total, qty);
    assert raw[i] == Share(pcts[i], total, qty) && raw[j] == Share(pcts[j], total, qty);
    if qty == 0 {
      SharesExact(pcts, qty);
      WithinOneUnit(raw, qty, out, i);
      WithinOneUnit(raw, qty, out, j);
      NoShareOfNothing(pcts[i], total);
      NoShareOfNothing(pcts[j], total);
    }
    hide Share, SumReal, Shares;
  }

  lemma NoShareOfNothing(pct: real, total: real)
    requires total > 0.0
    ensures Share(pct, total, 0) == 0.0
  {
  }

  // ---- computeInitialExitQtys ----

  /** Go's conversion of a share of the fill to an integer. */
  function TruncShare(filledQty: int, pct: real): int {
    var x := filledQty as real * pct / 100.0;
    if x >= 0.0 then x.Floor else -((-x).Floor)
  }

  /** What the first `n` levels are assigned: each its share, cut off at what is
      left of the fill. */
  function Assigned(pcts: seq<real>, filledQty: nat, n: nat): int
    requires n <= |pcts|
  {
    if n == 0 then 0
    else
      var before := Assigned(pcts, filledQty, n - 1);
      var q := TruncShare(filledQty, pcts[n - 1]);
      if before + q > filledQty then filledQty else before + q
  }

  /** All but the last level get their cut-off share, the last one the rest. */
  function InitialQty(pcts: seq<real>, filledQty: nat, i: nat): int
    requires i < |pcts|
  {
    if i < |pcts| - 1 then Assigned(pcts, filledQty, i + 1) - Assigned(pcts, filledQty, i)
    else filledQty - Assigned(pcts, filledQty, i)
  }

  ghost predicate IsInitialSplit(pcts: seq<real>, filledQty: nat, qtys: seq<int>) {
    && |qtys| == |pcts|
    && forall i :: 0 <= i < |pcts| ==> qtys[i] == InitialQty(pcts, filledQty, i)
  }

  lemma {:induction false} PrefixSum(pcts: seq<real>, filledQty: nat, qtys: seq<int>, n: nat)
    requires |qtys| == |pcts| && n <= |pcts|
    requires forall i :: 0 <= i < n ==> qtys[i] == Assigned(pcts, filledQty, i + 1) - Assigned(pcts, filledQty, i)
    ensures Sum(qtys[..n]) == Assigned(pcts, filledQty, n)
  {
    if n > 0 {
      PrefixSum(pcts, filledQty, qtys, n - 1);
      assert qtys[..n][..n - 1] == qtys[..n - 1];
    }
  }

  lemma {:induction false} AssignedBounds(pcts: seq<real>, filledQty: nat, n: nat)
    requires n <= |pcts| && forall i :: 0 <= i < |pcts| ==> pcts[i] >= 0.0
    ensures 0 <= Assigned(pcts, filledQty, n) <= filledQty
    ensures n > 0 ==> Assigned(pcts, filledQty, n - 1) <= Assigned(pcts, filledQty, n)
  {
    if n > 0 {
      AssignedBounds(pcts, filledQty, n - 1);
      NonNegativeShare(filledQty, pcts[n - 1]);
    }
  }

  lemma NonNegativeShare(filledQty: nat, pct: real)
    requires pct >= 0.0
    ensures TruncShare(filledQty, pct) >= 0
  {
    assert filledQty as real * pct >= 0.0;
  }

  /** Whatever the percentages add up to, the initial quantities add up to the
      fill. */
  lemma InitialSplitExact(pcts: seq<real>, filledQty: nat, qtys: seq<int>)
    requires IsInitialSplit(pcts, filledQty, qtys) && pcts != []
    ensures Sum(qtys) == filledQty
  {
    PrefixSum(pcts, filledQty, qtys, |pcts| - 1);
  }

  /** With non-negative percentages no initial quantity is negative. */
  lemma InitialSplitNonNegative(pcts: seq<real>, filledQty: nat, qtys: seq<int>, i: nat)
    requires IsInitialSplit(pcts, filledQty, qtys) && i < |qtys|
    requires forall k :: 0 <= k < |pcts| ==> pcts[k] >= 0.0
    ensures qtys[i] >= 0
  {
    AssignedBounds(pcts, filledQty, i);
    AssignedBounds(pcts, filledQty, i + 1);
  }

  /** The share an initial level is entitled to. */
  ghost predicate IsCutOff(q: int, filledQty: int, pct: real) {
    q as real * 100.0 <= filledQty as real * pct < (q + 1) as real * 100.0
  }

  lemma TruncIsCutOff(filledQty: nat, pct: real)
    requires pct >= 0.0
    ensures IsCutOff(TruncShare(filledQty, pct), filledQty, pct)
  {
    NonNegativeProduct(filledQty as real, pct);
    CutOffHundredth(filledQty as real * pct);
  }

  lemma NonNegativeProduct(x: real, y: real)
    requires x >= 0.0 && y >= 0.0
    ensures x * y >= 0.0
  {
  }

  lemma CutOffHundredth(product: real)
    requires product >= 0.0
    ensures var q := (product / 100.0).Floor; q as real * 100.0 <= product < (q + 1) as real * 100.0
  {
  }

  /** `a` percent of the fill, times a hundred. */
  function Part(filledQty: nat, pct: real): real {
    filledQty as real * pct
  }

  lemma PartAdds(filledQty: nat, a: real, b: real)
    ensures Part(filledQty, a + b) == Part(filledQty, a) + Part(filledQty, b)
  {
    TimesSum(filledQty as real, a, b);
  }

  lemma PartAtMost(filledQty: nat, pct: real)
    requires pct <= 100.0
    ensures Part(filledQty, pct) <= filledQty as real * 100.0
  {
    TimesAtMost(filledQty as real, pct, 100.0);
  }

  lemma CutOffIsPart(q: int, filledQty: nat, pct: real)
    ensures IsCutOff(q, filledQty, pct) <==> q as real * 100.0 <= Part(filledQty, pct) < (q + 1) as real * 100.0
  {
  }

  lemma SumPrefix(pcts: seq<real>, n: nat)
    requires 0 < n <= |pcts|
    ensures SumReal(pcts[..n]) == SumReal(pcts[..n - 1]) + pcts[n - 1]
  {
    assert pcts[..n][..n - 1] == pcts[..n - 1];
  }

  /** While the percentages so far total at most a hundred nothing is cut short. */
  lemma {:induction false} AssignedWithinTotal(pcts: seq<real>, filledQty: nat, n: nat)
    requires n <= |pcts| && (forall i :: 0 <= i < |pcts| ==> pcts[i] >= 0.0) && SumReal(pcts[..n]) <= 100.0
    ensures Assigned(pcts, filledQty, n) as real * 100.0 <= Part(filledQty, SumReal(pcts[..n]))
                                                          <= (Assigned(pcts, filledQty, n) + n) as real * 100.0
    ensures n > 0 ==> Assigned(pcts, filledQty, n) == Assigned(pcts, filledQty, n - 1) + TruncShare(filledQty, pcts[n - 1])
  {
    hide TruncShare, IsCutOff, SumReal;
    if n > 0 {
      SumPrefix(pcts, n);
      AssignedWithinTotal(pcts, filledQty, n - 1);
      TruncIsCutOff(filledQty, pcts[n - 1]);
      CutOffIsPart(TruncShare(filledQty, pcts[n - 1]), filledQty, pcts[n - 1]);
      PartAdds(filledQty, SumReal(pcts[..n - 1]), pcts[n - 1]);
      PartAtMost(filledQty, SumReal(pcts[..n]));
      hide Part;
    } else {
      NothingSoFar(pcts, filledQty);
    }
  }

  lemma NothingSoFar(pcts: seq<real>, filledQty: nat)
    ensures Part(filledQty, SumReal(pcts[..0])) == 0.0
  {
  }

  lemma TimesSum(q: real, a: real, b: real)
    ensures q * (a + b) == q * a + q * b
  {
  }

  lemma TimesAtMost(q: real, a: real, b: real)
    requires q >= 0.0 && a <= b
    ensures q * a <= q * b
  {
  }

  /** Every level before the last gets its own percentage of the fill, cut off to a
      whole number, as long as the percentages up to it total at most a hundred. */
  lemma InitialShareKept(pcts: seq<real>, filledQty: nat, qtys: seq<int>, i: nat)
    requires IsInitialSplit(pcts, filledQty, qtys) && i + 1 < |pcts|
    requires (forall k :: 0 <= k < |pcts| ==> pcts[k] >= 0.0) && SumReal(pcts[..i + 1]) <= 100.0
    ensures IsCutOff(qtys[i], filledQty, pcts[i])
  {
    AssignedWithinTotal(pcts, filledQty, i + 1);
    TruncIsCutOff(filledQty, pcts[i]);
    hide TruncShare, IsCutOff, Part;
  }

  /** With percentages that total a hundred the last level gets its share and what the
      others lost in cutting off, less than a unit each. */
  lemma LastLevelShare(pcts: seq<real>, filledQty: nat, qtys: seq<int>)
    requires IsInitialSplit(pcts, filledQty, qtys) && pcts != []
    requires (forall k :: 0 <= k < |pcts| ==> pcts[k] >= 0.0) && SumReal(pcts) == 100.0
    ensures var n := |pcts| - 1;
            Part(filledQty, pcts[n]) <= qtys[n] as real * 100.0 <= Part(filledQty, pcts[n]) + n as real * 100.0
  {
    var n := |pcts| - 1;
    SumPrefix(pcts, |pcts|);
    assert pcts[..|pcts|] == pcts;
    AssignedWithinTotal(pcts, filledQty, n);
    PartAdds(filledQty, SumReal(pcts[..n]), pcts[n]);
    WholePart(filledQty);
    hide Part, SumReal, TruncShare;
  }

  lemma WholePart(filledQty: nat)
    ensures Part(filledQty, 100.0) == filledQty as real * 100.0
  {
  }

  /** `computeInitialExitQtys`; a non-positive fill gives zeros. */
  method ComputeInitialExitQtys(pcts: seq<real>, filledQty: int) returns (qtys: array<int>)
    ensures fresh(qtys) && qtys.Length == |pcts|
    ensures filledQty <= 0 ==> forall i :: 0 <= i < |pcts| ==> qtys[i] == 0
    ensures filledQty > 0 ==> IsInitialSplit(pcts, filledQty, qtys[..])
  {
    var n := |pcts|;
    qtys := new int[n](_ => 0);
    if n == 0 || filledQty <= 0 {
      return;
    }
    var given := 0;
    for i := 0 to n - 1
      invariant given <= filledQty
      invariant given == Assigned(pcts, filledQty, i)
      invariant forall k :: 0 <= k < i ==> qtys[k] == Assigned(pcts, filledQty, k + 1) - Assigned(pcts, filledQty, k)
    {
      var q := TruncShare(filledQty, pcts[i]);
      if given + q > filledQty {
        q := filledQty - given;
        if q < 0 {
          q := 0;
        }
      }
      qtys[i] := q;
      given := given + q;
    }
    qtys[n - 1] := filledQty - given;
  }
}

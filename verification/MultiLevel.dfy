/** Multi-level exits: the state of one group and its transitions, as values.

    Paper groups exit on ticks, live groups on broker fill callbacks.  The
    transitions are relations, because the library sort leaves the order of tied
    levels open.  MultiLevelManager proves the in-place code against them.
 */
module MultiLevel {
  import opened Orders
  import opened TickRounding
  import opened Apportionment

  datatype LevelStatus = LevelPending | LevelActive | LevelTriggered | LevelCancelled
  datatype GroupState = GroupActive | GroupCompleted | GroupCancelled
  datatype SLMode = FixedSL | TrailingSL | MultiLevelSL
  datatype ExitType = SL | TP

  datatype Config = Config(levelNum: int, pricePct: real, qtyPct: real)

  datatype Level = Level(
    levelNum: int, triggerPrice: real, exitQty: int, originalExitQty: int,
    status: LevelStatus, brokerOrderID: string, exitPrice: real)

  /** A closed-position row; `exitType` is None for a forced exit. */
  datatype Row = Row(qty: int, price: real, exitType: Option<ExitType>, levelNum: int)

  datatype Group = Group(
    side: Side, slMode: SLMode, entryFilled: bool, registered: bool,
    fillPrice: real, totalQty: int, remainingQty: int,
    slLevels: seq<Level>, tpLevels: seq<Level>,
    slConfigs: seq<Config>, tpConfigs: seq<Config>,
    state: GroupState, rows: seq<Row>)
  {
    function Levels(t: ExitType): seq<Level> { if t.SL? then slLevels else tpLevels }
    function Configs(t: ExitType): seq<Config> { if t.SL? then slConfigs else tpConfigs }
    function WithLevels(t: ExitType, levels: seq<Level>): Group {
      if t.SL? then this.(slLevels := levels) else this.(tpLevels := levels)
    }
  }

  function Other(t: ExitType): ExitType {
    if t.SL? then TP else SL
  }

  // ---- Trigger prices ----

  /** `CalcSLTriggerPrice` and `CalcTPLimitPrice`. */
  function ExitPrice(side: Side, t: ExitType, fillPrice: real, pricePct: real): real {
    if side.Buy? == t.TP? then RoundNSE(fillPrice * (1.0 + pricePct / 100.0))
    else RoundNSE(fillPrice * (1.0 - pricePct / 100.0))
  }

  /** `SLBreached` and `TPReached`. */
  predicate Hit(side: Side, t: ExitType, triggerPrice: real, ltp: real) {
    if side.Buy? == t.TP? then ltp >= triggerPrice else ltp <= triggerPrice
  }

  /** How far a price lies from the fill, on the side an exit of that type looks. */
  function FromFill(side: Side, t: ExitType, fillPrice: real, price: real): real {
    if side.Buy? == t.TP? then price - fillPrice else fillPrice - price
  }

  /** A level triggers at its configured percentage of the fill price, to within half a
      tick. */
  lemma ExitPriceDistance(side: Side, t: ExitType, fillPrice: real, pct: real)
    requires fillPrice >= 0.0 && 0.0 <= pct <= 100.0
    ensures var d, part := FromFill(side, t, fillPrice, ExitPrice(side, t, fillPrice, pct)), fillPrice * pct / 100.0;
            part - 0.025 <= d <= part + 0.025
  {
    var factor := if side.Buy? == t.TP? then 1.0 + pct / 100.0 else 1.0 - pct / 100.0;
    NonNegativeProduct(fillPrice, factor);
    RoundNSEIdempotentAndClose(fillPrice * factor);
    PartOf(fillPrice, pct);
    hide RoundNSE;
  }

  lemma PartOf(x: real, pct: real)
    ensures x * (1.0 + pct / 100.0) == x + x * pct / 100.0
    ensures x * (1.0 - pct / 100.0) == x - x * pct / 100.0
  {
  }

  /** What an exit at the price brings against the fill, for each unit. */
  function Gain(side: Side, fillPrice: real, price: real): real {
    if side.Buy? then price - fillPrice else fillPrice - price
  }

  /** A price hits a level exactly when leaving there is no better than at a stop-loss
      trigger, or no worse than at a take-profit limit. */
  lemma HitIffGain(side: Side, t: ExitType, fillPrice: real, triggerPrice: real, ltp: real)
    ensures Hit(side, t, triggerPrice, ltp) <==>
              if t.SL? then Gain(side, fillPrice, ltp) <= Gain(side, fillPrice, triggerPrice)
              else Gain(side, fillPrice, ltp) >= Gain(side, fillPrice, triggerPrice)
  {
  }

  // ---- Rebalancing ----

  /** The quantity percentage of the first config of that number, or 0. */
  function QtyPctOf(configs: seq<Config>, levelNum: int): real {
    if configs == [] then 0.0
    else if configs[0].levelNum == levelNum then configs[0].qtyPct
    else QtyPctOf(configs[1..], levelNum)
  }

  predicate Participates(l: Level, configs: seq<Config>) {
    l.status.LevelActive? && QtyPctOf(configs, l.levelNum) > 0.0
  }

  /** The positions taking part in a rebalance, in list order. */
  function ActiveIdx(levels: seq<Level>, configs: seq<Config>): (idx: seq<nat>)
    ensures forall k :: 0 <= k < |idx| ==> idx[k] < |levels| && Participates(levels[idx[k]], configs)
    ensures forall i :: 0 <= i < |levels| && Participates(levels[i], configs) ==> i in idx
    ensures forall j, k :: 0 <= j < k < |idx| ==> idx[j] < idx[k]
  {
    if levels == [] then []
    else
      var n := |levels| - 1;
      var before := ActiveIdx(levels[..n], configs);
      if Participates(levels[n], configs) then before + [n] else before
  }

  function PctsAt(levels: seq<Level>, configs: seq<Config>, idx: seq<nat>): seq<real>
    requires forall k :: 0 <= k < |idx| ==> idx[k] < |levels|
  {
    seq(|idx|, k requires 0 <= k < |idx| => QtyPctOf(configs, levels[idx[k]].levelNum))
  }

  function QtysAt(levels: seq<Level>, idx: seq<nat>): seq<int>
    requires forall k :: 0 <= k < |idx| ==> idx[k] < |levels|
  {
    seq(|idx|, k requires 0 <= k < |idx| => levels[idx[k]].exitQty)
  }

  function ActivePcts(levels: seq<Level>, configs: seq<Config>): seq<real> {
    PctsAt(levels, configs, ActiveIdx(levels, configs))
  }

  ghost predicate OnlyQtysChanged(levels: seq<Level>, configs: seq<Config>, levels': seq<Level>) {
    && |levels'| == |levels|
    && forall i :: 0 <= i < |levels| ==>
         && levels'[i] == levels[i].(exitQty := levels'[i].exitQty)
         && (!Participates(levels[i], configs) ==> levels'[i] == levels[i])
  }

  /** `rebalanceAndModifyLevels`: the active levels share `remaining` by largest
      remainder, everything else is untouched. */
  ghost predicate Rebalanced(levels: seq<Level>, configs: seq<Config>, remaining: int, levels': seq<Level>) {
    && OnlyQtysChanged(levels, configs, levels')
    && var pcts := ActivePcts(levels, configs);
       pcts != [] && SumReal(pcts) > 0.0 ==>
         IsLargestRemainder(Shares(pcts, SumReal(pcts), remaining), remaining,
                            QtysAt(levels', ActiveIdx(levels, configs)))
  }

  function ActiveQty(levels: seq<Level>): int {
    if levels == [] then 0
    else
      var n := |levels| - 1;
      ActiveQty(levels[..n]) + if levels[n].status.LevelActive? then levels[n].exitQty else 0
  }

  function TriggeredQty(levels: seq<Level>): int {
    if levels == [] then 0
    else
      var n := |levels| - 1;
      TriggeredQty(levels[..n]) + if levels[n].status.LevelTriggered? then levels[n].exitQty else 0
  }

  function ActiveCount(levels: seq<Level>): nat {
    if levels == [] then 0
    else
      var n := |levels| - 1;
      ActiveCount(levels[..n]) + if levels[n].status.LevelActive? then 1 else 0
  }

  ghost predicate PositivePcts(levels: seq<Level>, configs: seq<Config>) {
    forall i :: 0 <= i < |levels| ==> QtyPctOf(configs, levels[i].levelNum) > 0.0
  }

  lemma {:induction false} PositiveSum(s: seq<real>)
    requires forall k :: 0 <= k < |s| ==> s[k] > 0.0
    ensures s != [] ==> SumReal(s) > 0.0
  {
    if s != [] {
      PositiveSum(s[..|s| - 1]);
    }
  }

  lemma {:induction false} ActiveQtyIsSum(levels: seq<Level>, configs: seq<Config>)
    requires PositivePcts(levels, configs)
    ensures Sum(QtysAt(levels, ActiveIdx(levels, configs))) == ActiveQty(levels)
    ensures ActiveCount(levels) == |ActiveIdx(levels, configs)|
  {
    if levels != [] {
      var n := |levels| - 1;
      ActiveQtyIsSum(levels[..n], configs);
      var before := ActiveIdx(levels[..n], configs);
      var all := QtysAt(levels, ActiveIdx(levels, configs));
      assert QtysAt(levels, before) == QtysAt(levels[..n], before);
      if Participates(levels[n], configs) {
        assert all[..|all| - 1] == QtysAt(levels, before);
      }
    }
  }

  /** Rebalancing depends on status, number and configs only, and keeps them. */
  lemma {:induction false} SameActiveIdx(levels: seq<Level>, configs: seq<Config>, levels': seq<Level>)
    requires |levels'| == |levels|
    requires forall i :: 0 <= i < |levels| ==> levels'[i].status == levels[i].status && levels'[i].levelNum == levels[i].levelNum
    ensures ActiveIdx(levels', configs) == ActiveIdx(levels, configs)
    ensures ActiveCount(levels') == ActiveCount(levels)
  {
    if levels != [] {
      SameActiveIdx(levels[..|levels| - 1], configs, levels'[..|levels| - 1]);
    }
  }

  lemma {:induction false} SameTriggeredQty(levels: seq<Level>, levels': seq<Level>)
    requires |levels'| == |levels|
    requires forall i :: 0 <= i < |levels| ==> levels'[i].status == levels[i].status
    requires forall i :: 0 <= i < |levels| && levels[i].status.LevelTriggered? ==> levels'[i].exitQty == levels[i].exitQty
    ensures TriggeredQty(levels') == TriggeredQty(levels)
  {
    if levels != [] {
      SameTriggeredQty(levels[..|levels| - 1], levels'[..|levels| - 1]);
    }
  }

  ghost predicate NonNegativeQtys(levels: seq<Level>) {
    forall i :: 0 <= i < |levels| && levels[i].status.LevelActive? ==> levels[i].exitQty >= 0
  }

  /** After a rebalance the active levels of a side that still has one hold
      exactly the remaining quantity, none of them a negative one. */
  lemma RebalanceRestoresSum(levels: seq<Level>, configs: seq<Config>, remaining: int, levels': seq<Level>)
    requires Rebalanced(levels, configs, remaining, levels') && PositivePcts(levels, configs)
    ensures ActiveCount(levels') == ActiveCount(levels) && TriggeredQty(levels') == TriggeredQty(levels)
    ensures ActiveCount(levels) > 0 ==> ActiveQty(levels') == remaining
    ensures ActiveCount(levels) == 0 ==> ActiveQty(levels') == 0
    ensures remaining >= 0 ==> NonNegativeQtys(levels')
  {
    var idx := ActiveIdx(levels, configs);
    SameActiveIdx(levels, configs, levels');
    SameTriggeredQty(levels, levels');
    ActiveQtyIsSum(levels', configs);
    var pcts := ActivePcts(levels, configs);
    PositiveSum(pcts);
    if pcts != [] && remaining >= 0 {
      RebalancedNonNegative(levels, configs, remaining, levels');
    }
    if idx == [] {
      assert QtysAt(levels', idx) == [];
      assert forall i :: 0 <= i < |levels| ==> !Participates(levels[i], configs);
    }
  }

  lemma RebalancedNonNegative(levels: seq<Level>, configs: seq<Config>, remaining: nat, levels': seq<Level>)
    requires Rebalanced(levels, configs, remaining, levels') && PositivePcts(levels, configs)
    requires SumReal(ActivePcts(levels, configs)) > 0.0
    ensures NonNegativeQtys(levels')
  {
    var idx := ActiveIdx(levels, configs);
    var pcts := ActivePcts(levels, configs);
    var raw := Shares(pcts, SumReal(pcts), remaining);
    SharesExact(pcts, remaining);
    forall i | 0 <= i < |levels'| && levels'[i].status.LevelActive? ensures levels'[i].exitQty >= 0 {
      assert Participates(levels[i], configs);
      var k :| 0 <= k < |idx| && idx[k] == i;
      ShareNonNegative(pcts[k], SumReal(pcts), remaining);
      WithinOneUnit(raw, remaining, QtysAt(levels', idx), k);
    }
  }

  lemma ShareNonNegative(pct: real, totalPct: real, qty: nat)
    requires pct > 0.0 && totalPct > 0.0
    ensures Share(pct, totalPct, qty) >= 0.0
  {
    assert qty as real * pct >= 0.0;
  }

  // ---- Marking one level ----

  function Marked(levels: seq<Level>, i: nat, status: LevelStatus, price: real): seq<Level>
    requires i < |levels|
  {
    levels[i := levels[i].(status := status, exitPrice := price)]
  }

  lemma {:induction false} MarkTriggeredMoves(levels: seq<Level>, i: nat, price: real)
    requires i < |levels| && levels[i].status.LevelActive?
    ensures var l := Marked(levels, i, LevelTriggered, price);
            && ActiveQty(l) == ActiveQty(levels) - levels[i].exitQty
            && TriggeredQty(l) == TriggeredQty(levels) + levels[i].exitQty
            && ActiveCount(l) == ActiveCount(levels) - 1
  {
    var n := |levels| - 1;
    var l := Marked(levels, i, LevelTriggered, price);
    if i == n {
      assert l[..n] == levels[..n];
    } else {
      MarkTriggeredMoves(levels[..n], i, price);
      assert l[..n] == Marked(levels[..n], i, LevelTriggered, price);
    }
  }

  lemma {:induction false} ActiveAtMost(levels: seq<Level>, i: nat)
    requires i < |levels| && levels[i].status.LevelActive? && NonNegativeQtys(levels)
    ensures 0 <= levels[i].exitQty <= ActiveQty(levels) && ActiveCount(levels) > 0
  {
    var n := |levels| - 1;
    if i < n {
      ActiveAtMost(levels[..n], i);
    } else {
      ActiveQtyNonNegative(levels[..n]);
    }
  }

  lemma {:induction false} ActiveQtyNonNegative(levels: seq<Level>)
    requires NonNegativeQtys(levels)
    ensures ActiveQty(levels) >= 0
    ensures ActiveCount(levels) == 0 ==> ActiveQty(levels) == 0
  {
    if levels != [] {
      ActiveQtyNonNegative(levels[..|levels| - 1]);
    }
  }

  // ---- The write-back loop of a rebalance ----

  /** The state of the write-back loop after `k` of the active levels. */
  ghost predicate WrittenBack(levels: seq<Level>, idx: seq<nat>, qtys: seq<int>, k: nat, levels': seq<Level>) {
    && |levels'| == |levels| && k <= |idx| == |qtys|
    && (forall j :: 0 <= j < |idx| ==> idx[j] < |levels|)
    && (forall i :: 0 <= i < |levels| ==> levels'[i] == levels[i].(exitQty := levels'[i].exitQty))
    && (forall j :: 0 <= j < k ==> levels'[idx[j]].exitQty == qtys[j])
    && (forall i :: 0 <= i < |levels| && (forall j :: 0 <= j < k ==> idx[j] != i) ==> levels'[i] == levels[i])
  }

  lemma WrittenBackStep(levels: seq<Level>, configs: seq<Config>, qtys: seq<int>, k: nat, levels': seq<Level>, levels'': seq<Level>)
    requires var idx := ActiveIdx(levels, configs);
             && WrittenBack(levels, idx, qtys, k, levels') && k < |idx|
             && levels'' == levels'[idx[k] := levels'[idx[k]].(exitQty := qtys[k])]
    ensures WrittenBack(levels, ActiveIdx(levels, configs), qtys, k + 1, levels'')
    ensures levels'[ActiveIdx(levels, configs)[k]] == levels[ActiveIdx(levels, configs)[k]]
  {
  }

  lemma WrittenBackRebalances(levels: seq<Level>, configs: seq<Config>, remaining: int, qtys: seq<int>, levels': seq<Level>)
    requires var idx := ActiveIdx(levels, configs);
             var pcts := PctsAt(levels, configs, idx);
             && WrittenBack(levels, idx, qtys, |idx|, levels') && SumReal(pcts) > 0.0
             && IsLargestRemainder(Shares(pcts, SumReal(pcts), remaining), remaining, qtys)
    ensures Rebalanced(levels, configs, remaining, levels')
  {
    var idx := ActiveIdx(levels, configs);
    assert QtysAt(levels', idx) == qtys;
  }

  // ---- Every level gets its own share ----

  ghost predicate DistinctConfigs(configs: seq<Config>) {
    forall i, j :: 0 <= i < j < |configs| ==> configs[i].levelNum != configs[j].levelNum
  }

  /** The percentage looked up for a level is its own configuration's. */
  lemma {:induction false} QtyPctOfOwn(configs: seq<Config>, i: nat)
    requires DistinctConfigs(configs) && i < |configs|
    ensures QtyPctOf(configs, configs[i].levelNum) == configs[i].qtyPct
  {
    if i > 0 {
      QtyPctOfOwn(configs[1..], i - 1);
    }
  }

  /** What the levels taking part are configured to hold together. */
  function ActivePctTotal(levels: seq<Level>, configs: seq<Config>): real {
    if levels == [] then 0.0
    else
      var n := |levels| - 1;
      ActivePctTotal(levels[..n], configs) + if Participates(levels[n], configs) then QtyPctOf(configs, levels[n].levelNum) else 0.0
  }

  lemma {:induction false} TotalIsSum(levels: seq<Level>, configs: seq<Config>)
    ensures SumReal(ActivePcts(levels, configs)) == ActivePctTotal(levels, configs)
  {
    hide Participates, QtyPctOf;
    if levels != [] {
      var n := |levels| - 1;
      TotalIsSum(levels[..n], configs);
      var before, all := ActivePcts(levels[..n], configs), ActivePcts(levels, configs);
      if Participates(levels[n], configs) {
        assert all == before + [QtyPctOf(configs, levels[n].levelNum)];
      } else {
        assert all == before;
      }
    }
  }

  lemma {:induction false} TotalPositive(levels: seq<Level>, configs: seq<Config>)
    ensures ActivePctTotal(levels, configs) >= 0.0
    ensures forall i :: 0 <= i < |levels| && Participates(levels[i], configs) ==> ActivePctTotal(levels, configs) > 0.0
  {
    if levels != [] {
      TotalPositive(levels[..|levels| - 1], configs);
      assert forall i :: 0 <= i < |levels| - 1 ==> levels[..|levels| - 1][i] == levels[i];
    }
  }

  /** After a rebalance every level taking part holds its own configured percentage of
      the remaining quantity, out of what those levels are configured to hold together,
      to within one unit. */
  lemma RebalancedShares(levels: seq<Level>, configs: seq<Config>, remaining: int, levels': seq<Level>, i: nat)
    requires Rebalanced(levels, configs, remaining, levels') && i < |levels| && Participates(levels[i], configs)
    ensures i < |levels'|
    ensures WithinOneUnitOf(levels'[i].exitQty, QtyPctOf(configs, levels[i].levelNum), ActivePctTotal(levels, configs), remaining)
  {
    TotalIsSum(levels, configs);
    TotalPositive(levels, configs);
    var idx, pcts := ActiveIdx(levels, configs), ActivePcts(levels, configs);
    assert i in idx;
    var k :| 0 <= k < |idx| && idx[k] == i;
    EachGetsItsShare(pcts, remaining, QtysAt(levels', idx), k);
    hide WithinOneUnitOf, IsLargestRemainder, SumReal, ActivePctTotal;
  }
}

/** In which order paper levels fire, and how soon a run ends.
 */
module LevelOrder {
  import opened Orders
  import opened TickRounding
  import opened Apportionment
  import opened MultiLevel
  import opened PaperExits

  /** Higher level numbers are configured at least as far from the entry. */
  ghost predicate FartherByNum(configs: seq<Config>) {
    forall i, j :: 0 <= i < |configs| && 0 <= j < |configs| && configs[i].levelNum <= configs[j].levelNum ==>
      configs[i].pricePct <= configs[j].pricePct
  }

  /** Whatever hits a level has hit every earlier one. */
  ghost predicate NearestFirst(side: Side, t: ExitType, levels: seq<Level>) {
    forall i, j :: 0 <= i < j < |levels| ==>
      if side.Buy? == t.TP? then levels[i].triggerPrice <= levels[j].triggerPrice
      else levels[i].triggerPrice >= levels[j].triggerPrice
  }

  /** The triggered levels are a prefix of the side, the others are active. */
  ghost predicate TriggeredPrefix(levels: seq<Level>) {
    && (forall i :: 0 <= i < |levels| ==> levels[i].status.LevelTriggered? || levels[i].status.LevelActive?)
    && (forall i, j :: 0 <= i < j < |levels| && levels[j].status.LevelTriggered? ==> levels[i].status.LevelTriggered?)
  }

  ghost predicate OrderedSide(g: Group, t: ExitType) {
    NearestFirst(g.side, t, g.Levels(t)) && TriggeredPrefix(g.Levels(t))
  }

  ghost predicate OrderInvariant(g: Group) {
    && OrderedSide(g, SL) && OrderedSide(g, TP)
    && (!g.entryFilled ==> FartherByNum(g.slConfigs) && FartherByNum(g.tpConfigs))
  }

  ghost predicate OrderedEvent(e: Event) {
    e.FillEvent? ==> e.price >= 0.0 && FartherByNum(e.slConfigs) && FartherByNum(e.tpConfigs)
  }

  /** Rounding to ticks keeps the configured order of the trigger prices. */
  lemma ExitPriceMonotone(side: Side, t: ExitType, fillPrice: real, p: real, q: real)
    requires fillPrice >= 0.0 && p <= q
    ensures if side.Buy? == t.TP? then ExitPrice(side, t, fillPrice, p) <= ExitPrice(side, t, fillPrice, q)
            else ExitPrice(side, t, fillPrice, p) >= ExitPrice(side, t, fillPrice, q)
  {
    hide RoundNSE;
    MulMonotone(1.0 + p / 100.0, 1.0 + q / 100.0, fillPrice);
    MulMonotone(1.0 - q / 100.0, 1.0 - p / 100.0, fillPrice);
    RoundNSEMonotone(fillPrice * (1.0 + p / 100.0), fillPrice * (1.0 + q / 100.0));
    RoundNSEMonotone(fillPrice * (1.0 - q / 100.0), fillPrice * (1.0 - p / 100.0));
  }

  lemma BuiltOrdered(side: Side, t: ExitType, price: real, qty: int, configs: seq<Config>, levels: seq<Level>)
    requires Built(side, t, price, qty, configs, levels)
    requires SortedByNum(configs) && FartherByNum(configs) && price >= 0.0
    ensures NearestFirst(side, t, levels) && TriggeredPrefix(levels)
  {
    hide ExitPrice;
    forall i, j | 0 <= i < j < |levels|
      ensures if side.Buy? == t.TP? then levels[i].triggerPrice <= levels[j].triggerPrice
              else levels[i].triggerPrice >= levels[j].triggerPrice
    {
      ExitPriceMonotone(side, t, price, configs[i].pricePct, configs[j].pricePct);
    }
  }

  lemma SortKeepsFarther(configs: seq<Config>, sorted: seq<Config>)
    requires SortOf(configs, sorted) && FartherByNum(configs)
    ensures FartherByNum(sorted)
  {
    forall i, j | 0 <= i < |sorted| && 0 <= j < |sorted| && sorted[i].levelNum <= sorted[j].levelNum
      ensures sorted[i].pricePct <= sorted[j].pricePct
    {
      assert sorted[i] in multiset(sorted) && sorted[j] in multiset(sorted);
      assert sorted[i] in configs && sorted[j] in configs;
    }
  }

  /** The first level hit is the first active one, so the prefix grows by one. */
  lemma FiringExtendsPrefix(side: Side, t: ExitType, levels: seq<Level>, ltp: real, i: nat)
    requires NearestFirst(side, t, levels) && TriggeredPrefix(levels)
    requires i == FirstHit(side, t, levels, ltp, 0) < |levels|
    ensures NearestFirst(side, t, Marked(levels, i, LevelTriggered, ltp))
    ensures TriggeredPrefix(Marked(levels, i, LevelTriggered, ltp))
    ensures forall k :: 0 <= k < i ==> levels[k].status.LevelTriggered?
  {
    forall k | 0 <= k < i ensures levels[k].status.LevelTriggered? {
      assert Hit(side, t, levels[k].triggerPrice, ltp);
    }
  }

  lemma TickKeepsOrder(g: Group, ltp: real, g': Group)
    requires OrderInvariant(g) && Tick(g, ltp, g')
    ensures OrderInvariant(g')
  {
    hide Rebalanced, FirstHit, NearestFirst, TriggeredPrefix;
    if g.state.GroupActive? {
      if SLHit(g, ltp) < |g.slLevels| {
        FiringExtendsPrefix(g.side, SL, g.slLevels, ltp, SLHit(g, ltp));
        OtherSideKeepsOrder(g, SL, SLHit(g, ltp), ltp, g');
      } else if TPHit(g, ltp) < |g.tpLevels| {
        FiringExtendsPrefix(g.side, TP, g.tpLevels, ltp, TPHit(g, ltp));
        OtherSideKeepsOrder(g, TP, TPHit(g, ltp), ltp, g');
      }
    }
  }

  lemma OtherSideKeepsOrder(g: Group, t: ExitType, i: nat, ltp: real, g': Group)
    requires i < |g.Levels(t)| && Fires(g, t, i, ltp, g') && OrderedSide(g, Other(t))
    ensures g'.side == g.side && OrderedSide(g', Other(t))
  {
    hide ActiveIdx, IsLargestRemainder, PctsAt, QtysAt, ActivePcts, Participates;
  }

  lemma StepKeepsOrder(g: Group, e: Event, g': Group)
    requires OrderInvariant(g) && OrderedEvent(e) && Step(g, e, g')
    ensures OrderInvariant(g')
  {
    match e
    case FillEvent(price, qty, sl, tp) =>
      if g.registered && !g.entryFilled {
        SortKeepsFarther(if sl != [] then sl else g.slConfigs, g'.slConfigs);
        SortKeepsFarther(if tp != [] then tp else g.tpConfigs, g'.tpConfigs);
        BuiltOrdered(g.side, SL, price, qty, g'.slConfigs, g'.slLevels);
        BuiltOrdered(g.side, TP, price, qty, g'.tpConfigs, g'.tpLevels);
      }
    case TickEvent(ltp) => TickKeepsOrder(g, ltp, g');
    case ForceExitEvent(price) =>
  }

  /** For every tick sequence the triggered levels of each side form a prefix. */
  lemma {:induction false} LevelsFireInOrder(states: seq<Group>, events: seq<Event>, n: nat)
    requires Run(states, events) && n < |states| && Initial(states[0])
    requires FartherByNum(states[0].slConfigs) && FartherByNum(states[0].tpConfigs)
    requires forall i :: 0 <= i < |events| ==> OrderedEvent(events[i])
    ensures OrderInvariant(states[n])
  {
    if n > 0 {
      LevelsFireInOrder(states, events, n - 1);
      StepKeepsOrder(states[n - 1], events[n - 1], states[n]);
    }
  }

  // ---- How many exits, how soon ----

  function LevelCount(g: Group): nat {
    |g.slLevels| + |g.tpLevels|
  }

  function ActiveLevels(g: Group): nat {
    ActiveCount(g.slLevels) + ActiveCount(g.tpLevels)
  }

  ghost predicate RowsBounded(g: Group) {
    |g.rows| + ActiveLevels(g) <= LevelCount(g) + (if g.state.GroupCancelled? then 1 else 0)
  }

  lemma TickBoundsRows(g: Group, ltp: real, g': Group)
    requires Invariant(g) && Tick(g, ltp, g') && RowsBounded(g)
    ensures RowsBounded(g')
  {
    hide Invariant, ActiveCount, Rebalanced, FirstHit;
    if g.state.GroupActive? {
      if SLHit(g, ltp) < |g.slLevels| {
        FiresKeeps(g, SL, SLHit(g, ltp), ltp, g');
        SameLengths(g, SL, SLHit(g, ltp), ltp, g');
      } else if TPHit(g, ltp) < |g.tpLevels| {
        FiresKeeps(g, TP, TPHit(g, ltp), ltp, g');
        SameLengths(g, TP, TPHit(g, ltp), ltp, g');
      }
    }
  }

  lemma SameLengths(g: Group, t: ExitType, i: nat, ltp: real, g': Group)
    requires i < |g.Levels(t)| && Fires(g, t, i, ltp, g')
    ensures |g'.slLevels| == |g.slLevels| && |g'.tpLevels| == |g.tpLevels|
  {
    hide ActiveIdx, ActivePcts, IsLargestRemainder, QtysAt;
  }

  lemma StepBoundsRows(g: Group, e: Event, g': Group)
    requires Invariant(g) && GoodEvent(e) && Step(g, e, g') && RowsBounded(g)
    ensures RowsBounded(g')
  {
    hide Tick, Built, SortOf;
    match e
    case FillEvent(price, qty, sl, tp) =>
      if g.registered && !g.entryFilled {
        BuiltAllActive(g.side, SL, price, qty, g'.slConfigs, g'.slLevels);
        BuiltAllActive(g.side, TP, price, qty, g'.tpConfigs, g'.tpLevels);
      }
    case TickEvent(ltp) => TickBoundsRows(g, ltp, g');
    case ForceExitEvent(price) =>
  }

  lemma BuiltAllActive(side: Side, t: ExitType, price: real, qty: int, configs: seq<Config>, levels: seq<Level>)
    requires Built(side, t, price, qty, configs, levels)
    ensures ActiveCount(levels) == |levels|
  {
    AllActiveSum(levels);
  }

  /** A run records at most one exit for each level, and one forced exit. */
  lemma {:induction false} ExitsBounded(states: seq<Group>, events: seq<Event>, n: nat)
    requires Run(states, events) && n < |states| && Initial(states[0])
    requires forall i :: 0 <= i < |events| ==> GoodEvent(events[i])
    ensures RowsBounded(states[n])
  {
    if n > 0 {
      ExitsBounded(states, events, n - 1);
      RunKeepsInvariant(states, events, n - 1);
      StepBoundsRows(states[n - 1], events[n - 1], states[n]);
    }
  }

  /** A price at or past the deepest SL trigger. */
  ghost predicate PastDeepestSL(g: Group, ltp: real) {
    g.slLevels != [] && Hit(g.side, SL, g.slLevels[|g.slLevels| - 1].triggerPrice, ltp)
  }

  lemma {:induction false} SomeActive(levels: seq<Level>) returns (i: nat)
    requires ActiveCount(levels) > 0
    ensures i < |levels| && levels[i].status.LevelActive?
  {
    var n := |levels| - 1;
    if levels[n].status.LevelActive? {
      i := n;
    } else {
      i := SomeActive(levels[..n]);
    }
  }

  lemma PastDeepestHits(g: Group, ltp: real)
    requires OrderedSide(g, SL) && g.slMode.MultiLevelSL? && ActiveCount(g.slLevels) > 0 && PastDeepestSL(g, ltp)
    ensures SLHit(g, ltp) < |g.slLevels|
  {
    var a := SomeActive(g.slLevels);
    assert Hit(g.side, SL, g.slLevels[a].triggerPrice, ltp);
  }

  lemma PastDeepestFires(g: Group, ltp: real, g': Group)
    requires Invariant(g) && OrderInvariant(g) && Tick(g, ltp, g')
    requires g.state.GroupActive? && g.slMode.MultiLevelSL? && ActiveCount(g.slLevels) > 0 && PastDeepestSL(g, ltp)
    ensures Invariant(g') && OrderInvariant(g') && g'.slMode == g.slMode && g'.side == g.side
    ensures ActiveCount(g'.slLevels) == ActiveCount(g.slLevels) - 1
    ensures forall x :: PastDeepestSL(g, x) ==> PastDeepestSL(g', x)
    ensures ActiveCount(g'.slLevels) == 0 ==> g'.state.GroupCompleted?
    ensures g'.state.GroupActive? || g'.state.GroupCompleted?
  {
    hide OrderedSide, ActiveCount, ActiveQty, Rebalanced, PositivePcts, NonNegativeQtys, RowQty;
    assert OrderedSide(g, SL);
    PastDeepestHits(g, ltp);
    FiresKeeps(g, SL, SLHit(g, ltp), ltp, g');
    TickKeepsOrder(g, ltp, g');
    if g'.state.GroupActive? {
      ActiveQtyNonNegative(g'.slLevels);
    }
  }

  /** In multi-level SL mode, as many consecutive ticks at or past the deepest SL
      trigger as there are active SL levels complete the group. */
  lemma {:induction false} DeepTicksComplete(states: seq<Group>, events: seq<Event>)
    requires Run(states, events) && Invariant(states[0]) && OrderInvariant(states[0])
    requires states[0].state.GroupActive? && states[0].slMode.MultiLevelSL?
    requires |events| == ActiveCount(states[0].slLevels) > 0
    requires forall i :: 0 <= i < |events| ==> events[i].TickEvent? && PastDeepestSL(states[0], events[i].ltp)
    ensures states[|events|].state.GroupCompleted?
    decreases |events|
  {
    assert Step(states[0], events[0], states[1]);
    PastDeepestFires(states[0], events[0].ltp, states[1]);
    assert Invariant(states[1]);
    if states[1].state.GroupCompleted? {
      InactiveIsFinal(states, events, 1, |events|);
    } else {
      forall i | 0 <= i < |events| - 1
        ensures Step(states[1..][i], events[1..][i], states[1..][i + 1])
        ensures events[1..][i].TickEvent? && PastDeepestSL(states[1], events[1..][i].ltp)
      {
        assert Step(states[i + 1], events[i + 1], states[i + 2]);
      }
      DeepTicksComplete(states[1..], events[1..]);
    }
  }
}

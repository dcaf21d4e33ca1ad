/** Paper trading of a multi-level group: fill, ticks and forced exits, and the
    quantity conservation that holds over every run of them.
 */
module PaperExits {
  import opened Orders
  import opened TickRounding
  import opened Apportionment
  import opened MultiLevel

  // ---- Entry fill ----

  ghost predicate SortedByNum(configs: seq<Config>) {
    forall i, j :: 0 <= i < j < |configs| ==> configs[i].levelNum <= configs[j].levelNum
  }

  ghost predicate SortOf(configs: seq<Config>, sorted: seq<Config>) {
    SortedByNum(sorted) && |sorted| == |configs| && multiset(sorted) == multiset(configs)
  }

  function QtyPcts(configs: seq<Config>): seq<real> {
    seq(|configs|, i requires 0 <= i < |configs| => configs[i].qtyPct)
  }

  function ExitQtys(levels: seq<Level>): seq<int> {
    seq(|levels|, i requires 0 <= i < |levels| => levels[i].exitQty)
  }

  /** The levels built from one side's sorted configs. */
  ghost predicate Built(side: Side, t: ExitType, fillPrice: real, filledQty: int, configs: seq<Config>, levels: seq<Level>) {
    && |levels| == |configs|
    && (forall i :: 0 <= i < |levels| ==>
          levels[i] == Level(configs[i].levelNum, ExitPrice(side, t, fillPrice, configs[i].pricePct),
                             levels[i].exitQty, levels[i].exitQty, LevelActive, "", 0.0))
    && (filledQty > 0 ==> IsInitialSplit(QtyPcts(configs), filledQty, ExitQtys(levels)))
    && (filledQty <= 0 ==> forall i :: 0 <= i < |levels| ==> levels[i].exitQty == 0)
  }

  /** `OnEntryFill`: idempotent, and a no-op for a group no longer registered.
      Configs passed with the fill replace the registered ones. */
  ghost predicate Fill(g: Group, price: real, qty: int, slConfigs: seq<Config>, tpConfigs: seq<Config>, g': Group) {
    if !g.registered || g.entryFilled then g' == g
    else
      && SortOf(if slConfigs != [] then slConfigs else g.slConfigs, g'.slConfigs)
      && SortOf(if tpConfigs != [] then tpConfigs else g.tpConfigs, g'.tpConfigs)
      && Built(g.side, SL, price, qty, g'.slConfigs, g'.slLevels)
      && Built(g.side, TP, price, qty, g'.tpConfigs, g'.tpLevels)
      && g' == g.(entryFilled := true, fillPrice := price, totalQty := qty, remainingQty := qty,
                  slConfigs := g'.slConfigs, tpConfigs := g'.tpConfigs, slLevels := g'.slLevels, tpLevels := g'.tpLevels)
  }

  // ---- One tick ----

  /** The first active level from `from` on whose price is hit, or the length. */
  function FirstHit(side: Side, t: ExitType, levels: seq<Level>, ltp: real, from: nat): (i: nat)
    requires from <= |levels|
    ensures from <= i <= |levels|
    ensures i < |levels| ==> levels[i].status.LevelActive? && Hit(side, t, levels[i].triggerPrice, ltp)
    ensures forall k :: from <= k < i ==> !(levels[k].status.LevelActive? && Hit(side, t, levels[k].triggerPrice, ltp))
    decreases |levels| - from
  {
    if from == |levels| then from
    else if levels[from].status.LevelActive? && Hit(side, t, levels[from].triggerPrice, ltp) then from
    else FirstHit(side, t, levels, ltp, from + 1)
  }

  function AddRow(rows: seq<Row>, row: Row): seq<Row> {
    if row.qty <= 0 then rows else rows + [row]
  }

  /** `recordPaperExit` of a level already marked triggered with quantity `qty`:
      the single decrement, a closed row, and a rebalance of the other side. */
  ghost predicate Recorded(g: Group, t: ExitType, levelNum: int, qty: int, ltp: real, g': Group) {
    var remaining := g.remainingQty - qty;
    var o := Other(t);
    && g' == g.WithLevels(o, g'.Levels(o)).(
               remainingQty := remaining,
               state := if remaining <= 0 then GroupCompleted else g.state,
               registered := g.registered && remaining > 0,
               rows := AddRow(g.rows, Row(qty, ltp, Some(t), levelNum)))
    && (if remaining > 0 then Rebalanced(g.Levels(o), g.Configs(o), remaining, g'.Levels(o))
        else g'.Levels(o) == g.Levels(o))
  }

  /** Level `i` of one side fires at `ltp`. */
  ghost predicate Fires(g: Group, t: ExitType, i: nat, ltp: real, g': Group)
    requires i < |g.Levels(t)|
  {
    var l := g.Levels(t)[i];
    Recorded(g.WithLevels(t, Marked(g.Levels(t), i, LevelTriggered, ltp)), t, l.levelNum, l.exitQty, ltp, g')
  }

  /** Position of the SL level a tick fires; none unless the side is multi-level. */
  function SLHit(g: Group, ltp: real): nat {
    if g.slMode.MultiLevelSL? then FirstHit(g.side, SL, g.slLevels, ltp, 0) else |g.slLevels|
  }

  function TPHit(g: Group, ltp: real): nat {
    FirstHit(g.side, TP, g.tpLevels, ltp, 0)
  }

  /** `runEvalJob` for a paper group: SL first, TP only when no SL level fired,
      and at most one level a tick. */
  ghost predicate Tick(g: Group, ltp: real, g': Group) {
    if !g.state.GroupActive? then g' == g
    else if SLHit(g, ltp) < |g.slLevels| then Fires(g, SL, SLHit(g, ltp), ltp, g')
    else if TPHit(g, ltp) < |g.tpLevels| then Fires(g, TP, TPHit(g, ltp), ltp, g')
    else g' == g
  }

  /** `CancelGroupForExit`: what is left is recorded when the price is known. */
  function ForceExit(g: Group, price: real): Group {
    if !g.registered || !g.state.GroupActive? then g
    else g.(state := GroupCancelled, registered := false,
            rows := if g.remainingQty > 0 && price > 0.0 then AddRow(g.rows, Row(g.remainingQty, price, None, 0)) else g.rows)
  }

  // ---- Runs ----

  datatype Event =
    | FillEvent(price: real, qty: int, slConfigs: seq<Config>, tpConfigs: seq<Config>)
    | TickEvent(ltp: real)
    | ForceExitEvent(price: real)

  ghost predicate Step(g: Group, e: Event, g': Group) {
    match e
    case FillEvent(price, qty, sl, tp) => Fill(g, price, qty, sl, tp, g')
    case TickEvent(ltp) => Tick(g, ltp, g')
    case ForceExitEvent(price) => g' == ForceExit(g, price)
  }

  ghost predicate Run(states: seq<Group>, events: seq<Event>) {
    && |states| == |events| + 1
    && forall i :: 0 <= i < |events| ==> Step(states[i], events[i], states[i + 1])
  }

  ghost predicate PositiveConfigs(configs: seq<Config>) {
    forall i :: 0 <= i < |configs| ==> configs[i].qtyPct > 0.0
  }

  /** What the callers guarantee: positive percentages and a non-negative fill. */
  ghost predicate GoodEvent(e: Event) {
    e.FillEvent? ==> e.qty >= 0 && PositiveConfigs(e.slConfigs) && PositiveConfigs(e.tpConfigs)
  }

  ghost predicate Initial(g: Group) {
    && !g.entryFilled && g.registered && g.state.GroupActive?
    && g.totalQty == 0 && g.remainingQty == 0 && g.rows == []
    && g.slLevels == [] && g.tpLevels == []
    && PositiveConfigs(g.slConfigs) && PositiveConfigs(g.tpConfigs)
  }

  function RowQty(rows: seq<Row>): int {
    if rows == [] then 0 else RowQty(rows[..|rows| - 1]) + rows[|rows| - 1].qty
  }

  // ---- The invariant ----

  /** One side's active levels hold exactly the remaining quantity. */
  ghost predicate SideHolds(levels: seq<Level>, configs: seq<Config>, remaining: int) {
    && PositivePcts(levels, configs) && NonNegativeQtys(levels)
    && (levels != [] ==> ActiveQty(levels) == remaining)
  }

  ghost predicate Invariant(g: Group) {
    && (!g.entryFilled ==> g.slLevels == [] && g.tpLevels == [] && g.remainingQty == g.totalQty == 0 && g.rows == []
                           && PositiveConfigs(g.slConfigs) && PositiveConfigs(g.tpConfigs) && !g.state.GroupCompleted?)
    && (g.registered ==> g.state.GroupActive?)
    && g.remainingQty >= 0
    && (g.state.GroupActive? ==>
          && SideHolds(g.slLevels, g.slConfigs, g.remainingQty)
          && SideHolds(g.tpLevels, g.tpConfigs, g.remainingQty))
    && (!g.state.GroupCancelled? ==> RowQty(g.rows) + g.remainingQty == g.totalQty)
    && (g.state.GroupCompleted? ==> g.remainingQty == 0)
  }

  lemma ShuffledPcts(configs: seq<Config>, sorted: seq<Config>)
    requires SortOf(configs, sorted) && PositiveConfigs(configs)
    ensures PositiveConfigs(sorted)
  {
    forall i | 0 <= i < |sorted| ensures sorted[i].qtyPct > 0.0 {
      assert sorted[i] in multiset(sorted);
      assert sorted[i] in configs;
    }
  }

  lemma {:induction false} PositivePctOf(configs: seq<Config>, i: nat)
    requires PositiveConfigs(configs) && i < |configs|
    ensures QtyPctOf(configs, configs[i].levelNum) > 0.0
  {
    if configs[0].levelNum != configs[i].levelNum {
      PositivePctOf(configs[1..], i - 1);
    }
  }

  lemma {:induction false} AllActiveSum(levels: seq<Level>)
    requires forall i :: 0 <= i < |levels| ==> levels[i].status.LevelActive?
    ensures ActiveQty(levels) == Sum(ExitQtys(levels)) && ActiveCount(levels) == |levels|
  {
    if levels != [] {
      var n := |levels| - 1;
      AllActiveSum(levels[..n]);
      assert ExitQtys(levels)[..n] == ExitQtys(levels[..n]);
    }
  }

  lemma {:induction false} ZeroSum(s: seq<int>)
    requires forall i :: 0 <= i < |s| ==> s[i] == 0
    ensures Sum(s) == 0
  {
    if s != [] {
      ZeroSum(s[..|s| - 1]);
    }
  }

  lemma BuiltHolds(side: Side, t: ExitType, price: real, qty: nat, configs: seq<Config>, levels: seq<Level>)
    requires Built(side, t, price, qty, configs, levels) && PositiveConfigs(configs)
    ensures SideHolds(levels, configs, qty)
  {
    forall i | 0 <= i < |levels| ensures QtyPctOf(configs, levels[i].levelNum) > 0.0 {
      PositivePctOf(configs, i);
    }
    AllActiveSum(levels);
    if qty == 0 {
      ZeroSum(ExitQtys(levels));
    } else if levels != [] {
      InitialSplitExact(QtyPcts(configs), qty, ExitQtys(levels));
      forall i | 0 <= i < |levels| ensures levels[i].exitQty >= 0 {
        InitialSplitNonNegative(QtyPcts(configs), qty, ExitQtys(levels), i);
        assert ExitQtys(levels)[i] == levels[i].exitQty;
      }
    }
  }

  lemma FillKeeps(g: Group, price: real, qty: nat, sl: seq<Config>, tp: seq<Config>, g': Group)
    requires Invariant(g) && PositiveConfigs(sl) && PositiveConfigs(tp) && Fill(g, price, qty, sl, tp, g')
    ensures Invariant(g')
  {
    if g.registered && !g.entryFilled {
      ShuffledPcts(if sl != [] then sl else g.slConfigs, g'.slConfigs);
      ShuffledPcts(if tp != [] then tp else g.tpConfigs, g'.tpConfigs);
      BuiltHolds(g.side, SL, price, qty, g'.slConfigs, g'.slLevels);
      BuiltHolds(g.side, TP, price, qty, g'.tpConfigs, g'.tpLevels);
    }
  }

  /** The side that did not fire: while quantity remains it has an active level,
      so the rebalance brings it to the new remaining quantity. */
  lemma OtherSideFollows(levels: seq<Level>, configs: seq<Config>, before: int, remaining: int, levels': seq<Level>)
    requires SideHolds(levels, configs, before) && before > 0 && remaining > 0
    requires Rebalanced(levels, configs, remaining, levels')
    ensures SideHolds(levels', configs, remaining) && ActiveCount(levels') == ActiveCount(levels)
  {
    ActiveQtyNonNegative(levels);
    RebalanceRestoresSum(levels, configs, remaining, levels');
  }

  lemma MarkedHolds(levels: seq<Level>, configs: seq<Config>, remaining: int, i: nat, ltp: real)
    requires SideHolds(levels, configs, remaining) && i < |levels| && levels[i].status.LevelActive?
    ensures SideHolds(Marked(levels, i, LevelTriggered, ltp), configs, remaining - levels[i].exitQty)
    ensures ActiveCount(Marked(levels, i, LevelTriggered, ltp)) == ActiveCount(levels) - 1
    ensures 0 <= levels[i].exitQty <= remaining
  {
    MarkTriggeredMoves(levels, i, ltp);
    ActiveAtMost(levels, i);
  }

  /** A firing level moves its quantity from the remaining quantity to the rows,
      and both sides hold the new remaining quantity. */
  lemma FiresKeeps(g: Group, t: ExitType, i: nat, ltp: real, g': Group)
    requires Invariant(g) && g.state.GroupActive? && i < |g.Levels(t)| && g.Levels(t)[i].status.LevelActive?
    requires Fires(g, t, i, ltp, g')
    ensures Invariant(g')
    ensures g'.remainingQty == g.remainingQty - g.Levels(t)[i].exitQty
    ensures g'.Levels(t) == Marked(g.Levels(t), i, LevelTriggered, ltp)
    ensures ActiveCount(g'.Levels(t)) == ActiveCount(g.Levels(t)) - 1
    ensures ActiveCount(g'.Levels(Other(t))) == ActiveCount(g.Levels(Other(t)))
  {
    hide Rebalanced, ActiveQty, ActiveCount, PositivePcts, NonNegativeQtys, RowQty;
    var o := Other(t);
    MarkedHolds(g.Levels(t), g.Configs(t), g.remainingQty, i, ltp);
    RowQtyAdd(g.rows, Row(g.Levels(t)[i].exitQty, ltp, Some(t), g.Levels(t)[i].levelNum));
    if g'.remainingQty > 0 {
      OtherSideFollows(g.Levels(o), g.Configs(o), g.remainingQty, g'.remainingQty, g'.Levels(o));
    }
  }

  lemma RowQtyAdd(rows: seq<Row>, row: Row)
    requires row.qty >= 0
    ensures RowQty(AddRow(rows, row)) == RowQty(rows) + row.qty
  {
    if row.qty > 0 {
      assert (rows + [row])[..|rows|] == rows;
    }
  }

  lemma StepKeepsInvariant(g: Group, e: Event, g': Group)
    requires Invariant(g) && GoodEvent(e) && Step(g, e, g')
    ensures Invariant(g')
  {
    match e
    case FillEvent(price, qty, sl, tp) => FillKeeps(g, price, qty, sl, tp, g');
    case TickEvent(ltp) =>
      if g.state.GroupActive? {
        if SLHit(g, ltp) < |g.slLevels| {
          FiresKeeps(g, SL, SLHit(g, ltp), ltp, g');
        } else if TPHit(g, ltp) < |g.tpLevels| {
          FiresKeeps(g, TP, TPHit(g, ltp), ltp, g');
        }
      }
    case ForceExitEvent(price) =>
  }

  lemma {:induction false} RunKeepsInvariant(states: seq<Group>, events: seq<Event>, n: nat)
    requires Run(states, events) && n < |states| && Initial(states[0])
    requires forall i :: 0 <= i < |events| ==> GoodEvent(events[i])
    ensures Invariant(states[n])
  {
    if n > 0 {
      RunKeepsInvariant(states, events, n - 1);
      StepKeepsInvariant(states[n - 1], events[n - 1], states[n]);
    }
  }

  /** Paper conservation, in every state of every run: while the group is active
      each non-empty side holds the remaining quantity, exits recorded so far and
      the remaining quantity make up the fill, nothing goes negative, and a
      completed group has recorded exactly the fill. */
  lemma PaperConservation(states: seq<Group>, events: seq<Event>, n: nat)
    requires Run(states, events) && n < |states| && Initial(states[0])
    requires forall i :: 0 <= i < |events| ==> GoodEvent(events[i])
    ensures states[n].remainingQty >= 0
    ensures states[n].state.GroupActive? ==>
              && RowQty(states[n].rows) + states[n].remainingQty == states[n].totalQty
              && (states[n].slLevels != [] ==> ActiveQty(states[n].slLevels) == states[n].remainingQty)
              && (states[n].tpLevels != [] ==> ActiveQty(states[n].tpLevels) == states[n].remainingQty)
    ensures states[n].state.GroupCompleted? ==> RowQty(states[n].rows) == states[n].totalQty
  {
    RunKeepsInvariant(states, events, n);
  }

  /** A group that is no longer active never changes again. */
  lemma {:induction false} InactiveIsFinal(states: seq<Group>, events: seq<Event>, m: nat, n: nat)
    requires Run(states, events) && m <= n < |states|
    requires Invariant(states[m]) && !states[m].state.GroupActive?
    ensures states[n] == states[m]
  {
    if m < n {
      InactiveIsFinal(states, events, m, n - 1);
      assert Step(states[n - 1], events[n - 1], states[n]);
    }
  }

  /** A forced exit at a positive price closes the books: from then on the rows
      add up to the fill. */
  lemma ForcedExitConserves(states: seq<Group>, events: seq<Event>, m: nat, n: nat)
    requires Run(states, events) && m < n < |states| && Initial(states[0])
    requires forall i :: 0 <= i < |events| ==> GoodEvent(events[i])
    requires events[m].ForceExitEvent? && events[m].price > 0.0 && states[m].registered
    ensures states[n].state.GroupCancelled? && RowQty(states[n].rows) == states[n].totalQty
  {
    RunKeepsInvariant(states, events, m);
    RunKeepsInvariant(states, events, m + 1);
    assert Step(states[m], events[m], states[m + 1]);
    var g := states[m];
    RowQtyAdd(g.rows, Row(g.remainingQty, events[m].price, None, 0));
    InactiveIsFinal(states, events, m + 1, n);
  }

  // ---- What the levels and the rows are ----

  /** Every level a fill builds triggers at its own configured percentage of the fill
      price, to within half a tick. */
  lemma BuiltTriggers(side: Side, t: ExitType, price: real, qty: int, configs: seq<Config>, levels: seq<Level>, i: nat)
    requires Built(side, t, price, qty, configs, levels) && i < |configs|
    requires price >= 0.0 && 0.0 <= configs[i].pricePct <= 100.0
    ensures i < |levels| && levels[i].levelNum == configs[i].levelNum && levels[i].status.LevelActive?
    ensures var d, part := FromFill(side, t, price, levels[i].triggerPrice), price * configs[i].pricePct / 100.0;
            part - 0.025 <= d <= part + 0.025
  {
    ExitPriceDistance(side, t, price, configs[i].pricePct);
    hide ExitPrice, FromFill;
  }

  /** And, before the last, holds its own configured percentage of the fill, cut off to
      a whole number, while the percentages up to it total at most a hundred. */
  lemma BuiltShares(side: Side, t: ExitType, price: real, qty: nat, configs: seq<Config>, levels: seq<Level>, i: nat)
    requires Built(side, t, price, qty, configs, levels) && PositiveConfigs(configs) && qty > 0
    requires i + 1 < |configs| && SumReal(QtyPcts(configs)[..i + 1]) <= 100.0
    ensures i < |levels| && IsCutOff(levels[i].exitQty, qty, configs[i].qtyPct)
  {
    InitialShareKept(QtyPcts(configs), qty, ExitQtys(levels), i);
    hide IsCutOff, SumReal;
  }

  /** A level that can fire on a tick. */
  predicate Evaluated(g: Group, t: ExitType, i: nat)
    requires i < |g.Levels(t)|
  {
    g.state.GroupActive? && (t.SL? ==> g.slMode.MultiLevelSL?) && g.Levels(t)[i].status.LevelActive?
  }

  /** `g'` is `g` after some level fired, at a price that hits it. */
  ghost predicate SomeLevelFired(g: Group, ltp: real, g': Group) {
    exists t, i :: 0 <= i < |g.Levels(t)| && Evaluated(g, t, i) && Hit(g.side, t, g.Levels(t)[i].triggerPrice, ltp) && Fires(g, t, i, ltp, g')
  }

  /** A tick fires a level exactly when it hits one that can fire, and one level then;
      a price exactly on the trigger hits. */
  lemma TickFiresIff(g: Group, ltp: real, g': Group)
    requires Tick(g, ltp, g')
    ensures if exists t, i :: 0 <= i < |g.Levels(t)| && Evaluated(g, t, i) && Hit(g.side, t, g.Levels(t)[i].triggerPrice, ltp)
            then SomeLevelFired(g, ltp, g') else g' == g
    ensures forall t, i :: 0 <= i < |g.Levels(t)| && Evaluated(g, t, i) && g.Levels(t)[i].triggerPrice == ltp ==> SomeLevelFired(g, ltp, g')
  {
    hide Fires;
    forall t, i | 0 <= i < |g.Levels(t)| && Evaluated(g, t, i) && g.Levels(t)[i].triggerPrice == ltp
      ensures Hit(g.side, t, g.Levels(t)[i].triggerPrice, ltp)
    {
    }
    if g.state.GroupActive? && SLHit(g, ltp) < |g.slLevels| {
      assert Evaluated(g, SL, SLHit(g, ltp));
    } else if g.state.GroupActive? && TPHit(g, ltp) < |g.tpLevels| {
      assert Evaluated(g, TP, TPHit(g, ltp));
    }
    hide Hit;
  }

  /** The row is the exit of a triggered level: its number, its quantity, and a price
      that hits its trigger. */
  ghost predicate Explained(g: Group, r: Row) {
    r.exitType.Some? ==> exists i :: 0 <= i < |g.Levels(r.exitType.value)| && IsExitOf(g.side, r, g.Levels(r.exitType.value)[i])
  }

  predicate IsExitOf(side: Side, r: Row, l: Level)
    requires r.exitType.Some?
  {
    && l.status.LevelTriggered? && l.levelNum == r.levelNum && l.exitQty == r.qty && l.exitPrice == r.price
    && Hit(side, r.exitType.value, l.triggerPrice, r.price)
  }

  ghost predicate AllExplained(g: Group) {
    && (!g.entryFilled ==> g.slLevels == [] && g.tpLevels == [] && forall r :: r in g.rows ==> r.exitType.None?)
    && forall r :: r in g.rows ==> Explained(g, r)
  }

  /** Triggered levels are as they were. */
  ghost predicate KeepsTriggered(levels: seq<Level>, levels': seq<Level>) {
    |levels'| == |levels| && forall i :: 0 <= i < |levels| && levels[i].status.LevelTriggered? ==> levels'[i] == levels[i]
  }

  lemma StillExplained(g: Group, g': Group, r: Row)
    requires Explained(g, r) && g'.side == g.side
    requires KeepsTriggered(g.slLevels, g'.slLevels) && KeepsTriggered(g.tpLevels, g'.tpLevels)
    ensures Explained(g', r)
  {
    hide Hit;
    if r.exitType.Some? {
      var t := r.exitType.value;
      var i :| 0 <= i < |g.Levels(t)| && IsExitOf(g.side, r, g.Levels(t)[i]);
      assert IsExitOf(g'.side, r, g'.Levels(t)[i]);
    }
  }

  lemma FiringKeepsTriggered(g: Group, t: ExitType, i: nat, ltp: real, g': Group)
    requires i < |g.Levels(t)| && g.Levels(t)[i].status.LevelActive? && Fires(g, t, i, ltp, g')
    ensures KeepsTriggered(g.slLevels, g'.slLevels) && KeepsTriggered(g.tpLevels, g'.tpLevels)
    ensures g'.side == g.side && g'.entryFilled == g.entryFilled
    ensures g'.Levels(t) == Marked(g.Levels(t), i, LevelTriggered, ltp)
    ensures g'.rows == AddRow(g.rows, Row(g.Levels(t)[i].exitQty, ltp, Some(t), g.Levels(t)[i].levelNum))
  {
    hide QtyPctOf, IsLargestRemainder, ActivePcts, AddRow;
  }

  lemma FiringExplained(g: Group, t: ExitType, i: nat, ltp: real, g': Group)
    requires AllExplained(g) && g.entryFilled && i < |g.Levels(t)| && g.Levels(t)[i].status.LevelActive?
    requires Hit(g.side, t, g.Levels(t)[i].triggerPrice, ltp) && Fires(g, t, i, ltp, g')
    ensures AllExplained(g')
  {
    FiringKeepsTriggered(g, t, i, ltp, g');
    var row := Row(g.Levels(t)[i].exitQty, ltp, Some(t), g.Levels(t)[i].levelNum);
    hide Fires, Hit, KeepsTriggered;
    assert IsExitOf(g'.side, row, g'.Levels(t)[i]);
    forall r | r in g'.rows ensures Explained(g', r) {
      if r != row {
        assert r in g.rows;
        StillExplained(g, g', r);
      }
    }
  }

  lemma StepExplained(g: Group, e: Event, g': Group)
    requires AllExplained(g) && Step(g, e, g')
    ensures AllExplained(g')
  {
    match e
    case FillEvent(price, qty, sl, tp) => FillExplained(g, price, qty, sl, tp, g');
    case TickEvent(ltp) =>
      hide Fires, AllExplained, Hit;
      if g.state.GroupActive? {
        FilledIfLevels(g);
        if SLHit(g, ltp) < |g.slLevels| {
          FiringExplained(g, SL, SLHit(g, ltp), ltp, g');
        } else if TPHit(g, ltp) < |g.tpLevels| {
          FiringExplained(g, TP, TPHit(g, ltp), ltp, g');
        }
      }
    case ForceExitEvent(price) =>
      hide Explained;
      forall r | r in g'.rows ensures Explained(g', r) {
        if r in g.rows {
          SameTriggered(g.slLevels);
          SameTriggered(g.tpLevels);
          StillExplained(g, g', r);
        }
      }
  }

  lemma FillExplained(g: Group, price: real, qty: int, sl: seq<Config>, tp: seq<Config>, g': Group)
    requires AllExplained(g) && Fill(g, price, qty, sl, tp, g')
    ensures AllExplained(g')
  {
    hide Built, SortOf;
    assert g'.rows == g.rows;
  }

  lemma FilledIfLevels(g: Group)
    requires AllExplained(g)
    ensures g.slLevels != [] || g.tpLevels != [] ==> g.entryFilled
  {
  }

  lemma SameTriggered(levels: seq<Level>)
    ensures KeepsTriggered(levels, levels)
  {
  }

  /** In every run every recorded exit that was not forced is that of a triggered level,
      with that level's quantity, at a price that hit its trigger. */
  lemma {:induction false} RowsAreExits(states: seq<Group>, events: seq<Event>, n: nat)
    requires Run(states, events) && n < |states| && Initial(states[0])
    ensures AllExplained(states[n])
  {
    hide AllExplained, Step, Initial;
    if n > 0 {
      RowsAreExits(states, events, n - 1);
      StepExplained(states[n - 1], events[n - 1], states[n]);
    } else {
      StartExplained(states[0]);
    }
  }

  lemma StartExplained(g: Group)
    requires Initial(g)
    ensures AllExplained(g)
  {
  }
}

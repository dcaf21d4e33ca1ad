/** Placing the level orders of a filled live group: where the runs of LiveExits
    start.
 */
module LivePlacement {
  import opened Apportionment
  import opened MultiLevel
  import opened PaperExits
  import opened LiveExits

  /** The levels with the broker's answers; a refused order leaves its id empty. */
  function WithIds(levels: seq<Level>, ids: seq<string>): (r: seq<Level>)
    requires |ids| == |levels|
    ensures |r| == |levels|
  {
    seq(|levels|, i requires 0 <= i < |levels| => levels[i].(brokerOrderID := ids[i]))
  }

  /** Each accepted order is indexed to its level. */
  function Indexed(id: int, t: ExitType, levels: seq<Level>, index: map<string, LevelRef>): map<string, LevelRef> {
    if levels == [] then index
    else
      var n := |levels| - 1;
      var before, l := Indexed(id, t, levels[..n], index), levels[n];
      if l.brokerOrderID == "" then before else before[l.brokerOrderID := LevelRef(id, t, l.levelNum)]
  }

  /** Each accepted order asks for its level's quantity. */
  function Booked(levels: seq<Level>, book: map<string, int>): map<string, int> {
    if levels == [] then book
    else
      var n := |levels| - 1;
      var before, l := Booked(levels[..n], book), levels[n];
      if l.brokerOrderID == "" then before else before[l.brokerOrderID := l.exitQty]
  }

  /** `placeMultiSLOrders` and `placeMultiTPOrders` of a filled group. */
  function PlaceLevels(id: int, g: Group, slIds: seq<string>, tpIds: seq<string>, index: map<string, LevelRef>, book: map<string, int>): Live
    requires |slIds| == |g.slLevels| && |tpIds| == |g.tpLevels|
  {
    var sl, tp := WithIds(g.slLevels, slIds), WithIds(g.tpLevels, tpIds);
    Live(g.(slLevels := sl, tpLevels := tp), Indexed(id, TP, tp, Indexed(id, SL, sl, index)), Booked(tp, Booked(sl, book)))
  }

  /** No two accepted orders share an id. */
  ghost predicate DistinctIds(ids: seq<string>) {
    forall i, j :: 0 <= i < j < |ids| && ids[i] != "" ==> ids[i] != ids[j]
  }

  lemma {:induction false} SameQty(levels: seq<Level>, ids: seq<string>)
    requires |ids| == |levels|
    ensures ActiveQty(WithIds(levels, ids)) == ActiveQty(levels)
  {
    if levels != [] {
      var n := |levels| - 1;
      SameQty(levels[..n], ids[..n]);
      assert WithIds(levels, ids)[..n] == WithIds(levels[..n], ids[..n]);
    }
  }

  ghost predicate DistinctOrders(levels: seq<Level>) {
    forall i, j :: 0 <= i < j < |levels| && levels[i].brokerOrderID != "" ==> levels[i].brokerOrderID != levels[j].brokerOrderID
  }

  ghost predicate HasOrder(levels: seq<Level>, b: string) {
    b != "" && exists i :: 0 <= i < |levels| && levels[i].brokerOrderID == b
  }

  /** Every order of the side is indexed to its level. */
  ghost predicate OwnIndexed(id: int, t: ExitType, levels: seq<Level>, index: map<string, LevelRef>) {
    forall i :: 0 <= i < |levels| && levels[i].brokerOrderID != "" ==>
      levels[i].brokerOrderID in index && index[levels[i].brokerOrderID] == LevelRef(id, t, levels[i].levelNum)
  }

  ghost predicate OwnBooked(levels: seq<Level>, book: map<string, int>) {
    forall i :: 0 <= i < |levels| && levels[i].brokerOrderID != "" ==>
      levels[i].brokerOrderID in book && book[levels[i].brokerOrderID] == levels[i].exitQty
  }

  /** Entries that are not orders of the side are as before. */
  ghost predicate KeepsOthers<T>(levels: seq<Level>, before: map<string, T>, after: map<string, T>) {
    forall b :: !HasOrder(levels, b) ==> (b in after <==> b in before) && (b in before ==> after[b] == before[b])
  }

  lemma HasLast(levels: seq<Level>, b: string)
    requires levels != []
    ensures var n := |levels| - 1;
            HasOrder(levels, b) <==> HasOrder(levels[..n], b) || (b != "" && levels[n].brokerOrderID == b)
  {
    var n := |levels| - 1;
    if HasOrder(levels[..n], b) {
      var i :| 0 <= i < n && levels[..n][i].brokerOrderID == b;
      assert levels[i].brokerOrderID == b;
    }
    if HasOrder(levels, b) && levels[n].brokerOrderID != b {
      var i :| 0 <= i < |levels| && levels[i].brokerOrderID == b;
      assert levels[..n][i].brokerOrderID == b;
    }
  }

  lemma IndexOne(id: int, t: ExitType, levels: seq<Level>, index: map<string, LevelRef>, before: map<string, LevelRef>)
    requires levels != [] && DistinctOrders(levels)
    requires var prior := levels[..|levels| - 1]; OwnIndexed(id, t, prior, before) && KeepsOthers(prior, index, before)
    ensures var l := levels[|levels| - 1];
            var after := if l.brokerOrderID == "" then before else before[l.brokerOrderID := LevelRef(id, t, l.levelNum)];
            OwnIndexed(id, t, levels, after) && KeepsOthers(levels, index, after)
  {
    forall b ensures HasOrder(levels, b) <==> HasOrder(levels[..|levels| - 1], b) || (b != "" && levels[|levels| - 1].brokerOrderID == b) {
      HasLast(levels, b);
    }
    hide HasOrder;
  }

  lemma {:induction false} IndexedExactly(id: int, t: ExitType, levels: seq<Level>, index: map<string, LevelRef>)
    requires DistinctOrders(levels)
    ensures OwnIndexed(id, t, levels, Indexed(id, t, levels, index)) && KeepsOthers(levels, index, Indexed(id, t, levels, index))
  {
    if levels != [] {
      IndexedExactly(id, t, levels[..|levels| - 1], index);
      hide OwnIndexed, KeepsOthers;
      IndexOne(id, t, levels, index, Indexed(id, t, levels[..|levels| - 1], index));
    }
  }

  lemma BookOne(levels: seq<Level>, book: map<string, int>, before: map<string, int>)
    requires levels != [] && DistinctOrders(levels)
    requires var prior := levels[..|levels| - 1]; OwnBooked(prior, before) && KeepsOthers(prior, book, before)
    ensures var l := levels[|levels| - 1];
            var after := if l.brokerOrderID == "" then before else before[l.brokerOrderID := l.exitQty];
            OwnBooked(levels, after) && KeepsOthers(levels, book, after)
  {
    forall b ensures HasOrder(levels, b) <==> HasOrder(levels[..|levels| - 1], b) || (b != "" && levels[|levels| - 1].brokerOrderID == b) {
      HasLast(levels, b);
    }
    hide HasOrder;
  }

  lemma {:induction false} BookedExactly(levels: seq<Level>, book: map<string, int>)
    requires DistinctOrders(levels)
    ensures OwnBooked(levels, Booked(levels, book)) && KeepsOthers(levels, book, Booked(levels, book))
  {
    if levels != [] {
      BookedExactly(levels[..|levels| - 1], book);
      hide OwnBooked, KeepsOthers;
      BookOne(levels, book, Booked(levels[..|levels| - 1], book));
    }
  }

  /** Orders of the one side are not orders of the other. */
  ghost predicate Apart(sl: seq<Level>, tp: seq<Level>) {
    forall i, j :: 0 <= i < |sl| && 0 <= j < |tp| && sl[i].brokerOrderID != "" ==> sl[i].brokerOrderID != tp[j].brokerOrderID
  }

  ghost predicate Unindexed(id: int, index: map<string, LevelRef>) {
    "" !in index && forall b :: b in index ==> index[b].groupId != id
  }

  lemma KeptApart(sl: seq<Level>, tp: seq<Level>)
    requires Apart(sl, tp)
    ensures forall i :: 0 <= i < |sl| ==> !HasOrder(tp, sl[i].brokerOrderID)
  {
  }

  lemma OrdersBack(t: ExitType, levels: seq<Level>, id: int, index: map<string, LevelRef>, b: string)
    requires OwnIndexed(id, t, levels, index) && AllActive(levels) && HasOrder(levels, b)
    ensures b in index && index[b].exitType == t && Backed(levels, b, index[b].levelNum)
  {
    var i :| 0 <= i < |levels| && levels[i].brokerOrderID == b;
    assert LiveOrder(levels[i]);
  }

  lemma StillIndexed(id: int, sl: seq<Level>, tp: seq<Level>, mid: map<string, LevelRef>, index: map<string, LevelRef>)
    requires OwnIndexed(id, SL, sl, mid) && KeepsOthers(tp, mid, index) && Apart(sl, tp)
    ensures OwnIndexed(id, SL, sl, index)
  {
    KeptApart(sl, tp);
    hide HasOrder, Apart;
  }

  /** The index after both sides: exactly the group's orders, beside other groups'. */
  lemma BothIndexed(id: int, g: Group, index: map<string, LevelRef>, book: map<string, int>)
    requires DistinctOrders(g.slLevels) && DistinctOrders(g.tpLevels) && Apart(g.slLevels, g.tpLevels) && Unindexed(id, index)
    requires AllActive(g.slLevels) && AllActive(g.tpLevels)
    ensures IndexExact(id, Live(g, Indexed(id, TP, g.tpLevels, Indexed(id, SL, g.slLevels, index)), book))
  {
    var mid := Indexed(id, SL, g.slLevels, index);
    var index' := Indexed(id, TP, g.tpLevels, mid);
    IndexedExactly(id, SL, g.slLevels, index);
    IndexedExactly(id, TP, g.tpLevels, mid);
    hide Indexed, DistinctOrders;
    StillIndexed(id, g.slLevels, g.tpLevels, mid, index');
    assert SideIndexed(id, SL, g.slLevels, index') && SideIndexed(id, TP, g.tpLevels, index');
    assert "" !in index' by { assert !HasOrder(g.slLevels, "") && !HasOrder(g.tpLevels, ""); }
    forall b | b in index' && index'[b].groupId == id ensures Backed(g.Levels(index'[b].exitType), b, index'[b].levelNum) {
      hide Backed, AllActive, SideIndexed;
      if HasOrder(g.tpLevels, b) {
        OrdersBack(TP, g.tpLevels, id, index', b);
      } else {
        assert HasOrder(g.slLevels, b);
        OrdersBack(SL, g.slLevels, id, index', b);
      }
    }
    hide OwnIndexed, KeepsOthers, HasOrder, Apart, SideIndexed, Backed;
  }

  ghost predicate AllActive(levels: seq<Level>) {
    forall i :: 0 <= i < |levels| ==> levels[i].status.LevelActive?
  }

  lemma BothBooked(g: Group, book: map<string, int>)
    requires DistinctOrders(g.slLevels) && DistinctOrders(g.tpLevels) && Apart(g.slLevels, g.tpLevels)
    ensures var book' := Booked(g.tpLevels, Booked(g.slLevels, book));
            Asked(g.slLevels, book') && Asked(g.tpLevels, book')
  {
    BookedExactly(g.slLevels, book);
    BookedExactly(g.tpLevels, Booked(g.slLevels, book));
    KeptApart(g.slLevels, g.tpLevels);
    hide Booked, HasOrder;
  }

  /** The answers a broker gives: accepted orders have ids of their own. */
  ghost predicate GoodAnswers(slIds: seq<string>, tpIds: seq<string>) {
    DistinctIds(slIds + tpIds)
  }

  lemma AnswersApart(sl: seq<Level>, tp: seq<Level>, slIds: seq<string>, tpIds: seq<string>)
    requires |slIds| == |sl| && |tpIds| == |tp| && GoodAnswers(slIds, tpIds)
    ensures DistinctOrders(WithIds(sl, slIds)) && DistinctOrders(WithIds(tp, tpIds)) && Apart(WithIds(sl, slIds), WithIds(tp, tpIds))
  {
    var ids := slIds + tpIds;
    assert forall i :: 0 <= i < |slIds| ==> ids[i] == slIds[i];
    assert forall i :: 0 <= i < |tpIds| ==> ids[|slIds| + i] == tpIds[i];
  }

  lemma PlacedSide(t: ExitType, g: Group, price: real, qty: nat, levels: seq<Level>, configs: seq<Config>, ids: seq<string>)
    requires Built(g.side, t, price, qty, configs, levels) && PositiveConfigs(configs) && DistinctNums(levels) && |ids| == |levels|
    ensures var r := WithIds(levels, ids); LiveSide(r, configs) && AllActive(r) && (r != [] ==> ActiveQty(r) == qty)
  {
    BuiltHolds(g.side, t, price, qty, configs, levels);
    SameQty(levels, ids);
    hide ActiveQty;
  }

  /** A group built by its fill, once its level orders have been placed under ids of
      their own, starts a run of LiveExits: whichever orders the broker refused, so the
      conservation proved there holds from the fill on. */
  lemma FilledGroupIsPlaced(id: int, g0: Group, price: real, qty: nat, slConfigs: seq<Config>, tpConfigs: seq<Config>, g: Group,
                            slIds: seq<string>, tpIds: seq<string>, index: map<string, LevelRef>, book: map<string, int>)
    requires Initial(g0) && PositiveConfigs(slConfigs) && PositiveConfigs(tpConfigs) && Fill(g0, price, qty, slConfigs, tpConfigs, g)
    requires DistinctNums(g.slLevels) && DistinctNums(g.tpLevels) && Unindexed(id, index)
    requires |slIds| == |g.slLevels| && |tpIds| == |g.tpLevels| && GoodAnswers(slIds, tpIds)
    ensures Placed(id, PlaceLevels(id, g, slIds, tpIds, index, book))
  {
    ShuffledPcts(if slConfigs != [] then slConfigs else g0.slConfigs, g.slConfigs);
    ShuffledPcts(if tpConfigs != [] then tpConfigs else g0.tpConfigs, g.tpConfigs);
    PlacedSide(SL, g, price, qty, g.slLevels, g.slConfigs, slIds);
    PlacedSide(TP, g, price, qty, g.tpLevels, g.tpConfigs, tpIds);
    AnswersApart(g.slLevels, g.tpLevels, slIds, tpIds);
    var placed := g.(slLevels := WithIds(g.slLevels, slIds), tpLevels := WithIds(g.tpLevels, tpIds));
    assert g.state.GroupActive? && g.remainingQty == g.totalQty == qty;
    hide WithIds, Built, Fill, GoodAnswers, LiveSide, ActiveQty, Indexed, Booked, DistinctNums, Initial, SortOf, DistinctOrders, Apart,
         PositiveConfigs, IndexExact, Asked, Unindexed;
    BothIndexed(id, placed, index, Booked(placed.tpLevels, Booked(placed.slLevels, book)));
    BothBooked(placed, book);
  }

  lemma {:induction false} TotalStays(states: seq<Live>, events: seq<LiveEvent>, n: nat)
    requires LiveRun(states, events) && n < |states|
    ensures states[n].g.totalQty == states[0].g.totalQty
  {
    hide Rebalanced, BookAfter, CancelActive, ActiveIds, Marked, FindLevel;
    if n > 0 {
      TotalStays(states, events, n - 1);
      assert LiveStep(states[n - 1], events[n - 1], states[n]);
    }
  }

  /** Conservation from the fill on, over every run of callbacks and cancellations. */
  lemma FilledGroupConserves(id: int, g0: Group, price: real, qty: nat, slConfigs: seq<Config>, tpConfigs: seq<Config>, g: Group,
                             slIds: seq<string>, tpIds: seq<string>, index: map<string, LevelRef>, book: map<string, int>,
                             states: seq<Live>, events: seq<LiveEvent>, n: nat)
    requires Initial(g0) && PositiveConfigs(slConfigs) && PositiveConfigs(tpConfigs) && Fill(g0, price, qty, slConfigs, tpConfigs, g)
    requires DistinctNums(g.slLevels) && DistinctNums(g.tpLevels) && Unindexed(id, index)
    requires |slIds| == |g.slLevels| && |tpIds| == |g.tpLevels| && GoodAnswers(slIds, tpIds)
    requires LiveRun(states, events) && n < |states| && states[0] == PlaceLevels(id, g, slIds, tpIds, index, book)
    ensures var live := states[n].g;
            && live.remainingQty >= 0
            && TriggeredQty(live.slLevels) + TriggeredQty(live.tpLevels) + live.remainingQty == qty
            && IndexExact(id, states[n])
  {
    FilledGroupIsPlaced(id, g0, price, qty, slConfigs, tpConfigs, g, slIds, tpIds, index, book);
    assert states[0].g.totalQty == qty;
    hide Fill, GoodAnswers, Placed, Initial, LiveRun, IndexExact;
    TotalStays(states, events, n);
    LiveConservation(id, states, events, n);
  }
}

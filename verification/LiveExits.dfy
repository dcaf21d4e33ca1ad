/** Live trading of a multi-level group: broker fill callbacks of the level
    orders, with the broker-id index and the quantities asked of the broker.

    Callbacks arrive in any order, any number of times.
 */
module LiveExits {
  import opened Apportionment
  import opened MultiLevel
  import opened PaperExits

  datatype LevelRef = LevelRef(groupId: int, exitType: ExitType, levelNum: int)

  /** A group with the manager's index (broker id to level) and `book`, the
      quantity last asked of the broker for each order. */
  datatype Live = Live(g: Group, index: map<string, LevelRef>, book: map<string, int>)

  /** The first level of that number, or the length. */
  function FindLevel(levels: seq<Level>, levelNum: int): (i: nat)
    ensures i <= |levels|
    ensures i < |levels| ==> levels[i].levelNum == levelNum
    ensures forall k :: 0 <= k < i ==> levels[k].levelNum != levelNum
  {
    if levels == [] then 0
    else
      var n := |levels| - 1;
      var i := FindLevel(levels[..n], levelNum);
      if i < n || levels[n].levelNum == levelNum then i else n + 1
  }

  function CancelActive(levels: seq<Level>): (r: seq<Level>) {
    seq(|levels|, i requires 0 <= i < |levels| =>
      if levels[i].status.LevelActive? then levels[i].(status := LevelCancelled) else levels[i])
  }

  function ActiveIds(levels: seq<Level>): set<string> {
    set i | 0 <= i < |levels| && levels[i].status.LevelActive? && levels[i].brokerOrderID != "" :: levels[i].brokerOrderID
  }

  /** The modify requests of a rebalance: one for each changed quantity of a
      level that has a broker order. */
  function BookAfter(book: map<string, int>, levels: seq<Level>, levels': seq<Level>): map<string, int>
    requires |levels'| == |levels|
  {
    if levels == [] then book
    else
      var n := |levels| - 1;
      var before := BookAfter(book, levels[..n], levels'[..n]);
      var l := levels'[n];
      if l.brokerOrderID != "" && l.exitQty != levels[n].exitQty then before[l.brokerOrderID := l.exitQty] else before
  }

  /** `onMultiLevelFilled`. */
  ghost predicate Filled(s: Live, t: ExitType, levelNum: int, price: real, s': Live) {
    var levels := s.g.Levels(t);
    var i := FindLevel(levels, levelNum);
    if i == |levels| || !levels[i].status.LevelActive? then s' == s
    else
      var o := Other(t);
      var remaining := s.g.remainingQty - levels[i].exitQty;
      var g := s.g.WithLevels(t, Marked(levels, i, LevelTriggered, price)).(remainingQty := remaining);
      var index := s.index - {levels[i].brokerOrderID};
      if remaining <= 0 then
        && s'.g == g.(state := GroupCompleted, registered := false,
                      slLevels := CancelActive(g.slLevels), tpLevels := CancelActive(g.tpLevels))
        && s'.index == index - ActiveIds(g.slLevels) - ActiveIds(g.tpLevels)
        && s'.book == s.book
      else
        && s'.g == g.WithLevels(t, s'.g.Levels(t)).WithLevels(o, s'.g.Levels(o))
        && Rebalanced(g.Levels(t), g.Configs(t), remaining, s'.g.Levels(t))
        && Rebalanced(g.Levels(o), g.Configs(o), remaining, s'.g.Levels(o))
        && s'.index == index
        && s'.book == BookAfter(BookAfter(s.book, g.Levels(t), s'.g.Levels(t)), g.Levels(o), s'.g.Levels(o))
  }

  /** `cancelGroupInternal` of a live group. */
  function Cancelled(s: Live): Live {
    if !s.g.state.GroupActive? then s
    else Live(s.g.(state := GroupCancelled, registered := false,
                   slLevels := CancelActive(s.g.slLevels), tpLevels := CancelActive(s.g.tpLevels)),
              s.index - ActiveIds(s.g.slLevels) - ActiveIds(s.g.tpLevels), s.book)
  }

  datatype LiveEvent = FilledEvent(exitType: ExitType, levelNum: int, price: real) | CancelEvent

  ghost predicate LiveStep(s: Live, e: LiveEvent, s': Live) {
    match e
    case FilledEvent(t, num, price) => Filled(s, t, num, price, s')
    case CancelEvent => s' == Cancelled(s)
  }

  ghost predicate LiveRun(states: seq<Live>, events: seq<LiveEvent>) {
    && |states| == |events| + 1
    && forall i :: 0 <= i < |events| ==> LiveStep(states[i], events[i], states[i + 1])
  }

  // ---- Invariant ----

  ghost predicate DistinctNums(levels: seq<Level>) {
    forall i, j :: 0 <= i < j < |levels| ==> levels[i].levelNum != levels[j].levelNum
  }

  predicate LiveOrder(l: Level) {
    l.status.LevelActive? && l.brokerOrderID != ""
  }

  /** Every live order of the side is indexed to its level. */
  ghost predicate SideIndexed(id: int, t: ExitType, levels: seq<Level>, index: map<string, LevelRef>) {
    forall i :: 0 <= i < |levels| && LiveOrder(levels[i]) ==>
      levels[i].brokerOrderID in index && index[levels[i].brokerOrderID] == LevelRef(id, t, levels[i].levelNum)
  }

  /** An index entry of the group belongs to a live order of the group. */
  ghost predicate Backed(levels: seq<Level>, b: string, levelNum: int) {
    exists i :: 0 <= i < |levels| && LiveOrder(levels[i]) && levels[i].brokerOrderID == b && levels[i].levelNum == levelNum
  }

  ghost predicate IndexExact(id: int, s: Live) {
    && "" !in s.index
    && SideIndexed(id, SL, s.g.slLevels, s.index) && SideIndexed(id, TP, s.g.tpLevels, s.index)
    && forall b :: b in s.index && s.index[b].groupId == id ==> Backed(s.g.Levels(s.index[b].exitType), b, s.index[b].levelNum)
  }

  ghost predicate Asked(levels: seq<Level>, book: map<string, int>) {
    forall i :: 0 <= i < |levels| && LiveOrder(levels[i]) ==>
      levels[i].brokerOrderID in book && book[levels[i].brokerOrderID] == levels[i].exitQty
  }

  ghost predicate LiveSide(levels: seq<Level>, configs: seq<Config>) {
    DistinctNums(levels) && PositivePcts(levels, configs) && NonNegativeQtys(levels)
  }

  ghost predicate LiveInvariant(id: int, s: Live) {
    && LiveSide(s.g.slLevels, s.g.slConfigs) && LiveSide(s.g.tpLevels, s.g.tpConfigs)
    && s.g.remainingQty >= 0
    && TriggeredQty(s.g.slLevels) + TriggeredQty(s.g.tpLevels) + s.g.remainingQty == s.g.totalQty
    && (s.g.state.GroupActive? ==>
          && SideHolds(s.g.slLevels, s.g.slConfigs, s.g.remainingQty)
          && SideHolds(s.g.tpLevels, s.g.tpConfigs, s.g.remainingQty))
    && (!s.g.state.GroupActive? ==> ActiveCount(s.g.slLevels) == 0 && ActiveCount(s.g.tpLevels) == 0)
    && IndexExact(id, s)
    && Asked(s.g.slLevels, s.book) && Asked(s.g.tpLevels, s.book)
  }

  // ---- Frame facts ----

  lemma {:induction false} CancelActiveFacts(levels: seq<Level>)
    ensures ActiveCount(CancelActive(levels)) == 0 && TriggeredQty(CancelActive(levels)) == TriggeredQty(levels)
    ensures forall i :: 0 <= i < |levels| ==> !CancelActive(levels)[i].status.LevelActive?
  {
    if levels != [] {
      var n := |levels| - 1;
      CancelActiveFacts(levels[..n]);
      assert CancelActive(levels)[..n] == CancelActive(levels[..n]);
    }
  }

  lemma {:induction false} NoneActive(levels: seq<Level>)
    requires ActiveCount(levels) == 0
    ensures forall i :: 0 <= i < |levels| ==> !levels[i].status.LevelActive?
  {
    if levels != [] {
      NoneActive(levels[..|levels| - 1]);
    }
  }

  lemma {:induction false} BookAfterFrame(book: map<string, int>, levels: seq<Level>, levels': seq<Level>, b: string)
    requires |levels'| == |levels|
    requires forall i :: 0 <= i < |levels'| && levels'[i].brokerOrderID == b ==> levels'[i].exitQty == levels[i].exitQty
    ensures b in BookAfter(book, levels, levels') <==> b in book
    ensures b in book ==> BookAfter(book, levels, levels')[b] == book[b]
  {
    if levels != [] {
      var n := |levels| - 1;
      BookAfterFrame(book, levels[..n], levels'[..n], b);
    }
  }

  lemma {:induction false} BookAfterHas(book: map<string, int>, levels: seq<Level>, levels': seq<Level>, i: nat)
    requires |levels'| == |levels| && i < |levels| && levels'[i].brokerOrderID != ""
    requires levels[i].exitQty != levels'[i].exitQty
    requires forall j :: i < j < |levels'| && levels'[j].brokerOrderID == levels'[i].brokerOrderID ==>
               levels'[j].exitQty == levels[j].exitQty
    ensures levels'[i].brokerOrderID in BookAfter(book, levels, levels')
    ensures BookAfter(book, levels, levels')[levels'[i].brokerOrderID] == levels'[i].exitQty
  {
    var n := |levels| - 1;
    if i < n {
      BookAfterHas(book, levels[..n], levels'[..n], i);
    }
  }

  /** Live orders of one side have distinct broker ids. */
  lemma DistinctIds(id: int, t: ExitType, levels: seq<Level>, index: map<string, LevelRef>, i: nat, j: nat)
    requires SideIndexed(id, t, levels, index) && DistinctNums(levels)
    requires i < |levels| && j < |levels| && LiveOrder(levels[i]) && LiveOrder(levels[j])
    requires levels[i].brokerOrderID == levels[j].brokerOrderID
    ensures i == j
  {
  }

  lemma IndexSurvivesRebalance(id: int, t: ExitType, levels: seq<Level>, configs: seq<Config>, levels': seq<Level>, index: map<string, LevelRef>)
    requires OnlyQtysChanged(levels, configs, levels') && SideIndexed(id, t, levels, index)
    ensures SideIndexed(id, t, levels', index)
    ensures forall b, num :: Backed(levels, b, num) ==> Backed(levels', b, num)
    ensures DistinctNums(levels) ==> DistinctNums(levels')
    ensures PositivePcts(levels, configs) ==> PositivePcts(levels', configs)
  {
    forall b, num | Backed(levels, b, num) ensures Backed(levels', b, num) {
      var i :| 0 <= i < |levels| && LiveOrder(levels[i]) && levels[i].brokerOrderID == b && levels[i].levelNum == num;
      assert LiveOrder(levels'[i]);
    }
  }

  /** Rebalancing one side leaves the broker's orders of that side in step with
      the levels, and those of the other side alone. */
  lemma RebalanceAsks(id: int, t: ExitType, levels: seq<Level>, configs: seq<Config>, levels': seq<Level>,
                      others: seq<Level>, index: map<string, LevelRef>, book: map<string, int>)
    requires OnlyQtysChanged(levels, configs, levels') && DistinctNums(levels)
    requires SideIndexed(id, t, levels, index) && SideIndexed(id, Other(t), others, index)
    requires Asked(levels, book) && Asked(others, book)
    ensures Asked(levels', BookAfter(book, levels, levels')) && Asked(others, BookAfter(book, levels, levels'))
  {
    var book' := BookAfter(book, levels, levels');
    forall i | 0 <= i < |levels'| && LiveOrder(levels'[i])
      ensures levels'[i].brokerOrderID in book' && book'[levels'[i].brokerOrderID] == levels'[i].exitQty
    {
      assert LiveOrder(levels[i]);
      forall j | 0 <= j < |levels'| && j != i && levels'[j].brokerOrderID == levels'[i].brokerOrderID
        ensures levels'[j].exitQty == levels[j].exitQty
      {
        if Participates(levels[j], configs) {
          DistinctIds(id, t, levels, index, i, j);
        }
      }
      if levels'[i].exitQty != levels[i].exitQty {
        BookAfterHas(book, levels, levels', i);
      } else {
        BookAfterFrame(book, levels, levels', levels'[i].brokerOrderID);
      }
    }
    forall k | 0 <= k < |others| && LiveOrder(others[k])
      ensures others[k].brokerOrderID in book' && book'[others[k].brokerOrderID] == others[k].exitQty
    {
      forall j | 0 <= j < |levels'| && levels'[j].brokerOrderID == others[k].brokerOrderID
        ensures levels'[j].exitQty == levels[j].exitQty
      {
        if Participates(levels[j], configs) {
          assert LiveOrder(levels[j]);
        }
      }
      BookAfterFrame(book, levels, levels', others[k].brokerOrderID);
    }
  }

  lemma MarkKeepsIndexed(id: int, t: ExitType, levels: seq<Level>, index: map<string, LevelRef>, i: nat, price: real)
    requires SideIndexed(id, t, levels, index) && DistinctNums(levels)
    requires i < |levels| && levels[i].status.LevelActive?
    ensures SideIndexed(id, t, Marked(levels, i, LevelTriggered, price), index - {levels[i].brokerOrderID})
  {
    var marked := Marked(levels, i, LevelTriggered, price);
    forall k | 0 <= k < |marked| && LiveOrder(marked[k])
      ensures marked[k].brokerOrderID != levels[i].brokerOrderID
    {
      assert LiveOrder(levels[k]);
      if marked[k].brokerOrderID == levels[i].brokerOrderID {
        DistinctIds(id, t, levels, index, i, k);
      }
    }
  }

  lemma MarkKeepsOthersIndexed(id: int, t: ExitType, levels: seq<Level>, others: seq<Level>, index: map<string, LevelRef>, i: nat)
    requires SideIndexed(id, t, levels, index) && SideIndexed(id, Other(t), others, index)
    requires i < |levels| && levels[i].status.LevelActive?
    ensures SideIndexed(id, Other(t), others, index - {levels[i].brokerOrderID})
  {
    forall k | 0 <= k < |others| && LiveOrder(others[k])
      ensures others[k].brokerOrderID != levels[i].brokerOrderID
    {
      assert levels[i].brokerOrderID != "" ==> LiveOrder(levels[i]);
    }
  }

  lemma MarkKeepsBacked(levels: seq<Level>, i: nat, price: real, b: string, num: int)
    requires i < |levels| && Backed(levels, b, num) && b != levels[i].brokerOrderID
    ensures Backed(Marked(levels, i, LevelTriggered, price), b, num)
  {
    var k :| 0 <= k < |levels| && LiveOrder(levels[k]) && levels[k].brokerOrderID == b && levels[k].levelNum == num;
    assert LiveOrder(Marked(levels, i, LevelTriggered, price)[k]);
  }

  /** Dropping the fired level's id keeps the index exact. */
  lemma IndexAfterMark(id: int, s: Live, t: ExitType, i: nat, price: real)
    requires IndexExact(id, s) && DistinctNums(s.g.slLevels) && DistinctNums(s.g.tpLevels)
    requires i < |s.g.Levels(t)| && s.g.Levels(t)[i].status.LevelActive?
    ensures IndexExact(id, Live(s.g.WithLevels(t, Marked(s.g.Levels(t), i, LevelTriggered, price)),
                                s.index - {s.g.Levels(t)[i].brokerOrderID}, s.book))
  {
    hide SideIndexed, Backed, DistinctNums;
    var levels := s.g.Levels(t);
    MarkKeepsIndexed(id, t, levels, s.index, i, price);
    MarkKeepsOthersIndexed(id, t, levels, s.g.Levels(Other(t)), s.index, i);
    var index := s.index - {levels[i].brokerOrderID};
    forall b | b in index && index[b].groupId == id && index[b].exitType == t
      ensures Backed(Marked(levels, i, LevelTriggered, price), b, index[b].levelNum)
    {
      MarkKeepsBacked(levels, i, price, b, index[b].levelNum);
    }
  }

  lemma BackedIsListed(levels: seq<Level>, b: string, num: int)
    requires Backed(levels, b, num)
    ensures b in ActiveIds(levels)
  {
    var k :| 0 <= k < |levels| && LiveOrder(levels[k]) && levels[k].brokerOrderID == b && levels[k].levelNum == num;
  }

  lemma IndexAfterCancel(id: int, s: Live)
    requires IndexExact(id, s)
    ensures IndexExact(id, Live(s.g.(slLevels := CancelActive(s.g.slLevels), tpLevels := CancelActive(s.g.tpLevels)),
                                s.index - ActiveIds(s.g.slLevels) - ActiveIds(s.g.tpLevels), s.book))
    ensures forall b :: b in s.index - ActiveIds(s.g.slLevels) - ActiveIds(s.g.tpLevels) ==> s.index[b].groupId != id
  {
    CancelActiveFacts(s.g.slLevels);
    CancelActiveFacts(s.g.tpLevels);
    forall b | b in s.index - ActiveIds(s.g.slLevels) - ActiveIds(s.g.tpLevels) ensures s.index[b].groupId != id {
      if s.index[b].groupId == id {
        BackedIsListed(s.g.Levels(s.index[b].exitType), b, s.index[b].levelNum);
      }
    }
  }

  /** What a callback or a cancellation leaves of the other groups' entries. */
  ghost predicate OthersKept(id: int, index: map<string, LevelRef>, index': map<string, LevelRef>) {
    forall b :: b in index && index[b].groupId != id ==> b in index' && index'[b] == index[b]
  }

  lemma OwnIdsOnly(id: int, s: Live, t: ExitType)
    requires IndexExact(id, s)
    ensures forall b :: b in ActiveIds(s.g.Levels(t)) ==> b in s.index && s.index[b].groupId == id
    ensures OthersKept(id, s.index, s.index - ActiveIds(s.g.Levels(t)))
  {
  }

  // ---- The runs ----

  /** A callback that completes the position. */
  lemma LastFillKeeps(id: int, s: Live, t: ExitType, i: nat, price: real, s': Live)
    requires LiveInvariant(id, s) && i < |s.g.Levels(t)| && i == FindLevel(s.g.Levels(t), s.g.Levels(t)[i].levelNum)
    requires s.g.Levels(t)[i].status.LevelActive? && s.g.remainingQty - s.g.Levels(t)[i].exitQty <= 0
    requires Filled(s, t, s.g.Levels(t)[i].levelNum, price, s')
    ensures LiveInvariant(id, s') && s'.g.state.GroupCompleted? && s'.g.remainingQty == 0
    ensures OthersKept(id, s.index, s'.index)
  {
    hide ActiveQty, TriggeredQty, ActiveCount, SideIndexed, Backed, PositivePcts, NonNegativeQtys, DistinctNums, Asked;
    var levels := s.g.Levels(t);
    ActiveSide(id, s, t, i);
    MarkedHolds(levels, s.g.Configs(t), s.g.remainingQty, i, price);
    MarkTriggeredMoves(levels, i, price);
    IndexAfterMark(id, s, t, i, price);
    var g := s.g.WithLevels(t, Marked(levels, i, LevelTriggered, price));
    var mid := Live(g, s.index - {levels[i].brokerOrderID}, s.book);
    IndexAfterCancel(id, mid);
    OwnIdsOnly(id, mid, SL);
    OwnIdsOnly(id, mid, TP);
    CancelActiveFacts(g.slLevels);
    CancelActiveFacts(g.tpLevels);
    CancelKeepsSide(g.slLevels, s.g.slLevels, s.g.slConfigs, s.book);
    CancelKeepsSide(g.tpLevels, s.g.tpLevels, s.g.tpConfigs, s.book);
    FiredIdIsOwn(id, s, t, i);
  }

  /** An active level exists only while the group is active. */
  lemma ActiveSide(id: int, s: Live, t: ExitType, i: nat)
    requires LiveInvariant(id, s) && i < |s.g.Levels(t)| && s.g.Levels(t)[i].status.LevelActive?
    ensures s.g.state.GroupActive? && SideHolds(s.g.Levels(t), s.g.Configs(t), s.g.remainingQty)
  {
    if !s.g.state.GroupActive? {
      NoneActive(s.g.Levels(t));
    }
  }

  lemma FiredIdIsOwn(id: int, s: Live, t: ExitType, i: nat)
    requires IndexExact(id, s) && i < |s.g.Levels(t)| && s.g.Levels(t)[i].status.LevelActive?
    ensures OthersKept(id, s.index, s.index - {s.g.Levels(t)[i].brokerOrderID})
  {
    assert s.g.Levels(t)[i].brokerOrderID != "" ==> LiveOrder(s.g.Levels(t)[i]);
  }

  lemma CancelKeepsSide(levels: seq<Level>, before: seq<Level>, configs: seq<Config>, book: map<string, int>)
    requires |levels| == |before| && LiveSide(before, configs)
    requires forall i :: 0 <= i < |levels| ==> levels[i].levelNum == before[i].levelNum
    ensures LiveSide(CancelActive(levels), configs) && Asked(CancelActive(levels), book)
  {
    CancelActiveFacts(levels);
  }

  /** What the live callback's rebalance of both sides keeps. */
  lemma BothSidesFollow(id: int, s: Live, t: ExitType, i: nat, price: real, remaining: int, same: seq<Level>, other: seq<Level>)
    requires LiveInvariant(id, s) && i < |s.g.Levels(t)| && s.g.Levels(t)[i].status.LevelActive?
    requires remaining == s.g.remainingQty - s.g.Levels(t)[i].exitQty > 0
    requires Rebalanced(Marked(s.g.Levels(t), i, LevelTriggered, price), s.g.Configs(t), remaining, same)
    requires Rebalanced(s.g.Levels(Other(t)), s.g.Configs(Other(t)), remaining, other)
    ensures s.g.state.GroupActive?
    ensures SideHolds(same, s.g.Configs(t), remaining) && SideHolds(other, s.g.Configs(Other(t)), remaining)
    ensures TriggeredQty(same) == TriggeredQty(s.g.Levels(t)) + s.g.Levels(t)[i].exitQty
    ensures TriggeredQty(other) == TriggeredQty(s.g.Levels(Other(t)))
  {
    hide ActiveQty, TriggeredQty, ActiveCount, IndexExact, PositivePcts, NonNegativeQtys, DistinctNums, Asked, Rebalanced;
    var o := Other(t);
    ActiveSide(id, s, t, i);
    MarkedHolds(s.g.Levels(t), s.g.Configs(t), s.g.remainingQty, i, price);
    MarkTriggeredMoves(s.g.Levels(t), i, price);
    var marked := Marked(s.g.Levels(t), i, LevelTriggered, price);
    OtherSideFollows(marked, s.g.Configs(t), remaining, remaining, same);
    OtherSideFollows(s.g.Levels(o), s.g.Configs(o), s.g.remainingQty, remaining, other);
    RebalanceRestoresSum(marked, s.g.Configs(t), remaining, same);
    RebalanceRestoresSum(s.g.Levels(o), s.g.Configs(o), remaining, other);
  }

  /** The broker id index and the asked quantities after it. */
  lemma BothSidesIndexed(id: int, s: Live, t: ExitType, i: nat, price: real, s': Live)
    requires LiveInvariant(id, s) && i < |s.g.Levels(t)| && s.g.Levels(t)[i].status.LevelActive?
    requires var o := Other(t);
             var marked := Marked(s.g.Levels(t), i, LevelTriggered, price);
             && OnlyQtysChanged(marked, s.g.Configs(t), s'.g.Levels(t))
             && OnlyQtysChanged(s.g.Levels(o), s.g.Configs(o), s'.g.Levels(o))
             && s'.index == s.index - {s.g.Levels(t)[i].brokerOrderID}
             && s'.book == BookAfter(BookAfter(s.book, marked, s'.g.Levels(t)), s.g.Levels(o), s'.g.Levels(o))
    ensures IndexExact(id, s') && OthersKept(id, s.index, s'.index)
    ensures DistinctNums(s'.g.slLevels) && DistinctNums(s'.g.tpLevels)
    ensures Asked(s'.g.slLevels, s'.book) && Asked(s'.g.tpLevels, s'.book)
  {
    var o := Other(t);
    var marked := Marked(s.g.Levels(t), i, LevelTriggered, price);
    assert |s'.g.Levels(t)| == |marked| && |s'.g.Levels(o)| == |s.g.Levels(o)|;
    hide SideIndexed, Backed, PositivePcts, NonNegativeQtys, DistinctNums, Asked, BookAfter, OnlyQtysChanged, SideHolds;
    IndexAfterMark(id, s, t, i, price);
    FiredIdIsOwn(id, s, t, i);
    MarkKeepsSide(s.g.Levels(t), s.g.Configs(t), i, price, s.book);
    IndexSurvivesRebalance(id, t, marked, s.g.Configs(t), s'.g.Levels(t), s'.index);
    IndexSurvivesRebalance(id, o, s.g.Levels(o), s.g.Configs(o), s'.g.Levels(o), s'.index);
    RebalanceAsks(id, t, marked, s.g.Configs(t), s'.g.Levels(t), s.g.Levels(o), s'.index, s.book);
    RebalanceAsks(id, o, s.g.Levels(o), s.g.Configs(o), s'.g.Levels(o), s'.g.Levels(t), s'.index,
                  BookAfter(s.book, marked, s'.g.Levels(t)));
  }

  /** A callback that leaves quantity: both sides are rebalanced to it. */
  lemma PartFillKeeps(id: int, s: Live, t: ExitType, i: nat, price: real, s': Live)
    requires LiveInvariant(id, s) && i < |s.g.Levels(t)| && i == FindLevel(s.g.Levels(t), s.g.Levels(t)[i].levelNum)
    requires s.g.Levels(t)[i].status.LevelActive? && s.g.remainingQty - s.g.Levels(t)[i].exitQty > 0
    requires Filled(s, t, s.g.Levels(t)[i].levelNum, price, s')
    ensures LiveInvariant(id, s')
    ensures OthersKept(id, s.index, s'.index)
  {
    hide ActiveQty, TriggeredQty, ActiveCount, IndexExact, PositivePcts, NonNegativeQtys, DistinctNums, Asked,
      BookAfter, IsLargestRemainder, ActiveIdx, ActivePcts, FindLevel, OnlyQtysChanged;
    BothSidesFollow(id, s, t, i, price, s.g.remainingQty - s.g.Levels(t)[i].exitQty, s'.g.Levels(t), s'.g.Levels(Other(t)));
    BothSidesIndexed(id, s, t, i, price, s');
  }

  lemma MarkKeepsSide(levels: seq<Level>, configs: seq<Config>, i: nat, price: real, book: map<string, int>)
    requires LiveSide(levels, configs) && Asked(levels, book) && i < |levels|
    ensures LiveSide(Marked(levels, i, LevelTriggered, price), configs)
    ensures Asked(Marked(levels, i, LevelTriggered, price), book)
  {
  }

  lemma CancelKeeps(id: int, s: Live)
    requires LiveInvariant(id, s)
    ensures LiveInvariant(id, Cancelled(s)) && OthersKept(id, s.index, Cancelled(s).index)
  {
    hide ActiveQty, TriggeredQty, ActiveCount, SideIndexed, Backed, PositivePcts, NonNegativeQtys, DistinctNums, Asked;
    if s.g.state.GroupActive? {
      IndexAfterCancel(id, s);
      OwnIdsOnly(id, s, SL);
      OwnIdsOnly(id, s, TP);
      CancelActiveFacts(s.g.slLevels);
      CancelActiveFacts(s.g.tpLevels);
      CancelKeepsSide(s.g.slLevels, s.g.slLevels, s.g.slConfigs, s.book);
      CancelKeepsSide(s.g.tpLevels, s.g.tpLevels, s.g.tpConfigs, s.book);
    }
  }

  lemma LiveStepKeeps(id: int, s: Live, e: LiveEvent, s': Live)
    requires LiveInvariant(id, s) && LiveStep(s, e, s')
    ensures LiveInvariant(id, s') && OthersKept(id, s.index, s'.index)
  {
    hide LiveInvariant;
    match e
    case CancelEvent => CancelKeeps(id, s);
    case FilledEvent(t, num, price) =>
      var i := FindLevel(s.g.Levels(t), num);
      if i < |s.g.Levels(t)| && s.g.Levels(t)[i].status.LevelActive? {
        if s.g.remainingQty - s.g.Levels(t)[i].exitQty <= 0 {
          LastFillKeeps(id, s, t, i, price, s');
        } else {
          PartFillKeeps(id, s, t, i, price, s');
        }
      }
  }

  lemma {:induction false} LiveRunKeeps(id: int, states: seq<Live>, events: seq<LiveEvent>, n: nat)
    requires LiveRun(states, events) && n < |states| && LiveInvariant(id, states[0])
    ensures LiveInvariant(id, states[n]) && OthersKept(id, states[0].index, states[n].index)
  {
    hide LiveInvariant, LiveStep;
    if n > 0 {
      LiveRunKeeps(id, states, events, n - 1);
      LiveStepKeeps(id, states[n - 1], events[n - 1], states[n]);
    }
  }

  /** The state right after placement: every level active and asked at the broker
      for its quantity under its own id. */
  ghost predicate Placed(id: int, s: Live) {
    && s.g.state.GroupActive? && s.g.remainingQty == s.g.totalQty >= 0
    && LiveSide(s.g.slLevels, s.g.slConfigs) && LiveSide(s.g.tpLevels, s.g.tpConfigs)
    && (s.g.slLevels != [] ==> ActiveQty(s.g.slLevels) == s.g.totalQty)
    && (s.g.tpLevels != [] ==> ActiveQty(s.g.tpLevels) == s.g.totalQty)
    && (forall i :: 0 <= i < |s.g.slLevels| ==> s.g.slLevels[i].status.LevelActive?)
    && (forall i :: 0 <= i < |s.g.tpLevels| ==> s.g.tpLevels[i].status.LevelActive?)
    && IndexExact(id, s) && Asked(s.g.slLevels, s.book) && Asked(s.g.tpLevels, s.book)
  }

  lemma {:induction false} NoneTriggered(levels: seq<Level>)
    requires forall i :: 0 <= i < |levels| ==> levels[i].status.LevelActive?
    ensures TriggeredQty(levels) == 0
  {
    if levels != [] {
      NoneTriggered(levels[..|levels| - 1]);
    }
  }

  /** Live fills, in every state of every run of callbacks (stale, repeated or
      unknown ones included) and cancellations: exits and remaining quantity make
      up the fill; while active each non-empty side holds the remaining quantity
      and the broker has been asked for exactly the quantities of the live
      orders; afterwards nothing is active and no id of the group is indexed. */
  lemma LiveConservation(id: int, states: seq<Live>, events: seq<LiveEvent>, n: nat)
    requires LiveRun(states, events) && n < |states| && Placed(id, states[0])
    ensures var g := states[n].g;
            && TriggeredQty(g.slLevels) + TriggeredQty(g.tpLevels) + g.remainingQty == g.totalQty
            && g.remainingQty >= 0
            && (g.state.GroupActive? ==>
                  && (g.slLevels != [] ==> ActiveQty(g.slLevels) == g.remainingQty)
                  && (g.tpLevels != [] ==> ActiveQty(g.tpLevels) == g.remainingQty)
                  && Asked(g.slLevels, states[n].book) && Asked(g.tpLevels, states[n].book))
            && IndexExact(id, states[n])
            && (!g.state.GroupActive? ==>
                  && ActiveCount(g.slLevels) == 0 && ActiveCount(g.tpLevels) == 0
                  && forall b :: b in states[n].index ==> states[n].index[b].groupId != id)
    ensures OthersKept(id, states[0].index, states[n].index)
  {
    NoneTriggered(states[0].g.slLevels);
    NoneTriggered(states[0].g.tpLevels);
    LiveRunKeeps(id, states, events, n);
    if !states[n].g.state.GroupActive? {
      NoneActive(states[n].g.slLevels);
      NoneActive(states[n].g.tpLevels);
    }
  }

  ghost predicate ZeroIffCompleted(g: Group) {
    && (g.state.GroupActive? ==> g.remainingQty > 0)
    && (g.state.GroupCompleted? ==> g.remainingQty == 0)
  }

  lemma StepZeroIffCompleted(id: int, s: Live, e: LiveEvent, s': Live)
    requires LiveInvariant(id, s) && LiveStep(s, e, s') && ZeroIffCompleted(s.g)
    ensures ZeroIffCompleted(s'.g)
  {
    hide LiveInvariant, Rebalanced, FindLevel, BookAfter, CancelActive, ActiveIds;
    if e.FilledEvent? {
      var t := e.exitType;
      var i := FindLevel(s.g.Levels(t), e.levelNum);
      if i < |s.g.Levels(t)| && s.g.Levels(t)[i].status.LevelActive? {
        ActiveSide(id, s, t, i);
        ActiveAtMost(s.g.Levels(t), i);
      }
    }
  }

  /** A live group that started with quantity is completed exactly when the last
      of it has exited. */
  lemma {:induction false} CompletedAtZero(id: int, states: seq<Live>, events: seq<LiveEvent>, n: nat)
    requires LiveRun(states, events) && n < |states| && LiveInvariant(id, states[0])
    requires states[0].g.state.GroupActive? && states[0].g.remainingQty > 0
    ensures ZeroIffCompleted(states[n].g)
  {
    hide LiveInvariant, LiveStep;
    if n > 0 {
      CompletedAtZero(id, states, events, n - 1);
      LiveRunKeeps(id, states, events, n - 1);
      StepZeroIffCompleted(id, states[n - 1], events[n - 1], states[n]);
    }
  }
}

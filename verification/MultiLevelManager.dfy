/** The multi-level manager as it runs: levels and groups updated in place,
    loops that fill quantity arrays, and the manager's index maps.

    Each method is proved against the transition of the same name in PaperExits
    or LiveExits.  A callback, a tick evaluation or a cancellation is one atomic
    call here; EvalWorkers takes the tick workers apart.
 */
module MultiLevelManager {
  import opened Orders
  import opened TickRounding
  import opened Apportionment
  import opened MultiLevel
  import opened PaperExits
  import opened LiveExits

  class ExitLevel {
    const levelNum: int
    const triggerPrice: real
    var exitQty: int
    const originalExitQty: int
    var status: LevelStatus
    var brokerOrderID: string
    var exitPrice: real

    constructor (levelNum: int, triggerPrice: real, qty: int)
      ensures View() == Level(levelNum, triggerPrice, qty, qty, LevelActive, "", 0.0)
    {
      this.levelNum, this.triggerPrice := levelNum, triggerPrice;
      exitQty, originalExitQty := qty, qty;
      status, brokerOrderID, exitPrice := LevelActive, "", 0.0;
    }

    function View(): Level
      reads this
    {
      Level(levelNum, triggerPrice, exitQty, originalExitQty, status, brokerOrderID, exitPrice)
    }

    /** Check and transition under one lock; false when another exit won. */
    method TryMarkTriggered(price: real) returns (ok: bool)
      modifies this`status, this`exitPrice
      ensures ok == old(status).LevelActive?
      ensures View() == if ok then old(View()).(status := LevelTriggered, exitPrice := price) else old(View())
    {
      if status != LevelActive {
        return false;
      }
      status := LevelTriggered;
      exitPrice := price;
      return true;
    }
  }

  ghost function Views(levels: seq<ExitLevel>): (v: seq<Level>)
    reads levels
    ensures |v| == |levels|
    ensures forall i :: 0 <= i < |levels| ==> v[i] == levels[i].View()
  {
    seq(|levels|, i requires 0 <= i < |levels| reads levels => levels[i].View())
  }

  ghost predicate Distinct(levels: seq<ExitLevel>) {
    forall i, j :: 0 <= i < j < |levels| ==> levels[i] != levels[j]
  }

  class ExitGroup {
    const id: int
    const side: Side
    const slMode: SLMode
    var entryFilled: bool
    var fillPrice: real
    var totalQty: int
    var remainingQty: int
    var slLevels: seq<ExitLevel>
    var tpLevels: seq<ExitLevel>
    var slConfigs: seq<Config>
    var tpConfigs: seq<Config>
    var state: GroupState
    var rows: seq<Row>

    constructor (id: int, side: Side, slMode: SLMode, slConfigs: seq<Config>, tpConfigs: seq<Config>)
      ensures Valid() && this.id == id
      ensures View(false) == Group(side, slMode, false, false, 0.0, 0, 0, [], [], slConfigs, tpConfigs, GroupActive, [])
    {
      this.id, this.side, this.slMode := id, side, slMode;
      entryFilled, fillPrice, totalQty, remainingQty := false, 0.0, 0, 0;
      slLevels, tpLevels := [], [];
      this.slConfigs, this.tpConfigs := slConfigs, tpConfigs;
      state, rows := GroupActive, [];
    }

    ghost predicate Valid()
      reads this
    {
      Distinct(slLevels + tpLevels)
    }

    function Levels(t: ExitType): seq<ExitLevel>
      reads this
    {
      if t.SL? then slLevels else tpLevels
    }

    ghost function View(registered: bool): Group
      reads this, slLevels, tpLevels
    {
      Group(side, slMode, entryFilled, registered, fillPrice, totalQty, remainingQty,
            Views(slLevels), Views(tpLevels), slConfigs, tpConfigs, state, rows)
    }

    method FillEntry(price: real, qty: int, slPassed: seq<Config>, tpPassed: seq<Config>)
      requires Valid() && !entryFilled
      modifies this
      ensures Valid() && Fill(old(View(true)), price, qty, slPassed, tpPassed, View(true))
    {
      hide Built, SortOf, Fill, Distinct;
      ghost var before := View(true);
      var sl := SortConfigs(if |slPassed| > 0 then slPassed else slConfigs);
      var tp := SortConfigs(if |tpPassed| > 0 then tpPassed else tpConfigs);
      var l, m := BuildBoth(side, price, qty, sl, tp);
      ghost var slView, tpView := Views(l), Views(m);
      FillIntro(before, price, qty, slPassed, tpPassed, sl, tp, slView, tpView);
      Install(price, qty, sl, tp, l, m);
    }

    method Install(price: real, qty: int, sl: seq<Config>, tp: seq<Config>, l: seq<ExitLevel>, m: seq<ExitLevel>)
      modifies this
      ensures slLevels == l && tpLevels == m
      ensures View(true) == old(View(true)).(entryFilled := true, fillPrice := price, totalQty := qty, remainingQty := qty,
                                             slConfigs := sl, tpConfigs := tp,
                                             slLevels := old(Views(l)), tpLevels := old(Views(m)))
    {
      slConfigs, tpConfigs, slLevels, tpLevels := sl, tp, l, m;
      fillPrice, totalQty, remainingQty, entryFilled := price, qty, qty, true;
      assert Views(l) == old(Views(l)) && Views(m) == old(Views(m));
    }

    lemma SideFrame(t: ExitType)
      requires Valid()
      ensures Distinct(Levels(t))
      ensures forall i :: 0 <= i < |Levels(t)| ==> Levels(t)[i] !in Levels(Other(t))
    {
      SidesApart();
      forall i | 0 <= i < |Levels(t)| ensures Levels(t)[i] !in Levels(Other(t)) {
        assert Levels(t)[i] in Levels(t);
      }
    }

    lemma SidesApart()
      requires Valid()
      ensures Distinct(slLevels) && Distinct(tpLevels)
      ensures forall a, b :: a in slLevels && b in tpLevels ==> a != b
    {
      var all := slLevels + tpLevels;
      forall i, j | 0 <= i < |slLevels| && 0 <= j < |tpLevels| ensures slLevels[i] != tpLevels[j] {
        assert all[i] != all[|slLevels| + j];
      }
      forall i, j | 0 <= i < j < |slLevels| ensures slLevels[i] != slLevels[j] {
        assert all[i] != all[j];
      }
      forall i, j | 0 <= i < j < |tpLevels| ensures tpLevels[i] != tpLevels[j] {
        assert all[|slLevels| + i] != all[|slLevels| + j];
      }
    }
  }

  // ---- Helpers of OnEntryFill ----

  lemma FillIntro(g: Group, price: real, qty: int, slPassed: seq<Config>, tpPassed: seq<Config>,
                  sl: seq<Config>, tp: seq<Config>, slLevels: seq<Level>, tpLevels: seq<Level>)
    requires g.registered && !g.entryFilled
    requires SortOf(if slPassed != [] then slPassed else g.slConfigs, sl)
    requires SortOf(if tpPassed != [] then tpPassed else g.tpConfigs, tp)
    requires Built(g.side, SL, price, qty, sl, slLevels) && Built(g.side, TP, price, qty, tp, tpLevels)
    ensures Fill(g, price, qty, slPassed, tpPassed,
                 g.(entryFilled := true, fillPrice := price, totalQty := qty, remainingQty := qty,
                    slConfigs := sl, tpConfigs := tp, slLevels := slLevels, tpLevels := tpLevels))
  {
    hide Built, SortOf;
  }

  function Inserted(s: seq<Config>, p: nat, c: Config): seq<Config>
    requires p <= |s|
  {
    s[..p] + [c] + s[p..]
  }

  lemma InsertedSorted(s: seq<Config>, p: nat, c: Config)
    requires SortedByNum(s) && p <= |s|
    requires forall a :: 0 <= a < p ==> s[a].levelNum <= c.levelNum
    requires p < |s| ==> c.levelNum <= s[p].levelNum
    ensures SortedByNum(Inserted(s, p, c))
  {
  }

  lemma InsertedContents(s: seq<Config>, p: nat, c: Config)
    requires p <= |s|
    ensures multiset(Inserted(s, p, c)) == multiset(s) + multiset{c}
  {
    assert s == s[..p] + s[p..];
  }

  method FindSlot(s: seq<Config>, levelNum: int) returns (p: nat)
    ensures p <= |s| && (p < |s| ==> levelNum <= s[p].levelNum)
    ensures forall a :: 0 <= a < p ==> s[a].levelNum <= levelNum
  {
    p := 0;
    while p < |s| && s[p].levelNum <= levelNum
      invariant p <= |s|
      invariant forall a :: 0 <= a < p ==> s[a].levelNum <= levelNum
    {
      p := p + 1;
    }
  }

  /** Sorting by level number. */
  method SortConfigs(configs: seq<Config>) returns (sorted: seq<Config>)
    ensures SortOf(configs, sorted)
  {
    sorted := [];
    for n := 0 to |configs|
      invariant |sorted| == n && SortedByNum(sorted)
      invariant multiset(sorted) == multiset(configs[..n])
    {
      hide SortedByNum, Inserted;
      var c := configs[n];
      var p := FindSlot(sorted, c.levelNum);
      InsertedSorted(sorted, p, c);
      InsertedContents(sorted, p, c);
      assert configs[..n + 1] == configs[..n] + [c];
      assert |Inserted(sorted, p, c)| == n + 1 by { InsertedLength(sorted, p, c); }
      sorted := Inserted(sorted, p, c);
    }
    assert configs[..|configs|] == configs;
  }

  lemma InsertedLength(s: seq<Config>, p: nat, c: Config)
    requires p <= |s|
    ensures |Inserted(s, p, c)| == |s| + 1
  {
  }

  /** The level states of one side. */
  method BuildLevels(side: Side, t: ExitType, fillPrice: real, filledQty: int, configs: seq<Config>) returns (levels: seq<ExitLevel>)
    ensures fresh(levels) && Distinct(levels)
    ensures Built(side, t, fillPrice, filledQty, configs, Views(levels))
  {
    hide ExitPrice, InitialQty;
    var qtys := ComputeInitialExitQtys(QtyPcts(configs), filledQty);
    ghost var split := qtys[..];
    levels := [];
    for i := 0 to |configs|
      invariant qtys[..] == split
      invariant |levels| == i && fresh(levels) && Distinct(levels)
      invariant forall k :: 0 <= k < i ==>
                  levels[k].View() == Level(configs[k].levelNum, ExitPrice(side, t, fillPrice, configs[k].pricePct),
                                            qtys[k], qtys[k], LevelActive, "", 0.0)
    {
      var level := new ExitLevel(configs[i].levelNum, ExitPrice(side, t, fillPrice, configs[i].pricePct), qtys[i]);
      levels := levels + [level];
    }
    assert ExitQtys(Views(levels)) == split;
  }

  method BuildBoth(side: Side, price: real, qty: int, sl: seq<Config>, tp: seq<Config>)
    returns (slLevels: seq<ExitLevel>, tpLevels: seq<ExitLevel>)
    ensures fresh(slLevels) && fresh(tpLevels) && Distinct(slLevels + tpLevels)
    ensures Built(side, SL, price, qty, sl, Views(slLevels))
    ensures Built(side, TP, price, qty, tp, Views(tpLevels))
  {
    hide Built;
    slLevels := BuildLevels(side, SL, price, qty, sl);
    ghost var built := Views(slLevels);
    tpLevels := BuildLevels(side, TP, price, qty, tp);
    assert Views(slLevels) == built;
  }

  // ---- Helpers of the rebalance ----

  method LookupPct(configs: seq<Config>, levelNum: int) returns (pct: real)
    ensures pct == QtyPctOf(configs, levelNum)
  {
    pct := 0.0;
    var k := 0;
    while k < |configs|
      invariant k <= |configs|
      invariant QtyPctOf(configs, levelNum) == QtyPctOf(configs[k..], levelNum)
    {
      if configs[k].levelNum == levelNum {
        return configs[k].qtyPct;
      }
      assert configs[k..][1..] == configs[k + 1..];
      k := k + 1;
    }
  }

  /** The levels taking part, as objects. */
  ghost predicate Picked(levels: seq<ExitLevel>, all: seq<Level>, configs: seq<Config>, active: seq<ExitLevel>) {
    var idx := ActiveIdx(all, configs);
    |all| == |levels| && |active| == |idx| && forall k :: 0 <= k < |idx| ==> active[k] == levels[idx[k]]
  }

  /** What the collecting loop holds after the first `n` levels. */
  ghost predicate Collected(levels: seq<ExitLevel>, all: seq<Level>, configs: seq<Config>, n: nat,
                            active: seq<ExitLevel>, pcts: seq<real>)
    requires n <= |levels| == |all|
  {
    var idx := ActiveIdx(all[..n], configs);
    && |active| == |idx| && (forall k :: 0 <= k < |idx| ==> active[k] == levels[idx[k]])
    && pcts == PctsAt(all[..n], configs, idx)
  }

  lemma CollectStep(levels: seq<ExitLevel>, all: seq<Level>, configs: seq<Config>, n: nat, active: seq<ExitLevel>, pcts: seq<real>)
    requires n < |levels| == |all| && Collected(levels, all, configs, n, active, pcts)
    ensures if Participates(all[n], configs)
            then Collected(levels, all, configs, n + 1, active + [levels[n]], pcts + [QtyPctOf(configs, all[n].levelNum)])
            else Collected(levels, all, configs, n + 1, active, pcts)
  {
    var before := ActiveIdx(all[..n], configs);
    assert all[..n + 1][..n] == all[..n];
    assert PctsAt(all[..n + 1], configs, before) == PctsAt(all[..n], configs, before);
  }

  /** The levels taking part, in list order, with their percentages. */
  method CollectActive(levels: seq<ExitLevel>, configs: seq<Config>)
    returns (active: seq<ExitLevel>, pcts: seq<real>, totalPct: real)
    ensures Collected(levels, Views(levels), configs, |levels|, active, pcts) && totalPct == SumReal(pcts)
  {
    active, pcts, totalPct := [], [], 0.0;
    ghost var all := Views(levels);
    assert Collected(levels, all, configs, 0, active, pcts);
    hide Collected;
    for i := 0 to |levels|
      invariant Collected(levels, all, configs, i, active, pcts) && totalPct == SumReal(pcts)
    {
      CollectStep(levels, all, configs, i, active, pcts);
      if levels[i].status == LevelActive {
        var pct := LookupPct(configs, levels[i].levelNum);
        if pct > 0.0 {
          active := active + [levels[i]];
          assert (pcts + [pct])[..|pcts|] == pcts;
          pcts := pcts + [pct];
          totalPct := totalPct + pct;
        }
      }
    }
  }

  lemma {:induction false} BookAfterSkip(book: map<string, int>, levels: seq<Level>, levels': seq<Level>, p: nat, q: nat)
    requires |levels'| == |levels| && p <= q <= |levels|
    requires forall i :: p <= i < q ==> levels'[i].exitQty == levels[i].exitQty
    ensures BookAfter(book, levels[..q], levels'[..q]) == BookAfter(book, levels[..p], levels'[..p])
  {
    if p < q {
      BookAfterSkip(book, levels, levels', p, q - 1);
      assert levels[..q][..q - 1] == levels[..q - 1] && levels'[..q][..q - 1] == levels'[..q - 1];
    }
  }

  /** How far the modify requests have got before the k-th write-back. */
  ghost function BookMark(idx: seq<nat>, k: nat): nat
    requires k <= |idx|
  {
    if k == 0 then 0 else idx[k - 1] + 1
  }

  /** Levels between two participating ones are untouched by the write-back. */
  lemma UntouchedBetween(levels: seq<Level>, configs: seq<Config>, qtys: seq<int>, k: nat, levels': seq<Level>, i: nat)
    requires WrittenBack(levels, ActiveIdx(levels, configs), qtys, k, levels') && k <= |ActiveIdx(levels, configs)|
    requires BookMark(ActiveIdx(levels, configs), k) <= i < |levels|
    ensures levels'[i] == levels[i]
  {
    var idx := ActiveIdx(levels, configs);
    hide ActiveIdx;
    forall j | 0 <= j < k ensures idx[j] != i {
      assert j < k - 1 ==> idx[j] < idx[k - 1];
    }
  }

  lemma BookWrite(book: map<string, int>, levels: seq<Level>, configs: seq<Config>, qtys: seq<int>, k: nat, levels': seq<Level>)
    requires WrittenBack(levels, ActiveIdx(levels, configs), qtys, k, levels') && k < |ActiveIdx(levels, configs)|
    ensures var idx := ActiveIdx(levels, configs);
            var l := levels[idx[k]];
            var before := BookAfter(book, levels[..BookMark(idx, k)], levels'[..BookMark(idx, k)]);
            BookAfter(book, levels[..idx[k] + 1], levels'[idx[k] := levels'[idx[k]].(exitQty := qtys[k])][..idx[k] + 1])
            == (if l.brokerOrderID != "" && qtys[k] != l.exitQty then before[l.brokerOrderID := qtys[k]] else before)
    ensures BookMark(ActiveIdx(levels, configs), k + 1) == ActiveIdx(levels, configs)[k] + 1
  {
    hide BookAfter;
    var idx := ActiveIdx(levels, configs);
    assert k > 0 ==> idx[k - 1] < idx[k];
    forall i | BookMark(idx, k) <= i < |levels| ensures levels'[i] == levels[i] {
      UntouchedBetween(levels, configs, qtys, k, levels', i);
    }
    BookStep(book, levels, levels', BookMark(idx, k), idx[k], qtys[k]);
  }

  lemma BookDone(book: map<string, int>, levels: seq<Level>, configs: seq<Config>, qtys: seq<int>, levels': seq<Level>)
    requires WrittenBack(levels, ActiveIdx(levels, configs), qtys, |ActiveIdx(levels, configs)|, levels')
    ensures var n := BookMark(ActiveIdx(levels, configs), |ActiveIdx(levels, configs)|);
            BookAfter(book, levels, levels') == BookAfter(book, levels[..n], levels'[..n])
  {
    hide BookAfter;
    var idx := ActiveIdx(levels, configs);
    forall i | BookMark(idx, |idx|) <= i < |levels| ensures levels'[i] == levels[i] {
      UntouchedBetween(levels, configs, qtys, |idx|, levels', i);
    }
    BookAfterSkip(book, levels, levels', BookMark(idx, |idx|), |levels|);
    assert levels[..|levels|] == levels && levels'[..|levels|] == levels';
  }

  lemma BookStep(book: map<string, int>, levels: seq<Level>, levels': seq<Level>, p: nat, q: nat, qty: int)
    requires |levels'| == |levels| && p <= q < |levels|
    requires forall i :: p <= i < |levels| ==> levels'[i] == levels[i]
    ensures var before := BookAfter(book, levels[..p], levels'[..p]);
            BookAfter(book, levels[..q + 1], levels'[q := levels'[q].(exitQty := qty)][..q + 1])
            == (if levels[q].brokerOrderID != "" && qty != levels[q].exitQty
                then before[levels[q].brokerOrderID := qty] else before)
  {
    var levels'' := levels'[q := levels'[q].(exitQty := qty)];
    BookAfterSkip(book, levels, levels', p, q);
    assert levels[..q + 1][..q] == levels[..q] && levels''[..q + 1][..q] == levels'[..q];
  }

  /** The write-back loop after `k` levels: quantities and modify requests. */
  ghost predicate Progress(levels: seq<Level>, configs: seq<Config>, qtys: seq<int>, k: nat, levels': seq<Level>,
                           book: map<string, int>, book': map<string, int>)
  {
    var idx := ActiveIdx(levels, configs);
    && k <= |idx| && WrittenBack(levels, idx, qtys, k, levels')
    && book' == BookAfter(book, levels[..BookMark(idx, k)], levels'[..BookMark(idx, k)])
  }

  lemma ProgressStart(levels: seq<Level>, configs: seq<Config>, qtys: seq<int>, book: map<string, int>)
    requires |qtys| == |ActiveIdx(levels, configs)|
    ensures Progress(levels, configs, qtys, 0, levels, book, book)
  {
  }

  lemma ProgressStep(levels: seq<Level>, configs: seq<Config>, qtys: seq<int>, k: nat, levels': seq<Level>,
                     book: map<string, int>, book': map<string, int>)
    requires Progress(levels, configs, qtys, k, levels', book, book') && k < |ActiveIdx(levels, configs)|
    ensures |levels'| == |levels| && |qtys| == |ActiveIdx(levels, configs)|
    ensures var i := ActiveIdx(levels, configs)[k];
            levels'[i] == levels[i]
            && Progress(levels, configs, qtys, k + 1, levels'[i := levels'[i].(exitQty := qtys[k])], book,
                        if levels[i].brokerOrderID != "" && qtys[k] != levels[i].exitQty
                        then book'[levels[i].brokerOrderID := qtys[k]] else book')
  {
    hide ActiveIdx, BookAfter;
    var i := ActiveIdx(levels, configs)[k];
    WrittenBackStep(levels, configs, qtys, k, levels', levels'[i := levels'[i].(exitQty := qtys[k])]);
    BookWrite(book, levels, configs, qtys, k, levels');
  }

  lemma ProgressEnd(levels: seq<Level>, configs: seq<Config>, qtys: seq<int>, k: nat, levels': seq<Level>,
                    book: map<string, int>, book': map<string, int>)
    requires k == |ActiveIdx(levels, configs)| && Progress(levels, configs, qtys, k, levels', book, book')
    ensures WrittenBack(levels, ActiveIdx(levels, configs), qtys, k, levels')
    ensures book' == BookAfter(book, levels, levels')
  {
    BookDone(book, levels, configs, qtys, levels');
  }

  // ---- The manager ----

  class Manager {
    /** All groups not yet finished, by entry order. */
    var groupsByEntry: map<int, ExitGroup>
    /** Broker order id of a level order to its level. */
    var mlLevelIndex: map<string, LevelRef>
    /** The quantity last asked of the broker for each level order. */
    var book: map<string, int>

    constructor ()
      ensures groupsByEntry == map[] && mlLevelIndex == map[] && book == map[]
    {
      groupsByEntry, mlLevelIndex, book := map[], map[], map[];
    }

    predicate Registered(g: ExitGroup)
      reads this`groupsByEntry
    {
      g.id in groupsByEntry && groupsByEntry[g.id] == g
    }

    ghost function GroupView(g: ExitGroup): Group
      reads this`groupsByEntry, g, g.slLevels, g.tpLevels
    {
      g.View(Registered(g))
    }

    ghost function LiveView(g: ExitGroup): Live
      reads this, g, g.slLevels, g.tpLevels
    {
      Live(GroupView(g), mlLevelIndex, book)
    }

    method RegisterEntry(id: int, side: Side, slMode: SLMode, slConfigs: seq<Config>, tpConfigs: seq<Config>) returns (g: ExitGroup)
      modifies this`groupsByEntry
      ensures fresh(g) && g.Valid() && g.id == id && groupsByEntry == old(groupsByEntry)[id := g]
      ensures GroupView(g) == Group(side, slMode, false, true, 0.0, 0, 0, [], [], slConfigs, tpConfigs, GroupActive, [])
    {
      g := new ExitGroup(id, side, slMode, slConfigs, tpConfigs);
      groupsByEntry := groupsByEntry[id := g];
    }

    /** An entry fill for an unknown entry does nothing. */
    method OnEntryFill(entryId: int, fillPrice: real, filledQty: int, slConfigs: seq<Config>, tpConfigs: seq<Config>)
      requires entryId in groupsByEntry ==> groupsByEntry[entryId].id == entryId && groupsByEntry[entryId].Valid()
      modifies if entryId in groupsByEntry then {groupsByEntry[entryId]} else {}
      ensures entryId in groupsByEntry ==>
                var g := groupsByEntry[entryId];
                g.Valid() && Fill(old(GroupView(g)), fillPrice, filledQty, slConfigs, tpConfigs, GroupView(g))
    {
      hide Built, SortOf;
      if entryId !in groupsByEntry {
        return;
      }
      var g := groupsByEntry[entryId];
      if g.entryFilled {
        return;
      }
      g.FillEntry(fillPrice, filledQty, slConfigs, tpConfigs);
    }

    /** `rebalanceAndModifyLevels`: every active level gets its new quantity; a
        level with a broker order whose quantity changed is modified there. */
    method RebalanceAndModifyLevels(levels: seq<ExitLevel>, configs: seq<Config>, remainingQty: int)
      requires Distinct(levels)
      modifies this`book, levels
      ensures Rebalanced(old(Views(levels)), configs, remainingQty, Views(levels))
      ensures book == BookAfter(old(book), old(Views(levels)), Views(levels))
    {
      ghost var all := Views(levels);
      ghost var idx := ActiveIdx(all, configs);
      var active, pcts, totalPct := CollectActive(levels, configs);
      assert all[..|levels|] == all;
      if |active| == 0 || totalPct <= 0.0 {
        BookAfterSkip(book, all, all, 0, |all|);
        return;
      }
      var newQtys := ComputeRebalancedQtys(pcts, totalPct, remainingQty);
      var qtys := newQtys[..];
      ghost var asked := book;
      WriteBack(levels, configs, all, active, qtys);
      ProgressEnd(all, configs, qtys, |active|, Views(levels), asked, book);
      WrittenBackRebalances(all, configs, remainingQty, qtys, Views(levels));
    }

    method WriteBack(ghost levels: seq<ExitLevel>, ghost configs: seq<Config>, ghost all: seq<Level>,
                     active: seq<ExitLevel>, newQtys: seq<int>)
      requires Distinct(levels) && all == Views(levels) && Picked(levels, all, configs, active) && |newQtys| == |active|
      modifies this`book, levels
      ensures Progress(all, configs, newQtys, |active|, Views(levels), old(book), book)
    {
      ProgressStart(all, configs, newQtys, book);
      hide Progress, Picked, Distinct;
      for k := 0 to |active|
        invariant Progress(all, configs, newQtys, k, Views(levels), old(book), book)
      {
        WriteStep(levels, all, configs, newQtys, k, active, old(book));
      }
    }

    /** One iteration of the write-back loop. */
    method WriteStep(ghost levels: seq<ExitLevel>, ghost all: seq<Level>, ghost configs: seq<Config>, newQtys: seq<int>,
                     k: nat, active: seq<ExitLevel>, ghost asked: map<string, int>)
      requires Distinct(levels) && Picked(levels, all, configs, active) && k < |active| == |newQtys|
      requires Progress(all, configs, newQtys, k, Views(levels), asked, book)
      modifies this`book, levels
      ensures Progress(all, configs, newQtys, k + 1, Views(levels), asked, book)
    {
      hide Progress, ActiveIdx;
      ghost var i := ActiveIdx(all, configs)[k];
      ghost var before := Views(levels);
      ProgressStep(all, configs, newQtys, k, before, asked, book);
      WriteOne(active[k], newQtys[k]);
      assert Views(levels) == before[i := before[i].(exitQty := newQtys[k])];
    }

    method WriteOne(level: ExitLevel, newQty: int)
      modifies this`book, level`exitQty
      ensures level.View() == old(level.View()).(exitQty := newQty)
      ensures book == if level.brokerOrderID != "" && newQty != old(level.exitQty)
                      then old(book)[level.brokerOrderID := newQty] else old(book)
    {
      var oldQty, brokerID := level.exitQty, level.brokerOrderID;
      level.exitQty := newQty;
      if brokerID != "" && newQty != oldQty {
        book := book[brokerID := newQty];
      }
    }

    // ---- Paper ----

    /** Rebalance one side of a group to `remaining`. */
    method RebalanceSide(g: ExitGroup, t: ExitType, remaining: int)
      requires g.Valid()
      modifies this`book, g.Levels(t)
      ensures var b := old(GroupView(g));
              GroupView(g) == b.WithLevels(t, GroupView(g).Levels(t))
              && Rebalanced(b.Levels(t), b.Configs(t), remaining, GroupView(g).Levels(t))
              && book == BookAfter(old(book), b.Levels(t), GroupView(g).Levels(t))
    {
      g.SideFrame(t);
      g.SideFrame(Other(t));
      hide Rebalanced, BookAfter, Distinct;
      ghost var other := Views(g.Levels(Other(t)));
      RebalanceAndModifyLevels(g.Levels(t), if t.SL? then g.slConfigs else g.tpConfigs, remaining);
      assert Views(g.Levels(Other(t))) == other;
    }

    method Decrement(g: ExitGroup, row: Row) returns (remaining: int)
      modifies g`remainingQty, g`state, g`rows
      ensures remaining == g.remainingQty == old(g.remainingQty) - row.qty
      ensures GroupView(g) == old(GroupView(g)).(remainingQty := remaining,
                                                 state := if remaining <= 0 then GroupCompleted else old(g.state),
                                                 rows := AddRow(old(g.rows), row))
    {
      ghost var slView, tpView := Views(g.slLevels), Views(g.tpLevels);
      g.remainingQty := g.remainingQty - row.qty;
      remaining := g.remainingQty;
      if remaining <= 0 {
        g.state := GroupCompleted;
      }
      if row.qty > 0 {
        g.rows := g.rows + [row];
      }
      assert Views(g.slLevels) == slView && Views(g.tpLevels) == tpView;
    }

    /** `recordPaperExit`: the single point where paper quantity is decremented. */
    method RecordPaperExit(g: ExitGroup, t: ExitType, levelNum: int, qty: int, exitPrice: real)
      requires g.Valid()
      modifies this`groupsByEntry, this`book, g`remainingQty, g`state, g`rows, g.Levels(Other(t))
      ensures Recorded(old(GroupView(g)), t, levelNum, qty, exitPrice, GroupView(g))
    {
      hide Rebalanced, BookAfter, Recorded, Distinct;
      ghost var before := GroupView(g);
      var remaining := Decrement(g, Row(qty, exitPrice, Some(t), levelNum));
      if remaining > 0 {
        RebalanceSide(g, Other(t), remaining);
      } else {
        groupsByEntry := groupsByEntry - {g.id};
      }
      RecordedIntro(before, t, levelNum, qty, exitPrice, GroupView(g));
    }

    /** A hit level is marked triggered, then its exit is recorded. */
    method FireLevel(g: ExitGroup, t: ExitType, i: nat, ltp: real)
      requires g.Valid() && i < |g.Levels(t)| && g.Levels(t)[i].status.LevelActive?
      modifies this`groupsByEntry, this`book, g`remainingQty, g`state, g`rows, g.slLevels, g.tpLevels
      ensures Fires(old(GroupView(g)), t, i, ltp, GroupView(g))
    {
      hide Recorded;
      g.SideFrame(t);
      g.SideFrame(Other(t));
      ghost var before := GroupView(g);
      var level := g.Levels(t)[i];
      var won := level.TryMarkTriggered(ltp);
      assert Views(g.Levels(t)) == Marked(before.Levels(t), i, LevelTriggered, ltp);
      assert Views(g.Levels(Other(t))) == before.Levels(Other(t));
      assert GroupView(g) == before.WithLevels(t, Marked(before.Levels(t), i, LevelTriggered, ltp));
      RecordPaperExit(g, t, level.levelNum, level.exitQty, ltp);
    }

    /** The scan of one side: the first active level that is hit fires. */
    method EvaluateLevels(g: ExitGroup, t: ExitType, ltp: real) returns (fired: bool)
      requires g.Valid()
      modifies this`groupsByEntry, this`book, g`remainingQty, g`state, g`rows, g.slLevels, g.tpLevels
      ensures var i := FirstHit(g.side, t, old(GroupView(g)).Levels(t), ltp, 0);
              if i < |g.Levels(t)| then fired && Fires(old(GroupView(g)), t, i, ltp, GroupView(g))
              else !fired && GroupView(g) == old(GroupView(g)) && book == old(book)
    {
      hide Fires, Hit;
      ghost var view := GroupView(g);
      var levels := g.Levels(t);
      var i := 0;
      while i < |levels|
        invariant i <= |levels| && GroupView(g) == view && book == old(book) && groupsByEntry == old(groupsByEntry)
        invariant forall k :: 0 <= k < i ==>
                    !(view.Levels(t)[k].status.LevelActive? && Hit(g.side, t, view.Levels(t)[k].triggerPrice, ltp))
      {
        assert levels[i].View() == view.Levels(t)[i];
        if levels[i].status == LevelActive && Hit(g.side, t, levels[i].triggerPrice, ltp) {
          FireLevel(g, t, i, ltp);
          return true;
        }
        i := i + 1;
      }
      return false;
    }

    /** Multi-level SL only; a single SL order is left to the broker. */
    method EvaluateSLLevels(g: ExitGroup, ltp: real) returns (fired: bool)
      requires g.Valid()
      modifies this`groupsByEntry, this`book, g`remainingQty, g`state, g`rows, g.slLevels, g.tpLevels
      ensures var i := SLHit(old(GroupView(g)), ltp);
              if i < |g.slLevels| then fired && Fires(old(GroupView(g)), SL, i, ltp, GroupView(g))
              else !fired && GroupView(g) == old(GroupView(g))
    {
      hide Fires;
      if g.slMode != MultiLevelSL {
        return false;
      }
      fired := EvaluateLevels(g, SL, ltp);
    }

    /** `runEvalJob` of a paper group, once the evaluation has been claimed. */
    method RunEvalJob(g: ExitGroup, ltp: real)
      requires g.Valid()
      modifies this`groupsByEntry, this`book, g`remainingQty, g`state, g`rows, g.slLevels, g.tpLevels
      ensures Tick(old(GroupView(g)), ltp, GroupView(g))
    {
      hide Fires, FirstHit;
      if g.state != GroupActive {
        return;
      }
      var slFired := EvaluateSLLevels(g, ltp);
      if !slFired {
        var tpFired := EvaluateLevels(g, TP, ltp);
      }
    }

    /** `CancelGroupForExit` of a paper group: what remains is recorded at the
        exit price when there is one. */
    method CancelGroupForExit(entryId: int, exitPrice: real)
      requires entryId in groupsByEntry ==> groupsByEntry[entryId].id == entryId
      modifies this`groupsByEntry
      modifies if entryId in groupsByEntry then {groupsByEntry[entryId]} else {}
      ensures entryId !in old(groupsByEntry) ==> groupsByEntry == old(groupsByEntry)
      ensures entryId in old(groupsByEntry) ==>
                var g := old(groupsByEntry)[entryId];
                GroupView(g) == ForceExit(old(GroupView(g)), exitPrice)
    {
      if entryId !in groupsByEntry {
        return;
      }
      var g := groupsByEntry[entryId];
      if g.state != GroupActive {
        return;
      }
      ghost var slView, tpView := Views(g.slLevels), Views(g.tpLevels);
      var remaining := g.remainingQty;
      g.state := GroupCancelled;
      if remaining > 0 && exitPrice > 0.0 {
        g.rows := g.rows + [Row(remaining, exitPrice, None, 0)];
      }
      groupsByEntry := groupsByEntry - {entryId};
      assert Views(g.slLevels) == slView && Views(g.tpLevels) == tpView;
    }

    // ---- Live ----

    /** `cancelRemainingMLOrders`: active levels of one side are cancelled and
        their broker ids leave the index. */
    method CancelRemainingMLOrders(levels: seq<ExitLevel>)
      requires Distinct(levels)
      modifies this`mlLevelIndex, levels
      ensures Views(levels) == CancelActive(old(Views(levels)))
      ensures mlLevelIndex == old(mlLevelIndex) - ActiveIds(old(Views(levels)))
    {
      ghost var all := Views(levels);
      assert mlLevelIndex == mlLevelIndex - ActiveIds(all[..0]);
      var i := 0;
      while i < |levels|
        invariant i <= |levels|
        invariant forall k :: 0 <= k < i ==> levels[k].View() == CancelActive(all)[k]
        invariant forall k :: i <= k < |levels| ==> levels[k].View() == all[k]
        invariant mlLevelIndex == old(mlLevelIndex) - ActiveIds(all[..i])
      {
        ActiveIdsStep(all, i);
        if levels[i].status == LevelActive {
          var brokerID := levels[i].brokerOrderID;
          levels[i].status := LevelCancelled;
          if brokerID != "" {
            mlLevelIndex := mlLevelIndex - {brokerID};
          }
        }
        i := i + 1;
      }
      assert all[..i] == all;
    }

    /** Locate the level a callback names. */
    method FindTriggered(g: ExitGroup, t: ExitType, levelNum: int) returns (i: nat)
      ensures i == FindLevel(old(LiveView(g)).g.Levels(t), levelNum) <= |g.Levels(t)|
      ensures LiveView(g) == old(LiveView(g))
    {
      var levels := g.Levels(t);
      i := 0;
      while i < |levels| && levels[i].levelNum != levelNum
        invariant i <= |levels|
        invariant forall k :: 0 <= k < i ==> levels[k].levelNum != levelNum
      {
        i := i + 1;
      }
    }

    /** `onMultiLevelFilled`: a broker fill of one level order. */
    method OnMultiLevelFilled(g: ExitGroup, t: ExitType, levelNum: int, fillPrice: real)
      requires g.Valid()
      modifies this, g`remainingQty, g`state, g.slLevels, g.tpLevels
      ensures Filled(old(LiveView(g)), t, levelNum, fillPrice, LiveView(g))
    {
      hide Filled, FindLevel, AfterMark;
      ghost var before := LiveView(g);
      var i := FindTriggered(g, t, levelNum);
      if i == |g.Levels(t)| || g.Levels(t)[i].status != LevelActive {
        assert i < |g.Levels(t)| ==> before.g.Levels(t)[i].status == g.Levels(t)[i].status;
        NotFound(before, t, levelNum, fillPrice);
        return;
      }
      assert before.g.Levels(t)[i].status == g.Levels(t)[i].status;
      MarkFilled(g, t, i, fillPrice);
      FinishFill(g, t, i, before, levelNum, fillPrice);
    }

    /** Mark the level, decrement the remaining quantity, drop the broker id. */
    method MarkFilled(g: ExitGroup, t: ExitType, i: nat, price: real)
      requires g.Valid() && i < |g.Levels(t)|
      modifies this`mlLevelIndex, g`remainingQty, g.Levels(t)
      ensures LiveView(g) == AfterMark(old(LiveView(g)), t, i, price)
    {
      hide Distinct;
      var exitedQty, brokerID := g.Levels(t)[i].exitQty, g.Levels(t)[i].brokerOrderID;
      ghost var before := LiveView(g);
      MarkLevel(g, t, i, price);
      hide Marked;
      assert GroupView(g) == before.g.WithLevels(t, Marked(before.g.Levels(t), i, LevelTriggered, price));
      Leave(g, exitedQty, brokerID);
    }

    /** The exited quantity leaves the group, the order leaves the index. */
    method Leave(g: ExitGroup, qty: int, brokerID: string)
      requires g.Valid()
      modifies this`mlLevelIndex, g`remainingQty
      ensures var s := old(LiveView(g));
              LiveView(g) == s.(g := s.g.(remainingQty := s.g.remainingQty - qty), index := s.index - {brokerID})
    {
      ghost var sl, tp := Views(g.slLevels), Views(g.tpLevels);
      g.remainingQty := g.remainingQty - qty;
      mlLevelIndex := mlLevelIndex - {brokerID};
      assert Views(g.slLevels) == sl && Views(g.tpLevels) == tp;
    }

    method MarkLevel(g: ExitGroup, t: ExitType, i: nat, price: real)
      requires g.Valid() && i < |g.Levels(t)|
      modifies g.Levels(t)
      ensures g.Valid()
      ensures Views(g.Levels(t)) == Marked(old(Views(g.Levels(t))), i, LevelTriggered, price)
      ensures Views(g.Levels(Other(t))) == old(Views(g.Levels(Other(t))))
    {
      g.SideFrame(t);
      g.SideFrame(Other(t));
      ghost var side, other := Views(g.Levels(t)), Views(g.Levels(Other(t)));
      var level := g.Levels(t)[i];
      level.status := LevelTriggered;
      level.exitPrice := price;
      assert Views(g.Levels(t)) == Marked(side, i, LevelTriggered, price);
      assert Views(g.Levels(Other(t))) == other;
    }

    /** Close out or rebalance, depending on what is left. */
    method FinishFill(g: ExitGroup, t: ExitType, ghost i: nat, ghost before: Live, ghost levelNum: int, ghost price: real)
      requires g.Valid() && i == FindLevel(before.g.Levels(t), levelNum) < |before.g.Levels(t)|
      requires before.g.Levels(t)[i].status.LevelActive?
      requires LiveView(g) == AfterMark(before, t, i, price)
      modifies this, g`state, g.slLevels, g.tpLevels
      ensures Filled(before, t, levelNum, price, LiveView(g))
    {
      hide Filled, FindLevel, AfterMark, Rebalanced, BookAfter, CancelActive, ActiveIds;
      var remaining := g.remainingQty;
      if remaining <= 0 {
        CloseOut(g);
        LastFill(before, t, levelNum, i, price, LiveView(g));
      } else {
        RebalanceBoth(g, t, remaining);
        PartFill(before, t, levelNum, i, price, LiveView(g));
      }
    }

    /** Everything has exited: the remaining orders of both sides are cancelled. */
    method CloseOut(g: ExitGroup)
      requires g.Valid()
      modifies this`mlLevelIndex, this`groupsByEntry, g`state, g.slLevels, g.tpLevels
      ensures var b := old(GroupView(g));
              GroupView(g) == b.(state := GroupCompleted, registered := false,
                                 slLevels := CancelActive(b.slLevels), tpLevels := CancelActive(b.tpLevels))
              && mlLevelIndex == old(mlLevelIndex) - ActiveIds(b.slLevels) - ActiveIds(b.tpLevels)
    {
      hide CancelActive, ActiveIds, Distinct;
      ghost var sl, tp := Views(g.slLevels), Views(g.tpLevels);
      g.state := GroupCompleted;
      assert Views(g.slLevels) == sl && Views(g.tpLevels) == tp;
      CancelSides(g);
      ghost var sl', tp' := Views(g.slLevels), Views(g.tpLevels);
      groupsByEntry := groupsByEntry - {g.id};
      assert Views(g.slLevels) == sl' && Views(g.tpLevels) == tp';
    }

    method CancelSides(g: ExitGroup)
      requires g.Valid()
      modifies this`mlLevelIndex, g.slLevels, g.tpLevels
      ensures g.Valid()
      ensures var sl, tp := old(Views(g.slLevels)), old(Views(g.tpLevels));
              && Views(g.slLevels) == CancelActive(sl) && Views(g.tpLevels) == CancelActive(tp)
              && mlLevelIndex == old(mlLevelIndex) - ActiveIds(sl) - ActiveIds(tp)
    {
      hide CancelActive, ActiveIds;
      g.SideFrame(SL);
      g.SideFrame(TP);
      ghost var tp := Views(g.tpLevels);
      CancelRemainingMLOrders(g.slLevels);
      assert Views(g.tpLevels) == tp;
      ghost var sl := Views(g.slLevels);
      CancelRemainingMLOrders(g.tpLevels);
      assert Views(g.slLevels) == sl;
    }

    /** Quantity is left: first the side that filled, then the other one. */
    method RebalanceBoth(g: ExitGroup, t: ExitType, remaining: int)
      requires g.Valid()
      modifies this`book, g.slLevels, g.tpLevels
      ensures var b := old(GroupView(g));
              var a := GroupView(g);
              var o := Other(t);
              && a == b.WithLevels(t, a.Levels(t)).WithLevels(o, a.Levels(o))
              && Rebalanced(b.Levels(t), b.Configs(t), remaining, a.Levels(t))
              && Rebalanced(b.Levels(o), b.Configs(o), remaining, a.Levels(o))
              && book == BookAfter(BookAfter(old(book), b.Levels(t), a.Levels(t)), b.Levels(o), a.Levels(o))
    {
      hide Rebalanced, BookAfter, Distinct;
      RebalanceSide(g, t, remaining);
      RebalanceSide(g, Other(t), remaining);
    }

    /** `cancelGroupInternal` of a live group. */
    method CancelGroup(g: ExitGroup)
      requires g.Valid()
      modifies this`mlLevelIndex, this`groupsByEntry, g`state, g.slLevels, g.tpLevels
      ensures LiveView(g) == Cancelled(old(LiveView(g)))
    {
      if g.state != GroupActive {
        return;
      }
      CloseOut(g);
      ghost var slView, tpView := Views(g.slLevels), Views(g.tpLevels);
      g.state := GroupCancelled;
      assert Views(g.slLevels) == slView && Views(g.tpLevels) == tpView;
    }
  }

  lemma RecordedIntro(g: Group, t: ExitType, levelNum: int, qty: int, ltp: real, g': Group)
    requires var remaining := g.remainingQty - qty;
             var o := Other(t);
             && g' == g.WithLevels(o, g'.Levels(o)).(
                        remainingQty := remaining,
                        state := if remaining <= 0 then GroupCompleted else g.state,
                        registered := g.registered && remaining > 0,
                        rows := AddRow(g.rows, Row(qty, ltp, Some(t), levelNum)))
             && (if remaining > 0 then Rebalanced(g.Levels(o), g.Configs(o), remaining, g'.Levels(o))
                 else g'.Levels(o) == g.Levels(o))
    ensures Recorded(g, t, levelNum, qty, ltp, g')
  {
    hide Rebalanced;
  }

  lemma ActiveIdsStep(levels: seq<Level>, i: nat)
    requires i < |levels|
    ensures ActiveIds(levels[..i + 1])
         == ActiveIds(levels[..i]) + (if LiveOrder(levels[i]) then {levels[i].brokerOrderID} else {})
  {
    var a, b := levels[..i], levels[..i + 1];
    forall x | x in ActiveIds(b) ensures x in ActiveIds(a) + (if LiveOrder(levels[i]) then {levels[i].brokerOrderID} else {}) {
      var k :| 0 <= k < |b| && LiveOrder(b[k]) && b[k].brokerOrderID == x;
      if k < i {
        assert a[k] == b[k];
      }
    }
    forall x | x in ActiveIds(a) ensures x in ActiveIds(b) {
      var k :| 0 <= k < |a| && LiveOrder(a[k]) && a[k].brokerOrderID == x;
      assert b[k] == a[k];
    }
    if LiveOrder(levels[i]) {
      assert b[i] == levels[i];
    }
  }

  ghost function AfterMark(s: Live, t: ExitType, i: nat, price: real): Live
    requires i < |s.g.Levels(t)|
  {
    var l := s.g.Levels(t)[i];
    Live(s.g.WithLevels(t, Marked(s.g.Levels(t), i, LevelTriggered, price)).(remainingQty := s.g.remainingQty - l.exitQty),
         s.index - {l.brokerOrderID}, s.book)
  }

  lemma NotFound(s: Live, t: ExitType, levelNum: int, price: real)
    requires var i := FindLevel(s.g.Levels(t), levelNum);
             i == |s.g.Levels(t)| || !s.g.Levels(t)[i].status.LevelActive?
    ensures Filled(s, t, levelNum, price, s)
  {
  }

  lemma LastFill(s: Live, t: ExitType, levelNum: int, i: nat, price: real, s': Live)
    requires i == FindLevel(s.g.Levels(t), levelNum) < |s.g.Levels(t)| && s.g.Levels(t)[i].status.LevelActive?
    requires AfterMark(s, t, i, price).g.remainingQty <= 0
    requires var m := AfterMark(s, t, i, price);
             && s'.g == m.g.(state := GroupCompleted, registered := false,
                             slLevels := CancelActive(m.g.slLevels), tpLevels := CancelActive(m.g.tpLevels))
             && s'.index == m.index - ActiveIds(m.g.slLevels) - ActiveIds(m.g.tpLevels)
             && s'.book == m.book
    ensures Filled(s, t, levelNum, price, s')
  {
    hide CancelActive, ActiveIds, FindLevel, Marked;
  }

  lemma PartFill(s: Live, t: ExitType, levelNum: int, i: nat, price: real, s': Live)
    requires i == FindLevel(s.g.Levels(t), levelNum) < |s.g.Levels(t)| && s.g.Levels(t)[i].status.LevelActive?
    requires AfterMark(s, t, i, price).g.remainingQty > 0
    requires var m := AfterMark(s, t, i, price);
             var o := Other(t);
             && s'.g == m.g.WithLevels(t, s'.g.Levels(t)).WithLevels(o, s'.g.Levels(o))
             && Rebalanced(m.g.Levels(t), m.g.Configs(t), m.g.remainingQty, s'.g.Levels(t))
             && Rebalanced(m.g.Levels(o), m.g.Configs(o), m.g.remainingQty, s'.g.Levels(o))
             && s'.index == m.index
             && s'.book == BookAfter(BookAfter(m.book, m.g.Levels(t), s'.g.Levels(t)), m.g.Levels(o), s'.g.Levels(o))
    ensures Filled(s, t, levelNum, price, s')
  {
    hide Rebalanced, BookAfter, FindLevel, Marked;
  }
}

/** The daily caps of the rules engine under concurrency: any number of goroutines
    process matches while trade execution changes the status of signals.

    A step is one access to the lock table or to the signal store.  The module looks
    at one day and one activation of each strategy: the day, and each strategy's limit
    and activation time, are those of `Plan`.
 */
module SignalCaps {

  datatype SignalStatus = Pending | Executed | Failed | Cancelled

  datatype Signal = Signal(strategy: string, stock: int, created: int, status: SignalStatus)

  datatype Match = Match(strategy: string, stock: int)

  /** `limit` is `MaxTradesPerStrategy`, not positive for none; `since` the time of the
      last activation. */
  datatype Plan = Plan(today: int, limit: string -> int, since: string -> int)

  const DAY := 1440

  function DayOf(minute: int): int {
    minute / DAY
  }

  /** Where a goroutine stands in `processMatch`. */
  datatype PC =
    | Idle
    | AtLock(m: Match)
    | AtWindow(m: Match)
    | AtStock(m: Match)
    | AtCount(m: Match)
    | AtBuild(m: Match)
    | AtSave(m: Match)
    | AtUnlock(m: Match)

  /** `orders` are the matches published for execution, in order; `lost` those of them
      whose signal could not be saved; `unsent` the matches saved but not published;
      `settled` the matches of counted signals that failed or were cancelled. */
  datatype System = System(
    store: seq<Signal>, workers: seq<PC>, locked: set<string>, now: int,
    orders: seq<Match>, lost: seq<Match>, unsent: seq<Match>, settled: seq<Match>)

  predicate Critical(pc: PC) {
    !pc.Idle? && !pc.AtLock?
  }

  // ---- The two queries ----

  /** The condition both queries share. */
  predicate Counted(p: Plan, s: Signal, strategy: string) {
    && s.strategy == strategy && DayOf(s.created) == p.today && s.created >= p.since(strategy)
    && s.status != Failed && s.status != Cancelled
  }

  function Trades(p: Plan, store: seq<Signal>, strategy: string): nat {
    if store == [] then 0
    else
      var n := |store| - 1;
      Trades(p, store[..n], strategy) + if Counted(p, store[n], strategy) then 1 else 0
  }

  function TradesOf(p: Plan, store: seq<Signal>, strategy: string, stock: int): nat {
    if store == [] then 0
    else
      var n := |store| - 1;
      TradesOf(p, store[..n], strategy, stock) + if Counted(p, store[n], strategy) && store[n].stock == stock then 1 else 0
  }

  predicate HasSignalToday(p: Plan, store: seq<Signal>, strategy: string, stock: int) {
    exists i :: 0 <= i < |store| && Counted(p, store[i], strategy) && store[i].stock == stock
  }

  /** The new status takes a counted signal out of the counts. */
  predicate Drops(p: Plan, s: Signal, status: SignalStatus) {
    Counted(p, s, s.strategy) && !Counted(p, s.(status := status), s.strategy)
  }

  // ---- Steps ----

  /** `ok` is what a query or the build reports; the save and the publication that end
      a match fail or succeed independently. */
  datatype Action =
    | Begin(worker: nat, m: Match)
    | Proceed(worker: nat, ok: bool)
    | Issue(worker: nat, saved: bool, sent: bool)
    | Settle(signal: nat, status: SignalStatus)
    | Tick(now: int)

  function AfterCheck(pc: PC, passes: bool, next: PC): PC
    requires !pc.Idle?
  {
    if passes then next else AtUnlock(pc.m)
  }

  /** The worker's own next access. */
  function Step(p: Plan, s: System, w: nat, ok: bool): System
    requires w < |s.workers|
  {
    match s.workers[w]
    case Idle => s
    case AtLock(m) =>
      if m.strategy in s.locked then s
      else s.(locked := s.locked + {m.strategy}, workers := s.workers[w := AtWindow(m)])
    case AtWindow(m) => s.(workers := s.workers[w := AfterCheck(s.workers[w], ok, AtStock(m))])
    case AtStock(m) =>
      s.(workers := s.workers[w := AfterCheck(s.workers[w], ok && !HasSignalToday(p, s.store, m.strategy, m.stock), AtCount(m))])
    case AtCount(m) =>
      var passes := p.limit(m.strategy) <= 0 || (ok && Trades(p, s.store, m.strategy) < p.limit(m.strategy));
      s.(workers := s.workers[w := AfterCheck(s.workers[w], passes, AtBuild(m))])
    case AtBuild(m) => s.(workers := s.workers[w := AfterCheck(s.workers[w], ok, AtSave(m))])
    case AtSave(_) => s
    case AtUnlock(m) => s.(locked := s.locked - {m.strategy}, workers := s.workers[w := Idle])
  }

  /** Saving and publishing run side by side; neither waits for the other's outcome. */
  function Issued(s: System, w: nat, saved: bool, sent: bool): System
    requires w < |s.workers| && s.workers[w].AtSave?
  {
    var m := s.workers[w].m;
    s.(store := if saved then s.store + [Signal(m.strategy, m.stock, s.now, Pending)] else s.store,
       orders := if sent then s.orders + [m] else s.orders,
       lost := if sent && !saved then s.lost + [m] else s.lost,
       unsent := if saved && !sent then s.unsent + [m] else s.unsent,
       workers := s.workers[w := AtUnlock(m)])
  }

  /** Status changes never bring a failed or cancelled signal back; the clock stays
      within the day. */
  predicate Enabled(p: Plan, s: System, a: Action) {
    match a
    case Begin(w, _) => w < |s.workers| && s.workers[w].Idle?
    case Proceed(w, _) => w < |s.workers| && !s.workers[w].AtSave?
    case Issue(w, _, _) => w < |s.workers| && s.workers[w].AtSave?
    case Settle(i, status) => i < |s.store| && (s.store[i].status.Failed? || s.store[i].status.Cancelled? ==> status.Failed? || status.Cancelled?)
    case Tick(now) => now >= s.now && DayOf(now) == p.today
  }

  function Next(p: Plan, s: System, a: Action): System
    requires Enabled(p, s, a)
  {
    match a
    case Begin(w, m) => s.(workers := s.workers[w := AtLock(m)])
    case Proceed(w, ok) => Step(p, s, w, ok)
    case Issue(w, saved, sent) => Issued(s, w, saved, sent)
    case Settle(i, status) =>
      var before := s.store[i];
      s.(store := s.store[i := before.(status := status)],
         settled := if Drops(p, before, status) then s.settled + [Match(before.strategy, before.stock)] else s.settled)
    case Tick(now) => s.(now := now)
  }

  ghost predicate Runs(p: Plan, states: seq<System>, actions: seq<Action>) {
    && |states| == |actions| + 1
    && forall i :: 0 <= i < |actions| ==> Enabled(p, states[i], actions[i]) && states[i + 1] == Next(p, states[i], actions[i])
  }

  // ---- The caps ----

  ghost predicate CapsHold(p: Plan, store: seq<Signal>) {
    && (forall strategy :: p.limit(strategy) > 0 ==> Trades(p, store, strategy) <= p.limit(strategy))
    && (forall strategy, stock :: TradesOf(p, store, strategy, stock) <= 1)
  }

  ghost predicate Exclusive(s: System) {
    && (forall v, w :: 0 <= v < w < |s.workers| && Critical(s.workers[v]) && Critical(s.workers[w]) ==>
          s.workers[v].m.strategy != s.workers[w].m.strategy)
    && (forall w :: 0 <= w < |s.workers| && Critical(s.workers[w]) ==> s.workers[w].m.strategy in s.locked)
  }

  /** What a goroutine has checked under the lock still holds. */
  ghost predicate Checked(p: Plan, store: seq<Signal>, pc: PC) {
    && (pc.AtCount? || pc.AtBuild? || pc.AtSave? ==> TradesOf(p, store, pc.m.strategy, pc.m.stock) == 0)
    && (pc.AtBuild? || pc.AtSave? ==> p.limit(pc.m.strategy) <= 0 || Trades(p, store, pc.m.strategy) < p.limit(pc.m.strategy))
  }

  ghost predicate AllChecked(p: Plan, s: System) {
    forall w :: 0 <= w < |s.workers| ==> Checked(p, s.store, s.workers[w])
  }

  ghost predicate Invariant(p: Plan, s: System) {
    CapsHold(p, s.store) && Exclusive(s) && AllChecked(p, s)
  }

  lemma {:induction false} HasIffCounted(p: Plan, store: seq<Signal>, strategy: string, stock: int)
    ensures HasSignalToday(p, store, strategy, stock) <==> TradesOf(p, store, strategy, stock) > 0
  {
    if store != [] {
      var n := |store| - 1;
      HasIffCounted(p, store[..n], strategy, stock);
      hide Counted;
      if HasSignalToday(p, store[..n], strategy, stock) {
        var i :| 0 <= i < n && Counted(p, store[..n][i], strategy) && store[..n][i].stock == stock;
        assert Counted(p, store[i], strategy);
      }
    }
  }

  lemma Appended(p: Plan, store: seq<Signal>, s: Signal, strategy: string, stock: int)
    ensures Trades(p, store + [s], strategy) == Trades(p, store, strategy) + if Counted(p, s, strategy) then 1 else 0
    ensures TradesOf(p, store + [s], strategy, stock) ==
              TradesOf(p, store, strategy, stock) + if Counted(p, s, strategy) && s.stock == stock then 1 else 0
  {
    assert (store + [s])[..|store|] == store;
    hide Counted;
  }

  /** Settling a signal never raises a count. */
  lemma {:induction false} Settled(p: Plan, store: seq<Signal>, i: nat, status: SignalStatus, strategy: string, stock: int)
    requires i < |store| && (store[i].status.Failed? || store[i].status.Cancelled? ==> status.Failed? || status.Cancelled?)
    ensures var store' := store[i := store[i].(status := status)];
            && Trades(p, store', strategy) <= Trades(p, store, strategy)
            && TradesOf(p, store', strategy, stock) <= TradesOf(p, store, strategy, stock)
  {
    var n := |store| - 1;
    var store' := store[i := store[i].(status := status)];
    if i < n {
      Settled(p, store[..n], i, status, strategy, stock);
      assert store'[..n] == store[..n][i := store[i].(status := status)];
    } else {
      assert store'[..n] == store[..n];
    }
  }

  lemma SettleKeeps(p: Plan, s: System, i: nat, status: SignalStatus)
    requires Invariant(p, s) && Enabled(p, s, Settle(i, status))
    ensures Invariant(p, Next(p, s, Settle(i, status)))
  {
    var store := s.store[i := s.store[i].(status := status)];
    forall strategy ensures Trades(p, store, strategy) <= Trades(p, s.store, strategy) {
      Settled(p, s.store, i, status, strategy, 0);
    }
    forall strategy, stock ensures TradesOf(p, store, strategy, stock) <= TradesOf(p, s.store, strategy, stock) {
      Settled(p, s.store, i, status, strategy, stock);
    }
    hide Trades, TradesOf, Exclusive;
    assert forall w :: 0 <= w < |s.workers| ==> Checked(p, s.store, s.workers[w]);
    assert forall w :: 0 <= w < |s.workers| ==> Checked(p, store, s.workers[w]);
  }

  /** Saving a checked match keeps the caps, and touches no other strategy. */
  lemma SaveKeepsCaps(p: Plan, store: seq<Signal>, pc: PC, now: int)
    requires CapsHold(p, store) && pc.AtSave? && Checked(p, store, pc)
    ensures var store' := store + [Signal(pc.m.strategy, pc.m.stock, now, Pending)];
            && CapsHold(p, store')
            && forall other: PC :: !other.Idle? && other.m.strategy != pc.m.strategy && Checked(p, store, other) ==> Checked(p, store', other)
  {
    var signal := Signal(pc.m.strategy, pc.m.stock, now, Pending);
    forall strategy
      ensures Trades(p, store + [signal], strategy) == Trades(p, store, strategy) + if Counted(p, signal, strategy) then 1 else 0
    {
      Appended(p, store, signal, strategy, 0);
    }
    forall strategy, stock
      ensures TradesOf(p, store + [signal], strategy, stock) ==
                TradesOf(p, store, strategy, stock) + if Counted(p, signal, strategy) && signal.stock == stock then 1 else 0
    {
      Appended(p, store, signal, strategy, stock);
    }
    hide Trades, TradesOf;
  }

  lemma CheckedAtUnlock(p: Plan, store: seq<Signal>, m: Match)
    ensures forall after: seq<Signal> :: Checked(p, after, AtUnlock(m)) && Checked(p, after, Idle)
  {
  }

  lemma SaveKeeps(p: Plan, s: System, w: nat, saved: bool, sent: bool)
    requires Invariant(p, s) && w < |s.workers| && s.workers[w].AtSave?
    ensures Invariant(p, Issued(s, w, saved, sent))
  {
    SaveKeepsCaps(p, s.store, s.workers[w], s.now);
    hide Trades, TradesOf, CapsHold, Checked;
    CheckedAtUnlock(p, s.store, s.workers[w].m);
  }

  lemma CheckKeeps(p: Plan, s: System, w: nat, ok: bool)
    requires Invariant(p, s) && w < |s.workers| && !s.workers[w].AtSave?
    ensures Invariant(p, Step(p, s, w, ok))
  {
    if !s.workers[w].Idle? {
      HasIffCounted(p, s.store, s.workers[w].m.strategy, s.workers[w].m.stock);
    }
    hide Trades, TradesOf, CapsHold, HasSignalToday;
  }

  lemma NextKeeps(p: Plan, s: System, a: Action)
    requires Invariant(p, s) && Enabled(p, s, a)
    ensures Invariant(p, Next(p, s, a))
  {
    match a
    case Begin(w, m) => hide Trades, TradesOf, CapsHold;
    case Proceed(w, ok) => CheckKeeps(p, s, w, ok);
    case Issue(w, saved, sent) => SaveKeeps(p, s, w, saved, sent);
    case Settle(i, status) => SettleKeeps(p, s, i, status);
    case Tick(now) =>
  }

  /** In every state of every interleaving no strategy has more counted signals than
      its limit, and none has two for one stock. */
  lemma {:induction false} CapsAlwaysHold(p: Plan, states: seq<System>, actions: seq<Action>, n: nat)
    requires Runs(p, states, actions) && n < |states|
    requires CapsHold(p, states[0].store) && states[0].locked == {} && forall w :: 0 <= w < |states[0].workers| ==> states[0].workers[w].Idle?
    ensures Invariant(p, states[n])
    ensures CapsHold(p, states[n].store)
  {
    if n > 0 {
      CapsAlwaysHold(p, states, actions, n - 1);
      NextKeeps(p, states[n - 1], actions[n - 1]);
    }
  }

  // ---- What counts ----

  /** A strategy's signal of today, made since its last activation, that has neither
      failed nor been cancelled. */
  predicate Stands(p: Plan, s: Signal, strategy: string) {
    && s.strategy == strategy && p.today * DAY <= s.created < (p.today + 1) * DAY
    && p.since(strategy) <= s.created && (s.status.Pending? || s.status.Executed?)
  }

  ghost function Standing(p: Plan, store: seq<Signal>, strategy: string): set<nat> {
    set i: nat | i < |store| && Stands(p, store[i], strategy) :: i
  }

  lemma CountedIffStands(p: Plan, s: Signal, strategy: string)
    ensures Counted(p, s, strategy) <==> Stands(p, s, strategy)
  {
  }

  /** The strategy's count is the number of those signals. */
  lemma {:induction false} TradesAreStanding(p: Plan, store: seq<Signal>, strategy: string)
    ensures Trades(p, store, strategy) == |Standing(p, store, strategy)|
  {
    if store != [] {
      var n := |store| - 1;
      TradesAreStanding(p, store[..n], strategy);
      CountedIffStands(p, store[n], strategy);
      hide Counted, Stands;
      var all, before := Standing(p, store, strategy), Standing(p, store[..n], strategy);
      assert all == before + if Stands(p, store[n], strategy) then {n} else {};
    }
  }

  /** So a new day, and a new activation, start from nothing, for the limit and for
      every stock. */
  lemma {:induction false} NothingOldCounts(p: Plan, store: seq<Signal>, strategy: string, stock: int)
    requires forall i :: 0 <= i < |store| && store[i].strategy == strategy ==>
               store[i].created < p.since(strategy) || DayOf(store[i].created) != p.today
    ensures Trades(p, store, strategy) == 0 && TradesOf(p, store, strategy, stock) == 0
    ensures !HasSignalToday(p, store, strategy, stock)
  {
    if store != [] {
      NothingOldCounts(p, store[..|store| - 1], strategy, stock);
    }
  }

  // ---- Orders ----

  /** Every published order is the match of one recorded signal, in order, after the
      first `start` signals. */
  ghost predicate Recorded(s: System, start: nat) {
    && |s.store| == start + |s.orders|
    && forall i :: 0 <= i < |s.orders| ==> Match(s.store[start + i].strategy, s.store[start + i].stock) == s.orders[i]
  }

  /** A match is published without being saved, or saved without being published. */
  predicate Diverges(a: Action) {
    a.Issue? && a.saved != a.sent
  }

  /** As long as saving and publishing fail or succeed together the signals record
      exactly the orders published. */
  lemma {:induction false} OrdersAreRecorded(p: Plan, states: seq<System>, actions: seq<Action>, n: nat)
    requires Runs(p, states, actions) && n < |states| && states[0].orders == []
    requires forall i :: 0 <= i < |actions| ==> !Diverges(actions[i])
    ensures Recorded(states[n], |states[0].store|)
  {
    if n > 0 {
      OrdersAreRecorded(p, states, actions, n - 1);
      hide HasSignalToday, Trades;
    }
  }

  /** Exactly the steps on which they part leave the record. */
  lemma UnrecordedOrderIff(p: Plan, s: System, a: Action, start: nat)
    requires Recorded(s, start) && Enabled(p, s, a)
    ensures Recorded(Next(p, s, a), start) <==> !Diverges(a)
  {
    hide HasSignalToday, Trades;
  }

  // ---- How far orders can go beyond the caps ----

  function Of(matches: seq<Match>, strategy: string): nat {
    if matches == [] then 0
    else
      var n := |matches| - 1;
      Of(matches[..n], strategy) + if matches[n].strategy == strategy then 1 else 0
  }

  function OfStock(matches: seq<Match>, m: Match): nat {
    if matches == [] then 0
    else
      var n := |matches| - 1;
      OfStock(matches[..n], m) + if matches[n] == m then 1 else 0
  }

  lemma OneMore(matches: seq<Match>, x: Match, m: Match)
    ensures Of(matches + [x], m.strategy) == Of(matches, m.strategy) + if x.strategy == m.strategy then 1 else 0
    ensures OfStock(matches + [x], m) == OfStock(matches, m) + if x == m then 1 else 0
  {
    assert (matches + [x])[..|matches|] == matches;
  }

  /** The clock is within the day, and the strategy was activated before. */
  predicate Current(p: Plan, s: System, strategy: string) {
    DayOf(s.now) == p.today && s.now >= p.since(strategy)
  }

  /** Orders published since a state with `trades` counted signals of the strategy are
      those still counted, those settled and those lost, less the ones never sent. */
  ghost predicate BalancedOf(p: Plan, s: System, strategy: string, trades: int) {
    Of(s.orders, strategy) + Of(s.unsent, strategy) + trades ==
      Trades(p, s.store, strategy) + Of(s.settled, strategy) + Of(s.lost, strategy)
  }

  /** The same for one stock. */
  ghost predicate BalancedOfStock(p: Plan, s: System, m: Match, ofStock: int) {
    OfStock(s.orders, m) + OfStock(s.unsent, m) + ofStock ==
      TradesOf(p, s.store, m.strategy, m.stock) + OfStock(s.settled, m) + OfStock(s.lost, m)
  }

  ghost predicate Balanced(p: Plan, s: System, m: Match, trades: int, ofStock: int) {
    BalancedOf(p, s, m.strategy, trades) && BalancedOfStock(p, s, m, ofStock)
  }

  /** What settling one signal does to the counts. */
  lemma {:induction false} SettledExactly(p: Plan, store: seq<Signal>, i: nat, status: SignalStatus, m: Match)
    requires i < |store|
    ensures var before, after := store[i], store[i].(status := status);
            var mine, mine' := Counted(p, before, m.strategy), Counted(p, after, m.strategy);
            && Trades(p, store[i := after], m.strategy) ==
                 Trades(p, store, m.strategy) - (if mine then 1 else 0) + (if mine' then 1 else 0)
            && TradesOf(p, store[i := after], m.strategy, m.stock) ==
                 TradesOf(p, store, m.strategy, m.stock) - (if mine && before.stock == m.stock then 1 else 0)
                                                         + (if mine' && before.stock == m.stock then 1 else 0)
  {
    var n := |store| - 1;
    var store' := store[i := store[i].(status := status)];
    if i < n {
      SettledExactly(p, store[..n], i, status, m);
      assert store'[..n] == store[..n][i := store[i].(status := status)];
    } else {
      assert store'[..n] == store[..n];
    }
    hide Counted;
  }

  lemma SettleBalancesOf(p: Plan, s: System, i: nat, status: SignalStatus, m: Match, trades: int)
    requires Enabled(p, s, Settle(i, status)) && BalancedOf(p, s, m.strategy, trades)
    ensures BalancedOf(p, Next(p, s, Settle(i, status)), m.strategy, trades)
  {
    hide Trades, TradesOf, Of, OfStock, Counted, Drops;
    var sig := s.store[i];
    var x, s' := Match(sig.strategy, sig.stock), Next(p, s, Settle(i, status));
    assert s'.store == s.store[i := sig.(status := status)] && s'.orders == s.orders && s'.lost == s.lost && s'.unsent == s.unsent
        && s'.settled == if Drops(p, sig, status) then s.settled + [x] else s.settled;
    SettledExactly(p, s.store, i, status, m);
    DropsExactly(p, sig, status, m.strategy);
    OneMore(s.settled, x, m);
    hide Next, Enabled;
  }

  lemma SettleBalancesOfStock(p: Plan, s: System, i: nat, status: SignalStatus, m: Match, ofStock: int)
    requires Enabled(p, s, Settle(i, status)) && BalancedOfStock(p, s, m, ofStock)
    ensures BalancedOfStock(p, Next(p, s, Settle(i, status)), m, ofStock)
  {
    hide Trades, TradesOf, Of, OfStock, Counted, Drops;
    var sig := s.store[i];
    var x, s' := Match(sig.strategy, sig.stock), Next(p, s, Settle(i, status));
    assert s'.store == s.store[i := sig.(status := status)] && s'.orders == s.orders && s'.lost == s.lost && s'.unsent == s.unsent
        && s'.settled == if Drops(p, sig, status) then s.settled + [x] else s.settled;
    SettledExactly(p, s.store, i, status, m);
    DropsExactly(p, sig, status, m.strategy);
    OneMore(s.settled, x, m);
    hide Next, Enabled;
  }

  /** A status change that may happen counts a signal out, never in. */
  lemma DropsExactly(p: Plan, s: Signal, status: SignalStatus, strategy: string)
    requires s.status.Failed? || s.status.Cancelled? ==> status.Failed? || status.Cancelled?
    ensures var mine, mine' := Counted(p, s, strategy), Counted(p, s.(status := status), strategy);
            && (mine' ==> mine) && (mine && !mine' <==> s.strategy == strategy && Drops(p, s, status))
  {
  }

  lemma NewIsCounted(p: Plan, s: System, x: Match, strategy: string)
    requires Current(p, s, strategy)
    ensures Counted(p, Signal(x.strategy, x.stock, s.now, Pending), strategy) <==> x.strategy == strategy
  {
  }

  lemma SaveBalancesOf(p: Plan, s: System, w: nat, saved: bool, sent: bool, m: Match, trades: int)
    requires w < |s.workers| && s.workers[w].AtSave? && BalancedOf(p, s, m.strategy, trades) && Current(p, s, m.strategy)
    ensures BalancedOf(p, Issued(s, w, saved, sent), m.strategy, trades)
  {
    hide Trades, TradesOf, Of, OfStock, Counted;
    var x := s.workers[w].m;
    NewIsCounted(p, s, x, m.strategy);
    Appended(p, s.store, Signal(x.strategy, x.stock, s.now, Pending), m.strategy, m.stock);
    OneMore(s.orders, x, m);
    OneMore(s.lost, x, m);
    OneMore(s.unsent, x, m);
  }

  lemma SaveBalancesOfStock(p: Plan, s: System, w: nat, saved: bool, sent: bool, m: Match, ofStock: int)
    requires w < |s.workers| && s.workers[w].AtSave? && BalancedOfStock(p, s, m, ofStock) && Current(p, s, m.strategy)
    ensures BalancedOfStock(p, Issued(s, w, saved, sent), m, ofStock)
  {
    hide Trades, TradesOf, Of, OfStock, Counted;
    var x := s.workers[w].m;
    NewIsCounted(p, s, x, m.strategy);
    Appended(p, s.store, Signal(x.strategy, x.stock, s.now, Pending), m.strategy, m.stock);
    OneMore(s.orders, x, m);
    OneMore(s.lost, x, m);
    OneMore(s.unsent, x, m);
  }

  lemma StepBalances(p: Plan, s: System, a: Action, m: Match, trades: int, ofStock: int)
    requires Enabled(p, s, a) && Balanced(p, s, m, trades, ofStock) && Current(p, s, m.strategy)
    ensures Balanced(p, Next(p, s, a), m, trades, ofStock) && Current(p, Next(p, s, a), m.strategy)
  {
    hide Trades, TradesOf, Of, OfStock, HasSignalToday, Drops;
    match a
    case Begin(_, _) =>
    case Tick(_) =>
    case Settle(i, status) =>
      SettleBalancesOf(p, s, i, status, m, trades);
      SettleBalancesOfStock(p, s, i, status, m, ofStock);
    case Proceed(_, _) =>
    case Issue(w, saved, sent) =>
      SaveBalancesOf(p, s, w, saved, sent, m, trades);
      SaveBalancesOfStock(p, s, w, saved, sent, m, ofStock);
  }

  ghost predicate Start(s: System) {
    && s.orders == s.lost == s.unsent == s.settled == [] && s.locked == {}
    && forall w :: 0 <= w < |s.workers| ==> s.workers[w].Idle?
  }

  /** In every run the orders of a strategy are accounted for exactly: the signals
      counted now less those counted at the start, the signals settled, the saves lost
      and the orders not sent; and the same for one stock. */
  lemma {:induction false} OrdersBalance(p: Plan, states: seq<System>, actions: seq<Action>, n: nat, m: Match)
    requires Runs(p, states, actions) && n < |states| && Start(states[0]) && Current(p, states[0], m.strategy)
    ensures Current(p, states[n], m.strategy)
    ensures Balanced(p, states[n], m, Trades(p, states[0].store, m.strategy), TradesOf(p, states[0].store, m.strategy, m.stock))
  {
    if n > 0 {
      OrdersBalance(p, states, actions, n - 1, m);
      hide Balanced, Current;
      StepBalances(p, states[n - 1], actions[n - 1], m,
                   Trades(p, states[0].store, m.strategy), TradesOf(p, states[0].store, m.strategy, m.stock));
    }
  }

  /** So published orders exceed a cap by at most the signals settled as failed or
      cancelled and the saves that failed. */
  lemma OrdersBounded(p: Plan, states: seq<System>, actions: seq<Action>, n: nat, m: Match)
    requires Runs(p, states, actions) && n < |states| && Start(states[0]) && CapsHold(p, states[0].store)
    requires Current(p, states[0], m.strategy)
    ensures var s := states[n];
            && (p.limit(m.strategy) > 0 ==>
                  Of(s.orders, m.strategy) <= p.limit(m.strategy) + Of(s.settled, m.strategy) + Of(s.lost, m.strategy))
            && OfStock(s.orders, m) <= 1 + OfStock(s.settled, m) + OfStock(s.lost, m)
  {
    OrdersBalance(p, states, actions, n, m);
    CapsAlwaysHold(p, states, actions, n);
    hide Trades, TradesOf, Of, OfStock, Runs, Invariant;
  }

  // ---- Both excesses are reached ----

  /** One goroutine, between matches. */
  predicate Quiet(s: System) {
    s.workers == [Idle] && s.locked == {}
  }

  /** The state after `m` was processed up to its publication; `save` says whether its
      signal was saved. */
  function Processed(s: System, m: Match, save: bool): System {
    s.(store := if save then s.store + [Signal(m.strategy, m.stock, s.now, Pending)] else s.store,
       orders := s.orders + [m], lost := if save then s.lost else s.lost + [m])
  }

  function Holding(s: System, pc: PC): System
    requires !pc.Idle?
  {
    s.(workers := [pc], locked := {pc.m.strategy})
  }

  lemma Checks(p: Plan, s: System, m: Match)
    requires Quiet(s) && TradesOf(p, s.store, m.strategy, m.stock) == 0
    requires p.limit(m.strategy) <= 0 || Trades(p, s.store, m.strategy) < p.limit(m.strategy)
    ensures Step(p, s.(workers := [AtLock(m)]), 0, true) == Holding(s, AtWindow(m))
    ensures Step(p, Holding(s, AtWindow(m)), 0, true) == Holding(s, AtStock(m))
    ensures Step(p, Holding(s, AtStock(m)), 0, true) == Holding(s, AtCount(m))
    ensures Step(p, Holding(s, AtCount(m)), 0, true) == Holding(s, AtBuild(m))
    ensures Step(p, Holding(s, AtBuild(m)), 0, true) == Holding(s, AtSave(m))
  {
    HasIffCounted(p, s.store, m.strategy, m.stock);
    hide Trades, TradesOf, HasSignalToday;
  }

  lemma Publishes(p: Plan, s: System, m: Match, save: bool)
    requires Quiet(s)
    ensures Issued(Holding(s, AtSave(m)), 0, save, true) == Holding(Processed(s, m, save), AtUnlock(m))
    ensures Step(p, Holding(Processed(s, m, save), AtUnlock(m)), 0, true) == Processed(s, m, save)
  {
  }

  /** A quiet system processes a match that passes both checks. */
  lemma Process(p: Plan, s: System, m: Match, save: bool) returns (states: seq<System>, actions: seq<Action>)
    requires Quiet(s) && TradesOf(p, s.store, m.strategy, m.stock) == 0
    requires p.limit(m.strategy) <= 0 || Trades(p, s.store, m.strategy) < p.limit(m.strategy)
    ensures Runs(p, states, actions) && states[0] == s && states[|actions|] == Processed(s, m, save)
    ensures NoSettle(actions) && (save ==> NoLoss(actions))
  {
    Checks(p, s, m);
    Publishes(p, s, m, save);
    var end := Processed(s, m, save);
    hide Step, Issued, Processed, Trades, TradesOf;
    var begun := s.(workers := [AtLock(m)]);
    assert Next(p, s, Begin(0, m)) == begun;
    states, actions := [s], [];
    states, actions := Extended(p, states, actions, Begin(0, m), begun);
    states, actions := Extended(p, states, actions, Proceed(0, true), Holding(s, AtWindow(m)));
    states, actions := Extended(p, states, actions, Proceed(0, true), Holding(s, AtStock(m)));
    states, actions := Extended(p, states, actions, Proceed(0, true), Holding(s, AtCount(m)));
    states, actions := Extended(p, states, actions, Proceed(0, true), Holding(s, AtBuild(m)));
    states, actions := Extended(p, states, actions, Proceed(0, true), Holding(s, AtSave(m)));
    states, actions := Extended(p, states, actions, Issue(0, save, true), Holding(end, AtUnlock(m)));
    states, actions := Extended(p, states, actions, Proceed(0, true), end);
  }

  ghost predicate NoSettle(actions: seq<Action>) {
    forall i :: 0 <= i < |actions| ==> !actions[i].Settle?
  }

  ghost predicate NoLoss(actions: seq<Action>) {
    forall i :: 0 <= i < |actions| ==> !Diverges(actions[i])
  }

  lemma Extended(p: Plan, states: seq<System>, actions: seq<Action>, a: Action, s': System)
    returns (states': seq<System>, actions': seq<Action>)
    requires Runs(p, states, actions) && Enabled(p, states[|actions|], a) && s' == Next(p, states[|actions|], a)
    ensures states' == states + [s'] && actions' == actions + [a] && Runs(p, states', actions')
    ensures states'[0] == states[0] && states'[|actions'|] == s'
    ensures NoSettle(actions) && !a.Settle? ==> NoSettle(actions')
    ensures NoLoss(actions) && !Diverges(a) ==> NoLoss(actions')
  {
    hide Enabled, Next;
    states', actions' := states + [s'], actions + [a];
  }

  lemma Joined(p: Plan, a: seq<System>, aa: seq<Action>, b: seq<System>, bb: seq<Action>)
    returns (states: seq<System>, actions: seq<Action>)
    requires Runs(p, a, aa) && Runs(p, b, bb) && a[|aa|] == b[0]
    ensures Runs(p, states, actions) && states[0] == a[0] && states[|actions|] == b[|bb|] && actions == aa + bb
    ensures NoSettle(aa) && NoSettle(bb) ==> NoSettle(actions)
    ensures NoLoss(aa) && NoLoss(bb) ==> NoLoss(actions)
  {
    hide Enabled, Next, Diverges;
    states, actions := a + b[1..], aa + bb;
    forall i | 0 <= i < |actions|
      ensures Enabled(p, states[i], actions[i]) && states[i + 1] == Next(p, states[i], actions[i])
      ensures NoLoss(aa) && NoLoss(bb) ==> !Diverges(actions[i])
    {
      if i >= |aa| {
        assert states[i] == b[i - |aa|] && states[i + 1] == b[i - |aa| + 1] && actions[i] == bb[i - |aa|];
      }
    }
  }

  /** One trade a day, one goroutine, an empty store. */
  function OneADay(): Plan {
    Plan(0, (s: string) => 1, (s: string) => 0)
  }

  function Empty(): System {
    System([], [Idle], {}, 0, [], [], [], [])
  }

  const MATCH := Match("S", 7)

  lemma OneSignal(status: SignalStatus)
    ensures var p, store := OneADay(), [Signal("S", 7, 0, status)];
            var counts := if status.Failed? || status.Cancelled? then 0 else 1;
            Trades(p, store, "S") == counts && TradesOf(p, store, "S", 7) == counts
    ensures Trades(OneADay(), [], "S") == 0 && TradesOf(OneADay(), [], "S", 7) == 0
  {
    assert [Signal("S", 7, 0, status)][..0] == [];
  }

  /** With every save succeeding: the first order fails at the broker, and the strategy
      publishes a second one for the same stock on a limit of one. */
  lemma OverrunAfterFailure() returns (states: seq<System>, actions: seq<Action>)
    ensures Runs(OneADay(), states, actions) && states[0] == Empty() && NoLoss(actions)
    ensures states[|actions|].orders == [MATCH, MATCH]
  {
    var p := OneADay();
    OneSignal(Pending);
    OneSignal(Failed);
    hide Trades, TradesOf, NoLoss, Next, Enabled;
    states, actions := Process(p, Empty(), MATCH, true);
    var mid := states[|actions|];
    var settled := Settling(p, mid);
    states, actions := Extended(p, states, actions, Settle(0, Failed), settled);
    var later, more := Process(p, settled, MATCH, true);
    states, actions := Joined(p, states, actions, later, more);
  }

  lemma Settling(p: Plan, s: System) returns (s': System)
    requires s.store == [Signal("S", 7, 0, Pending)] && Quiet(s)
    ensures Enabled(p, s, Settle(0, Failed)) && s' == Next(p, s, Settle(0, Failed))
    ensures s'.store == [Signal("S", 7, 0, Failed)] && s'.orders == s.orders && Quiet(s')
  {
    s' := Next(p, s, Settle(0, Failed));
  }

  /** With no status ever changing: the first order's signal is not saved, and the
      strategy publishes a second one for the same stock on a limit of one. */
  lemma OverrunAfterLostSave() returns (states: seq<System>, actions: seq<Action>)
    ensures Runs(OneADay(), states, actions) && states[0] == Empty() && NoSettle(actions)
    ensures states[|actions|].orders == [MATCH, MATCH]
  {
    var p := OneADay();
    OneSignal(Pending);
    hide Trades, TradesOf, NoSettle, Next, Enabled;
    states, actions := Process(p, Empty(), MATCH, false);
    var later, more := Process(p, states[|actions|], MATCH, true);
    states, actions := Joined(p, states, actions, later, more);
  }
}

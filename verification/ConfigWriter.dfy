/** The copy-on-write writer of the strategy store, over shared strategy objects and
    mutable maps.

    Each operation is proved against the transition of ConfigStore; that it writes to
    nothing a published snapshot can reach is its `modifies` clause.
 */
module ConfigWriter {
  import opened ConfigStore
  import opened StringOrder

  /** Only `version` is ever written, by the writer when it files the strategy. */
  class Strategy {
    const userId: string
    const strategyId: string
    const active: bool
    var version: nat
    const body: int

    constructor (userId: string, strategyId: string, active: bool, version: nat, body: int)
      ensures View() == Config(userId, strategyId, active, version, body)
    {
      this.userId, this.strategyId, this.active, this.version, this.body := userId, strategyId, active, version, body;
    }

    function View(): Config
      reads this
    {
      Config(userId, strategyId, active, version, body)
    }
  }

  class StrategyMap {
    var m: map<string, Strategy>

    constructor (m: map<string, Strategy>)
      ensures this.m == m
    {
      this.m := m;
    }
  }

  /** A user's two maps; null before the user's first strategy. */
  datatype UserMaps = UserMaps(active: StrategyMap?, paused: StrategyMap?)

  /** What a user's two maps hold. */
  datatype Filed = Filed(active: map<string, Strategy>, paused: map<string, Strategy>)

  /** Every strategy is filed under its own ids, once. */
  ghost predicate FiledRight(users: map<string, Filed>) {
    forall u :: u in users ==> FiledUnder(u, users[u])
  }

  ghost predicate FiledUnder(u: string, f: Filed) {
    && (forall id :: id in f.active ==> f.active[id].userId == u && f.active[id].strategyId == id && id !in f.paused)
    && (forall id :: id in f.paused ==> f.paused[id].userId == u && f.paused[id].strategyId == id)
  }

  // ---- The flat index ----

  predicate Before(a: Strategy, b: Strategy) {
    Less(a.userId, b.userId) || (a.userId == b.userId && Less(a.strategyId, b.strategyId))
  }

  ghost predicate InOrder(all: seq<Strategy>) {
    forall i, j :: 0 <= i < j < |all| ==> Before(all[i], all[j])
  }

  predicate IsActive(users: map<string, Filed>, st: Strategy) {
    st.userId in users && st.strategyId in users[st.userId].active && users[st.userId].active[st.strategyId] == st
  }

  ghost function PausedOf(users: map<string, Filed>, some: set<string>): set<Strategy> {
    set u, id | u in some && u in users && id in users[u].paused :: users[u].paused[id]
  }

  ghost function ActiveOf(users: map<string, Filed>, some: set<string>): set<Strategy> {
    set u, id | u in some && u in users && id in users[u].active :: users[u].active[id]
  }

  /** The flat list is exactly the active strategies, in strict order, and the totals
      count what they say. */
  ghost predicate Agrees(users: map<string, Filed>, all: seq<Strategy>, active: nat, paused: nat) {
    && InOrder(all) && (forall i :: 0 <= i < |all| ==> IsActive(users, all[i]))
    && (forall u, id :: u in users && id in users[u].active ==> users[u].active[id] in all)
    && active == |all| && paused == |PausedOf(users, users.Keys)|
  }

  /** The index is determined by the strategies: there is only one. */
  lemma {:induction false} InOrderUnique(s: seq<Strategy>, t: seq<Strategy>)
    requires InOrder(s) && InOrder(t) && forall st :: st in s <==> st in t
    ensures s == t
  {
    assert |s| > 0 ==> s[0] in t;
    assert |t| > 0 ==> t[0] in s;
    hide Before;
    if s != [] && t != [] {
      BeforeTotal(s[0], t[0]);
      BeforeTotal(s[0], s[0]);
      assert s[0] == t[0];
      assert forall st :: st in s[1..] <==> st in s && st != s[0];
      assert forall st :: st in t[1..] <==> st in t && st != t[0];
      InOrderUnique(s[1..], t[1..]);
    }
  }

  lemma BeforeTotal(a: Strategy, b: Strategy)
    ensures !(Before(a, b) && Before(b, a)) && !Before(a, a)
  {
    LessTotal(a.userId, b.userId);
    LessTotal(a.strategyId, b.strategyId);
    LessTotal(a.userId, a.userId);
    LessTotal(a.strategyId, a.strategyId);
    hide Less;
  }

  lemma {:induction false} CountOfMap(m: map<string, Strategy>)
    requires forall id :: id in m ==> m[id].strategyId == id
    ensures |m.Values| == |m|
  {
    if m != map[] {
      var id :| id in m;
      var m' := m - {id};
      CountOfMap(m');
      assert m == m'[id := m[id]];
      assert forall st :: st in m.Values ==> st in m'.Values || st == m[id] by {
        forall st | st in m.Values ensures st in m'.Values || st == m[id] {
          var j :| j in m && m[j] == st;
          assert j == id || (j in m' && m'[j] == st);
        }
      }
      assert m.Values == m'.Values + {m[id]};
    }
  }

  lemma CountUser(users: map<string, Filed>, some: set<string>, u: string)
    requires FiledRight(users) && u in users && u !in some && some <= users.Keys
    ensures |PausedOf(users, some + {u})| == |PausedOf(users, some)| + |users[u].paused|
    ensures |ActiveOf(users, some + {u})| == |ActiveOf(users, some)| + |users[u].active|
  {
    AddUser(users, some, u);
    CountOfMap(users[u].paused);
    CountOfMap(users[u].active);
    hide PausedOf, ActiveOf;
  }

  lemma AddUser(users: map<string, Filed>, some: set<string>, u: string)
    requires FiledRight(users) && u in users && u !in some && some <= users.Keys
    ensures PausedOf(users, some + {u}) == PausedOf(users, some) + users[u].paused.Values
    ensures PausedOf(users, some) !! users[u].paused.Values
    ensures ActiveOf(users, some + {u}) == ActiveOf(users, some) + users[u].active.Values
    ensures ActiveOf(users, some) !! users[u].active.Values
  {
  }

  lemma {:induction false} CountOfSeq(all: seq<Strategy>)
    requires InOrder(all)
    ensures |set st | st in all| == |all|
  {
    if all != [] {
      var n := |all| - 1;
      CountOfSeq(all[..n]);
      assert (set st | st in all) == (set st | st in all[..n]) + {all[n]};
      if all[n] in all[..n] {
        var i :| 0 <= i < n && all[i] == all[n];
        BeforeTotal(all[i], all[n]);
      }
    }
  }

  method CountTotals(users: map<string, Filed>) returns (userIds: seq<string>, active: nat, paused: nat)
    requires FiledRight(users)
    ensures (forall i, j :: 0 <= i < j < |userIds| ==> userIds[i] != userIds[j]) && forall u :: u in userIds <==> u in users
    ensures active == |ActiveOf(users, users.Keys)| && paused == |PausedOf(users, users.Keys)|
  {
    userIds, active, paused := [], 0, 0;
    var todo := users.Keys;
    while todo != {}
      invariant todo <= users.Keys && forall u :: u in userIds <==> u in users.Keys - todo
      invariant forall i, j :: 0 <= i < j < |userIds| ==> userIds[i] != userIds[j]
      invariant active == |ActiveOf(users, users.Keys - todo)| && paused == |PausedOf(users, users.Keys - todo)|
    {
      var u :| u in todo;
      CountUser(users, users.Keys - todo, u);
      assert users.Keys - todo + {u} == users.Keys - (todo - {u});
      userIds := userIds + [u];
      active := active + |users[u].active|;
      paused := paused + |users[u].paused|;
      todo := todo - {u};
    }
    assert users.Keys - todo == users.Keys;
  }

  method KeysOf(m: map<string, Strategy>) returns (ids: seq<string>)
    ensures (forall i, j :: 0 <= i < j < |ids| ==> ids[i] != ids[j]) && forall id :: id in ids <==> id in m
  {
    ids := [];
    var todo := m.Keys;
    while todo != {}
      invariant forall id :: id in m <==> id in ids || id in todo
      invariant forall id :: id in ids ==> id !in todo
      invariant forall i, j :: 0 <= i < j < |ids| ==> ids[i] != ids[j]
    {
      var id :| id in todo;
      ids := ids + [id];
      todo := todo - {id};
    }
  }

  /** `rebuildAllActive`: users in order, each user's strategies in order. */
  method RebuildAllActive(users: map<string, Filed>) returns (all: seq<Strategy>, active: nat, paused: nat)
    requires FiledRight(users)
    ensures Agrees(users, all, active, paused)
  {
    var userIds;
    userIds, active, paused := CountTotals(users);
    userIds := SortStrings(userIds);
    all := [];
    for i := 0 to |userIds|
      invariant InOrder(all) && forall st :: st in all <==> IsActive(users, st) && st.userId in userIds[..i]
    {
      all := AppendUser(users, userIds, i, all);
    }
    assert userIds[..|userIds|] == userIds;
    CountOfSeq(all);
    assert ActiveOf(users, users.Keys) == set st | st in all;
  }

  method AppendUser(users: map<string, Filed>, userIds: seq<string>, i: nat, before: seq<Strategy>) returns (all: seq<Strategy>)
    requires FiledRight(users) && i < |userIds| && Ascending(userIds) && forall u :: u in userIds <==> u in users
    requires InOrder(before) && forall st :: st in before <==> IsActive(users, st) && st.userId in userIds[..i]
    ensures InOrder(all) && forall st :: st in all <==> IsActive(users, st) && st.userId in userIds[..i + 1]
  {
    hide Less;
    var u := userIds[i];
    assert u in userIds;
    var ids := KeysOf(users[u].active);
    ids := SortStrings(ids);
    all := before;
    for j := 0 to |ids|
      invariant InOrder(all)
      invariant forall st :: st in all <==> st in before || (IsActive(users, st) && st.userId == u && st.strategyId in ids[..j])
    {
      var st := users[u].active[ids[j]];
      forall k | 0 <= k < |all| ensures Before(all[k], st) {
        assert all[k] in all;
      }
      all := all + [st];
    }
  }

  // ---- Snapshots ----

  ghost function All(users: map<string, Filed>): set<Strategy> {
    PausedOf(users, users.Keys) + ActiveOf(users, users.Keys)
  }

  ghost function Shown(m: map<string, Strategy>): map<string, Config>
    reads m.Values
  {
    map id | id in m :: m[id].View()
  }

  ghost function ShownUser(f: Filed): UserView
    reads f.active.Values, f.paused.Values
  {
    UserView(Shown(f.active), Shown(f.paused))
  }

  /** The strategies as readers see them. */
  ghost function ShownUsers(users: map<string, Filed>): map<string, UserView>
    reads All(users)
  {
    map u | u in users :: ShownUser(users[u])
  }

  class Snapshot {
    var byUser: map<string, UserMaps>
    var allActive: seq<Strategy>
    var totalUsers: nat
    var totalStrategies: nat
    var totalActive: nat
    var totalPaused: nat

    constructor (byUser: map<string, UserMaps>)
      ensures this.byUser == byUser
    {
      this.byUser, allActive := byUser, [];
      totalUsers, totalStrategies, totalActive, totalPaused := 0, 0, 0, 0;
    }

    ghost predicate Whole()
      reads this
    {
      forall u :: u in byUser ==> byUser[u].active != null && byUser[u].paused != null
    }

    ghost function Maps(): set<StrategyMap>
      reads this
    {
      (set u | u in byUser && byUser[u].active != null :: byUser[u].active) +
      (set u | u in byUser && byUser[u].paused != null :: byUser[u].paused)
    }

    function Contents(): map<string, Filed>
      requires Whole()
      reads this, Maps()
    {
      map u | u in byUser :: Filed(byUser[u].active.m, byUser[u].paused.m)
    }

    /** The published index agrees with the strategies. */
    ghost predicate Valid()
      reads this, Maps()
    {
      && Whole() && FiledRight(Contents()) && Agrees(Contents(), allActive, totalActive, totalPaused)
      && totalUsers == |byUser| && totalStrategies == totalActive + totalPaused
    }

    /** Everything a reader of this snapshot can see. */
    ghost function View(): (map<string, UserView>, seq<Config>, nat)
      requires Valid()
      reads this, Maps(), All(Contents())
    {
      (ShownUsers(Contents()), ShownSeq(allActive), totalUsers)
    }

    method Finalize()
      requires Whole() && FiledRight(Contents())
      modifies this
      ensures Valid() && byUser == old(byUser) && Contents() == old(Contents())
    {
      var users := Contents();
      var all, active, paused := RebuildAllActive(users);
      assert Contents() == users;
      SetIndex(all, active, paused);
    }

    method SetIndex(all: seq<Strategy>, active: nat, paused: nat)
      requires Whole() && FiledRight(Contents()) && Agrees(Contents(), all, active, paused)
      modifies this`allActive, this`totalUsers, this`totalStrategies, this`totalActive, this`totalPaused
      ensures Valid() && byUser == old(byUser) && Contents() == old(Contents())
    {
      hide Agrees, FiledRight;
      allActive, totalActive, totalPaused := all, active, paused;
      totalUsers, totalStrategies := |byUser|, active + paused;
      assert Maps() == old(Maps());
      assert Contents() == old(Contents());
    }
  }

  ghost function ShownSeq(all: seq<Strategy>): seq<Config>
    reads all
  {
    seq(|all|, i requires 0 <= i < |all| reads all => all[i].View())
  }

  function FiledOf(users: map<string, Filed>, user: string): Filed {
    if user in users then users[user] else Filed(map[], map[])
  }

  /** Apart from `st`, the strategies look as they did in `was`. */
  ghost predicate LooksAs(m: map<string, Strategy>, was: map<string, Config>, st: Strategy)
    reads m.Values
  {
    m.Keys == was.Keys && forall id :: id in m && m[id] != st ==> m[id].View() == was[id]
  }

  ghost predicate UsersLookAs(users: map<string, Filed>, was: map<string, UserView>, st: Strategy)
    reads All(users)
  {
    && users.Keys == was.Keys
    && forall u :: u in users ==> LooksAs(users[u].active, was[u].active, st) && LooksAs(users[u].paused, was[u].paused, st)
  }

  lemma LooksNow(users: map<string, Filed>, st: Strategy)
    ensures UsersLookAs(users, ShownUsers(users), st)
  {
  }

  lemma ShownBut(m: map<string, Strategy>, was: map<string, Config>, id: string, st: Strategy)
    requires LooksAs(m, was, st) && forall j :: j in m && m[j] == st ==> j == id
    ensures Shown(m[id := st]) == was[id := st.View()]
    ensures Shown(m - {id}) == was - {id}
    ensures st !in m.Values ==> Shown(m) == was
  {
  }

  function WithActive(f: Filed, st: Strategy): Filed {
    Filed(f.active[st.strategyId := st], f.paused - {st.strategyId})
  }

  function ViewWithActive(uv: UserView, c: Config): UserView {
    UserView(uv.active[c.strategyId := c], uv.paused - {c.strategyId})
  }

  lemma UserShown(u: string, f: Filed, was: UserView, st: Strategy)
    requires FiledUnder(u, f) && LooksAs(f.active, was.active, st) && LooksAs(f.paused, was.paused, st)
    ensures u != st.userId ==> ShownUser(f) == was
    ensures u == st.userId ==> ShownUser(WithActive(f, st)) == ViewWithActive(was, st.View())
  {
    ShownBut(f.active, was.active, st.strategyId, st);
    ShownBut(f.paused, was.paused, st.strategyId, st);
  }

  /** Filing `st` as active, its version already written, looks to readers like the
      upsert of its configuration. */
  lemma UpsertShown(users: map<string, Filed>, was: map<string, UserView>, st: Strategy)
    requires FiledRight(users) && UsersLookAs(users, was, st)
    ensures ShownUsers(users[st.userId := WithActive(FiledOf(users, st.userId), st)]) ==
              was[st.userId := ViewWithActive(Lookup(was, st.userId), st.View())]
  {
    forall u | u in users && u != st.userId ensures ShownUser(users[u]) == was[u] {
      UserShown(u, users[u], was[u], st);
    }
    UserShown(st.userId, FiledOf(users, st.userId), Lookup(was, st.userId), st);
  }

  lemma FiledWithActive(users: map<string, Filed>, st: Strategy)
    requires FiledRight(users)
    ensures FiledUnder(st.userId, WithActive(FiledOf(users, st.userId), st))
  {
  }

  lemma OneUserShown(users: map<string, Filed>, u: string, f: Filed)
    ensures ShownUsers(users[u := f]) == ShownUsers(users)[u := ShownUser(f)]
    ensures u in users ==> ShownUsers(users)[u] == ShownUser(users[u])
  {
  }

  function MovedToPaused(f: Filed, id: string): Filed
    requires id in f.active
  {
    Filed(f.active - {id}, f.paused[id := f.active[id]])
  }

  function ViewMovedToPaused(uv: UserView, id: string): UserView
    requires id in uv.active
  {
    UserView(uv.active - {id}, uv.paused[id := uv.active[id]])
  }

  lemma PauseShown(users: map<string, Filed>, u: string, id: string)
    requires FiledRight(users) && u in users && id in users[u].active
    ensures FiledUnder(u, MovedToPaused(users[u], id)) && id in ShownUsers(users)[u].active
    ensures ShownUsers(users[u := MovedToPaused(users[u], id)]) == ShownUsers(users)[u := ViewMovedToPaused(ShownUsers(users)[u], id)]
  {
    var f := users[u];
    OneUserShown(users, u, MovedToPaused(f, id));
    assert Shown(f.active - {id}) == Shown(f.active) - {id};
    assert Shown(f.paused[id := f.active[id]]) == Shown(f.paused)[id := Shown(f.active)[id]];
  }

  function Removed(f: Filed, id: string): Filed {
    Filed(f.active - {id}, f.paused - {id})
  }

  function ViewRemoved(uv: UserView, id: string): UserView {
    UserView(uv.active - {id}, uv.paused - {id})
  }

  lemma RemoveShown(users: map<string, Filed>, u: string, id: string)
    requires FiledRight(users) && u in users
    ensures FiledUnder(u, Removed(users[u], id))
    ensures ShownUsers(users[u := Removed(users[u], id)]) == ShownUsers(users)[u := ViewRemoved(ShownUsers(users)[u], id)]
  {
    var f := users[u];
    OneUserShown(users, u, Removed(f, id));
    assert Shown(f.active - {id}) == Shown(f.active) - {id};
    assert Shown(f.paused - {id}) == Shown(f.paused) - {id};
  }

  /** The resumed strategy is a copy, so readers of older snapshots do not see it. */
  lemma ResumeShown(users: map<string, Filed>, u: string, st: Strategy)
    requires FiledRight(users) && u in users && st.userId == u
    ensures FiledUnder(u, WithActive(users[u], st))
    ensures ShownUsers(users[u := WithActive(users[u], st)]) == ShownUsers(users)[u := ViewWithActive(ShownUsers(users)[u], st.View())]
  {
    var f, id := users[u], st.strategyId;
    OneUserShown(users, u, WithActive(f, st));
    assert Shown(f.active[id := st]) == Shown(f.active)[id := st.View()];
    assert Shown(f.paused - {id}) == Shown(f.paused) - {id};
  }

  /** When an upsert is taken, and what it does then. */
  lemma UpsertCases(s: State, c: Config, version: nat)
    ensures var k, uv := Key(c.userId, c.strategyId), Lookup(s.users, c.userId);
            var ignored := c.userId == "" || c.strategyId == "" || !c.active || Buried(s, k, version) || Seen(s, k, version);
            && NoOp(s, Upsert(c, version)) == ignored
            && Upserted(s, c, version) ==
                 if ignored then s
                 else s.(users := s.users[c.userId := ViewWithActive(uv, c.(version := version))], versions := s.versions[k := version])
  {
    hide Key;
  }

  lemma PauseCases(s: State, u: string, id: string, version: nat)
    ensures var k := Key(u, id);
            var ignored := u == "" || id == "" || Buried(s, k, version) || Seen(s, k, version) || u !in s.users || id !in s.users[u].active;
            && NoOp(s, Pause(u, id, version)) == ignored
            && Paused(s, u, id, version) ==
                 if ignored then s
                 else s.(users := s.users[u := ViewMovedToPaused(s.users[u], id)], versions := s.versions[k := version])
  {
    hide Key;
  }

  /** A strategy is not active and paused at once. */
  predicate Disjoint(s: State, u: string, id: string) {
    u in s.users && id in s.users[u].paused ==> id !in s.users[u].active
  }

  lemma ResumeCases(s: State, u: string, id: string, version: nat)
    requires Disjoint(s, u, id)
    ensures var k := Key(u, id);
            var ignored := u == "" || id == "" || Buried(s, k, version) || Seen(s, k, version) || u !in s.users || id !in s.users[u].paused;
            && NoOp(s, Resume(u, id, version)) == ignored
            && (!ignored && s.users[u].paused[id].strategyId == id ==>
                  (Resumed(s, u, id, version) ==
                   s.(users := s.users[u := ViewWithActive(s.users[u], s.users[u].paused[id].(active := true, version := version))],
                      versions := s.versions[k := version])))
            && (ignored ==> Resumed(s, u, id, version) == s)
  {
    hide Key;
  }

  lemma DeleteCases(s: State, u: string, id: string, version: nat)
    ensures var k := Key(u, id);
            var ignored, s' := u == "" || id == "" || Buried(s, k, version), s.(versions := s.versions[k := version], tombstones := s.tombstones[k := version]);
            && Fresh(s, Delete(u, id, version)) == !ignored
            && (StatusOf(s, u, id) != Absent <==> u in s.users && (id in s.users[u].active || id in s.users[u].paused))
            && Deleted(s, u, id, version) ==
                 if ignored then s else if u !in s.users then s' else s'.(users := s.users[u := ViewRemoved(s.users[u], id)])
  {
    hide Key;
  }

  class Store {
    var snap: Snapshot

    constructor (snap: Snapshot)
      ensures this.snap == snap
    {
      this.snap := snap;
    }
  }

  class Writer {
    const store: Store
    var current: Snapshot
    var tombstones: map<string, nat>
    var versions: map<string, nat>

    constructor ()
      ensures Valid() && View() == EmptyState()
    {
      var snap := new Snapshot(map[]);
      assert snap.Contents() == map[];
      snap.Finalize();
      current := snap;
      store := new Store(snap);
      tombstones, versions := map[], map[];
    }

    /** The writer's snapshot is the published one, and its index agrees with it. */
    ghost predicate Valid()
      reads this, store, current, current.Maps()
    {
      store.snap == current && current.Valid()
    }

    ghost function View(): State
      requires Valid()
      reads this, store, current, current.Maps(), All(current.Contents())
    {
      State(ShownUsers(current.Contents()), versions, tombstones)
    }

    /** `cloneUserView`: fresh maps with the user's strategies, empty for a new user. */
    method CloneUserView(user: string) returns (active: StrategyMap, paused: StrategyMap)
      requires Valid()
      ensures fresh(active) && fresh(paused) && active != paused
      ensures Valid() && current.Contents() == old(current.Contents())
      ensures Filed(active.m, paused.m) == FiledOf(current.Contents(), user)
    {
      hide Agrees, FiledRight;
      ghost var users := current.Contents();
      if user in current.byUser {
        active := new StrategyMap(current.byUser[user].active.m);
        paused := new StrategyMap(current.byUser[user].paused.m);
      } else {
        active := new StrategyMap(map[]);
        paused := new StrategyMap(map[]);
      }
      assert current.Contents() == users;
    }

    /** `cloneSnapshotShallow` with the user's new maps, finalized. */
    method NextSnapshot(user: string, active: StrategyMap, paused: StrategyMap) returns (next: Snapshot)
      requires Valid() && FiledUnder(user, Filed(active.m, paused.m))
      ensures fresh(next) && next.Valid()
      ensures next.Contents() == old(current.Contents()[user := Filed(active.m, paused.m)])
    {
      hide Agrees, FiledUnder;
      next := new Snapshot(current.byUser[user := UserMaps(active, paused)]);
      ghost var users := current.Contents()[user := Filed(active.m, paused.m)];
      assert next.Contents() == users;
      assert FiledRight(users);
      next.Finalize();
    }

    method Commit(next: Snapshot)
      requires next.Valid()
      modifies this`current, store
      ensures Valid() && current == next
      ensures View() == old(State(ShownUsers(next.Contents()), versions, tombstones))
      ensures current.Contents() == old(next.Contents())
    {
      hide Agrees, FiledRight, ShownUser;
      ghost var users := next.Contents();
      store.snap := next;
      current := next;
      assert next.Contents() == users;
      assert ShownUsers(users) == old(ShownUsers(users));
    }

    /** The tombstone and version tests of the writer. */
    predicate Stale(k: string, version: nat)
      reads this
    {
      (k in tombstones && version <= tombstones[k]) || (k in versions && version <= versions[k])
    }

    method ApplyUpsert(strategy: Strategy?, version: nat) returns (applied: bool, err: bool)
      requires Valid()
      modifies this, store, strategy
      ensures Valid() && err == (strategy == null || strategy.userId == "" || strategy.strategyId == "")
      ensures strategy == null ==> !applied && View() == old(View())
      ensures strategy != null ==> View() == Upserted(old(View()), old(strategy.View()), version)
      ensures strategy != null ==> applied == !NoOp(old(View()), Upsert(old(strategy.View()), version))
      ensures !applied ==> current == old(current) && (strategy != null ==> strategy.version == old(strategy.version))
      ensures applied ==> fresh(current) && strategy.version == version
    {
      if strategy == null {
        return false, true;
      }
      ghost var s, c := View(), strategy.View();
      UpsertCases(s, c, version);
      hide ShownUsers, Agrees, FiledRight, Upserted, NoOp, Snapshot.Contents;
      if strategy.userId == "" || strategy.strategyId == "" {
        return false, true;
      }
      if !strategy.active {
        return false, false;
      }
      var k := Key(strategy.userId, strategy.strategyId);
      if Stale(k, version) {
        return false, false;
      }
      File(strategy, version);
      SetVersions(versions[k := version]);
      return true, false;
    }

    method SetVersions(next: map<string, nat>)
      requires Valid()
      modifies this`versions
      ensures Valid() && current == old(current) && View() == old(View()).(versions := next)
    {
      hide Agrees, FiledRight, ShownUser;
      ghost var users := current.Contents();
      versions := next;
      assert current.Contents() == users;
      assert ShownUsers(users) == old(ShownUsers(users));
    }

    method ApplyPause(user: string, id: string, version: nat) returns (applied: bool, err: bool)
      requires Valid()
      modifies this, store
      ensures Valid() && err == (user == "" || id == "")
      ensures View() == Paused(old(View()), user, id, version)
      ensures applied == !NoOp(old(View()), Pause(user, id, version))
      ensures if applied then fresh(current) else current == old(current)
    {
      PauseCases(View(), user, id, version);
      ViewKeys(user, id);
      hide Paused, NoOp, ShownUsers, Agrees, FiledRight;
      if user == "" || id == "" {
        return false, true;
      }
      var k := Key(user, id);
      if Stale(k, version) || user !in current.byUser || id !in current.byUser[user].active.m {
        return false, false;
      }
      hide Snapshot.Contents;
      MovePaused(user, id);
      SetVersions(versions[k := version]);
      return true, false;
    }

    lemma ViewKeys(user: string, id: string)
      requires Valid()
      ensures user in View().users <==> user in current.byUser
      ensures user in current.byUser ==> (id in View().users[user].active <==> id in current.byUser[user].active.m)
      ensures user in current.byUser ==> (id in View().users[user].paused <==> id in current.byUser[user].paused.m)
    {
      hide Agrees, FiledRight;
    }

    method MovePaused(user: string, id: string)
      requires Valid() && user in current.byUser && id in current.byUser[user].active.m
      modifies this`current, store
      ensures Valid() && fresh(current)
      ensures var users := old(View()).users;
              && user in users && id in users[user].active
              && View() == old(View()).(users := users[user := ViewMovedToPaused(users[user], id)])
    {
      ViewKeys(user, id);
      hide Agrees, FiledUnder, ShownUsers, FiledRight;
      var active, paused := PausedMaps(user, id);
      PauseShown(current.Contents(), user, id);
      hide Snapshot.Contents;
      Publish(user, active, paused);
    }

    method PausedMaps(user: string, id: string) returns (active: StrategyMap, paused: StrategyMap)
      requires Valid() && user in current.Contents() && id in current.Contents()[user].active
      ensures fresh(active) && fresh(paused) && Valid() && current == old(current) && View() == old(View())
      ensures current.Contents() == old(current.Contents()) && Filed(active.m, paused.m) == MovedToPaused(current.Contents()[user], id)
    {
      hide Agrees, FiledRight, ShownUser;
      ghost var users := current.Contents();
      active, paused := CloneUserView(user);
      MoveEntry(active, paused, id);
      assert current.Contents() == users;
      assert ShownUsers(users) == old(ShownUsers(users));
    }

    method MoveEntry(from: StrategyMap, to: StrategyMap, id: string)
      requires from != to && id in from.m
      modifies from, to
      ensures Filed(from.m, to.m) == MovedToPaused(old(Filed(from.m, to.m)), id)
    {
      var strategy := from.m[id];
      from.m := from.m - {id};
      to.m := to.m[id := strategy];
    }

    method ApplyResume(user: string, id: string, version: nat) returns (applied: bool, err: bool)
      requires Valid()
      modifies this, store
      ensures Valid() && err == (user == "" || id == "")
      ensures View() == Resumed(old(View()), user, id, version)
      ensures applied == !NoOp(old(View()), Resume(user, id, version))
      ensures if applied then fresh(current) else current == old(current)
    {
      ResumeCases(View(), user, id, version);
      ViewKeys(user, id);
      assert Disjoint(View(), user, id);
      hide Resumed, NoOp, ShownUsers, Agrees, FiledRight;
      if user == "" || id == "" {
        return false, true;
      }
      var k := Key(user, id);
      if Stale(k, version) || user !in current.byUser || id !in current.byUser[user].paused.m {
        return false, false;
      }
      hide Snapshot.Contents;
      MoveResumed(user, id, version);
      SetVersions(versions[k := version]);
      return true, false;
    }

    /** A copy of the paused strategy, active and under the new version. */
    method CopyForResume(user: string, id: string, version: nat) returns (copy: Strategy)
      requires Valid() && user in current.Contents() && id in current.Contents()[user].paused
      ensures fresh(copy) && Valid() && current == old(current) && View() == old(View()) && current.Contents() == old(current.Contents())
      ensures copy.userId == user && copy.strategyId == id
      ensures user in View().users && id in View().users[user].paused
      ensures copy.View() == View().users[user].paused[id].(active := true, version := version)
    {
      ghost var users := current.Contents();
      var strategy := current.byUser[user].paused.m[id];
      copy := new Strategy(strategy.userId, strategy.strategyId, true, version, strategy.body);
      assert strategy == users[user].paused[id] && FiledUnder(user, users[user]);
      assert ShownUsers(users)[user].paused[id] == strategy.View();
      hide Agrees, FiledRight, ShownUser;
      assert current.Contents() == users;
      assert ShownUsers(users) == old(ShownUsers(users));
    }

    method MoveResumed(user: string, id: string, version: nat)
      requires Valid() && user in current.byUser && id in current.byUser[user].paused.m
      modifies this`current, store
      ensures Valid() && fresh(current)
      ensures var users := old(View()).users;
              && user in users && id in users[user].paused
              && View() == old(View()).(users := users[user := ViewWithActive(users[user], users[user].paused[id].(active := true, version := version))])
    {
      ViewKeys(user, id);
      hide Agrees, FiledUnder, ShownUsers, FiledRight;
      var copy := CopyForResume(user, id, version);
      var active, paused := ActiveMaps(copy);
      ResumeShown(current.Contents(), user, copy);
      hide Snapshot.Contents;
      Publish(user, active, paused);
    }

    /** True when a strategy was there to remove; the tombstone is set either way. */
    method ApplyDelete(user: string, id: string, version: nat) returns (applied: bool, err: bool)
      requires Valid()
      modifies this, store
      ensures Valid() && err == (user == "" || id == "")
      ensures View() == Deleted(old(View()), user, id, version)
      ensures applied == (Fresh(old(View()), Delete(user, id, version)) && StatusOf(old(View()), user, id) != Absent)
      ensures current == old(current) || fresh(current)
    {
      DeleteCases(View(), user, id, version);
      ViewKeys(user, id);
      hide Deleted, Fresh, StatusOf, ShownUsers, Agrees, FiledRight;
      if user == "" || id == "" {
        return false, true;
      }
      var k := Key(user, id);
      if k in tombstones && version <= tombstones[k] {
        return false, false;
      }
      SetTombstone(k, version);
      if user !in current.byUser {
        return false, false;
      }
      var inActive := id in current.byUser[user].active.m;
      var inPaused := id in current.byUser[user].paused.m;
      hide Snapshot.Contents;
      Remove(user, id);
      return inActive || inPaused, false;
    }

    method SetTombstone(k: string, version: nat)
      requires Valid()
      modifies this`versions, this`tombstones
      ensures Valid()
      ensures View() == old(View()).(versions := old(versions)[k := version], tombstones := old(tombstones)[k := version])
    {
      hide Agrees, FiledRight, ShownUser;
      ghost var users := current.Contents();
      tombstones := tombstones[k := version];
      versions := versions[k := version];
      assert current.Contents() == users;
      assert ShownUsers(users) == old(ShownUsers(users));
    }

    method Remove(user: string, id: string)
      requires Valid() && user in current.byUser
      modifies this`current, store
      ensures Valid() && fresh(current)
      ensures var users := old(View()).users;
              user in users && View() == old(View()).(users := users[user := ViewRemoved(users[user], id)])
    {
      ViewKeys(user, id);
      hide Agrees, FiledUnder, ShownUsers, FiledRight;
      var active, paused := RemovedMaps(user, id);
      RemoveShown(current.Contents(), user, id);
      hide Snapshot.Contents;
      Publish(user, active, paused);
    }

    method RemovedMaps(user: string, id: string) returns (active: StrategyMap, paused: StrategyMap)
      requires Valid() && user in current.Contents()
      ensures fresh(active) && fresh(paused) && Valid() && current == old(current) && View() == old(View())
      ensures current.Contents() == old(current.Contents()) && Filed(active.m, paused.m) == Removed(current.Contents()[user], id)
    {
      hide Agrees, FiledRight, ShownUser;
      ghost var users := current.Contents();
      active, paused := CloneUserView(user);
      RemoveEntry(active, paused, id);
      assert current.Contents() == users;
      assert ShownUsers(users) == old(ShownUsers(users));
    }

    method RemoveEntry(active: StrategyMap, paused: StrategyMap, id: string)
      requires active != paused
      modifies active, paused
      ensures Filed(active.m, paused.m) == Removed(old(Filed(active.m, paused.m)), id)
    {
      active.m := active.m - {id};
      paused.m := paused.m - {id};
    }

    /** The strategy becomes active in a new snapshot, under the given version. */
    method File(strategy: Strategy, version: nat)
      requires Valid()
      modifies this`current, store, strategy
      ensures Valid() && fresh(current) && strategy.version == version
      ensures var users, c := old(View()).users, old(strategy.View()).(version := version);
              View() == old(View()).(users := users[c.userId := ViewWithActive(Lookup(users, c.userId), c)])
    {
      hide Agrees, FiledRight, UsersLookAs, ShownUsers, FiledUnder, WithActive, FiledOf, Lookup, ViewWithActive;
      ghost var users, was := current.Contents(), View().users;
      var active, paused := ActiveMaps(strategy);
      SetVersion(strategy, version);
      UpsertShown(users, was, strategy);
      FiledWithActive(users, strategy);
      hide Snapshot.Contents;
      Publish(strategy.userId, active, paused);
    }

    method SetVersion(strategy: Strategy, version: nat)
      requires Valid()
      modifies strategy
      ensures Valid() && current.Contents() == old(current.Contents()) && strategy.version == version
      ensures UsersLookAs(current.Contents(), old(View()).users, strategy)
    {
      hide Agrees, FiledRight;
      ghost var users, was := current.Contents(), View().users;
      LooksNow(users, strategy);
      strategy.version := version;
      assert current.Contents() == users;
      assert UsersLookAs(users, was, strategy) by { hide Snapshot.Contents; }
      hide UsersLookAs, ShownUsers;
    }

    /** The user's maps with the strategy moved to the active one. */
    method ActiveMaps(strategy: Strategy) returns (active: StrategyMap, paused: StrategyMap)
      requires Valid()
      ensures fresh(active) && fresh(paused) && Valid() && current == old(current) && View() == old(View())
      ensures current.Contents() == old(current.Contents()) && strategy.View() == old(strategy.View())
      ensures Filed(active.m, paused.m) == WithActive(FiledOf(current.Contents(), strategy.userId), strategy)
    {
      hide Agrees, FiledRight, ShownUser, WithActive, FiledOf, FiledUnder;
      ghost var users := current.Contents();
      active, paused := CloneUserView(strategy.userId);
      MoveToActive(strategy, active, paused);
      assert current.Contents() == users;
      assert ShownUsers(users) == old(ShownUsers(users));
    }

    method MoveToActive(strategy: Strategy, active: StrategyMap, paused: StrategyMap)
      requires active != paused
      modifies active, paused
      ensures Filed(active.m, paused.m) == WithActive(old(Filed(active.m, paused.m)), strategy)
    {
      if strategy.strategyId in paused.m {
        paused.m := paused.m - {strategy.strategyId};
      }
      active.m := active.m[strategy.strategyId := strategy];
    }

    method Publish(user: string, active: StrategyMap, paused: StrategyMap)
      requires Valid() && FiledUnder(user, Filed(active.m, paused.m))
      modifies this`current, store
      ensures Valid() && fresh(current) && unchanged(active) && unchanged(paused)
      ensures View() == old(View()).(users := old(ShownUsers(current.Contents()[user := Filed(active.m, paused.m)])))
    {
      hide Agrees, FiledRight, FiledUnder, ShownUser;
      ghost var users := current.Contents()[user := Filed(active.m, paused.m)];
      ghost var shown := ShownUsers(users);
      var next := NextSnapshot(user, active, paused);
      assert next.Contents() == users && ShownUsers(users) == shown;
      hide ShownUsers, Snapshot.Contents;
      Commit(next);
    }

    /** `BulkLoad`: nil and inactive entries are dropped, the last entry of a key
        wins; versions and tombstones are not touched. */
    method BulkLoad(strategies: seq<Strategy?>)
      requires Valid()
      modifies this`current, store
      ensures Valid() && fresh(current) && current.Contents() == Loaded(strategies)
      ensures View() == old(View()).(users := old(ShownUsers(Loaded(strategies))))
    {
      LoadedRight(strategies);
      ghost var shown := ShownUsers(Loaded(strategies));
      hide Agrees, FiledRight, ShownUser, Loaded;
      var users := LoadUsers(strategies);
      var next := BuildSnapshot(users);
      assert ShownUsers(users) == shown;
      hide ShownUsers, Snapshot.Contents;
      Commit(next);
    }

    /** Searches the active and then the paused strategies. */
    method GetStrategy(user: string, id: string) returns (strategy: Strategy?)
      requires Valid()
      ensures var status := StatusOf(old(View()), user, id);
              if strategy == null then status == Absent else status == Live(strategy.View()) || status == Held(strategy.View())
    {
      hide Agrees, FiledRight;
      if user !in current.byUser {
        return null;
      }
      var um := current.byUser[user];
      if id in um.active.m {
        return um.active.m[id];
      }
      if id in um.paused.m {
        return um.paused.m[id];
      }
      return null;
    }
  }

  // ---- Readers ----

  /** What the consumer hands to the writer. */
  datatype Message =
    | UpsertOf(strategy: Strategy, version: nat)
    | Other(event: Event)
  {
    predicate Proper() {
      Other? ==> !event.Upsert?
    }
  }

  function EventOf(m: Message): Event {
    match m
    case UpsertOf(st, v) => Upsert(Config(st.userId, st.strategyId, st.active, 0, st.body), v)
    case Other(e) => e
  }

  function Events(messages: seq<Message>): seq<Event> {
    seq(|messages|, i requires 0 <= i < |messages| => EventOf(messages[i]))
  }

  ghost function Touched(messages: seq<Message>): set<Strategy> {
    set i | 0 <= i < |messages| && messages[i].UpsertOf? :: messages[i].strategy
  }

  method Handle(w: Writer, m: Message)
    requires w.Valid() && m.Proper()
    modifies w, w.store, Touched([m])
    ensures w.Valid() && w.View() == Apply(old(w.View()), EventOf(m))
  {
    match m
    case UpsertOf(strategy, version) =>
      assert m == [m][0] && strategy in Touched([m]);
      UpsertIgnoresVersion(w.View(), strategy.View(), version);
      hide Upserted, NoOp;
      var applied, err := w.ApplyUpsert(strategy, version);
    case Other(event) =>
      hide Paused, Resumed, Deleted, NoOp, Fresh, StatusOf;
      match event {
        case Upsert(_, _) =>
        case Pause(u, id, v) => var applied, err := w.ApplyPause(u, id, v);
        case Resume(u, id, v) => var applied, err := w.ApplyResume(u, id, v);
        case Delete(u, id, v) => var applied, err := w.ApplyDelete(u, id, v);
      }
  }

  /** No message hands over one of the strategies in `seen`. */
  ghost predicate AllUnseen(messages: seq<Message>, seen: set<Strategy>) {
    forall i :: 0 <= i < |messages| ==> messages[i].Proper() && (messages[i].UpsertOf? ==> messages[i].strategy !in seen)
  }

  /** Snapshots are immutable to their readers: whatever the writer consumes after a
      snapshot was taken, as long as the strategies it is handed are not objects of
      that snapshot, nothing a reader can reach from it changes; and the writer ends
      in the state the events give. */
  method Consume(w: Writer, messages: seq<Message>, ghost held: Snapshot, ghost maps: set<StrategyMap>, ghost seen: set<Strategy>)
    requires w.Valid() && held.Valid() && maps == held.Maps() && seen == All(held.Contents()) && AllUnseen(messages, seen)
    modifies w, w.store, Touched(messages)
    ensures w.Valid() && w.View() == Run(old(w.View()), Events(messages))
    ensures unchanged(held) && unchanged(maps) && unchanged(seen)
  {
    assert Touched(messages) !! seen;
    ConsumeAll(w, messages);
    hide Writer.Valid, Writer.View, Snapshot.Valid, Run, All, Snapshot.Maps, Snapshot.Contents, AllUnseen, Touched;
  }

  method ConsumeAll(w: Writer, messages: seq<Message>)
    requires w.Valid() && forall i :: 0 <= i < |messages| ==> messages[i].Proper()
    modifies w, w.store, Touched(messages)
    ensures w.Valid() && w.View() == Run(old(w.View()), Events(messages))
  {
    hide Apply, Writer.Valid, Writer.View;
    for i := 0 to |messages|
      invariant w.Valid() && w.View() == Run(old(w.View()), Events(messages[..i]))
    {
      assert forall st :: st in Touched([messages[i]]) ==> st in Touched(messages);
      Handle(w, messages[i]);
      assert Events(messages[..i + 1]) == Events(messages[..i]) + [EventOf(messages[i])];
      RunExtend(old(w.View()), Events(messages[..i]), EventOf(messages[i]));
    }
    assert messages[..|messages|] == messages;
  }

  /** Where `st` is filed, `was` shows it with the version `before`. */
  ghost predicate ShowsVersion(users: map<string, Filed>, was: map<string, UserView>, st: Strategy, before: nat) {
    && users.Keys == was.Keys
    && (forall u, id :: u in users && id in users[u].active && users[u].active[id] == st ==>
          id in was[u].active && was[u].active[id] == Config(st.userId, st.strategyId, st.active, before, st.body))
    && (forall u, id :: u in users && id in users[u].paused && users[u].paused[id] == st ==>
          id in was[u].paused && was[u].paused[id] == Config(st.userId, st.strategyId, st.active, before, st.body))
  }

  lemma ShowsNow(users: map<string, Filed>, st: Strategy)
    ensures ShowsVersion(users, ShownUsers(users), st, st.version)
  {
  }

  lemma MovedShows(users: map<string, Filed>, was: map<string, UserView>, st: Strategy, before: nat)
    requires ShowsVersion(users, was, st, before) && st in All(users) && st.version != before
    ensures ShownUsers(users) != was
  {
    if st in ActiveOf(users, users.Keys) {
      var u, id :| u in users && id in users[u].active && users[u].active[id] == st;
      assert ShownUsers(users)[u].active[id] == st.View();
    } else {
      var u, id :| u in users && id in users[u].paused && users[u].paused[id] == st;
      assert ShownUsers(users)[u].paused[id] == st.View();
    }
  }

  lemma SideSame(m: map<string, Strategy>, was: map<string, Config>, st: Strategy)
    requires LooksAs(m, was, st) && forall id :: id in m && m[id] == st ==> m[id].View() == was[id]
    ensures Shown(m) == was
  {
  }

  lemma UnmovedSame(users: map<string, Filed>, was: map<string, UserView>, st: Strategy, before: nat)
    requires UsersLookAs(users, was, st) && ShowsVersion(users, was, st, before) && (st !in All(users) || st.version == before)
    ensures ShownUsers(users) == was
  {
    forall u | u in users ensures ShownUser(users[u]) == was[u] {
      assert st in users[u].active.Values || st in users[u].paused.Values ==> st in All(users);
      SideSame(users[u].active, was[u].active, st);
      SideSame(users[u].paused, was[u].paused, st);
    }
  }

  /** When only `st` may have changed, what is shown changed exactly if `st` is shown
      and its version moved. */
  lemma ShownChangesIff(users: map<string, Filed>, was: map<string, UserView>, st: Strategy, before: nat)
    requires UsersLookAs(users, was, st) && ShowsVersion(users, was, st, before)
    ensures ShownUsers(users) != was <==> st in All(users) && st.version != before
  {
    hide ShownUsers, All, UsersLookAs, ShowsVersion;
    if st in All(users) && st.version != before {
      MovedShows(users, was, st, before);
    } else {
      UnmovedSame(users, was, st, before);
    }
  }

  /** Exactly when an upsert shows in a snapshot a reader holds: the object handed over
      is one of the snapshot's own, active or paused, the upsert is applied, and it
      moves the object's version.  Nothing else the reader can reach changes at all. */
  method UpsertShowsIff(w: Writer, st: Strategy, version: nat, ghost held: Snapshot,
                        ghost users: map<string, Filed>, ghost maps: set<StrategyMap>, ghost seen: set<Strategy>)
    requires w.Valid() && held.Valid() && users == held.Contents() && maps == held.Maps() && seen == All(users)
    modifies w, w.store, st
    ensures unchanged(held) && unchanged(maps) && unchanged(seen - {st})
    ensures ShownUsers(users) != old(ShownUsers(users)) <==>
              st in seen && !NoOp(old(w.View()), Upsert(old(st.View()), version)) && old(st.version) != version
  {
    hide NoOp, Writer.View, Writer.Valid, Snapshot.Valid, Snapshot.Maps, Snapshot.Contents, ShownUsers, All, UsersLookAs, ShowsVersion;
    ghost var was, before := ShownUsers(users), st.version;
    var applied := UpsertBeside(w, st, version, users);
    ShownChangesIff(users, was, st, before);
  }

  /** An upsert changes nothing but its strategy's version. */
  method UpsertBeside(w: Writer, st: Strategy, version: nat, ghost users: map<string, Filed>) returns (applied: bool)
    requires w.Valid()
    modifies w, w.store, st
    ensures applied == !NoOp(old(w.View()), Upsert(old(st.View()), version))
    ensures st.version == if applied then version else old(st.version)
    ensures UsersLookAs(users, old(ShownUsers(users)), st) && ShowsVersion(users, old(ShownUsers(users)), st, old(st.version))
  {
    ghost var was := ShownUsers(users);
    LooksNow(users, st);
    ShowsNow(users, st);
    hide Upserted, NoOp, Writer.View, Writer.Valid, ShownUsers, ShowsVersion;
    var err;
    applied, err := w.ApplyUpsert(st, version);
    assert UsersLookAs(users, was, st);
  }

  lemma UpsertIgnoresVersion(s: State, c: Config, version: nat)
    ensures Upserted(s, c, version) == Upserted(s, c.(version := 0), version)
  {
    hide Key, Buried, Seen;
  }

  function Loaded(strategies: seq<Strategy?>): map<string, Filed> {
    if strategies == [] then map[]
    else
      var n := |strategies| - 1;
      var before, st := Loaded(strategies[..n]), strategies[n];
      if st == null || !st.active then before
      else before[st.userId := Filed(FiledOf(before, st.userId).active[st.strategyId := st], FiledOf(before, st.userId).paused)]
  }

  lemma {:induction false} LoadedRight(strategies: seq<Strategy?>)
    ensures FiledRight(Loaded(strategies)) && forall u :: u in Loaded(strategies) ==> Loaded(strategies)[u].paused == map[]
  {
    if strategies != [] {
      LoadedRight(strategies[..|strategies| - 1]);
    }
  }

  method LoadUsers(strategies: seq<Strategy?>) returns (users: map<string, Filed>)
    ensures users == Loaded(strategies)
  {
    users := map[];
    for i := 0 to |strategies|
      invariant users == Loaded(strategies[..i])
    {
      assert strategies[..i + 1][..i] == strategies[..i];
      var st := strategies[i];
      if st != null && st.active {
        var f := FiledOf(users, st.userId);
        users := users[st.userId := Filed(f.active[st.strategyId := st], f.paused)];
      }
    }
    assert strategies[..|strategies|] == strategies;
  }

  method BuildSnapshot(users: map<string, Filed>) returns (next: Snapshot)
    requires FiledRight(users)
    ensures fresh(next) && next.Valid() && next.Contents() == users
  {
    hide Agrees, FiledRight;
    var byUser := Materialize(users);
    next := new Snapshot(byUser);
    assert next.Whole();
    assert next.Contents() == users;
    next.Finalize();
  }

  method Materialize(users: map<string, Filed>) returns (byUser: map<string, UserMaps>)
    ensures byUser.Keys == users.Keys
    ensures forall u :: u in users ==>
              && byUser[u].active != null && byUser[u].paused != null && fresh(byUser[u].active) && fresh(byUser[u].paused)
              && Filed(byUser[u].active.m, byUser[u].paused.m) == users[u]
  {
    byUser := map[];
    var todo := users.Keys;
    while todo != {}
      invariant todo <= users.Keys && byUser.Keys == users.Keys - todo
      invariant forall u :: u in byUser ==>
                  && byUser[u].active != null && byUser[u].paused != null && fresh(byUser[u].active) && fresh(byUser[u].paused)
                  && Filed(byUser[u].active.m, byUser[u].paused.m) == users[u]
    {
      var u :| u in todo;
      var active := new StrategyMap(users[u].active);
      var paused := new StrategyMap(users[u].paused);
      byUser := byUser[u := UserMaps(active, paused)];
      todo := todo - {u};
    }
  }
}

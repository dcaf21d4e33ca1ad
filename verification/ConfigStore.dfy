/** The rules engine's versioned strategy store: what each event does to the state,
    and what that gives under redelivery and reordering.
 */
module ConfigStore {

  /** A strategy as its readers see it; `body` stands for everything else in it. */
  datatype Config = Config(userId: string, strategyId: string, active: bool, version: nat, body: int)

  datatype UserView = UserView(active: map<string, Config>, paused: map<string, Config>)

  /** `versions` and `tombstones` are keyed by `Key`. */
  datatype State = State(users: map<string, UserView>, versions: map<string, nat>, tombstones: map<string, nat>)

  datatype Event =
    | Upsert(config: Config, version: nat)
    | Pause(userId: string, strategyId: string, version: nat)
    | Resume(userId: string, strategyId: string, version: nat)
    | Delete(userId: string, strategyId: string, version: nat)
  {
    function User(): string {
      if Upsert? then config.userId else userId
    }

    function Strategy(): string {
      if Upsert? then config.strategyId else strategyId
    }
  }

  function EmptyState(): State {
    State(map[], map[], map[])
  }

  function Key(user: string, strategy: string): string {
    user + "|" + strategy
  }

  function KeyOf(e: Event): string {
    Key(e.User(), e.Strategy())
  }

  function Lookup(users: map<string, UserView>, user: string): UserView {
    if user in users then users[user] else UserView(map[], map[])
  }

  // ---- The writer's operations ----

  predicate Buried(s: State, k: string, version: nat) {
    k in s.tombstones && version <= s.tombstones[k]
  }

  predicate Seen(s: State, k: string, version: nat) {
    k in s.versions && version <= s.versions[k]
  }

  function Upserted(s: State, c: Config, version: nat): State {
    var k := Key(c.userId, c.strategyId);
    if c.userId == "" || c.strategyId == "" || !c.active || Buried(s, k, version) || Seen(s, k, version) then s
    else
      var uv := Lookup(s.users, c.userId);
      var uv' := UserView(uv.active[c.strategyId := c.(version := version)], uv.paused - {c.strategyId});
      s.(users := s.users[c.userId := uv'], versions := s.versions[k := version])
  }

  function Paused(s: State, user: string, strategy: string, version: nat): State {
    var k := Key(user, strategy);
    if user == "" || strategy == "" || Buried(s, k, version) || Seen(s, k, version) then s
    else if user !in s.users || strategy !in s.users[user].active then s
    else
      var uv := s.users[user];
      var uv' := UserView(uv.active - {strategy}, uv.paused[strategy := uv.active[strategy]]);
      s.(users := s.users[user := uv'], versions := s.versions[k := version])
  }

  function Resumed(s: State, user: string, strategy: string, version: nat): State {
    var k := Key(user, strategy);
    if user == "" || strategy == "" || Buried(s, k, version) || Seen(s, k, version) then s
    else if user !in s.users || strategy !in s.users[user].paused then s
    else
      var uv := s.users[user];
      var c := uv.paused[strategy].(active := true, version := version);
      s.(users := s.users[user := UserView(uv.active[strategy := c], uv.paused - {strategy})], versions := s.versions[k := version])
  }

  /** A deletion looks at the tombstone only, not at the recorded version. */
  function Deleted(s: State, user: string, strategy: string, version: nat): State {
    var k := Key(user, strategy);
    if user == "" || strategy == "" || Buried(s, k, version) then s
    else
      var s' := s.(versions := s.versions[k := version], tombstones := s.tombstones[k := version]);
      if user !in s.users then s'
      else
        var uv := s.users[user];
        s'.(users := s.users[user := UserView(uv.active - {strategy}, uv.paused - {strategy})])
  }

  function Apply(s: State, e: Event): State {
    match e
    case Upsert(c, v) => Upserted(s, c, v)
    case Pause(u, id, v) => Paused(s, u, id, v)
    case Resume(u, id, v) => Resumed(s, u, id, v)
    case Delete(u, id, v) => Deleted(s, u, id, v)
  }

  function Run(s: State, events: seq<Event>): State {
    if events == [] then s else Apply(Run(s, events[..|events| - 1]), events[|events| - 1])
  }

  // ---- One key at a time ----

  datatype Status = Absent | Live(config: Config) | Held(config: Config)

  function StatusIn(uv: UserView, strategy: string): Status {
    if strategy in uv.active then Live(uv.active[strategy])
    else if strategy in uv.paused then Held(uv.paused[strategy])
    else Absent
  }

  function StatusOf(s: State, user: string, strategy: string): Status {
    StatusIn(Lookup(s.users, user), strategy)
  }

  /** What an event means for its own key, with no versions. */
  function Next(status: Status, e: Event): Status {
    match e
    case Upsert(c, v) => if c.active then Live(c.(version := v)) else status
    case Pause(_, _, _) => if status.Live? then Held(status.config) else status
    case Resume(_, _, v) => if status.Held? then Live(status.config.(active := true, version := v)) else status
    case Delete(_, _, _) => Absent
  }

  predicate Valid(e: Event) {
    e.User() != "" && e.Strategy() != ""
  }

  /** The final status by the automaton: the fold over the key's own events. */
  function Fold(events: seq<Event>, user: string, strategy: string): Status {
    if events == [] then Absent
    else
      var n := |events| - 1;
      var before := Fold(events[..n], user, strategy);
      if events[n].User() == user && events[n].Strategy() == strategy && Valid(events[n]) then Next(before, events[n]) else before
  }

  /** No strategy is active and paused at once; strategies are filed under their own
      ids; a tombstone never outruns the recorded version. */
  ghost predicate Consistent(s: State) {
    && (forall u, id :: u in s.users && id in s.users[u].active ==>
          id !in s.users[u].paused && s.users[u].active[id].userId == u && s.users[u].active[id].strategyId == id)
    && (forall u, id :: u in s.users && id in s.users[u].paused ==>
          s.users[u].paused[id].userId == u && s.users[u].paused[id].strategyId == id)
    && (forall k :: k in s.tombstones ==> k in s.versions && s.tombstones[k] <= s.versions[k])
  }

  lemma ApplyKeepsConsistent(s: State, e: Event)
    requires Consistent(s)
    ensures Consistent(Apply(s, e))
  {
  }

  /** Tombstones never go back. */
  lemma TombstonesGrow(s: State, e: Event, k: string)
    requires k in s.tombstones
    ensures k in Apply(s, e).tombstones && Apply(s, e).tombstones[k] >= s.tombstones[k]
  {
  }

  /** So the writer's tombstone test adds nothing to its version test. */
  lemma TombstoneTestRedundant(s: State, k: string, version: nat)
    requires Consistent(s) && Buried(s, k, version)
    ensures Seen(s, k, version)
  {
  }

  // ---- Keys ----

  /** A strategy id without the separator. */
  predicate Plain(e: Event) {
    '|' !in e.Strategy()
  }

  predicate AllPlain(events: seq<Event>) {
    forall i :: 0 <= i < |events| ==> Plain(events[i])
  }

  predicate SameKey(e: Event, f: Event) {
    e.User() == f.User() && e.Strategy() == f.Strategy()
  }

  /** Past the user's part, a key has only characters of the strategy id. */
  lemma PastUser(u: string, id: string, i: int)
    requires |u| < i < |Key(u, id)|
    ensures Key(u, id)[i] in id
  {
    assert Key(u, id)[i] == id[i - |u| - 1];
  }

  lemma KeyDeterminesUser(u: string, id: string, u2: string, id2: string)
    requires Key(u, id) == Key(u2, id2) && '|' !in id && '|' !in id2
    ensures |u| == |u2|
  {
    assert Key(u, id)[|u|] == '|' && Key(u2, id2)[|u2|] == '|';
    if |u| < |u2| {
      PastUser(u, id, |u2|);
    }
    if |u2| < |u| {
      PastUser(u2, id2, |u|);
    }
  }

  /** The joined key is injective as long as strategy ids have no separator. */
  lemma KeyInjective(u: string, id: string, u2: string, id2: string)
    requires '|' !in id && '|' !in id2
    ensures Key(u, id) == Key(u2, id2) <==> u == u2 && id == id2
  {
    if Key(u, id) == Key(u2, id2) {
      KeyDeterminesUser(u, id, u2, id2);
      assert Key(u, id)[..|u|] == u && Key(u2, id2)[..|u2|] == u2;
      assert Key(u, id)[|u| + 1..] == id && Key(u2, id2)[|u2| + 1..] == id2;
    }
  }

  /** Keys of pairs whose users differ in length are equal exactly when the longer
      user runs on into the other pair's strategy id, across a separator. */
  lemma CollisionForm(u: string, id: string, u2: string, id2: string)
    requires |u| < |u2|
    ensures Key(u, id) == Key(u2, id2) <==> exists x :: u2 == u + "|" + x && id == x + "|" + id2
  {
    if Key(u, id) == Key(u2, id2) {
      var k, x := Key(u, id), u2[|u| + 1..];
      assert u2 == k[..|u2|] && u == k[..|u|] && k[|u|] == '|';
      assert u2 == u + "|" + x;
      assert id == k[|u| + 1..] && id2 == k[|u2| + 1..] && k[|u2|] == '|';
      assert id == x + "|" + id2;
    }
    if x :| u2 == u + "|" + x && id == x + "|" + id2 {
      assert u + "|" + (x + "|" + id2) == (u + "|" + x) + "|" + id2;
    }
  }

  /** Equal keys with users of equal length are the same pair. */
  lemma SameLengthSamePair(u: string, id: string, u2: string, id2: string)
    requires |u| == |u2| && Key(u, id) == Key(u2, id2)
    ensures u == u2 && id == id2
  {
    assert Key(u, id)[..|u|] == u && Key(u2, id2)[..|u2|] == u2;
    assert Key(u, id)[|u| + 1..] == id && Key(u2, id2)[|u2| + 1..] == id2;
  }

  ghost predicate Collides(u: string, id: string, u2: string, id2: string) {
    (u2 != u || id2 != id) && Key(u2, id2) == Key(u, id)
  }

  lemma SplitAt(s: string, i: nat)
    requires i < |s| && s[i] == '|'
    ensures s == s[..i] + "|" + s[i + 1..]
  {
  }

  /** Exactly which pairs share their key with another pair: those with a separator in
      either id.  The second clause is about pairs the writer accepts, whose ids are
      not empty: there a separator counts unless it opens the user id or ends the
      strategy id. */
  lemma CollidesIff(u: string, id: string)
    ensures (exists u2, id2 :: Collides(u, id, u2, id2)) <==> '|' in u || '|' in id
    ensures u != "" && id != "" ==>
              ((exists u2, id2 :: u2 != "" && id2 != "" && Collides(u, id, u2, id2)) <==> '|' in u[1..] || '|' in id[..|id| - 1])
  {
    forall u2, id2 | Collides(u, id, u2, id2)
      ensures '|' in u || '|' in id
      ensures u != "" && id != "" && u2 != "" && id2 != "" ==> '|' in u[1..] || '|' in id[..|id| - 1]
    {
      CollisionLeavesSeparator(u, id, u2, id2);
    }
    if '|' in u {
      var i :| 0 <= i < |u| && u[i] == '|';
      SeparatorInUser(u, id, i);
    }
    if '|' in id {
      var i :| 0 <= i < |id| && id[i] == '|';
      SeparatorInStrategy(u, id, i);
    }
    if u != "" && '|' in u[1..] {
      var i :| 0 <= i < |u| - 1 && u[1..][i] == '|';
      SeparatorInUser(u, id, i + 1);
    }
    if id != "" && '|' in id[..|id| - 1] {
      var i :| 0 <= i < |id| - 1 && id[..|id| - 1][i] == '|';
      SeparatorInStrategy(u, id, i);
    }
  }

  lemma SeparatorInUser(u: string, id: string, i: nat)
    requires i < |u| && u[i] == '|'
    ensures Collides(u, id, u[..i], u[i + 1..] + "|" + id)
  {
    SplitAt(u, i);
    CollisionForm(u[..i], u[i + 1..] + "|" + id, u, id);
  }

  lemma SeparatorInStrategy(u: string, id: string, i: nat)
    requires i < |id| && id[i] == '|'
    ensures Collides(u, id, u + "|" + id[..i], id[i + 1..])
  {
    SplitAt(id, i);
    CollisionForm(u, id, u + "|" + id[..i], id[i + 1..]);
  }

  lemma CollisionLeavesSeparator(u: string, id: string, u2: string, id2: string)
    requires Collides(u, id, u2, id2)
    ensures '|' in u || '|' in id
    ensures u != "" && id != "" && u2 != "" && id2 != "" ==> '|' in u[1..] || '|' in id[..|id| - 1]
  {
    if |u| < |u2| {
      CollisionForm(u, id, u2, id2);
      var x :| u2 == u + "|" + x && id == x + "|" + id2;
      assert id[|x|] == '|';
      assert id2 != "" ==> id[..|id| - 1][|x|] == '|';
    } else if |u2| < |u| {
      CollisionForm(u2, id2, u, id);
      var x :| u == u2 + "|" + x && id2 == x + "|" + id;
      assert u[|u2|] == '|';
      assert u2 != "" ==> u[1..][|u2| - 1] == '|';
    } else {
      SameLengthSamePair(u, id, u2, id2);
    }
  }

  /** Of two strategies that share their key, the second is shut out until its version
      exceeds the first one's. */
  lemma CollisionShutsOut(first: Config, second: Config, v: nat, w: nat)
    requires Collides(first.userId, first.strategyId, second.userId, second.strategyId) && w <= v
    requires first.userId != "" && first.strategyId != "" && first.active
    ensures var s := Run(EmptyState(), [Upsert(first, v)]);
            && Apply(s, Upsert(second, w)) == s && StatusOf(s, second.userId, second.strategyId) == Absent
  {
    assert [Upsert(first, v)][..0] == [];
    hide Key;
  }

  /** One such pair: by the automaton the second strategy would be active. */
  lemma KeysCollide(body: int)
    ensures var first, second := Upsert(Config("a", "b|c", true, 0, body), 5), Upsert(Config("a|b", "c", true, 0, body), 1);
            var s := Run(EmptyState(), [first]);
            && !SameKey(first, second) && StatusOf(s, "a|b", "c") == Absent
            && StatusOf(Apply(s, second), "a|b", "c") == Absent && Fold([first, second], "a|b", "c").Live?
  {
    var first, second := Upsert(Config("a", "b|c", true, 0, body), 5), Upsert(Config("a|b", "c", true, 0, body), 1);
    assert Key("a", "b|c") == Key("a|b", "c");
    assert [first, second][..1] == [first];
    assert Run(EmptyState(), [first]) == Apply(EmptyState(), first);
  }

  // ---- What one event does ----

  /** The event passes the version tests. */
  predicate Fresh(s: State, e: Event) {
    Valid(e) && !Buried(s, KeyOf(e), e.version) && (e.Delete? || !Seen(s, KeyOf(e), e.version))
  }

  predicate NoOp(s: State, e: Event) {
    || !Fresh(s, e)
    || (e.Upsert? && !e.config.active)
    || (e.Pause? && !StatusOf(s, e.userId, e.strategyId).Live?)
    || (e.Resume? && !StatusOf(s, e.userId, e.strategyId).Held?)
  }

  lemma NoOpIff(s: State, e: Event)
    requires Consistent(s)
    ensures NoOp(s, e) <==> Apply(s, e) == s
  {
  }

  /** A fresh event takes its key through the automaton, any other leaves it; no
      event touches the status of another key. */
  lemma ApplyStatus(s: State, e: Event, user: string, strategy: string)
    requires Consistent(s)
    ensures StatusOf(Apply(s, e), user, strategy) ==
              if Fresh(s, e) && e.User() == user && e.Strategy() == strategy
              then Next(StatusOf(s, user, strategy), e) else StatusOf(s, user, strategy)
  {
  }

  /** An event that changes something records its version, a deletion a tombstone. */
  lemma ApplyVersions(s: State, e: Event, k: string)
    requires Consistent(s)
    ensures var s' := Apply(s, e);
            && (k == KeyOf(e) && !NoOp(s, e) ==> k in s'.versions && s'.versions[k] == e.version && (e.Delete? ==> Buried(s', k, e.version)))
            && (k != KeyOf(e) || NoOp(s, e) ==>
                  && (k in s'.versions <==> k in s.versions) && (k in s.versions ==> s'.versions[k] == s.versions[k])
                  && (k in s'.tombstones <==> k in s.tombstones) && (k in s.tombstones ==> s'.tombstones[k] == s.tombstones[k]))
  {
  }

  // ---- Redelivery ----

  /** An event without effect stays so after an event of another key, or of the same
      key with no lower version. */
  lemma NoOpPersists(s: State, e: Event, f: Event)
    requires Consistent(s) && Plain(e) && Plain(f) && NoOp(s, e) && (SameKey(e, f) ==> e.version <= f.version)
    ensures NoOp(Apply(s, f), e)
  {
    KeyInjective(e.User(), e.Strategy(), f.User(), f.Strategy());
    ApplyStatus(s, f, e.User(), e.Strategy());
    ApplyVersions(s, f, KeyOf(e));
    NoOpIff(s, f);
    if KeyOf(e) in s.tombstones {
      TombstonesGrow(s, f, KeyOf(e));
    }
    hide Apply, StatusOf, Key, Consistent;
  }

  /** Applying an event twice is applying it once. */
  lemma Idempotent(s: State, e: Event)
    requires Consistent(s)
    ensures NoOp(Apply(s, e), e)
  {
    ApplyVersions(s, e, KeyOf(e));
    NoOpIff(s, e);
    hide Apply, StatusOf, Key, Consistent;
  }

  /** Each delivery is new to its key, with a version above all earlier ones of the
      key, or repeats an earlier delivery. */
  ghost predicate AtLeastOnce(events: seq<Event>) {
    forall i :: 0 <= i < |events| ==> events[i] in events[..i] || Newer(events[..i], events[i])
  }

  ghost predicate Newer(earlier: seq<Event>, e: Event) {
    forall j :: 0 <= j < |earlier| && SameKey(earlier[j], e) ==> earlier[j].version < e.version
  }

  /** The stream with repeated deliveries taken out. */
  function Firsts(events: seq<Event>): seq<Event> {
    if events == [] then []
    else
      var n := |events| - 1;
      if events[n] in events[..n] then Firsts(events[..n]) else Firsts(events[..n]) + [events[n]]
  }

  /** What a stream has left behind: none of its events would change anything, and
      every recorded version is that of one of its events. */
  ghost predicate Absorbed(s: State, events: seq<Event>) {
    && Consistent(s)
    && (forall e :: e in events ==> NoOp(s, e))
    && (forall k :: k in s.versions ==> Recorded(s, k, events))
  }

  ghost predicate Recorded(s: State, k: string, events: seq<Event>)
    requires k in s.versions
  {
    exists e :: e in events && KeyOf(e) == k && e.version == s.versions[k]
  }

  lemma NewIsFresh(s: State, events: seq<Event>, e: Event)
    requires Absorbed(s, events) && Newer(events, e) && Plain(e) && AllPlain(events) && Valid(e)
    ensures Fresh(s, e)
  {
    var k := KeyOf(e);
    if k in s.versions {
      assert Recorded(s, k, events);
      var f :| f in events && KeyOf(f) == k && f.version == s.versions[k];
      KeyInjective(e.User(), e.Strategy(), f.User(), f.Strategy());
    }
    hide NoOp;
  }

  lemma AbsorbsNew(s: State, events: seq<Event>, e: Event)
    requires Absorbed(s, events) && Newer(events, e) && Plain(e) && AllPlain(events)
    ensures Absorbed(Apply(s, e), events + [e])
  {
    var s' := Apply(s, e);
    ApplyKeepsConsistent(s, e);
    hide Consistent;
    forall f | f in events + [e] ensures NoOp(s', f) {
      if f in events {
        NoOpPersists(s, f, e);
      } else {
        Idempotent(s, e);
      }
      hide NoOp, Apply;
    }
    forall k | k in s'.versions ensures Recorded(s', k, events + [e]) {
      ApplyVersions(s, e, k);
      hide Apply, NoOp;
      if k in s.versions && s.versions[k] == s'.versions[k] {
        assert Recorded(s, k, events);
      } else {
        assert e in events + [e];
      }
    }
    hide Apply, NoOp, Recorded;
  }

  ghost predicate Folded(s: State, firsts: seq<Event>) {
    forall user, strategy :: StatusOf(s, user, strategy) == Fold(firsts, user, strategy)
  }

  lemma RepeatChangesNothing(s: State, before: seq<Event>, e: Event)
    requires Absorbed(s, before) && e in before
    ensures Apply(s, e) == s && Absorbed(s, before + [e]) && Firsts(before + [e]) == Firsts(before)
  {
    NoOpIff(s, e);
    assert (before + [e])[..|before|] == before;
    hide Apply, NoOp, Consistent;
  }

  lemma NewIsFolded(s: State, before: seq<Event>, e: Event)
    requires Absorbed(s, before) && e !in before && Newer(before, e) && Plain(e) && AllPlain(before) && Folded(s, Firsts(before))
    ensures Folded(Apply(s, e), Firsts(before + [e]))
  {
    FirstsExtend(before, e);
    if Valid(e) {
      NewIsFresh(s, before, e);
    }
    forall user, strategy ensures StatusOf(Apply(s, e), user, strategy) == Fold(Firsts(before + [e]), user, strategy) {
      ApplyStatus(s, e, user, strategy);
      FoldExtend(Firsts(before), e, user, strategy);
      hide Apply, StatusOf, Consistent, Fold, Firsts;
    }
    hide Apply, StatusOf, Absorbed, Fold, Firsts;
  }

  /** Exactly-once effect: on a stream delivered at least once, whose first deliveries
      carry rising versions per key, redelivery changes nothing at all, and every key
      ends where the automaton takes it over the first deliveries alone. */
  lemma {:induction false} ExactlyOnce(events: seq<Event>)
    requires AtLeastOnce(events) && AllPlain(events)
    ensures Absorbed(Run(EmptyState(), events), events)
    ensures Run(EmptyState(), events) == Run(EmptyState(), Firsts(events))
    ensures Folded(Run(EmptyState(), events), Firsts(events))
  {
    hide Run, Absorbed, Folded, AtLeastOnce, Apply, AllPlain, Plain, Newer, Firsts;
    if events == [] {
      NothingYet();
    } else {
      var n := |events| - 1;
      var before, e := events[..n], events[n];
      var s := Run(EmptyState(), before);
      RunExtend(EmptyState(), before, e);
      Prefix(events, n);
      ExactlyOnce(before);
      NewOrRepeated(events, n);
      assert events == before + [e];
      if e in before {
        RepeatChangesNothing(s, before, e);
      } else {
        AbsorbsNew(s, before, e);
        FirstsExtend(before, e);
        RunExtend(EmptyState(), Firsts(before), e);
        NewIsFolded(s, before, e);
      }
    }
  }

  lemma NothingYet()
    ensures Run(EmptyState(), []) == EmptyState() && Firsts([]) == []
    ensures Absorbed(EmptyState(), []) && Folded(EmptyState(), [])
  {
  }

  lemma Prefix(events: seq<Event>, n: nat)
    requires AtLeastOnce(events) && AllPlain(events) && n < |events|
    ensures AtLeastOnce(events[..n]) && AllPlain(events[..n]) && Plain(events[n])
  {
    assert forall i :: 0 <= i < n ==> events[..n][..i] == events[..i];
    hide Newer, Plain;
  }

  lemma NewOrRepeated(events: seq<Event>, i: nat)
    requires AtLeastOnce(events) && i < |events|
    ensures events[i] in events[..i] || Newer(events[..i], events[i])
  {
  }

  lemma FirstsExtend(before: seq<Event>, e: Event)
    requires e !in before
    ensures Firsts(before + [e]) == Firsts(before) + [e]
  {
    assert (before + [e])[..|before|] == before;
  }

  lemma RunExtend(s: State, events: seq<Event>, e: Event)
    ensures Run(s, events + [e]) == Apply(Run(s, events), e)
  {
    assert (events + [e])[..|events|] == events;
    hide Apply;
  }

  lemma FoldExtend(events: seq<Event>, e: Event, user: string, strategy: string)
    ensures Fold(events + [e], user, strategy) ==
              if e.User() == user && e.Strategy() == strategy && Valid(e)
              then Next(Fold(events, user, strategy), e) else Fold(events, user, strategy)
  {
    assert (events + [e])[..|events|] == events;
    hide Next;
  }

  // ---- Every stream ----

  /** After any stream whatever, no strategy is active and paused at once, strategies
      are filed under their own ids and no recorded version is below its tombstone. */
  lemma {:induction false} AlwaysConsistent(events: seq<Event>)
    ensures Consistent(Run(EmptyState(), events))
  {
    if events != [] {
      var n := |events| - 1;
      AlwaysConsistent(events[..n]);
      hide Apply, Consistent;
      ApplyKeepsConsistent(Run(EmptyState(), events[..n]), events[n]);
    }
  }

  /** Between any two moments of any stream no tombstone decreases. */
  lemma {:induction false} TombstonesNeverDecrease(s: State, events: seq<Event>, k: string)
    requires k in s.tombstones
    ensures k in Run(s, events).tombstones && Run(s, events).tombstones[k] >= s.tombstones[k]
  {
    if events != [] {
      var n := |events| - 1;
      TombstonesNeverDecrease(s, events[..n], k);
      hide Apply;
      TombstonesGrow(Run(s, events[..n]), events[n], k);
    }
  }
}

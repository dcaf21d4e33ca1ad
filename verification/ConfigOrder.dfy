/** Streams whose outcome does not depend on the order of delivery, and one that
    does.
 */
module ConfigOrder {
  import opened ConfigStore

  predicate On(e: Event, user: string, strategy: string) {
    e.User() == user && e.Strategy() == strategy
  }

  // ---- The highest version is a deletion ----

  /** No event of the key outranks `version`. */
  ghost predicate Topped(events: seq<Event>, user: string, strategy: string, version: nat) {
    forall e :: e in events && On(e, user, strategy) ==> e.version <= version
  }

  ghost predicate GoneAt(s: State, user: string, strategy: string, version: nat) {
    var k := Key(user, strategy);
    k in s.tombstones && s.tombstones[k] == version && StatusOf(s, user, strategy) == Absent
  }

  ghost predicate NotPast(s: State, user: string, strategy: string, version: nat) {
    var k := Key(user, strategy);
    && Consistent(s) && (k in s.tombstones ==> s.tombstones[k] <= version)
    && (k in s.tombstones && s.tombstones[k] == version ==> StatusOf(s, user, strategy) == Absent)
  }

  lemma DeleteStep(s: State, e: Event, user: string, strategy: string, version: nat)
    requires NotPast(s, user, strategy, version) && Plain(e) && '|' !in strategy && user != "" && strategy != ""
    requires On(e, user, strategy) ==> e.version <= version
    ensures NotPast(Apply(s, e), user, strategy, version)
    ensures e == Delete(user, strategy, version) || GoneAt(s, user, strategy, version) ==> GoneAt(Apply(s, e), user, strategy, version)
  {
    var k := Key(user, strategy);
    KeyInjective(user, strategy, e.User(), e.Strategy());
    ApplyStatus(s, e, user, strategy);
    ApplyVersions(s, e, k);
    ApplyKeepsConsistent(s, e);
    NoOpIff(s, e);
    DeleteTombstone(s, e);
    hide Apply, StatusOf, Key, Consistent;
  }

  /** Only a deletion moves a tombstone, to its own version. */
  lemma DeleteTombstone(s: State, e: Event)
    ensures var k := KeyOf(e);
            k in Apply(s, e).tombstones ==>
              (k in s.tombstones && Apply(s, e).tombstones[k] == s.tombstones[k]) || (e.Delete? && Apply(s, e).tombstones[k] == e.version)
  {
  }

  /** If a key's highest version is a deletion, then in whatever order its events
      come, and however often, the key ends absent. */
  lemma {:induction false} DeleteWins(events: seq<Event>, user: string, strategy: string, version: nat)
    requires AllPlain(events) && Topped(events, user, strategy, version) && user != "" && strategy != "" && '|' !in strategy
    ensures NotPast(Run(EmptyState(), events), user, strategy, version)
    ensures Delete(user, strategy, version) in events ==> StatusOf(Run(EmptyState(), events), user, strategy) == Absent
    ensures Delete(user, strategy, version) in events ==> GoneAt(Run(EmptyState(), events), user, strategy, version)
  {
    if events != [] {
      var n := |events| - 1;
      assert events == events[..n] + [events[n]];
      DeleteWins(events[..n], user, strategy, version);
      hide Apply, NotPast;
      DeleteStep(Run(EmptyState(), events[..n]), events[n], user, strategy, version);
    }
  }

  // ---- Only active upserts ----

  ghost predicate OnlyUpserts(events: seq<Event>, user: string, strategy: string) {
    && (forall e :: e in events && On(e, user, strategy) ==> e.Upsert? && e.config.active)
    && (forall e, f :: e in events && f in events && On(e, user, strategy) && On(f, user, strategy) && e.version == f.version ==> e == f)
  }

  /** `e` is the key's event of highest version. */
  ghost predicate Highest(events: seq<Event>, user: string, strategy: string, e: Event) {
    e in events && On(e, user, strategy) && Topped(events, user, strategy, e.version)
  }

  /** The key holds the highest upsert so far. */
  ghost predicate HoldsHighest(s: State, events: seq<Event>, user: string, strategy: string) {
    var k := Key(user, strategy);
    && Consistent(s) && k !in s.tombstones
    && (if exists e :: e in events && On(e, user, strategy) then
          exists e :: Highest(events, user, strategy, e) && e.Upsert? && k in s.versions && s.versions[k] == e.version
                      && StatusOf(s, user, strategy) == Live(e.config.(version := e.version))
        else k !in s.versions && StatusOf(s, user, strategy) == Absent)
  }

  lemma UpsertStep(s: State, events: seq<Event>, e: Event, user: string, strategy: string)
    requires HoldsHighest(s, events, user, strategy) && OnlyUpserts(events + [e], user, strategy) && Plain(e)
    requires user != "" && strategy != "" && '|' !in strategy
    ensures HoldsHighest(Apply(s, e), events + [e], user, strategy)
  {
    var k, s' := Key(user, strategy), Apply(s, e);
    KeyInjective(user, strategy, e.User(), e.Strategy());
    ApplyStatus(s, e, user, strategy);
    ApplyVersions(s, e, k);
    ApplyKeepsConsistent(s, e);
    NoOpIff(s, e);
    DeleteTombstone(s, e);
    assert e in events + [e];
    hide Apply, StatusOf, Key, Consistent;
    if exists f :: f in events && On(f, user, strategy) {
      var f :| Highest(events, user, strategy, f) && f.Upsert? && k in s.versions && s.versions[k] == f.version
               && StatusOf(s, user, strategy) == Live(f.config.(version := f.version));
      if On(e, user, strategy) && e.version > f.version {
        assert Highest(events + [e], user, strategy, e);
      } else {
        assert Highest(events + [e], user, strategy, f);
      }
    } else if On(e, user, strategy) {
      assert Highest(events + [e], user, strategy, e);
    }
  }

  /** If a key receives only active upserts with distinct versions, then in whatever
      order they come, and however often, the key ends active with the one of
      highest version. */
  lemma {:induction false} UpsertsConverge(events: seq<Event>, user: string, strategy: string)
    requires AllPlain(events) && OnlyUpserts(events, user, strategy) && user != "" && strategy != "" && '|' !in strategy
    ensures HoldsHighest(Run(EmptyState(), events), events, user, strategy)
    ensures forall e :: Highest(events, user, strategy, e) ==>
              StatusOf(Run(EmptyState(), events), user, strategy) == Live(e.config.(version := e.version))
  {
    if events != [] {
      var n := |events| - 1;
      assert events == events[..n] + [events[n]];
      UpsertsConverge(events[..n], user, strategy);
      UpsertStep(Run(EmptyState(), events[..n]), events[..n], events[n], user, strategy);
    }
  }

  // ---- Reordering in general ----

  /** A deletion takes effect exactly when it is above the key's tombstone, whatever
      newer version is recorded. */
  lemma DeleteTakesEffectIff(s: State, user: string, strategy: string, version: nat)
    requires Consistent(s) && user != "" && strategy != ""
    ensures StatusOf(Apply(s, Delete(user, strategy, version)), user, strategy) == Absent <==>
              StatusOf(s, user, strategy) == Absent || !Buried(s, Key(user, strategy), version)
  {
  }

  /** So a late deletion removes a newer strategy: two orders of the same two events
      end differently. */
  lemma OrdersDiverge(user: string, strategy: string, body: int)
    requires user != "" && strategy != ""
    ensures var up, del := Upsert(Config(user, strategy, true, 0, body), 4), Delete(user, strategy, 3);
            && StatusOf(Run(EmptyState(), [del, up]), user, strategy).Live?
            && StatusOf(Run(EmptyState(), [up, del]), user, strategy) == Absent
  {
    var up, del := Upsert(Config(user, strategy, true, 0, body), 4), Delete(user, strategy, 3);
    RunExtend(EmptyState(), [del], up);
    RunExtend(EmptyState(), [up], del);
    RunExtend(EmptyState(), [], del);
    RunExtend(EmptyState(), [], up);
    assert [] + [del] == [del] && [] + [up] == [up] && [del] + [up] == [del, up] && [up] + [del] == [up, del];
  }
}

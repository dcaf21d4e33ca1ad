/** The manager's registry of OCO groups and its index from broker ids. */
module OcoRegistry {
  import opened Orders
  import opened TrailingStop
  import opened Oco
  import opened OcoLifecycle
  import opened OcoProtection

  type GroupId = nat

  /** `groups` holds every group ever created, tasks keep acting on a group after it
      has left the registry; `live` are the registered ones. */
  datatype Registry = Registry(groups: map<GroupId, Group>, live: set<GroupId>, index: map<BrokerId, GroupId>)

  datatype Event =
    | Create(k: GroupId, plan: Plan)
    | Deliver(order: Order, tag: Option<GroupId>, status: Status)
    | Act(k: GroupId, action: Action)

  function Indexed(index: map<BrokerId, GroupId>, id: BrokerId, k: GroupId): map<BrokerId, GroupId> {
    if id == "" then index else index[id := k]
  }

  /** The group an event is for: by broker id, else by the tag of the stored order. */
  function Target(r: Registry, o: Order, tag: Option<GroupId>): Option<GroupId> {
    if o.id in r.index then Some(r.index[o.id]) else tag
  }

  predicate Backfills(g: Group, o: Order) {
    !g.state.IsTerminal() && o.id != g.plan.entryId && o.id != g.sl.id && o.id != g.tp.id && Backfilled(g, o) != g
  }

  function Created(r: Registry, k: GroupId, plan: Plan): Registry {
    Registry(r.groups[k := NewGroup(plan)], r.live + {k}, r.index[plan.entryId := k])
  }

  function Delivered(r: Registry, o: Order, tag: Option<GroupId>, status: Status): Registry {
    match Target(r, o, tag)
    case None => r
    case Some(k) =>
      if k !in r.live || k !in r.groups then r
      else
        var g := r.groups[k];
        r.(groups := r.groups[k := BrokerUpdate(g, o, status)],
           index := if Backfills(g, o) then r.index[o.id := k] else r.index)
  }

  function Acted(r: Registry, k: GroupId, a: Action): Registry
    requires k in r.groups
  {
    var g := r.groups[k];
    var r' := r.(groups := r.groups[k := Step(g, a)]);
    match a
    case EndPlacement(_, sl, tp) =>
      r'.(index := Indexed(Indexed(r.index, Placed(g.plan.slPercent > 0.0, sl), k), Placed(g.plan.tpPercent > 0.0, tp), k))
    case CleanUp => r'.(live := r.live - {k}, index := r.index - ({g.plan.entryId, g.sl.id, g.tp.id} - {""}))
    case _ => r'
  }

  /** Group ids are fresh; a user can cancel only a registered group. */
  predicate Occurs(r: Registry, e: Event) {
    match e
    case Create(k, _) => k !in r.groups
    case Deliver(_, _, _) => true
    case Act(k, a) => k in r.groups && !a.Update? && Enabled(r.groups[k], a) && (a.UserCancel? ==> k in r.live)
  }

  function Handled(r: Registry, e: Event): Registry
    requires Occurs(r, e)
  {
    match e
    case Create(k, plan) => Created(r, k, plan)
    case Deliver(o, tag, status) => Delivered(r, o, tag, status)
    case Act(k, a) => Acted(r, k, a)
  }

  /** A run of the registry through the given states. */
  ghost predicate Follows(states: seq<Registry>, events: seq<Event>) {
    && |states| == |events| + 1 && states[0] == Registry(map[], {}, map[])
    && forall i :: 0 <= i < |events| ==> Occurs(states[i], events[i]) && states[i + 1] == Handled(states[i], events[i])
  }

  // ---- The broker ----

  /** The id the broker gives to each order of each group. */
  type Broker = (GroupId, Role) -> BrokerId

  ghost predicate DistinctIds(broker: Broker) {
    && (forall k: GroupId, r: Role :: broker(k, r) != "")
    && (forall k: GroupId, r: Role, k2: GroupId, r2: Role :: broker(k, r) == broker(k2, r2) ==> k == k2 && r == r2)
  }

  /** Events speak of the broker's ids, and a stored order carries its own tags. */
  ghost predicate Honest(broker: Broker, e: Event) {
    match e
    case Create(k, plan) => plan.entryId == broker(k, Entry)
    case Deliver(o, tag, _) =>
      && o.id != ""
      && (forall k: GroupId, r: Role :: broker(k, r) == o.id ==> (tag.Some? ==> tag == Some(k)) && (o.role.Some? ==> o.role == Some(r)))
      && (tag.Some? ==> exists r: Role :: o.id == broker(tag.value, r))
    case Act(k, a) =>
      a.EndPlacement? ==> (a.sl.Some? ==> a.sl.value == broker(k, SLLeg)) && (a.tp.Some? ==> a.tp.value == broker(k, TPLeg))
  }

  // ---- The index ----

  ghost predicate OwnIds(broker: Broker, k: GroupId, g: Group) {
    && g.plan.entryId == broker(k, Entry) && (g.sl.id == "" || g.sl.id == broker(k, SLLeg))
    && (g.tp.id == "" || g.tp.id == broker(k, TPLeg))
  }

  predicate Records(g: Group, id: BrokerId) {
    id != "" && (id == g.plan.entryId || id == g.sl.id || id == g.tp.id)
  }

  /** For every registered group the ids indexed to it are exactly those it records;
      every indexed id is one the broker gave to an order of that group. */
  ghost predicate IndexExact(broker: Broker, r: Registry) {
    && IndexOwned(broker, r)
    && (forall k :: k in r.live ==> IndexedExactly(r.groups[k], k, r.index))
  }

  ghost predicate IndexedExactly(g: Group, k: GroupId, index: map<BrokerId, GroupId>) {
    forall id :: Records(g, id) <==> id in index && index[id] == k
  }

  /** The groups known so far and the ids the index gives them. */
  ghost predicate IndexOwned(broker: Broker, r: Registry) {
    && r.live <= r.groups.Keys
    && (forall k :: k in r.groups ==> OwnIds(broker, k, r.groups[k]))
    && (forall id :: id in r.index ==> r.index[id] in r.groups && Owned(broker, r.index[id], id))
  }

  ghost predicate Owned(broker: Broker, k: GroupId, id: BrokerId) {
    exists role: Role :: id == broker(k, role)
  }

  lemma OwnedOnce(broker: Broker, k: GroupId, k2: GroupId, id: BrokerId)
    requires DistinctIds(broker) && Owned(broker, k, id) && Owned(broker, k2, id)
    ensures k == k2
  {
  }

  lemma RecordsOwned(broker: Broker, k: GroupId, g: Group, id: BrokerId)
    requires OwnIds(broker, k, g) && Records(g, id)
    ensures Owned(broker, k, id)
  {
  }

  lemma CreateKeepsIndex(broker: Broker, r: Registry, k: GroupId, plan: Plan)
    requires DistinctIds(broker) && IndexExact(broker, r) && k !in r.groups && plan.entryId == broker(k, Entry)
    ensures IndexExact(broker, Created(r, k, plan))
  {
    var index := Created(r, k, plan).index;
    NewOwned(broker, r, k, plan);
    NewIndexed(broker, r, k, plan);
    assert Owned(broker, k, plan.entryId);
    forall j | j in r.live ensures IndexedExactly(r.groups[j], j, index) {
      hide DistinctIds, Owned, OwnIds, IndexedExactly;
      OthersIndexed(broker, r, j, k, {plan.entryId}, index);
    }
    hide IndexOwned, IndexedExactly, NewGroup, DistinctIds, Owned;
  }

  lemma NewOwned(broker: Broker, r: Registry, k: GroupId, plan: Plan)
    requires IndexOwned(broker, r) && plan.entryId == broker(k, Entry)
    ensures IndexOwned(broker, Created(r, k, plan))
  {
    assert OwnIds(broker, k, NewGroup(plan)) && Owned(broker, k, plan.entryId);
    hide OwnIds, Owned, NewGroup;
  }

  lemma NewIndexed(broker: Broker, r: Registry, k: GroupId, plan: Plan)
    requires DistinctIds(broker) && IndexOwned(broker, r) && k !in r.groups && plan.entryId == broker(k, Entry)
    ensures IndexedExactly(NewGroup(plan), k, r.index[plan.entryId := k])
  {
  }

  /** Indexing ids of group `k` leaves another group's as they were. */
  lemma OthersIndexed(broker: Broker, r: Registry, j: GroupId, k: GroupId, ids: set<BrokerId>, index: map<BrokerId, GroupId>)
    requires DistinctIds(broker) && j in r.groups && j != k && OwnIds(broker, j, r.groups[j])
    requires IndexedExactly(r.groups[j], j, r.index) && forall id :: id in ids ==> Owned(broker, k, id)
    requires forall id :: id in index <==> id in r.index || id in ids
    requires forall id :: id in index ==> index[id] == if id in ids then k else r.index[id]
    ensures IndexedExactly(r.groups[j], j, index)
  {
    forall id ensures Records(r.groups[j], id) <==> id in index && index[id] == j {
      if id in ids && Records(r.groups[j], id) {
        RecordsOwned(broker, j, r.groups[j], id);
        OwnedOnce(broker, j, k, id);
      }
      hide Records, DistinctIds, OwnIds, Owned;
    }
  }

  /** Recording ids of group `k` and indexing them keeps the index exact. */
  lemma RecordingKeepsIndex(broker: Broker, r: Registry, k: GroupId, g': Group, ids: set<BrokerId>, r': Registry)
    requires DistinctIds(broker) && IndexExact(broker, r) && k in r.groups && OwnIds(broker, k, g')
    requires forall id :: id in ids ==> Owned(broker, k, id)
    requires forall id :: Records(g', id) <==> Records(r.groups[k], id) || id in ids
    requires r'.groups == r.groups[k := g'] && r'.live == r.live
    requires forall id :: id in r'.index <==> id in r.index || id in ids
    requires forall id :: id in r'.index ==> r'.index[id] == if id in ids then k else r.index[id]
    ensures IndexExact(broker, r')
  {
    hide OwnIds, DistinctIds, Owned;
    assert IndexOwned(broker, r') by { hide IndexedExactly, Records; }
    assert k in r.live ==> IndexedExactly(g', k, r'.index) by { hide IndexOwned, Records; }
    hide Records, IndexedExactly;
    forall j | j in r'.live && j != k ensures IndexedExactly(r'.groups[j], j, r'.index) {
      OthersIndexed(broker, r, j, k, ids, r'.index);
    }
    hide IndexOwned;
  }

  predicate SameIds(g: Group, g': Group) {
    g'.plan == g.plan && g'.sl.id == g.sl.id && g'.tp.id == g.tp.id
  }

  lemma SameIdsOwn(broker: Broker, k: GroupId, g: Group, g': Group)
    requires OwnIds(broker, k, g) && SameIds(g, g')
    ensures OwnIds(broker, k, g')
    ensures forall id :: Records(g', id) <==> Records(g, id)
  {
  }

  /** A group leaving the registry takes its own ids out of the index, no others. */
  lemma LeavingKeepsIndex(broker: Broker, r: Registry, k: GroupId, g': Group, r': Registry)
    requires DistinctIds(broker) && IndexExact(broker, r) && k in r.groups && SameIds(r.groups[k], g')
    requires r'.groups == r.groups[k := g'] && r'.live == r.live - {k}
    requires forall id :: id in r'.index <==> id in r.index && !Records(r.groups[k], id)
    requires forall id :: id in r'.index ==> r'.index[id] == r.index[id]
    ensures IndexExact(broker, r')
  {
    hide DistinctIds, Records, IndexedExactly;
    LeavingOwned(broker, r, k, g', r');
    assert r'.live <= r.groups.Keys;
    hide IndexOwned;
    forall j | j in r'.live ensures IndexedExactly(r'.groups[j], j, r'.index) {
      StaysIndexed(broker, r, j, k, r'.index);
    }
  }

  lemma LeavingOwned(broker: Broker, r: Registry, k: GroupId, g': Group, r': Registry)
    requires IndexOwned(broker, r) && k in r.groups && SameIds(r.groups[k], g')
    requires r'.groups == r.groups[k := g'] && r'.live == r.live - {k}
    requires forall id :: id in r'.index ==> id in r.index && r'.index[id] == r.index[id]
    ensures IndexOwned(broker, r')
  {
    SameIdsOwn(broker, k, r.groups[k], g');
    hide OwnIds, Owned, SameIds, Records;
  }

  lemma StaysIndexed(broker: Broker, r: Registry, j: GroupId, k: GroupId, index: map<BrokerId, GroupId>)
    requires DistinctIds(broker) && IndexOwned(broker, r) && j in r.groups && k in r.groups && j != k
    requires IndexedExactly(r.groups[j], j, r.index)
    requires forall id :: id in index <==> id in r.index && !Records(r.groups[k], id)
    requires forall id :: id in index ==> index[id] == r.index[id]
    ensures IndexedExactly(r.groups[j], j, index)
  {
    hide Records, DistinctIds;
    forall id ensures Records(r.groups[j], id) <==> id in index && index[id] == j {
      NotShared(broker, r, j, k, id);
      hide IndexOwned;
    }
  }

  lemma NotShared(broker: Broker, r: Registry, j: GroupId, k: GroupId, id: BrokerId)
    requires DistinctIds(broker) && IndexOwned(broker, r) && j in r.groups && k in r.groups && j != k
    ensures !(Records(r.groups[j], id) && Records(r.groups[k], id))
  {
    hide DistinctIds;
    if Records(r.groups[j], id) && Records(r.groups[k], id) {
      RecordsOwned(broker, j, r.groups[j], id);
      RecordsOwned(broker, k, r.groups[k], id);
      OwnedOnce(broker, j, k, id);
    }
  }

  lemma CleanUpIndex(r: Registry, k: GroupId)
    requires k in r.groups
    ensures var index := Acted(r, k, CleanUp).index;
            && (forall id :: id in index <==> id in r.index && !Records(r.groups[k], id))
            && (forall id :: id in index ==> index[id] == r.index[id])
  {
    hide Step;
  }

  lemma CleanUpKeepsIndex(broker: Broker, r: Registry, k: GroupId)
    requires DistinctIds(broker) && IndexExact(broker, r) && k in r.groups
    ensures IndexExact(broker, Acted(r, k, CleanUp))
  {
    var r', g := Acted(r, k, CleanUp), r.groups[k];
    hide IndexExact, DistinctIds;
    CleanUpIndex(r, k);
    assert SameIds(g, r'.groups[k]) && r'.groups == r.groups[k := r'.groups[k]] && r'.live == r.live - {k};
    hide Acted, Records, SameIds;
    LeavingKeepsIndex(broker, r, k, r'.groups[k], r');
  }

  lemma UpdateIds(g: Group, o: Order, status: Status)
    ensures var g', b := BrokerUpdate(g, o, status), if Backfills(g, o) then Backfilled(g, o) else g;
            g'.plan == b.plan && g'.sl.id == b.sl.id && g'.tp.id == b.tp.id
  {
    LegUpdateIds(g, o, status);
    LegUpdateIds(Backfilled(g, o), o, status);
    hide SLLegUpdate, TPLegUpdate, FillPrice;
  }

  lemma LegUpdateIds(g: Group, o: Order, status: Status)
    ensures var s, t := SLLegUpdate(g, o, status), TPLegUpdate(g, o, status);
            && s.plan == g.plan && s.sl.id == g.sl.id && s.tp.id == g.tp.id
            && t.plan == g.plan && t.sl.id == g.sl.id && t.tp.id == g.tp.id
  {
    hide Pnl;
  }

  lemma PlacementIds(g: Group, partial: bool, sl: Option<BrokerId>, tp: Option<BrokerId>)
    ensures var g' := PlacementEnds(g, partial, sl, tp);
            var slId, tpId := Placed(g.plan.slPercent > 0.0, sl), Placed(g.plan.tpPercent > 0.0, tp);
            && g'.plan == g.plan
            && g'.sl.id == (if slId != "" then slId else g.sl.id) && g'.tp.id == (if tpId != "" then tpId else g.tp.id)
  {
  }

  lemma QuietIds(g: Group, a: Action)
    requires !a.Update? && !a.EndPlacement?
    ensures Step(g, a).plan == g.plan && Step(g, a).sl.id == g.sl.id && Step(g, a).tp.id == g.tp.id
  {
    hide CalculateTrailingSL, TrailedLimit, Placeable, LegPrices;
  }

  predicate LegId(broker: Broker, k: GroupId, leg: Role, id: BrokerId) {
    id == "" || id == broker(k, leg)
  }

  lemma TwoRecorded(broker: Broker, k: GroupId, g: Group, g': Group, slId: BrokerId, tpId: BrokerId)
    requires OwnIds(broker, k, g) && LegId(broker, k, SLLeg, slId) && LegId(broker, k, TPLeg, tpId) && g'.plan == g.plan
    requires g'.sl.id == (if slId != "" then slId else g.sl.id) && g'.tp.id == (if tpId != "" then tpId else g.tp.id)
    ensures OwnIds(broker, k, g')
    ensures forall id :: Records(g', id) <==> Records(g, id) || id in {slId, tpId} - {""}
    ensures forall id :: id in {slId, tpId} - {""} ==> Owned(broker, k, id)
  {
  }

  lemma TwoIndexed(index: map<BrokerId, GroupId>, k: GroupId, slId: BrokerId, tpId: BrokerId)
    ensures var index', ids := Indexed(Indexed(index, slId, k), tpId, k), {slId, tpId} - {""};
            && (forall id :: id in index' <==> id in index || id in ids)
            && (forall id :: id in index' ==> index'[id] == if id in ids then k else index[id])
  {
  }

  lemma PlacementKeepsIndex(broker: Broker, r: Registry, k: GroupId, a: Action)
    requires DistinctIds(broker) && IndexExact(broker, r) && k in r.groups && a.EndPlacement? && Honest(broker, Act(k, a))
    ensures IndexExact(broker, Acted(r, k, a))
  {
    var g, r' := r.groups[k], Acted(r, k, a);
    PlacementIds(g, a.partial, a.sl, a.tp);
    hide PlacementEnds, DistinctIds, Indexed;
    var slId, tpId := Placed(g.plan.slPercent > 0.0, a.sl), Placed(g.plan.tpPercent > 0.0, a.tp);
    assert LegId(broker, k, SLLeg, slId) && LegId(broker, k, TPLeg, tpId);
    hide Placed, Honest, LegId, OwnIds, Records, Owned, IndexedExactly;
    TwoRecorded(broker, k, g, r'.groups[k], slId, tpId);
    TwoIndexed(r.index, k, slId, tpId);
    hide IndexExact;
    RecordingKeepsIndex(broker, r, k, r'.groups[k], {slId, tpId} - {""}, r');
  }

  lemma ActKeepsIndex(broker: Broker, r: Registry, k: GroupId, a: Action)
    requires DistinctIds(broker) && IndexExact(broker, r) && k in r.groups && !a.Update? && Honest(broker, Act(k, a))
    ensures IndexExact(broker, Acted(r, k, a))
  {
    if a.CleanUp? {
      CleanUpKeepsIndex(broker, r, k);
    } else if a.EndPlacement? {
      PlacementKeepsIndex(broker, r, k, a);
    } else {
      var g, r' := r.groups[k], Acted(r, k, a);
      QuietIds(g, a);
      hide Step, DistinctIds, Honest;
      SameIdsOwn(broker, k, g, r'.groups[k]);
      hide IndexExact, Records;
      RecordingKeepsIndex(broker, r, k, r'.groups[k], {}, r');
    }
  }

  lemma BackfillRecords(broker: Broker, k: GroupId, g: Group, o: Order, g': Group)
    requires OwnIds(broker, k, g) && Owned(broker, k, o.id) && Backfills(g, o) && SameIds(Backfilled(g, o), g') && o.id != ""
    requires forall role: Role :: broker(k, role) == o.id ==> o.role == Some(role)
    ensures OwnIds(broker, k, g')
    ensures forall id :: Records(g', id) <==> Records(g, id) || id in {o.id}
  {
  }

  lemma TargetOwns(broker: Broker, r: Registry, o: Order, tag: Option<GroupId>, status: Status, k: GroupId)
    requires DistinctIds(broker) && IndexOwned(broker, r) && Honest(broker, Deliver(o, tag, status)) && Target(r, o, tag) == Some(k)
    ensures Owned(broker, k, o.id) && o.id != ""
    ensures forall role: Role :: broker(k, role) == o.id && o.role.Some? ==> o.role == Some(role)
  {
  }

  lemma UpdateKeepsIndex(broker: Broker, r: Registry, o: Order, status: Status, k: GroupId, r': Registry)
    requires DistinctIds(broker) && IndexExact(broker, r) && k in r.groups && Owned(broker, k, o.id) && o.id != ""
    requires forall role: Role :: broker(k, role) == o.id && o.role.Some? ==> o.role == Some(role)
    requires r' == r.(groups := r.groups[k := BrokerUpdate(r.groups[k], o, status)],
                      index := if Backfills(r.groups[k], o) then r.index[o.id := k] else r.index)
    ensures IndexExact(broker, r')
  {
    var g, g' := r.groups[k], r'.groups[k];
    UpdateIds(g, o, status);
    hide BrokerUpdate, DistinctIds, Owned;
    assert OwnIds(broker, k, g);
    if Backfills(g, o) {
      BackfillRecords(broker, k, g, o, g');
      hide OwnIds, Records, Backfills, IndexExact;
      RecordingKeepsIndex(broker, r, k, g', {o.id}, r');
    } else {
      SameIdsOwn(broker, k, g, g');
      hide Records, OwnIds, Backfills, IndexExact;
      RecordingKeepsIndex(broker, r, k, g', {}, r');
    }
  }

  lemma DeliverKeepsIndex(broker: Broker, r: Registry, o: Order, tag: Option<GroupId>, status: Status)
    requires DistinctIds(broker) && IndexExact(broker, r) && Honest(broker, Deliver(o, tag, status))
    ensures IndexExact(broker, Delivered(r, o, tag, status))
  {
    hide DistinctIds, Honest, Target, BrokerUpdate, Backfills;
    var k := Target(r, o, tag);
    if k.Some? && k.value in r.live && k.value in r.groups {
      TargetOwns(broker, r, o, tag, status, k.value);
      hide IndexExact;
      UpdateKeepsIndex(broker, r, o, status, k.value, Delivered(r, o, tag, status));
    }
  }

  /** An event reaches the handler of its own order, of its own group: that of the
      role the broker gave the id under, or none while the id is not recorded and
      the stored order is not tagged. */
  lemma DeliveredToItsOrder(broker: Broker, r: Registry, k: GroupId, role: Role, o: Order, tag: Option<GroupId>, status: Status)
    requires DistinctIds(broker) && IndexExact(broker, r) && Honest(broker, Deliver(o, tag, status)) && o.id == broker(k, role)
    ensures Target(r, o, tag) == Some(k) || Target(r, o, tag) == None
    ensures k in r.live && (Records(r.groups[k], o.id) || (tag.Some? && o.role.Some?)) ==>
              Target(r, o, tag) == Some(k) && RoutedTo(r.groups[k], o) == Some(role)
  {
  }

  // ---- Runs ----

  ghost predicate GroupsSafe(r: Registry) {
    forall k :: k in r.groups ==> Invariant(r.groups[k]) && Protected(r.groups[k])
  }

  lemma EventKeepsIndex(broker: Broker, r: Registry, e: Event)
    requires DistinctIds(broker) && IndexExact(broker, r) && Occurs(r, e) && Honest(broker, e)
    ensures IndexExact(broker, Handled(r, e))
  {
    hide IndexExact, DistinctIds, Created, Delivered, Acted, Enabled;
    match e
    case Create(k, plan) => CreateKeepsIndex(broker, r, k, plan);
    case Deliver(o, tag, status) => DeliverKeepsIndex(broker, r, o, tag, status);
    case Act(k, a) => ActKeepsIndex(broker, r, k, a);
  }

  lemma EventKeepsGroups(broker: Broker, r: Registry, e: Event)
    requires DistinctIds(broker) && GroupsSafe(r) && Occurs(r, e) && Honest(broker, e)
    ensures GroupsSafe(Handled(r, e))
  {
    hide Invariant, Protected, BrokerUpdate, Step, Enabled;
    match e
    case Create(k, plan) =>
      assert Invariant(NewGroup(plan)) by { StartHolds(plan); }
      assert Protected(NewGroup(plan)) by { Protection(plan, []); assert Run(NewGroup(plan), []) == NewGroup(plan); }
    case Deliver(o, tag, status) =>
      var k := Target(r, o, tag);
      if k.Some? && k.value in r.live && k.value in r.groups {
        UpdateKeeps(r.groups[k.value], o, status);
        UpdateProtects(r.groups[k.value], o, status);
      }
    case Act(k, a) =>
      RealAnswers(broker, k, a);
      StepKeeps(r.groups[k], a);
      StepProtects(r.groups[k], a);
  }

  lemma RealAnswers(broker: Broker, k: GroupId, a: Action)
    requires DistinctIds(broker) && Honest(broker, Act(k, a)) && !a.Update?
    ensures RealIds(a)
  {
  }

  /** In every run of the registry, over any number of groups, the ids indexed to a
      registered group are exactly those it records, and every group keeps its
      lifecycle and its protection. */
  lemma {:induction false} RegistryIsExact(broker: Broker, states: seq<Registry>, events: seq<Event>, n: nat)
    requires DistinctIds(broker) && Follows(states, events) && n < |states|
    requires forall i :: 0 <= i < |events| ==> Honest(broker, events[i])
    ensures IndexExact(broker, states[n]) && GroupsSafe(states[n])
  {
    hide IndexExact, GroupsSafe, Occurs, Handled, Honest, DistinctIds;
    if n > 0 {
      RegistryIsExact(broker, states, events, n - 1);
      EventKeepsIndex(broker, states[n - 1], events[n - 1]);
      EventKeepsGroups(broker, states[n - 1], events[n - 1]);
    } else {
      EmptyIsExact(broker);
    }
  }

  lemma EmptyIsExact(broker: Broker)
    ensures IndexExact(broker, Registry(map[], {}, map[])) && GroupsSafe(Registry(map[], {}, map[]))
  {
  }
}

/** When trailing an OCO stop loosens it: the trigger of a modify is computed under the
    group's lock, but reaches the broker after the lock was released.
 */
module OcoTrailing {
  import opened Orders
  import opened TickRounding
  import opened TrailingStop
  import opened Oco
  import opened OcoLifecycle
  import opened OcoProtection

  /** No more than one modify is on its way to the broker. */
  ghost predicate OneModify(tasks: multiset<Task>) {
    forall t, u :: t in tasks && u in tasks && t.ModifySL? && u.ModifySL? ==> t == u && tasks[t] == 1
  }

  /** No modify on its way would loosen the trigger in force. */
  ghost predicate Tight(g: Group) {
    forall t :: t in g.tasks && t.ModifySL? ==> NotBehind(g.plan.side, t.trigger, g.prices.slTrigger)
  }

  /** The broker's acceptance moves the trigger. */
  predicate Effective(g: Group, a: Action) {
    a.FinishTrail? && a.accepted && g.state.Active? && g.sl.id != ""
  }

  predicate Past(side: Side, trigger: real, other: real) {
    if side.Buy? then trigger > other else trigger < other
  }

  predicate Loosens(g: Group, g': Group) {
    Past(g.plan.side, g.prices.slTrigger, g'.prices.slTrigger)
  }

  lemma ThroughBackfill(g: Group, b: Group, g': Group)
    requires Steady(g, b) && Steady(b, g')
    ensures Steady(g, g')
  {
    SteadyTransitive(g, b, g');
  }

  /** A broker event never moves a price once the entry has filled. */
  lemma UpdateSteady(g: Group, o: Order, status: Status)
    requires Invariant(g) && g.state != PendingEntry && g.state != LegsSubmitted
    ensures Steady(g, BrokerUpdate(g, o, status))
  {
    hide EntryUpdate, SLLegUpdate, TPLegUpdate, Invariant, Steady;
    FieldsSteady(g, g);
    if !g.state.IsTerminal() {
      var b := Backfilled(g, o);
      FieldsSteady(g, b);
      assert b.state == g.state;
      hide Backfilled;
      EntryUpdateSteady(g, o, status);
      SLLegSteady(g, o, status);
      SLLegSteady(b, o, status);
      TPLegSteady(g, o, status);
      TPLegSteady(b, o, status);
      ThroughBackfill(g, b, SLLegUpdate(b, o, status));
      ThroughBackfill(g, b, TPLegUpdate(b, o, status));
    }
  }

  lemma SteadyUntouched(g: Group, g': Group)
    requires Steady(g, g')
    ensures Untouched(g, g')
  {
  }

  /** Once the stop is placed, every step but trailing leaves prices and modifies
      alone. */
  lemma OtherStepUntouched(g: Group, a: Action)
    requires Invariant(g) && g.state != PendingEntry && g.state != LegsSubmitted && !a.Trail? && !a.FinishTrail? && !a.BeginPlacement?
    ensures Untouched(g, Step(g, a))
  {
    hide Invariant, Steady, Untouched;
    match a
    case Update(o, status) =>
      UpdateSteady(g, o, status);
      SteadyUntouched(g, BrokerUpdate(g, o, status));
    case EndPlacement(partial, sl, tp) => PlacementEndUntouched(g, partial, sl, tp);
    case _ =>
      QuietStepSteady(g, a);
      hide Step;
      SteadyUntouched(g, Step(g, a));
  }

  lemma UntouchedTight(g: Group, g': Group)
    requires Tight(g) && Untouched(g, g')
    ensures Tight(g') && !Loosens(g, g')
  {
  }

  /** A computed trigger is never behind the one it was computed from. */
  lemma ComputedAhead(g: Group, ltp: real)
    requires Floored(g) && ltp > 0.0 && CalculateTrailingSL(StopView(g), ltp).Some?
    ensures NotBehind(g.plan.side, CalculateTrailingSL(StopView(g), ltp).value, g.prices.slTrigger)
  {
    assert g.history.stop.Some?;
    OcoTickKeepsGood(StopView(g), TrailingStop.Tick(ltp, true));
  }

  lemma TrailTight(g: Group, ltp: real)
    requires Floored(g) && Tight(g) && ltp > 0.0
    ensures Tight(Trailed(g, ltp)) && !Loosens(g, Trailed(g, ltp))
  {
    if CalculateTrailingSL(StopView(g), ltp).Some? {
      ComputedAhead(g, ltp);
    }
    hide CalculateTrailingSL, TrailedLimit, Floored;
  }

  lemma FinishTight(g: Group, trigger: real, limit: real, highest: real, accepted: bool)
    requires Tight(g) && OneModify(g.tasks) && ModifySL(trigger, limit, highest) in g.tasks
    ensures Tight(SLModified(g, trigger, limit, highest, accepted)) && !Loosens(g, SLModified(g, trigger, limit, highest, accepted))
  {
    var t := ModifySL(trigger, limit, highest);
    assert forall u :: u in g.tasks - multiset{t} ==> !u.ModifySL?;
  }

  /** With at most one modify on its way no step loosens the trigger. */
  lemma StepHoldsTight(g: Group, a: Action)
    requires Invariant(g) && Floored(g) && g.state != LegsSubmitted && g.history.stop.Some?
    requires Tight(g) && OneModify(g.tasks) && Enabled(g, a) && PositivePrice(a)
    ensures Tight(Step(g, a)) && !Loosens(g, Step(g, a))
  {
    hide Invariant, Tight, OneModify, Loosens, Untouched;
    assert !a.BeginPlacement? && g.state != PendingEntry;
    hide Floored;
    if a.Trail? {
      TrailTight(g, a.ltp);
    } else if a.FinishTrail? {
      FinishTight(g, a.trigger, a.limit, a.highest, a.accepted);
    } else {
      OtherStepUntouched(g, a);
      hide Step;
      UntouchedTight(g, Step(g, a));
    }
  }

  // ---- Runs ----

  /** The runs considered: real ids, positive prices, from a new group. */
  ghost predicate GoodRun(plan: Plan, actions: seq<Action>) {
    Possible(NewGroup(plan), actions) && AllReal(actions) && AllPositive(actions)
  }

  /** No two modifies are ever on their way at once. */
  ghost predicate OneAtATime(plan: Plan, actions: seq<Action>) {
    forall k :: 0 <= k <= |actions| ==> OneModify(Run(NewGroup(plan), actions[..k]).tasks)
  }

  lemma {:induction false} PossiblePrefix(g: Group, actions: seq<Action>, k: nat)
    requires Possible(g, actions) && k <= |actions|
    ensures Possible(g, actions[..k])
  {
    if k < |actions| {
      PossiblePrefix(g, actions[..|actions| - 1], k);
      assert actions[..|actions| - 1][..k] == actions[..k];
    } else {
      assert actions[..k] == actions;
    }
  }

  lemma GoodPrefix(plan: Plan, actions: seq<Action>, k: nat)
    requires GoodRun(plan, actions) && k <= |actions|
    ensures GoodRun(plan, actions[..k])
    ensures OneAtATime(plan, actions) ==> OneAtATime(plan, actions[..k])
  {
    PossiblePrefix(NewGroup(plan), actions, k);
    forall j | 0 <= j <= k ensures actions[..k][..j] == actions[..j] {}
    hide Possible, Run;
  }

  /** What every state of a run satisfies. */
  lemma Reachable(plan: Plan, actions: seq<Action>)
    requires GoodRun(plan, actions)
    ensures var g := Run(NewGroup(plan), actions);
            Invariant(g) && Floored(g) && g.state != LegsSubmitted && g.plan == plan
  {
    Lifecycle(plan, actions);
    Protection(plan, actions);
    NeverBelowPlacedStop(plan, actions);
    PlanKept(plan, actions);
    hide Run, Possible, Invariant, Floored;
  }

  lemma NothingToLoosen(g: Group)
    requires Floored(g) && g.history.stop.None?
    ensures Tight(g)
  {
  }

  /** The placed stop is recorded for good. */
  lemma StopStays(g: Group, a: Action)
    requires Invariant(g) && Floored(g) && g.state != LegsSubmitted && Enabled(g, a) && g.history.stop.Some?
    ensures Step(g, a).history.stop == g.history.stop
  {
    assert !a.BeginPlacement? && g.state != PendingEntry;
    hide Invariant, Floored, CalculateTrailingSL, TrailedLimit;
    if !a.Trail? && !a.FinishTrail? {
      OtherStepUntouched(g, a);
      hide Step;
    }
  }

  lemma LastStep(plan: Plan, actions: seq<Action>)
    requires GoodRun(plan, actions) && actions != []
    ensures var n := |actions| - 1;
            var before := Run(NewGroup(plan), actions[..n]);
            && Enabled(before, actions[n]) && PositivePrice(actions[n]) && Run(NewGroup(plan), actions) == Step(before, actions[n])
  {
    hide Enabled, Step;
  }

  /** In every run in which no two modifies are on their way at once, no step ever
      loosens the trigger of a placed stop; so between any two moments it has moved
      one way only. */
  lemma {:induction false} SequentialTrailingNeverLoosens(plan: Plan, actions: seq<Action>, m: nat)
    requires GoodRun(plan, actions) && OneAtATime(plan, actions) && m <= |actions|
    ensures Tight(Run(NewGroup(plan), actions))
    ensures var early, late := Run(NewGroup(plan), actions[..m]), Run(NewGroup(plan), actions);
            early.history.stop.Some? ==>
              late.history.stop == early.history.stop && NotBehind(plan.side, late.prices.slTrigger, early.prices.slTrigger)
  {
    var late := Run(NewGroup(plan), actions);
    Reachable(plan, actions);
    hide Run, Possible, GoodRun, OneAtATime;
    if actions == [] {
      NoTasks(plan);
    } else {
      var n := |actions| - 1;
      var before := Run(NewGroup(plan), actions[..n]);
      GoodPrefix(plan, actions, n);
      Reachable(plan, actions[..n]);
      LastStep(plan, actions);
      SequentialTrailingNeverLoosens(plan, actions[..n], if m <= n then m else n);
      AtMostOne(plan, actions, n);
      if before.history.stop.Some? {
        StepHoldsTight(before, actions[n]);
        StopStays(before, actions[n]);
      } else {
        StopPlacedTight(before, actions[n]);
      }
      if m <= n {
        assert actions[..n][..m] == actions[..m];
      } else {
        assert actions[..m] == actions;
      }
    }
    hide Tight;
  }

  lemma NoTasks(plan: Plan)
    ensures Run(NewGroup(plan), []) == NewGroup(plan) && Tight(NewGroup(plan)) && NewGroup(plan).history.stop.None?
  {
  }

  lemma AtMostOne(plan: Plan, actions: seq<Action>, k: nat)
    requires OneAtATime(plan, actions) && k <= |actions|
    ensures OneModify(Run(NewGroup(plan), actions[..k]).tasks)
  {
  }

  lemma EntryStop(g: Group, o: Order, status: Status)
    ensures EntryUpdate(g, o, status).history.stop == g.history.stop
  {
    hide FillPrice;
  }

  lemma PendingStop(g: Group, o: Order, status: Status)
    requires g.state == PendingEntry
    ensures BrokerUpdate(g, o, status).history.stop == g.history.stop
  {
    var b := Backfilled(g, o);
    hide EntryUpdate, SLLegUpdate, TPLegUpdate, Steady;
    EntryStop(g, o, status);
    assert b.history.stop == g.history.stop && b.state == g.state;
    LegStop(g, o, status);
    LegStop(b, o, status);
  }

  lemma LegStop(g: Group, o: Order, status: Status)
    requires g.state != LegsSubmitted
    ensures SLLegUpdate(g, o, status).history.stop == g.history.stop && TPLegUpdate(g, o, status).history.stop == g.history.stop
  {
    SLLegSteady(g, o, status);
    TPLegSteady(g, o, status);
    hide SLLegUpdate, TPLegUpdate;
  }

  /** Only the start of a placement records a stop. */
  lemma StopKept(g: Group, a: Action)
    requires Invariant(g) && g.state != LegsSubmitted && !a.BeginPlacement?
    ensures Step(g, a).history.stop == g.history.stop
  {
    hide Invariant, CalculateTrailingSL, TrailedLimit;
    if a.Update? && g.state == PendingEntry {
      hide BrokerUpdate;
      PendingStop(g, a.order, a.status);
    } else if a.EndPlacement? {
      hide PlacementEnds;
      PlacementEndUntouched(g, a.partial, a.sl, a.tp);
    } else if !a.Trail? && !a.FinishTrail? {
      hide Step;
      QuietOrUpdate(g, a);
    }
  }

  lemma QuietOrUpdate(g: Group, a: Action)
    requires Invariant(g) && g.state != LegsSubmitted && !a.Trail? && !a.FinishTrail? && !a.BeginPlacement? && !a.EndPlacement?
    requires a.Update? ==> g.state != PendingEntry
    ensures Steady(g, Step(g, a))
  {
    hide Invariant, Steady;
    if a.Update? {
      hide BrokerUpdate;
      UpdateSteady(g, a.order, a.status);
    } else {
      QuietStepSteady(g, a);
    }
  }

  lemma PlacementTight(g: Group, partial: bool)
    requires Floored(g) && g.history.stop.None?
    ensures Tight(PlacementStarts(g, partial))
  {
    assert forall t :: t in g.tasks ==> !t.ModifySL?;
    hide Floored, Placeable, LegPrices;
    var g' := PlacementStarts(g, partial);
    assert forall t :: t in g'.tasks ==> t in g.tasks || t.AwaitBroker? || t.AfterPlacement?;
    hide PlacementStarts;
  }

  /** Before and right after the stop is placed no modify is on its way. */
  lemma StopPlacedTight(g: Group, a: Action)
    requires Invariant(g) && Floored(g) && g.state != LegsSubmitted && Enabled(g, a) && PositivePrice(a) && g.history.stop.None?
    ensures Tight(Step(g, a))
  {
    if a.BeginPlacement? {
      PlacementTight(g, a.partial);
    } else {
      StopKept(g, a);
      StepFloors(g, a);
      hide Step, Floored, Invariant;
      NothingToLoosen(Step(g, a));
    }
    hide Tight;
  }

  // ---- Exactly when a modify loosens ----

  /** Modifies that took effect in the run of `actions` from `g`. */
  predicate EffectiveAt(g: Group, actions: seq<Action>, m: nat)
    requires m < |actions|
  {
    Effective(Run(g, actions[..m]), actions[m])
  }

  /** The trigger after the run is that of the last effective modify, if any. */
  ghost predicate LastSet(g: Group, actions: seq<Action>) {
    var trigger := Run(g, actions).prices.slTrigger;
    || (trigger == g.prices.slTrigger && forall m :: 0 <= m < |actions| ==> !EffectiveAt(g, actions, m))
    || (exists m :: 0 <= m < |actions| && LastEffective(g, actions, m) && trigger == actions[m].trigger)
  }

  ghost predicate LastEffective(g: Group, actions: seq<Action>, m: nat)
    requires m < |actions|
  {
    actions[m].FinishTrail? && EffectiveAt(g, actions, m) && forall k :: m < k < |actions| ==> !EffectiveAt(g, actions, k)
  }

  lemma SettledEnabled(g: Group, a: Action)
    requires Settled(g) && Enabled(g, a)
    ensures !a.BeginPlacement? && !a.EndPlacement? && g.state != PendingEntry
  {
  }

  /** In a settled group only an effective modify moves the trigger. */
  lemma SettledStep(g: Group, a: Action)
    requires Invariant(g) && Settled(g) && g.state != LegsSubmitted && Enabled(g, a)
    ensures Step(g, a).prices.slTrigger == if Effective(g, a) then a.trigger else g.prices.slTrigger
    ensures Invariant(Step(g, a)) && Settled(Step(g, a)) && Step(g, a).state != LegsSubmitted
  {
    SettledEnabled(g, a);
    StepKeeps(g, a);
    StepOnward(g, a);
    hide Invariant, Settled, CalculateTrailingSL, TrailedLimit, Enabled;
    if !a.Trail? && !a.FinishTrail? {
      QuietOrUpdate(g, a);
      hide Step;
    }
  }

  lemma {:induction false} TriggerIsLastSet(g: Group, actions: seq<Action>)
    requires Invariant(g) && Settled(g) && g.state != LegsSubmitted && Possible(g, actions)
    ensures var end := Run(g, actions);
            Invariant(end) && Settled(end) && end.state != LegsSubmitted && LastSet(g, actions)
  {
    hide Invariant, Settled, Step, Enabled, Effective;
    if actions != [] {
      var n := |actions| - 1;
      var before, a := actions[..n], actions[n];
      TriggerIsLastSet(g, before);
      SettledStep(Run(g, before), a);
      assert before + [a] == actions;
      LastSetNext(g, before, a);
    }
  }

  lemma EarlierModifies(g: Group, before: seq<Action>, a: Action)
    ensures forall m :: 0 <= m < |before| ==> EffectiveAt(g, before + [a], m) == EffectiveAt(g, before, m)
    ensures EffectiveAt(g, before + [a], |before|) == Effective(Run(g, before), a)
  {
    hide Run, Effective;
    assert (before + [a])[..|before|] == before;
    forall m | 0 <= m < |before| ensures (before + [a])[..m] == before[..m] {}
  }

  lemma LastSetNext(g: Group, before: seq<Action>, a: Action)
    requires LastSet(g, before)
    requires var mid, end := Run(g, before), Run(g, before + [a]);
             end.prices.slTrigger == if Effective(mid, a) then a.trigger else mid.prices.slTrigger
    ensures LastSet(g, before + [a])
  {
    EarlierModifies(g, before, a);
    var actions, n := before + [a], |before|;
    hide Run, EffectiveAt;
    if Effective(Run(g, before), a) {
      hide Effective;
      assert LastEffective(g, actions, n);
    } else if m :| 0 <= m < n && LastEffective(g, before, m) && Run(g, before).prices.slTrigger == before[m].trigger {
      assert LastEffective(g, actions, m);
    }
  }

  /** Exactly when an accepted modify loosens the stop: since its trigger was computed
      another modify took effect, and the last one that did had moved the trigger past
      it. */
  lemma ModifyLoosensIff(g: Group, ltp: real, between: seq<Action>, finish: Action)
    requires Invariant(g) && Floored(g) && ltp > 0.0 && CalculateTrailingSL(StopView(g), ltp).Some?
    requires Possible(Trailed(g, ltp), between) && finish.FinishTrail?
    requires finish.trigger == CalculateTrailingSL(StopView(g), ltp).value
    requires Enabled(Run(Trailed(g, ltp), between), finish) && Effective(Run(Trailed(g, ltp), between), finish)
    ensures var start := Trailed(g, ltp);
            Loosens(Run(start, between), Step(Run(start, between), finish)) <==>
              exists m :: 0 <= m < |between| && LastEffective(start, between, m) && Past(g.plan.side, between[m].trigger, finish.trigger)
  {
    hide Run, Possible, Invariant, Floored, Step, Effective, EffectiveAt, Trailed, CalculateTrailingSL, TrailedLimit, Settled,
         LastEffective, LastSet, Enabled, NotBehind, Past;
    var start := Trailed(g, ltp);
    ComputedAhead(g, ltp);
    TrailingIsSettled(g, ltp);
    TrailKeeps(g, ltp);
    TriggerIsLastSet(start, between);
    var end := Run(start, between);
    SettledStep(end, finish);
    PlanStays(start, between);
    PastIff(start, between, g.plan.side, finish.trigger);
  }

  /** A trigger that was not behind to begin with is passed exactly by the last
      effective modify. */
  lemma PastIff(g: Group, actions: seq<Action>, side: Side, trigger: real)
    requires LastSet(g, actions) && NotBehind(side, trigger, g.prices.slTrigger)
    ensures Past(side, Run(g, actions).prices.slTrigger, trigger) <==>
              exists m :: 0 <= m < |actions| && LastEffective(g, actions, m) && Past(side, actions[m].trigger, trigger)
  {
    OnlyOneLast(g, actions);
    hide Run, EffectiveAt;
  }

  lemma TrailingIsSettled(g: Group, ltp: real)
    requires Invariant(g) && CalculateTrailingSL(StopView(g), ltp).Some?
    ensures var start := Trailed(g, ltp);
            Settled(start) && start.state == Active && start.prices == g.prices && start.plan == g.plan
  {
    assert g.state.Active?;
    hide CalculateTrailingSL, TrailedLimit;
  }

  lemma OnlyOneLast(g: Group, actions: seq<Action>)
    ensures forall m, n :: 0 <= m < |actions| && 0 <= n < |actions| && LastEffective(g, actions, m) && LastEffective(g, actions, n) ==> m == n
    ensures (forall m :: 0 <= m < |actions| ==> !EffectiveAt(g, actions, m)) ==>
              forall m :: 0 <= m < |actions| ==> !LastEffective(g, actions, m)
  {
    hide EffectiveAt;
  }

  lemma {:induction false} PlanStays(g: Group, actions: seq<Action>)
    ensures Run(g, actions).plan == g.plan
  {
    if actions != [] {
      PlanStays(g, actions[..|actions| - 1]);
      hide Step;
      StepKeepsPlan(Run(g, actions[..|actions| - 1]), actions[|actions| - 1]);
    }
  }

  // ---- One tick at a time ----

  /** A tick whose modify, when one is due, is answered before anything else happens. */
  function Trailing(g: Group, t: TrailingStop.Tick): Group {
    match CalculateTrailingSL(StopView(g), t.ltp)
    case None => Trailed(g, t.ltp)
    case Some(trigger) => SLModified(Trailed(g, t.ltp), trigger, TrailedLimit(g, t.ltp), t.ltp, t.modifyAccepted)
  }

  function TrailingAll(g: Group, ticks: seq<TrailingStop.Tick>): Group {
    if ticks == [] then g else Trailing(TrailingAll(g, ticks[..|ticks| - 1]), ticks[|ticks| - 1])
  }

  /** What trailing reads and writes, without the count of its moves. */
  function Stop(s: OcoStop): OcoStop {
    s.(moves := 0)
  }

  lemma TrailingIsTick(g: Group, t: TrailingStop.Tick)
    requires g.state.Active? && g.sl.id != ""
    ensures var g' := Trailing(g, t);
            && StopView(g') == Stop(OcoTick(StopView(g), t))
            && g'.tasks == g.tasks && g'.state == g.state && g'.sl == g.sl
  {
    if CalculateTrailingSL(StopView(g), t.ltp).Some? {
      assert g.prices.highest > 0.0;
      hide CalculateTrailingSL, TrailedLimit;
    }
  }

  lemma MovesUnread(s: OcoStop, t: TrailingStop.Tick)
    ensures Stop(OcoTick(s, t)) == Stop(OcoTick(Stop(s), t))
  {
    hide RoundNSE, Proportional, ChangePct;
  }

  /** A watched group trailed one tick at a time goes through exactly the run of
      TrailingStop, so what holds of those runs holds of the group. */
  lemma {:induction false} TrailingIsOcoRun(g: Group, ticks: seq<TrailingStop.Tick>)
    requires g.state.Active? && g.sl.id != ""
    ensures var g' := TrailingAll(g, ticks);
            && StopView(g') == Stop(OcoRun(StopView(g), ticks))
            && g'.tasks == g.tasks && g'.state == g.state && g'.sl == g.sl
  {
    hide Trailing, OcoTick;
    if ticks != [] {
      var n := |ticks| - 1;
      TrailingIsOcoRun(g, ticks[..n]);
      TrailingIsTick(TrailingAll(g, ticks[..n]), ticks[n]);
      MovesUnread(OcoRun(StopView(g), ticks[..n]), ticks[n]);
    }
  }
}

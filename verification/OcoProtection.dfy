/** The stop-loss protection of an OCO group over every interleaving of its steps. */
module OcoProtection {
  import opened Orders
  import opened TickRounding
  import opened TrailingStop
  import opened Oco
  import opened OcoLifecycle

  /** The broker's ids are not empty. */
  predicate RealIds(a: Action) {
    match a
    case Update(o, _) => o.id != ""
    case EndPlacement(_, sl, tp) => sl != Some("") && tp != Some("")
    case _ => true
  }

  predicate AllReal(actions: seq<Action>) {
    forall i :: 0 <= i < |actions| ==> RealIds(actions[i])
  }

  /** The stop-loss leg was sent with a trigger strictly on the loss side. */
  predicate StopPlaced(g: Group) {
    g.plan.slPercent > 0.0 ==> g.history.stop.Some? && LossSide(g.plan.side, g.history.stop.value, g.prices.fill)
  }

  predicate DisabledConfirmed(g: Group) {
    (g.plan.slPercent <= 0.0 ==> g.sl.confirmed) && (g.plan.tpPercent <= 0.0 ==> g.tp.confirmed)
  }

  predicate Awaiting(tasks: multiset<Task>) {
    AwaitBroker(true) in tasks || AwaitBroker(false) in tasks
  }

  /** Whenever the legs are watched, an enabled stop-loss is at the broker, under a
      recorded id.  LEGS_SUBMITTED is never seen between steps: the placement
      confirms what it places. */
  ghost predicate Protected(g: Group) {
    && (Awaiting(g.tasks) ==> StopPlaced(g) && DisabledConfirmed(g))
    && (g.state.Watching() ==> StopPlaced(g) && (g.plan.slPercent > 0.0 ==> g.sl.id != ""))
    && g.state != LegsSubmitted
  }

  /** A step that loses no protection and moves no price. */
  ghost predicate Steady(g: Group, g': Group) {
    && g'.plan == g.plan && g'.prices == g.prices && g'.history.stop == g.history.stop
    && (g.sl.confirmed ==> g'.sl.confirmed) && (g.tp.confirmed ==> g'.tp.confirmed)
    && (g.sl.id != "" ==> g'.sl.id != "")
    && (g'.state.Watching() ==> g.state.Watching()) && (g.state != LegsSubmitted ==> g'.state != LegsSubmitted)
    && (Awaiting(g'.tasks) ==> Awaiting(g.tasks)) && (g'.state.PendingEntry? ==> g.state.PendingEntry?)
    && (forall t :: t in g'.tasks && (t.ModifySL? || t.PlaceLegs?) ==> t in g.tasks)
  }

  lemma SteadyProtects(g: Group, g': Group)
    requires Protected(g) && Steady(g, g')
    ensures Protected(g')
  {
    hide Awaiting, LossSide;
  }

  lemma SteadyTransitive(a: Group, b: Group, c: Group)
    requires Steady(a, b) && Steady(b, c)
    ensures Steady(a, c)
  {
    hide Awaiting;
  }

  lemma TasksSteady(g: Group, t: Task)
    ensures !t.AwaitBroker? && !t.ModifySL? && !t.PlaceLegs? ==> Steady(g, Launch(g, t))
    ensures t.CancelLeg? ==> Steady(g, QueueCancel(g, t.id))
    ensures Steady(g, Done(g, t))
  {
  }

  lemma FieldsSteady(g: Group, g': Group)
    requires g'.plan == g.plan && g'.prices == g.prices && g'.history.stop == g.history.stop && g'.tasks == g.tasks
    requires (g.sl.confirmed ==> g'.sl.confirmed) && (g.tp.confirmed ==> g'.tp.confirmed) && (g.sl.id != "" ==> g'.sl.id != "")
    requires g'.state == g.state || (!g'.state.Watching() && !g'.state.PendingEntry?)
    ensures Steady(g, g')
  {
  }

  lemma LegLostSteady(g: Group, state: OcoState, id: BrokerId)
    requires state.IsTerminal()
    ensures Steady(g, Launch(QueueCancel(g.(state := state), id), Cleanup))
  {
    FieldsSteady(g, g.(state := state));
    TasksSteady(g.(state := state), CancelLeg(id));
    TasksSteady(QueueCancel(g.(state := state), id), Cleanup);
    hide Steady, Launch, QueueCancel;
    SteadyTransitive(g, g.(state := state), QueueCancel(g.(state := state), id));
    SteadyTransitive(g, QueueCancel(g.(state := state), id), Launch(QueueCancel(g.(state := state), id), Cleanup));
  }

  lemma LegExitSteady(g: Group, leg: Role, state: OcoState, id: BrokerId, price: Option<real>)
    requires !state.Watching() && !state.PendingEntry?
    ensures Steady(g, LegExit(g, leg, state, id, price)) && Steady(g, QueueCancel(LegExit(g, leg, state, id, price), id))
  {
    hide Pnl;
    var g1 := LegExit(g, leg, state, id, price);
    FieldsSteady(g, g1);
    hide LegExit, Steady;
    TasksSteady(g1, CancelLeg(id));
    SteadyTransitive(g, g1, QueueCancel(g1, id));
  }

  lemma SLLegSteady(g: Group, o: Order, status: Status)
    requires g.state != LegsSubmitted
    ensures Steady(g, SLLegUpdate(g, o, status))
  {
    FieldsSteady(g, g);
    FieldsSteady(g, g.(sl := g.sl.(confirmed := true)));
    hide Launch, QueueCancel, LegExit, Steady, Pnl;
    match status
    case Executed =>
      LegExitSteady(g, SLLeg, SLTriggered, g.tp.id, o.filledPrice);
      LegExitSteady(g, SLLeg, Completed, g.tp.id, o.filledPrice);
    case PartlyFilled => LegExitSteady(g, SLLeg, SLTriggered, g.tp.id, None);
    case Rejected => LegLostSteady(g, Failed, g.tp.id);
    case CancelledByBroker => LegLostSteady(g, Cancelled, g.tp.id);
    case _ =>
  }

  lemma TPLegSteady(g: Group, o: Order, status: Status)
    requires g.state != LegsSubmitted
    ensures Steady(g, TPLegUpdate(g, o, status))
  {
    FieldsSteady(g, g);
    FieldsSteady(g, g.(tp := g.tp.(confirmed := true)));
    hide Launch, QueueCancel, LegExit, Steady, Pnl;
    match status
    case Executed =>
      LegExitSteady(g, TPLeg, TPTriggered, g.sl.id, o.filledPrice);
      LegExitSteady(g, TPLeg, Completed, g.sl.id, o.filledPrice);
    case PartlyFilled => LegExitSteady(g, TPLeg, TPTriggered, g.sl.id, None);
    case CancelledByBroker => LegLostSteady(g, Cancelled, g.sl.id);
    case _ =>
  }

  lemma ThenTask(g: Group, g1: Group, t: Task)
    requires Steady(g, g1) && !t.AwaitBroker? && !t.ModifySL? && !t.PlaceLegs?
    ensures Steady(g, Launch(g1, t))
  {
    TasksSteady(g1, t);
    hide Steady, Launch;
    SteadyTransitive(g, g1, Launch(g1, t));
  }

  lemma EntryClosedSteady(g: Group)
    ensures Steady(g, EntryClosed(g))
  {
    FieldsSteady(g, Closed(g).(partial := WaitEnded(g.partial)));
    FieldsSteady(g, Closed(g).(state := Failed));
    hide Steady, Launch;
    ThenTask(g, Closed(g).(state := Failed), Cleanup);
  }

  lemma EntryFilledSteady(g: Group, o: Order)
    requires Invariant(g) && g.state != PendingEntry
    ensures Steady(g, EntryFilled(g, o))
  {
    FieldsSteady(g, g);
    var g1 := FullyFilled(g).(partial := WaitEnded(g.partial).(filledQty := g.plan.quantity));
    FieldsSteady(g, g1);
    hide Steady, Launch, FirstFill, Invariant;
    ThenTask(g, g1, ModifyLegs(g.plan.quantity));
  }

  lemma EntryPartlyFilledSteady(g: Group, o: Order)
    requires g.state != PendingEntry
    ensures Steady(g, EntryPartlyFilled(g, o))
  {
    FieldsSteady(g, g);
    var g1 := g.(partial := g.partial.(filledQty := o.filledQty));
    FieldsSteady(g, g1);
    hide Steady, Launch, FirstFill;
    ThenTask(g, g1, ModifyLegs(o.filledQty));
  }

  lemma EntryUpdateSteady(g: Group, o: Order, status: Status)
    requires Invariant(g) && g.state != PendingEntry
    ensures Steady(g, EntryUpdate(g, o, status))
  {
    EntryClosedSteady(g);
    FieldsSteady(g, g);
    EntryFilledSteady(g, o);
    EntryPartlyFilledSteady(g, o);
    hide EntryFilled, EntryPartlyFilled, EntryClosed, Steady, Invariant;
  }

  /** Before the placement the group watches nothing and awaits nothing. */
  lemma FirstFillProtects(g: Group, o: Order, status: Status)
    requires Invariant(g) && g.state == PendingEntry
    ensures Protected(EntryUpdate(g, o, status))
  {
    hide FillPrice, LossSide, ExitedOnce;
  }

  lemma UpdateProtects(g: Group, o: Order, status: Status)
    requires Invariant(g) && Protected(g) && o.id != ""
    ensures Protected(BrokerUpdate(g, o, status))
  {
    hide EntryUpdate, SLLegUpdate, TPLegUpdate, Invariant;
    if !g.state.IsTerminal() {
      var b := Backfilled(g, o);
      FieldsSteady(g, b);
      FieldsSteady(g, g);
      assert g.state != LegsSubmitted;
      SLLegSteady(g, o, status);
      SLLegSteady(b, o, status);
      TPLegSteady(g, o, status);
      TPLegSteady(b, o, status);
      if g.state == PendingEntry {
        FirstFillProtects(g, o, status);
      } else {
        EntryUpdateSteady(g, o, status);
      }
      hide Protected, Steady;
      SteadyTransitive(g, b, SLLegUpdate(b, o, status));
      SteadyTransitive(g, b, TPLegUpdate(b, o, status));
      forall g' | Steady(g, g') ensures Protected(g') { SteadyProtects(g, g'); }
    }
  }

  lemma NotPlaceableProtects(g: Group, partial: bool)
    requires Protected(g) && PlaceLegs(partial) in g.tasks
    ensures Protected(PlacementOver(Done(g, PlaceLegs(partial)).(state := Failed), partial))
  {
    var d := Done(g, PlaceLegs(partial));
    TasksSteady(g, PlaceLegs(partial));
    FieldsSteady(d, d.(state := Failed));
    TasksSteady(d.(state := Failed), AfterPlacement);
    hide Steady, Launch, Done, Protected;
    SteadyProtects(g, d);
    SteadyProtects(d, d.(state := Failed));
    if partial {
      SteadyProtects(d.(state := Failed), Launch(d.(state := Failed), AfterPlacement));
    }
  }

  lemma PlacementStartProtects(g: Group, partial: bool)
    requires Invariant(g) && Protected(g) && PlaceLegs(partial) in g.tasks
    ensures Protected(PlacementStarts(g, partial))
  {
    assert Placing(g.tasks) >= 1;
    assert !g.state.Watching();
    hide LossSide, SLTriggerPrice, SLLimitPrice, TPLimitPrice, Invariant;
    if Placeable(g.plan, g.prices.fill) {
      hide Awaiting;
    } else {
      NotPlaceableProtects(g, partial);
      hide Protected;
    }
  }

  lemma NotAwaiting(tasks: multiset<Task>, t: Task)
    requires !Awaiting(tasks) && !t.AwaitBroker?
    ensures !Awaiting(tasks + multiset{t})
  {
  }

  lemma PlacementOutcomeProtects(g: Group, sl: Option<BrokerId>, tp: Option<BrokerId>)
    requires StopPlaced(g) && DisabledConfirmed(g) && !Awaiting(g.tasks) && sl != Some("") && tp != Some("")
    ensures Protected(PlacementOutcome(g, sl, tp))
  {
    NotAwaiting(g.tasks, Cleanup);
    NotAwaiting(g.tasks, CancelLeg(Placed(g.plan.tpPercent > 0.0, tp)));
    hide LossSide, Awaiting;
  }

  lemma PlacementEndProtects(g: Group, partial: bool, sl: Option<BrokerId>, tp: Option<BrokerId>)
    requires Invariant(g) && Protected(g) && AwaitBroker(partial) in g.tasks && sl != Some("") && tp != Some("")
    ensures Protected(PlacementEnds(g, partial, sl, tp))
  {
    var d := Done(g, AwaitBroker(partial));
    assert Placing(g.tasks) <= 1 && !Awaiting(d.tasks);
    hide Invariant;
    PlacementOutcomeProtects(d, sl, tp);
    hide PlacementOutcome;
    var r := PlacementOutcome(d, sl, tp);
    TasksSteady(r, AfterPlacement);
    hide Protected, Steady, Launch;
    if partial {
      SteadyProtects(r, Launch(r, AfterPlacement));
    }
  }

  lemma QueueSteady(g: Group, wanted: bool, id: BrokerId)
    ensures Steady(g, if wanted then QueueCancel(g, id) else g)
  {
    TasksSteady(g, CancelLeg(id));
    FieldsSteady(g, g);
    hide Steady, QueueCancel;
  }

  lemma CancelledSteady(g: Group)
    ensures Steady(g, Launch(g.(state := Cancelled), Cleanup))
  {
    FieldsSteady(g, g.(state := Cancelled));
    TasksSteady(g.(state := Cancelled), Cleanup);
    hide Launch, Steady;
    SteadyTransitive(g, g.(state := Cancelled), Launch(g.(state := Cancelled), Cleanup));
  }

  lemma UserCancelSteady(g: Group)
    ensures Steady(g, UserCancels(g))
  {
    FieldsSteady(g, g);
    hide QueueCancel, Launch, Steady;
    if !g.state.IsTerminal() {
      var g1 := if g.state == PendingEntry && g.plan.entryId != "" then QueueCancel(g, g.plan.entryId) else g;
      var g2 := if g.state.Watching() && g.sl.id != "" then QueueCancel(g1, g.sl.id) else g1;
      var g3 := if g.state.Watching() && g.tp.id != "" then QueueCancel(g2, g.tp.id) else g2;
      QueueSteady(g, g.state == PendingEntry && g.plan.entryId != "", g.plan.entryId);
      QueueSteady(g1, g.state.Watching() && g.sl.id != "", g.sl.id);
      QueueSteady(g2, g.state.Watching() && g.tp.id != "", g.tp.id);
      CancelledSteady(g3);
      SteadyTransitive(g, g1, g2);
      SteadyTransitive(g, g2, g3);
      SteadyTransitive(g, g3, UserCancels(g));
    }
  }

  lemma TrailProtects(g: Group, ltp: real)
    requires Protected(g)
    ensures Protected(Trailed(g, ltp))
  {
    hide TrailedLimit, CalculateTrailingSL, LossSide;
  }

  lemma FinishTrailProtects(g: Group, trigger: real, limit: real, highest: real, accepted: bool)
    requires Protected(g)
    ensures Protected(SLModified(g, trigger, limit, highest, accepted))
  {
    hide LossSide;
  }

  lemma TaskEndSteady(g: Group, a: Action)
    requires a.FinishCancel? || a.FinishModify? || a.CleanUp? || a.StopTimer? || a.CancelRemainder?
    ensures Steady(g, Step(g, a))
  {
    var t := match a
      case FinishCancel(id) => CancelLeg(id)
      case FinishModify(qty) => ModifyLegs(qty)
      case StopTimer => Timer
      case CancelRemainder => CancelRemaining
      case _ => Cleanup;
    TasksSteady(g, t);
    FieldsSteady(Done(g, t), Step(g, a));
    hide Steady;
    SteadyTransitive(g, Done(g, t), Step(g, a));
  }

  lemma TimerSteady(g: Group, a: Action)
    requires a.EndPartialPlacement? || a.BeginTimer? || a.FireTimer?
    ensures Steady(g, Step(g, a))
  {
    hide Steady, Launch;
    match a
    case EndPartialPlacement =>
      TasksSteady(g, AfterPlacement);
      TaskAfter(g, AfterPlacement, Done(g, AfterPlacement).(partial := g.partial.(timerStarted := true)), StartTimer);
    case BeginTimer =>
      TaskAfter(g, StartTimer, Done(g, StartTimer).(partial := g.partial.(timerArmed := true)), Timer);
    case FireTimer =>
      TasksSteady(g, Timer);
      TaskAfter(g, Timer, Done(g, Timer).(partial := g.partial.(waiting := false, timerStarted := false, timerArmed := false),
                                          history := g.history.(timeouts := g.history.timeouts + 1)), CancelRemaining);
    case _ =>
  }

  lemma TaskAfter(g: Group, ended: Task, g1: Group, next: Task)
    requires !next.AwaitBroker? && !next.ModifySL? && !next.PlaceLegs? && g1.history.stop == g.history.stop
    requires g1 == Done(g, ended).(partial := g1.partial, history := g1.history)
    ensures Steady(g, Launch(g1, next))
  {
    TasksSteady(g, ended);
    FieldsSteady(Done(g, ended), g1);
    TasksSteady(g1, next);
    hide Steady, Launch;
    SteadyTransitive(g, Done(g, ended), g1);
    SteadyTransitive(g, g1, Launch(g1, next));
  }

  lemma QuietStepSteady(g: Group, a: Action)
    requires !a.Update? && !a.BeginPlacement? && !a.EndPlacement? && !a.Trail? && !a.FinishTrail?
    ensures Steady(g, Step(g, a))
  {
    hide Steady;
    if a.UserCancel? {
      UserCancelSteady(g);
    } else if a.EndPartialPlacement? || a.BeginTimer? || a.FireTimer? {
      TimerSteady(g, a);
    } else {
      TaskEndSteady(g, a);
    }
  }

  lemma StepProtects(g: Group, a: Action)
    requires Invariant(g) && Protected(g) && Enabled(g, a) && RealIds(a)
    ensures Protected(Step(g, a))
  {
    hide Invariant, Protected, Steady;
    match a
    case Update(o, status) => UpdateProtects(g, o, status);
    case BeginPlacement(partial) => PlacementStartProtects(g, partial);
    case EndPlacement(partial, sl, tp) => PlacementEndProtects(g, partial, sl, tp);
    case Trail(ltp) => TrailProtects(g, ltp);
    case FinishTrail(trigger, limit, highest, accepted) => FinishTrailProtects(g, trigger, limit, highest, accepted);
    case _ =>
      QuietStepSteady(g, a);
      hide Step;
      SteadyProtects(g, Step(g, a));
  }

  /** In every run, while the legs are watched an enabled stop-loss is in force: it
      was placed strictly on the loss side of the fill and its id is recorded. */
  lemma {:induction false} Protection(plan: Plan, actions: seq<Action>)
    requires Possible(NewGroup(plan), actions) && AllReal(actions)
    ensures Protected(Run(NewGroup(plan), actions))
    ensures var g := Run(NewGroup(plan), actions);
            plan.slPercent > 0.0 && g.state.Watching() ==>
              g.sl.id != "" && g.history.stop.Some? && LossSide(plan.side, g.history.stop.value, g.prices.fill)
  {
    PlanKept(plan, actions);
    if actions != [] {
      var n := |actions| - 1;
      Protection(plan, actions[..n]);
      Lifecycle(plan, actions[..n]);
      StepProtects(Run(NewGroup(plan), actions[..n]), actions[n]);
    }
  }

  lemma {:induction false} PlanKept(plan: Plan, actions: seq<Action>)
    requires Possible(NewGroup(plan), actions)
    ensures Run(NewGroup(plan), actions).plan == plan
  {
    if actions != [] {
      PlanKept(plan, actions[..|actions| - 1]);
      StepKeepsPlan(Run(NewGroup(plan), actions[..|actions| - 1]), actions[|actions| - 1]);
    }
  }

  lemma StepKeepsPlan(g: Group, a: Action)
    ensures Step(g, a).plan == g.plan
  {
  }

  // ---- The trailed trigger ----

  predicate NotBehind(side: Side, trigger: real, stop: real) {
    if side.Buy? then trigger >= stop else trigger <= stop
  }

  ghost predicate GoodTrigger(g: Group, trigger: real)
    requires g.history.stop.Some?
  {
    trigger >= 0.0 && OnGrid(trigger, TICK) && NotBehind(g.plan.side, trigger, g.history.stop.value)
  }

  /** The trigger in force, and every trigger on its way to the broker, is no
      looser than the one the stop-loss was placed with. */
  ghost predicate Floored(g: Group) {
    && (PlaceLegs(true) in g.tasks || PlaceLegs(false) in g.tasks || g.state.PendingEntry? ==> g.history.stop.None?)
    && (g.history.stop.None? ==> g.prices.slTrigger == 0.0)
    && (g.history.stop.Some? && g.prices.slTrigger > 0.0 ==> GoodTrigger(g, g.prices.slTrigger))
    && (forall t :: t in g.tasks && t.ModifySL? ==> g.history.stop.Some? && GoodTrigger(g, t.trigger))
  }

  predicate PositivePrice(a: Action) {
    a.Trail? ==> a.ltp > 0.0
  }

  predicate AllPositive(actions: seq<Action>) {
    forall i :: 0 <= i < |actions| ==> PositivePrice(actions[i])
  }

  ghost predicate Untouched(g: Group, g': Group) {
    && g'.plan == g.plan && g'.prices == g.prices && g'.history.stop == g.history.stop
    && (g'.state.PendingEntry? ==> g.state.PendingEntry?)
    && (forall t :: t in g'.tasks && (t.ModifySL? || t.PlaceLegs?) ==> t in g.tasks)
  }

  lemma UntouchedFloors(g: Group, g': Group)
    requires Floored(g) && Untouched(g, g')
    ensures Floored(g')
  {
    hide OnGrid;
  }

  lemma SteadyFloors(g: Group, g': Group)
    requires Floored(g) && Steady(g, g')
    ensures Floored(g')
  {
    UntouchedFloors(g, g');
  }

  lemma UpdateFloors(g: Group, o: Order, status: Status)
    requires Invariant(g) && Floored(g) && g.state != LegsSubmitted
    ensures Floored(BrokerUpdate(g, o, status))
  {
    hide EntryUpdate, SLLegUpdate, TPLegUpdate, Invariant;
    if !g.state.IsTerminal() {
      var b := Backfilled(g, o);
      FieldsSteady(g, b);
      SLLegSteady(g, o, status);
      SLLegSteady(b, o, status);
      TPLegSteady(g, o, status);
      TPLegSteady(b, o, status);
      if g.state == PendingEntry {
        FirstFillFloors(g, o, status);
      } else {
        EntryUpdateSteady(g, o, status);
      }
      hide Floored, Steady;
      SteadyTransitive(g, b, SLLegUpdate(b, o, status));
      SteadyTransitive(g, b, TPLegUpdate(b, o, status));
      forall g' | Steady(g, g') ensures Floored(g') { SteadyFloors(g, g'); }
    }
  }

  lemma FirstFillFloors(g: Group, o: Order, status: Status)
    requires Invariant(g) && Floored(g) && g.state == PendingEntry
    ensures Floored(EntryUpdate(g, o, status))
  {
    hide FillPrice, PlacedOnce, ExitedOnce, OnGrid;
  }

  lemma RoundedOnGrid(x: real)
    ensures OnGrid(RoundNSE(x), TICK)
  {
    assert RoundNSE(x) == Ticks(GoDiv(Trunc(x * 100.0 + 0.5) + 2, 5), TICK);
  }

  lemma TriggerOnGrid(side: Side, fill: real, pct: real)
    ensures OnGrid(SLTriggerPrice(side, fill, pct), TICK)
  {
    RoundedOnGrid(if side.Buy? then fill * (1.0 - pct / 100.0) else fill * (1.0 + pct / 100.0));
    hide RoundNSE, OnGrid;
  }

  lemma LastPlaceLegs(tasks: multiset<Task>, partial: bool)
    requires Placing(tasks) <= 1 && PlaceLegs(partial) in tasks
    ensures forall p :: PlaceLegs(p) !in tasks - multiset{PlaceLegs(partial)}
  {
  }

  lemma StopPlacedFloors(g: Group, partial: bool)
    requires Invariant(g) && Floored(g) && PlaceLegs(partial) in g.tasks && Placeable(g.plan, g.prices.fill)
    ensures Floored(PlacementStarts(g, partial))
  {
    LastPlaceLegs(g.tasks, partial);
    assert !g.state.PendingEntry?;
    hide Invariant, Placeable, SLLimitPrice, TPLimitPrice;
    TriggerOnGrid(g.plan.side, g.prices.fill, g.plan.slPercent);
    hide SLTriggerPrice, OnGrid;
    var g' := PlacementStarts(g, partial);
    assert forall t :: t in g'.tasks ==> t in g.tasks - multiset{PlaceLegs(partial)} || t.AwaitBroker?;
  }

  lemma PlacementStartFloors(g: Group, partial: bool)
    requires Invariant(g) && Floored(g) && PlaceLegs(partial) in g.tasks
    ensures Floored(PlacementStarts(g, partial))
  {
    if Placeable(g.plan, g.prices.fill) {
      StopPlacedFloors(g, partial);
    } else {
      hide Placeable, Floored;
      UntouchedFloors(g, PlacementStarts(g, partial));
    }
  }

  lemma PlacementEndUntouched(g: Group, partial: bool, sl: Option<BrokerId>, tp: Option<BrokerId>)
    ensures Untouched(g, PlacementEnds(g, partial, sl, tp))
  {
    var d := Done(g, AwaitBroker(partial));
    var r := PlacementOutcome(d, sl, tp);
    OutcomeUntouched(d, sl, tp);
    hide PlacementOutcome;
  }

  lemma OutcomeUntouched(g: Group, sl: Option<BrokerId>, tp: Option<BrokerId>)
    ensures Untouched(g, PlacementOutcome(g, sl, tp))
  {
    hide Placed, Recorded;
  }

  lemma TrailFloors(g: Group, ltp: real)
    requires Floored(g) && ltp > 0.0 && CalculateTrailingSL(StopView(g), ltp).Some?
    ensures g.history.stop.Some? && GoodTrigger(g, CalculateTrailingSL(StopView(g), ltp).value)
  {
    assert g.history.stop.Some?;
    OcoTickKeepsGood(StopView(g), TrailingStop.Tick(ltp, true));
  }

  lemma StepFloors(g: Group, a: Action)
    requires Invariant(g) && Floored(g) && g.state != LegsSubmitted && Enabled(g, a) && PositivePrice(a)
    ensures Floored(Step(g, a))
  {
    hide Invariant, Steady, OnGrid;
    match a
    case Update(o, status) =>
      hide Floored;
      UpdateFloors(g, o, status);
    case BeginPlacement(partial) =>
      hide Floored;
      PlacementStartFloors(g, partial);
    case EndPlacement(partial, sl, tp) =>
      hide Floored, Untouched;
      PlacementEndUntouched(g, partial, sl, tp);
      UntouchedFloors(g, PlacementEnds(g, partial, sl, tp));
    case Trail(ltp) =>
      if CalculateTrailingSL(StopView(g), ltp).Some? {
        TrailFloors(g, ltp);
      }
      hide CalculateTrailingSL, TrailedLimit;
    case FinishTrail(trigger, limit, highest, accepted) =>
    case _ =>
      QuietStepSteady(g, a);
      hide Step, Floored;
      SteadyFloors(g, Step(g, a));
  }

  /** Trailing never takes the stop to the wrong side of where it was placed, even
      when several modifies race each other to the broker. */
  lemma {:induction false} NeverBelowPlacedStop(plan: Plan, actions: seq<Action>)
    requires Possible(NewGroup(plan), actions) && AllReal(actions) && AllPositive(actions)
    ensures Floored(Run(NewGroup(plan), actions))
    ensures var g := Run(NewGroup(plan), actions);
            g.history.stop.Some? && g.prices.slTrigger > 0.0 ==> NotBehind(plan.side, g.prices.slTrigger, g.history.stop.value)
  {
    PlanKept(plan, actions);
    if actions != [] {
      var n := |actions| - 1;
      NeverBelowPlacedStop(plan, actions[..n]);
      Protection(plan, actions[..n]);
      Lifecycle(plan, actions[..n]);
      StepFloors(Run(NewGroup(plan), actions[..n]), actions[n]);
    }
  }

  // ---- What the prices are for ----

  lemma Sign(x: real, y: real)
    requires y > 0.0
    ensures x > 0.0 <==> x * y > 0.0
    ensures x < 0.0 <==> x * y < 0.0
  {
  }

  /** The recorded profit is positive exactly on the gain side of the fill and
      negative exactly on the loss side; so leaving at the placed stop loses, and at
      the take-profit limit gains. */
  lemma ProfitSide(g: Group, exitPrice: real)
    requires g.partial.filledQty > 0 || g.plan.quantity > 0
    ensures Pnl(g, exitPrice) > 0.0 <==> LossSide(g.plan.side, g.prices.fill, exitPrice)
    ensures Pnl(g, exitPrice) < 0.0 <==> LossSide(g.plan.side, exitPrice, g.prices.fill)
  {
    var qty := if g.partial.filledQty > 0 then g.partial.filledQty else g.plan.quantity;
    Sign(exitPrice - g.prices.fill, qty as real);
    Sign(g.prices.fill - exitPrice, qty as real);
  }

  lemma StopLosesTargetGains(g: Group, partial: bool)
    requires (g.partial.filledQty > 0 || g.plan.quantity > 0) && !PlacementStarts(g, partial).state.Failed?
    ensures var g' := PlacementStarts(g, partial);
            && (g.plan.slPercent > 0.0 ==> Pnl(g', g'.prices.slTrigger) < 0.0)
            && (g.plan.tpPercent > 0.0 ==> Pnl(g', g'.prices.tpLimit) > 0.0)
  {
    hide SLTriggerPrice, SLLimitPrice, TPLimitPrice;
    var g' := PlacementStarts(g, partial);
    ProfitSide(g', g'.prices.slTrigger);
    ProfitSide(g', g'.prices.tpLimit);
    hide Pnl;
  }

  lemma Scaled(x: real, factor: real)
    requires x >= 0.0
    ensures factor <= 1.0 ==> x * factor <= x
    ensures factor >= 1.0 ==> x * factor >= x
  {
  }

  /** The stop's limit never lies before its trigger, so a triggered stop can fill. */
  lemma LimitBeyondTrigger(side: Side, fill: real, pct: real)
    requires fill >= 0.0 && 0.0 <= pct <= 100.0
    ensures if side.Buy? then SLLimitPrice(side, fill, pct) <= SLTriggerPrice(side, fill, pct)
            else SLLimitPrice(side, fill, pct) >= SLTriggerPrice(side, fill, pct)
  {
    hide RoundNSE;
    if side.Buy? {
      NonNegative(fill, 1.0 - pct / 100.0);
      RoundedScaled(fill * (1.0 - pct / 100.0), 1.0 - 0.005);
    } else {
      NonNegative(fill, 1.0 + pct / 100.0);
      RoundedScaled(fill * (1.0 + pct / 100.0), 1.0 + 0.005);
    }
  }

  lemma RoundedScaled(raw: real, factor: real)
    requires raw >= 0.0
    ensures factor <= 1.0 ==> RoundNSE(raw * factor) <= RoundNSE(raw)
    ensures factor >= 1.0 ==> RoundNSE(raw * factor) >= RoundNSE(raw)
  {
    hide RoundNSE;
    Scaled(raw, factor);
    var y := raw * factor;
    RoundBoth(raw, y);
    assert factor <= 1.0 ==> y <= raw;
    assert factor >= 1.0 ==> y >= raw;
  }

  lemma NonNegative(x: real, y: real)
    requires x >= 0.0 && y >= 0.0
    ensures x * y >= 0.0
  {
  }

  lemma RoundBoth(x: real, y: real)
    ensures x <= y ==> RoundNSE(x) <= RoundNSE(y)
    ensures y <= x ==> RoundNSE(y) <= RoundNSE(x)
  {
    if x <= y {
      RoundNSEMonotone(x, y);
    }
    if y <= x {
      RoundNSEMonotone(y, x);
    }
  }
}

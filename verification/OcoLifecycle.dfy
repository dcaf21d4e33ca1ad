/** The lifecycle of an OCO group over every interleaving of its steps. */
module OcoLifecycle {
  import opened Orders
  import opened TickRounding
  import opened TrailingStop
  import opened Oco

  // ---- Lifecycle ----

  function Rank(s: OcoState): nat {
    match s
    case PendingEntry => 0
    case PlacingLegs => 0
    case LegsSubmitted => 1
    case Active => 2
    case SLTriggered => 3
    case TPTriggered => 3
    case _ => 4
  }

  /** Placements started and not finished. */
  function Placing(tasks: multiset<Task>): nat {
    tasks[PlaceLegs(true)] + tasks[PlaceLegs(false)] + tasks[AwaitBroker(true)] + tasks[AwaitBroker(false)]
  }

  ghost predicate PlacedOnce(g: Group) {
    var p, h := Placing(g.tasks), g.history;
    && p <= h.launches <= 1
    && (g.state.PendingEntry? ==> h.launches == 0)
    && (h.launches == 0 ==> g.state.PendingEntry? || g.state.IsTerminal())
    && (p == 1 ==> g.state.PlacingLegs? || g.state.IsTerminal())
    && (g.state.PlacingLegs? ==> p == 1)
  }

  ghost predicate ExitedOnce(g: Group) {
    var h := g.history;
    && (h.exits == [] || (|h.exits| == 1 && Rank(g.state) >= 3 && h.launches == 1 && Placing(g.tasks) == 0))
    && (g.state.SLTriggered? ==> |h.exits| == 1 && h.exits[0].leg == SLLeg)
    && (g.state.TPTriggered? ==> |h.exits| == 1 && h.exits[0].leg == TPLeg)
    && h.pnlWrites <= |h.exits|
    && (h.exits != [] && h.exits[0].otherId != "" ==> h.exits[0].otherId in h.cancels)
  }

  ghost predicate TimedOutOnce(g: Group) {
    var h := g.history;
    && h.timeouts <= 1 && h.remainderCancels + g.tasks[CancelRemaining] <= h.timeouts
    && (g.plan.entryId != "" ==> h.remainderCancels + g.tasks[CancelRemaining] == h.timeouts)
    && (h.entryFilled ==> h.entryClosed && h.timeouts == 0)
    && (g.partial.waiting ==> h.launches == 1 && h.timeouts == 0 && !h.entryClosed)
    && (h.launches == 0 ==> h.timeouts == 0)
    && (g.state.PendingEntry? ==> !h.entryClosed)
  }

  ghost predicate Invariant(g: Group) {
    PlacedOnce(g) && ExitedOnce(g) && TimedOutOnce(g)
  }

  predicate IsPlacement(t: Task) {
    t.PlaceLegs? || t.AwaitBroker?
  }

  /** How starting or finishing a task changes the counts the invariant reads. */
  lemma TaskCounts(tasks: multiset<Task>, t: Task)
    ensures Placing(tasks + multiset{t}) == Placing(tasks) + if IsPlacement(t) then 1 else 0
    ensures (tasks + multiset{t})[CancelRemaining] == tasks[CancelRemaining] + if t == CancelRemaining then 1 else 0
    ensures t in tasks ==> Placing(tasks - multiset{t}) == Placing(tasks) - if IsPlacement(t) then 1 else 0
    ensures t in tasks ==> (tasks - multiset{t})[CancelRemaining] == tasks[CancelRemaining] - if t == CancelRemaining then 1 else 0
  {
  }

  lemma EntryFilledKeeps(g: Group, o: Order)
    requires Invariant(g) && !g.state.IsTerminal()
    ensures Invariant(EntryFilled(g, o))
  {
    hide FillPrice, Placing;
    TaskCounts(g.tasks, ModifyLegs(g.plan.quantity));
    TaskCounts(g.tasks, PlaceLegs(false));
  }

  lemma EntryPartlyFilledKeeps(g: Group, o: Order)
    requires Invariant(g) && !g.state.IsTerminal()
    ensures Invariant(EntryPartlyFilled(g, o))
  {
    hide FillPrice, Placing;
    TaskCounts(g.tasks, ModifyLegs(o.filledQty));
    TaskCounts(g.tasks, PlaceLegs(true));
  }

  lemma EntryClosedKeeps(g: Group)
    requires Invariant(g) && !g.state.IsTerminal()
    ensures Invariant(EntryClosed(g))
  {
    hide Placing;
    TaskCounts(g.tasks, Cleanup);
  }

  lemma EntryKeeps(g: Group, o: Order, status: Status)
    requires Invariant(g) && !g.state.IsTerminal()
    ensures Invariant(EntryUpdate(g, o, status))
  {
    hide Invariant, EntryFilled, EntryPartlyFilled, EntryClosed;
    EntryFilledKeeps(g, o);
    EntryPartlyFilledKeeps(g, o);
    EntryClosedKeeps(g);
  }

  lemma LegExitKeeps(g: Group, leg: Role, id: BrokerId, price: Option<real>)
    requires Invariant(g) && g.state.Watching() && (leg.SLLeg? || leg.TPLeg?)
    ensures Invariant(QueueCancel(LegExit(g, leg, if leg.SLLeg? then SLTriggered else TPTriggered, id, price), id))
    ensures id == "" ==> Invariant(LegExit(g, leg, Completed, id, price))
  {
    hide Pnl, Placing;
    TaskCounts(g.tasks, CancelLeg(id));
  }

  lemma LegLostKeeps(g: Group, state: OcoState, id: BrokerId)
    requires Invariant(g) && !g.state.IsTerminal() && state.IsTerminal()
    ensures Invariant(Launch(QueueCancel(g.(state := state), id), Cleanup))
  {
    hide Placing;
    TaskCounts(g.tasks, CancelLeg(id));
    TaskCounts(g.tasks + multiset{CancelLeg(id)}, Cleanup);
  }

  lemma SLLegKeeps(g: Group, o: Order, status: Status)
    requires Invariant(g) && !g.state.IsTerminal()
    ensures Invariant(SLLegUpdate(g, o, status))
  {
    LegLostKeeps(g, Failed, g.tp.id);
    LegLostKeeps(g, Cancelled, g.tp.id);
    if g.state.Watching() {
      LegExitKeeps(g, SLLeg, g.tp.id, None);
      LegExitKeeps(g, SLLeg, g.tp.id, o.filledPrice);
    }
    hide Launch, QueueCancel, LegExit, Placing;
  }

  lemma TPLegKeeps(g: Group, o: Order, status: Status)
    requires Invariant(g) && !g.state.IsTerminal()
    ensures Invariant(TPLegUpdate(g, o, status))
  {
    LegLostKeeps(g, Cancelled, g.sl.id);
    if g.state.Watching() {
      LegExitKeeps(g, TPLeg, g.sl.id, None);
      LegExitKeeps(g, TPLeg, g.sl.id, o.filledPrice);
    }
    hide Launch, QueueCancel, LegExit, Placing;
  }

  lemma UpdateKeeps(g: Group, o: Order, status: Status)
    requires Invariant(g)
    ensures Invariant(BrokerUpdate(g, o, status))
  {
    hide EntryUpdate, SLLegUpdate, TPLegUpdate;
    if !g.state.IsTerminal() {
      EntryKeeps(g, o, status);
      SLLegKeeps(g, o, status);
      TPLegKeeps(g, o, status);
      assert Invariant(Backfilled(g, o));
      SLLegKeeps(Backfilled(g, o), o, status);
      TPLegKeeps(Backfilled(g, o), o, status);
      hide Invariant;
    }
  }

  lemma PlacementStartKeeps(g: Group, partial: bool)
    requires Invariant(g) && PlaceLegs(partial) in g.tasks
    ensures Invariant(PlacementStarts(g, partial))
  {
    var tasks := g.tasks - multiset{PlaceLegs(partial)};
    TaskCounts(g.tasks, PlaceLegs(partial));
    TaskCounts(tasks, AfterPlacement);
    TaskCounts(tasks, AwaitBroker(partial));
    hide Placeable, LegPrices, Placing;
  }

  /** Between the broker's answers and the state they lead to. */
  ghost predicate Answered(g: Group) {
    && Placing(g.tasks) == 0 && g.history.launches == 1 && g.history.exits == [] && g.history.pnlWrites == 0
    && (g.state.PlacingLegs? || g.state.IsTerminal()) && TimedOutOnce(g)
  }

  lemma PlacementOutcomeKeeps(g: Group, sl: Option<BrokerId>, tp: Option<BrokerId>)
    requires Answered(g)
    ensures Invariant(PlacementOutcome(g, sl, tp))
  {
    TaskCounts(g.tasks, Cleanup);
    TaskCounts(g.tasks, CancelLeg(Placed(g.plan.tpPercent > 0.0, tp)));
    hide Recorded, Placing, Placed;
  }

  lemma PlacementOverKeeps(g: Group, partial: bool)
    requires Invariant(g)
    ensures Invariant(PlacementOver(g, partial))
  {
    TaskCounts(g.tasks, AfterPlacement);
    hide Placing;
  }

  lemma PlacementEndKeeps(g: Group, partial: bool, sl: Option<BrokerId>, tp: Option<BrokerId>)
    requires Invariant(g) && AwaitBroker(partial) in g.tasks
    ensures Invariant(PlacementEnds(g, partial, sl, tp))
  {
    TaskCounts(g.tasks, AwaitBroker(partial));
    assert Placing(g.tasks) >= 1;
    hide Placing;
    assert Answered(Done(g, AwaitBroker(partial)));
    PlacementOutcomeKeeps(Done(g, AwaitBroker(partial)), sl, tp);
    hide Invariant, PlacementOutcome;
    PlacementOverKeeps(PlacementOutcome(Done(g, AwaitBroker(partial)), sl, tp), partial);
  }

  /** Tasks the invariant does not count. */
  predicate Quiet(t: Task) {
    !IsPlacement(t) && t != CancelRemaining
  }

  lemma QuietKeeps(g: Group, t: Task)
    requires Invariant(g) && Quiet(t)
    ensures Invariant(Launch(g, t))
    ensures t in g.tasks ==> Invariant(Done(g, t))
  {
    TaskCounts(g.tasks, t);
    hide Placing;
  }

  /** Fields the invariant does not read, and a terminal state. */
  lemma QuietUpdates(g: Group, state: OcoState, prices: Prices, partial: Partial)
    requires Invariant(g)
    ensures state.IsTerminal() ==> Invariant(g.(state := state))
    ensures Invariant(g.(prices := prices))
    ensures partial.waiting == g.partial.waiting ==> Invariant(g.(partial := partial))
  {
    hide Placing;
  }

  lemma TimerStartKeeps(g: Group, a: Action)
    requires Invariant(g) && Enabled(g, a) && (a.EndPartialPlacement? || a.BeginTimer? || a.StopTimer?)
    ensures Invariant(Step(g, a))
  {
    hide Launch, Done, Invariant;
    if a.EndPartialPlacement? {
      QuietKeeps(g, AfterPlacement);
      var p := g.partial.(timerStarted := true);
      QuietUpdates(Done(g, AfterPlacement), Failed, g.prices, p);
      DoneKeepsFields(g, AfterPlacement);
      QuietKeeps(Done(g, AfterPlacement).(partial := p), StartTimer);
    } else if a.BeginTimer? {
      QuietKeeps(g, StartTimer);
      var p := g.partial.(timerArmed := true);
      DoneKeepsFields(g, StartTimer);
      QuietUpdates(Done(g, StartTimer), Failed, g.prices, p);
      QuietKeeps(Done(g, StartTimer).(partial := p), Timer);
    } else {
      QuietKeeps(g, Timer);
    }
  }

  lemma DoneKeepsFields(g: Group, t: Task)
    ensures Done(g, t).partial == g.partial && Done(g, t).prices == g.prices && Done(g, t).state == g.state
  {
  }

  lemma FireKeeps(g: Group)
    requires Invariant(g) && Timer in g.tasks
    ensures Invariant(TimerFires(g))
  {
    QuietKeeps(g, Timer);
    TaskCounts(Done(g, Timer).tasks, CancelRemaining);
    hide Placing;
  }

  lemma RemainderKeeps(g: Group)
    requires Invariant(g) && CancelRemaining in g.tasks
    ensures Invariant(RemainderCancelled(g))
  {
    TaskCounts(g.tasks, CancelRemaining);
    hide Placing;
  }

  lemma QueueKeeps(g: Group, id: BrokerId)
    requires Invariant(g)
    ensures Invariant(QueueCancel(g, id))
  {
    QuietKeeps(g, CancelLeg(id));
    hide Placing;
  }

  lemma UserCancelKeeps(g: Group)
    requires Invariant(g)
    ensures Invariant(UserCancels(g))
  {
    hide Invariant, QueueCancel, Launch;
    if !g.state.IsTerminal() {
      QueueKeeps(g, g.plan.entryId);
      var g1 := if g.state == PendingEntry && g.plan.entryId != "" then QueueCancel(g, g.plan.entryId) else g;
      QueueKeeps(g1, g.sl.id);
      var g2 := if g.state.Watching() && g.sl.id != "" then QueueCancel(g1, g.sl.id) else g1;
      QueueKeeps(g2, g.tp.id);
      var g3 := if g.state.Watching() && g.tp.id != "" then QueueCancel(g2, g.tp.id) else g2;
      QuietUpdates(g3, Cancelled, g3.prices, g3.partial);
      QuietKeeps(g3.(state := Cancelled), Cleanup);
    }
  }

  lemma TrailKeeps(g: Group, ltp: real)
    requires Invariant(g)
    ensures Invariant(Trailed(g, ltp))
  {
    hide Invariant, TrailedLimit, Launch;
    if CalculateTrailingSL(StopView(g), ltp).Some? {
      assert g.prices.highest > 0.0;
      hide CalculateTrailingSL;
      QuietKeeps(g, ModifySL(CalculateTrailingSL(StopView(g), ltp).value, TrailedLimit(g, ltp), ltp));
    }
  }

  lemma TaskEndKeeps(g: Group, a: Action)
    requires Invariant(g) && Enabled(g, a) && (a.FinishCancel? || a.FinishModify? || a.FinishTrail? || a.CleanUp?)
    ensures Invariant(Step(g, a))
  {
    hide Invariant, Done;
    match a
    case FinishCancel(id) =>
      QuietKeeps(g, CancelLeg(id));
      QuietUpdates(Done(g, CancelLeg(id)), Completed, g.prices, g.partial);
    case FinishModify(qty) =>
      DoneKeepsFields(g, ModifyLegs(qty));
      QuietKeeps(g, ModifyLegs(qty));
      QuietUpdates(Done(g, ModifyLegs(qty)), Failed, g.prices, g.partial.(filledQty := qty));
    case FinishTrail(trigger, limit, highest, _) =>
      var t := ModifySL(trigger, limit, highest);
      DoneKeepsFields(g, t);
      QuietKeeps(g, t);
      var high := if highest > 0.0 then highest else g.prices.highest;
      QuietUpdates(Done(g, t), Failed, g.prices.(slTrigger := trigger, slLimit := limit, highest := high), g.partial);
    case CleanUp => QuietKeeps(g, Cleanup);
  }

  lemma StepKeeps(g: Group, a: Action)
    requires Invariant(g) && Enabled(g, a)
    ensures Invariant(Step(g, a))
  {
    hide Invariant;
    match a
    case Update(o, status) => UpdateKeeps(g, o, status);
    case BeginPlacement(partial) => PlacementStartKeeps(g, partial);
    case EndPlacement(partial, sl, tp) => PlacementEndKeeps(g, partial, sl, tp);
    case UserCancel => UserCancelKeeps(g);
    case Trail(ltp) => TrailKeeps(g, ltp);
    case _ =>
      if a.FinishCancel? || a.FinishModify? || a.FinishTrail? || a.CleanUp? {
        TaskEndKeeps(g, a);
      } else if a.FireTimer? {
        FireKeeps(g);
      } else if a.CancelRemainder? {
        RemainderKeeps(g);
      } else {
        TimerStartKeeps(g, a);
      }
  }

  lemma StartHolds(plan: Plan)
    ensures Invariant(NewGroup(plan))
  {
  }

  /** In every run the legs are placed at most once, at most one leg's execution is
      acted on, the profit is written at most once, and the remainder of the entry
      is cancelled by the timer at most once. */
  lemma {:induction false} Lifecycle(plan: Plan, actions: seq<Action>)
    requires Possible(NewGroup(plan), actions)
    ensures Invariant(Run(NewGroup(plan), actions))
    ensures var h := Run(NewGroup(plan), actions).history;
            h.launches <= 1 && |h.exits| <= 1 && h.pnlWrites <= |h.exits| && h.timeouts <= 1 && h.remainderCancels <= h.timeouts
  {
    if actions == [] {
      StartHolds(plan);
    } else {
      Lifecycle(plan, actions[..|actions| - 1]);
      StepKeeps(Run(NewGroup(plan), actions[..|actions| - 1]), actions[|actions| - 1]);
    }
  }

  // ---- Monotonicity once no placement is outstanding ----

  /** No placement is outstanding and none can start any more. */
  predicate Settled(g: Group) {
    Placing(g.tasks) == 0 && g.state != PendingEntry
  }

  /** `g'` may follow `g` in a run without a placement ending in between. */
  ghost predicate Onward(g: Group, g': Group) {
    && Rank(g'.state) >= Rank(g.state)
    && (Settled(g) ==> Settled(g'))
    && (g.history.entryClosed ==> g'.history.entryClosed && g'.history.timeouts == g.history.timeouts)
    && g.history.exits <= g'.history.exits
  }

  lemma LaunchOnward(g: Group, t: Task)
    requires Quiet(t)
    ensures Onward(g, Launch(g, t)) && (t in g.tasks ==> Onward(g, Done(g, t)))
    ensures t.CancelLeg? ==> Onward(g, QueueCancel(g, t.id))
  {
    TaskCounts(g.tasks, t);
    hide Placing;
  }

  lemma OnwardTransitive(a: Group, b: Group, c: Group)
    requires Onward(a, b) && Onward(b, c)
    ensures Onward(a, c)
  {
    hide Settled;
  }

  lemma EntryOnward(g: Group, o: Order, status: Status)
    requires Invariant(g) && !g.state.IsTerminal()
    ensures Onward(g, EntryUpdate(g, o, status))
  {
    hide FillPrice, Placing, ExitedOnce;
    TaskCounts(g.tasks, ModifyLegs(g.plan.quantity));
    TaskCounts(g.tasks, ModifyLegs(o.filledQty));
    TaskCounts(g.tasks, Cleanup);
  }

  lemma LegExitOnward(g: Group, leg: Role, state: OcoState, id: BrokerId, price: Option<real>)
    requires Rank(state) >= Rank(g.state) && state != PendingEntry
    ensures Onward(g, LegExit(g, leg, state, id, price)) && Onward(g, QueueCancel(LegExit(g, leg, state, id, price), id))
  {
    hide Pnl, Placing;
    LaunchOnward(LegExit(g, leg, state, id, price), CancelLeg(id));
  }

  lemma LegLostOnward(g: Group, state: OcoState, id: BrokerId)
    requires state.IsTerminal()
    ensures Onward(g, Launch(QueueCancel(g.(state := state), id), Cleanup))
  {
    hide Launch, QueueCancel, Placing;
    LaunchOnward(g.(state := state), CancelLeg(id));
    LaunchOnward(QueueCancel(g.(state := state), id), Cleanup);
    OnwardTransitive(g.(state := state), QueueCancel(g.(state := state), id), Launch(QueueCancel(g.(state := state), id), Cleanup));
  }

  lemma ConfirmOnward(g: Group, g': Group)
    requires g' == g.(sl := g'.sl, tp := g'.tp)
    ensures Onward(g, CheckLegsConfirmed(g'))
  {
    hide Placing;
  }

  lemma SLLegOnward(g: Group, o: Order, status: Status)
    requires !g.state.IsTerminal()
    ensures Onward(g, SLLegUpdate(g, o, status))
  {
    LegLostOnward(g, Failed, g.tp.id);
    LegLostOnward(g, Cancelled, g.tp.id);
    if g.state.Watching() {
      LegExitOnward(g, SLLeg, SLTriggered, g.tp.id, None);
      LegExitOnward(g, SLLeg, SLTriggered, g.tp.id, o.filledPrice);
      LegExitOnward(g, SLLeg, Completed, g.tp.id, o.filledPrice);
    }
    ConfirmOnward(g, g.(sl := g.sl.(confirmed := true)));
    assert Onward(g, g);
    hide Launch, QueueCancel, LegExit, Onward, CheckLegsConfirmed;
  }

  lemma TPLegOnward(g: Group, o: Order, status: Status)
    requires !g.state.IsTerminal()
    ensures Onward(g, TPLegUpdate(g, o, status))
  {
    LegLostOnward(g, Cancelled, g.sl.id);
    if g.state.Watching() {
      LegExitOnward(g, TPLeg, TPTriggered, g.sl.id, None);
      LegExitOnward(g, TPLeg, TPTriggered, g.sl.id, o.filledPrice);
      LegExitOnward(g, TPLeg, Completed, g.sl.id, o.filledPrice);
    }
    ConfirmOnward(g, g.(tp := g.tp.(confirmed := true)));
    assert Onward(g, g);
    hide Launch, QueueCancel, LegExit, Onward, CheckLegsConfirmed;
  }

  lemma UpdateOnward(g: Group, o: Order, status: Status)
    requires Invariant(g)
    ensures Onward(g, BrokerUpdate(g, o, status))
  {
    hide EntryUpdate, SLLegUpdate, TPLegUpdate, Invariant;
    if !g.state.IsTerminal() {
      EntryOnward(g, o, status);
      SLLegOnward(g, o, status);
      TPLegOnward(g, o, status);
      var b := Backfilled(g, o);
      assert Onward(g, b) by { hide Placing; }
      hide Onward;
      SLLegOnward(b, o, status);
      TPLegOnward(b, o, status);
      OnwardTransitive(g, b, SLLegUpdate(b, o, status));
      OnwardTransitive(g, b, TPLegUpdate(b, o, status));
    }
  }

  lemma PlacementStartOnward(g: Group, partial: bool)
    requires Invariant(g) && PlaceLegs(partial) in g.tasks
    ensures Onward(g, PlacementStarts(g, partial))
  {
    assert !Settled(g);
    hide Placeable, LegPrices, Placing, Settled;
  }

  lemma TimerStartOnward(g: Group, a: Action)
    requires Enabled(g, a) && (a.EndPartialPlacement? || a.BeginTimer? || a.StopTimer?)
    ensures Onward(g, Step(g, a))
  {
    hide Placing;
    match a
    case EndPartialPlacement =>
      LaunchOnward(g, AfterPlacement);
      var g1 := Done(g, AfterPlacement).(partial := g.partial.(timerStarted := true));
      assert Onward(g, g1);
      hide Onward;
      LaunchOnward(g1, StartTimer);
      OnwardTransitive(g, g1, Launch(g1, StartTimer));
    case BeginTimer =>
      LaunchOnward(g, StartTimer);
      var g1 := Done(g, StartTimer).(partial := g.partial.(timerArmed := true));
      assert Onward(g, g1);
      hide Onward;
      LaunchOnward(g1, Timer);
      OnwardTransitive(g, g1, Launch(g1, Timer));
    case StopTimer => LaunchOnward(g, Timer);
    case _ =>
  }

  lemma FireOnward(g: Group)
    requires Invariant(g) && Timer in g.tasks
    ensures Onward(g, TimerFires(g))
  {
    LaunchOnward(g, Timer);
    TaskCounts(Done(g, Timer).tasks, CancelRemaining);
    hide Placing, PlacedOnce, ExitedOnce;
  }

  lemma RemainderOnward(g: Group)
    requires CancelRemaining in g.tasks
    ensures Onward(g, RemainderCancelled(g))
  {
    TaskCounts(g.tasks, CancelRemaining);
    hide Placing;
  }

  lemma UserCancelOnward(g: Group)
    ensures Onward(g, UserCancels(g))
  {
    hide QueueCancel, Launch;
    assert Onward(g, g);
    hide Onward;
    if !g.state.IsTerminal() {
      LaunchOnward(g, CancelLeg(g.plan.entryId));
      var g1 := if g.state == PendingEntry && g.plan.entryId != "" then QueueCancel(g, g.plan.entryId) else g;
      LaunchOnward(g1, CancelLeg(g.sl.id));
      var g2 := if g.state.Watching() && g.sl.id != "" then QueueCancel(g1, g.sl.id) else g1;
      LaunchOnward(g2, CancelLeg(g.tp.id));
      var g3 := if g.state.Watching() && g.tp.id != "" then QueueCancel(g2, g.tp.id) else g2;
      EndOnward(g, g1, g2, g3);
    }
  }

  lemma EndOnward(g: Group, g1: Group, g2: Group, g3: Group)
    requires (g1 == g || Onward(g, g1)) && (g2 == g1 || Onward(g1, g2)) && (g3 == g2 || Onward(g2, g3))
    ensures Onward(g, Launch(g3.(state := Cancelled), Cleanup))
  {
    hide Launch, Placing;
    LaunchOnward(g3.(state := Cancelled), Cleanup);
  }

  function Finished(a: Action): Task {
    match a
    case FinishCancel(id) => CancelLeg(id)
    case FinishModify(qty) => ModifyLegs(qty)
    case FinishTrail(trigger, limit, highest, _) => ModifySL(trigger, limit, highest)
    case _ => Cleanup
  }

  lemma TaskEndFields(g: Group, a: Action)
    requires a.FinishCancel? || a.FinishModify? || a.FinishTrail? || a.CleanUp?
    ensures var d, g' := Done(g, Finished(a)), Step(g, a);
            && d.state == g.state && d.history == g.history
            && g'.tasks == d.tasks && g'.history == d.history && (g'.state == d.state || g'.state.IsTerminal())
  {
  }

  lemma TaskEndOnward(g: Group, a: Action)
    requires Enabled(g, a) && (a.FinishCancel? || a.FinishModify? || a.FinishTrail? || a.CleanUp?)
    ensures Onward(g, Step(g, a))
  {
    hide Onward, Done, Step;
    TaskEndFields(g, a);
    LaunchOnward(g, Finished(a));
    SameOnward(g, Done(g, Finished(a)), Step(g, a));
  }

  lemma SameOnward(g: Group, d: Group, g': Group)
    requires Onward(g, d) && d.state == g.state && d.history == g.history
    requires g'.tasks == d.tasks && g'.history == d.history && (g'.state == d.state || g'.state.IsTerminal())
    ensures Onward(g, g')
  {
    hide Placing;
  }

  lemma TrailOnward(g: Group, ltp: real)
    ensures Onward(g, Trailed(g, ltp))
  {
    hide TrailedLimit, Launch, Placing;
    if CalculateTrailingSL(StopView(g), ltp).Some? {
      assert g.prices.highest > 0.0;
      hide CalculateTrailingSL;
      LaunchOnward(g, ModifySL(CalculateTrailingSL(StopView(g), ltp).value, TrailedLimit(g, ltp), ltp));
    }
  }

  /** Only the end of a placement can take a group back to an earlier stage. */
  lemma StepOnward(g: Group, a: Action)
    requires Invariant(g) && Enabled(g, a) && !a.EndPlacement?
    ensures Onward(g, Step(g, a))
  {
    hide Invariant, Onward;
    match a
    case Update(o, status) => UpdateOnward(g, o, status);
    case BeginPlacement(partial) => PlacementStartOnward(g, partial);
    case UserCancel => UserCancelOnward(g);
    case Trail(ltp) => TrailOnward(g, ltp);
    case FireTimer => FireOnward(g);
    case CancelRemainder => RemainderOnward(g);
    case _ =>
      if a.FinishCancel? || a.FinishModify? || a.FinishTrail? || a.CleanUp? {
        TaskEndOnward(g, a);
      } else {
        TimerStartOnward(g, a);
      }
  }

  lemma PlacementEndOnward(g: Group, partial: bool, sl: Option<BrokerId>, tp: Option<BrokerId>)
    ensures var h, h' := g.history, PlacementEnds(g, partial, sl, tp).history;
            h'.entryClosed == h.entryClosed && h'.timeouts == h.timeouts && h'.exits == h.exits
  {
    hide Placed, Recorded;
  }

  /** Where no placement is outstanding, no later step takes the group to an
      earlier stage; so a terminal group stays terminal (its label may change). */
  lemma {:induction false} NoWayBack(g: Group, actions: seq<Action>)
    requires Invariant(g) && Possible(g, actions) && Placing(g.tasks) == 0
    ensures Invariant(Run(g, actions)) && Rank(Run(g, actions).state) >= Rank(g.state)
    ensures Settled(g) ==> Settled(Run(g, actions))
    ensures g.state.IsTerminal() ==> Run(g, actions).state.IsTerminal()
  {
    if actions != [] {
      var n := |actions| - 1;
      var before := Run(g, actions[..n]);
      NoWayBack(g, actions[..n]);
      StepKeeps(before, actions[n]);
      hide Enabled, Step;
      if Settled(g) {
        if actions[n].EndPlacement? {
          NoneToEnd(before, actions[n]);
        } else {
          StepOnward(before, actions[n]);
        }
      }
    }
  }

  lemma NoneToEnd(g: Group, a: Action)
    requires Settled(g)
    ensures !(a.EndPlacement? && Enabled(g, a))
  {
  }

  /** Once a full fill or a cancellation of the entry has been acted on, the timer
      never decides to cancel the remainder; and an exit, once taken, is the group's
      exit for the rest of the run. */
  lemma {:induction false} ClosedForGood(g: Group, actions: seq<Action>)
    requires Invariant(g) && Possible(g, actions)
    ensures Invariant(Run(g, actions))
    ensures g.history.entryClosed ==> Run(g, actions).history.entryClosed && Run(g, actions).history.timeouts == g.history.timeouts
    ensures g.history.exits <= Run(g, actions).history.exits
  {
    if actions != [] {
      var n := |actions| - 1;
      var before, a := Run(g, actions[..n]), actions[n];
      ClosedForGood(g, actions[..n]);
      StepKeeps(before, a);
      hide Invariant, Settled;
      if a.EndPlacement? {
        PlacementEndOnward(before, a.partial, a.sl, a.tp);
      } else {
        StepOnward(before, a);
      }
    }
  }

  /** When requests to cancel the remainder can still go out after the entry is closed:
      exactly while the timer's request is already outstanding. */
  lemma RemainderGrowsIff(g: Group)
    requires Invariant(g) && g.history.entryClosed && g.plan.entryId != ""
    ensures (exists actions :: Possible(g, actions) && Run(g, actions).history.remainderCancels > g.history.remainderCancels)
              <==> CancelRemaining in g.tasks
  {
    forall actions | Possible(g, actions) ensures Run(g, actions).history.remainderCancels <= g.history.remainderCancels + g.tasks[CancelRemaining] {
      ClosedForGood(g, actions);
      RequestsBounded(Run(g, actions));
      hide Invariant, Run, Possible;
      RequestsCounted(g);
    }
    if CancelRemaining in g.tasks {
      OneStep(g, CancelRemainder);
    }
    hide Run, Possible, Invariant;
  }

  lemma RequestsBounded(g: Group)
    requires Invariant(g)
    ensures g.history.remainderCancels <= g.history.timeouts
  {
  }

  lemma RequestsCounted(g: Group)
    requires Invariant(g) && g.plan.entryId != ""
    ensures g.history.timeouts == g.history.remainderCancels + g.tasks[CancelRemaining]
  {
  }

  lemma OneStep(g: Group, a: Action)
    requires Enabled(g, a)
    ensures Possible(g, [a]) && Run(g, [a]) == Step(g, a)
  {
    assert [a][..0] == [];
    hide Enabled, Step;
  }

  /** Around a processed full fill no request ever goes out: none was made or decided
      before it, and none is made in any run after it. */
  lemma FullFillNeverCancelled(g: Group, actions: seq<Action>)
    requires Invariant(g) && g.history.entryFilled && Possible(g, actions)
    ensures g.history.remainderCancels == 0 && CancelRemaining !in g.tasks
    ensures Run(g, actions).history.timeouts == 0 && Run(g, actions).history.remainderCancels == 0
    ensures CancelRemaining !in Run(g, actions).tasks
  {
    ClosedForGood(g, actions);
    hide Run, Possible, PlacedOnce, ExitedOnce;
  }

  /** Exactly when a terminal group comes back to life: a placement that was still
      with the broker ends without losing the stop-loss leg. */
  lemma TerminalLeftIff(g: Group, a: Action)
    requires Invariant(g) && Enabled(g, a) && g.state.IsTerminal()
    ensures Step(g, a).state.IsTerminal() <==> !a.EndPlacement? || (g.plan.slPercent > 0.0 && a.sl.None?)
  {
    if !a.EndPlacement? {
      hide Invariant, Step;
      StepOnward(g, a);
    } else {
      hide Invariant, Recorded, Placed;
    }
  }

  // ---- Acting on a leg's execution ----

  /** The leg an order's event is routed to. */
  function RoutedTo(g: Group, o: Order): Option<Role> {
    if o.id == g.plan.entryId then Some(Entry)
    else if o.id == g.sl.id then Some(SLLeg)
    else if o.id == g.tp.id then Some(TPLeg)
    else if o.role == Some(Entry) then None
    else o.role
  }

  function OtherLeg(g: Group, leg: Role): BrokerId {
    if leg.SLLeg? then g.tp.id else g.sl.id
  }

  predicate LegExecution(g: Group, o: Order, status: Status) {
    && g.state.Watching() && (status.Executed? || status.PartlyFilled?)
    && (RoutedTo(g, o) == Some(SLLeg) || RoutedTo(g, o) == Some(TPLeg))
  }

  /** `g'` has taken the exit by `leg`, and queued the other leg's cancellation. */
  predicate ExitTaken(g: Group, leg: Role, g': Group) {
    && g'.history.exits == g.history.exits + [Exit(leg, OtherLeg(g, leg))]
    && (OtherLeg(g, leg) != "" ==> CancelLeg(OtherLeg(g, leg)) in g'.tasks)
  }

  /** An exit is taken exactly when an event reports an execution, full or partial,
      of a leg being watched; the same step queues the cancellation of the other leg
      whenever that leg has a broker id. */
  lemma ExitCancelsOther(g: Group, o: Order, status: Status)
    ensures if LegExecution(g, o, status) then ExitTaken(g, RoutedTo(g, o).value, BrokerUpdate(g, o, status))
            else BrokerUpdate(g, o, status).history.exits == g.history.exits
  {
    var b := Backfilled(g, o);
    NoExitOnEntry(g, o, status);
    LegExits(g, o, status);
    LegExits(b, o, status);
    if g.state.Watching() {
      ExitOfBackfilled(g, o, SLLegUpdate(b, o, status));
      ExitOfBackfilled(g, o, TPLegUpdate(b, o, status));
    }
    hide EntryUpdate, SLLegUpdate, TPLegUpdate, ExitTaken;
  }

  lemma NoExitOnEntry(g: Group, o: Order, status: Status)
    ensures EntryUpdate(g, o, status).history.exits == g.history.exits
  {
    hide FillPrice;
  }

  lemma LegExits(g: Group, o: Order, status: Status)
    ensures var exits := g.state.Watching() && (status.Executed? || status.PartlyFilled?);
            && (if exits then ExitTaken(g, SLLeg, SLLegUpdate(g, o, status))
                else SLLegUpdate(g, o, status).history.exits == g.history.exits)
            && (if exits then ExitTaken(g, TPLeg, TPLegUpdate(g, o, status))
                else TPLegUpdate(g, o, status).history.exits == g.history.exits)
  {
    hide Pnl;
  }

  /** Recording a leg's own id does not change which leg is the other one. */
  lemma ExitOfBackfilled(g: Group, o: Order, g': Group)
    ensures o.role == Some(SLLeg) && ExitTaken(Backfilled(g, o), SLLeg, g') ==> ExitTaken(g, SLLeg, g')
    ensures o.role == Some(TPLeg) && ExitTaken(Backfilled(g, o), TPLeg, g') ==> ExitTaken(g, TPLeg, g')
  {
  }

  // ---- The entry's remainder ----

  /** A cancelled or rejected entry leaves the group as it was exactly when the
      manager still waits for the rest of a partial fill. */
  lemma EntryCloseKeepsGroupIff(g: Group, o: Order, status: Status)
    requires !g.state.IsTerminal() && o.id == g.plan.entryId && (status.CancelledByBroker? || status.Rejected?)
    ensures BrokerUpdate(g, o, status).state == g.state <==> g.partial.waiting
    ensures !g.partial.waiting ==> BrokerUpdate(g, o, status).state == Failed
  {
  }

  /** So the broker's acknowledgement of the timer's own cancellation always fails
      the group, and queues no cancellation of the legs. */
  lemma TimeoutAckFailsGroup(g: Group, o: Order)
    requires Invariant(g) && !g.state.IsTerminal() && g.history.timeouts == 1 && o.id == g.plan.entryId
    ensures var g' := BrokerUpdate(g, o, CancelledByBroker);
            g'.state == Failed && g'.tasks == g.tasks + multiset{Cleanup} && g'.sl == g.sl && g'.tp == g.tp
  {
  }
}

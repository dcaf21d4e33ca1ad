/** The OCO manager as it runs: group objects updated in place by handlers and
    background tasks, a map of registered groups and the broker-id index.

    Each method is one critical section and is proved against the step of Oco or
    OcoRegistry it performs.
 */
module OcoManager {
  import opened Orders
  import opened TickRounding
  import opened TrailingStop
  import opened Oco
  import opened OcoRegistry

  lemma CompletedExit(g: Group, leg: Role, state: OcoState, otherId: BrokerId, price: Option<real>)
    ensures LegExit(g, leg, state, otherId, price).(state := Completed) == LegExit(g, leg, Completed, otherId, price)
  {
    hide Pnl;
  }

  class OcoGroup {
    const id: GroupId
    const plan: Plan
    var state: OcoState
    var slId: BrokerId
    var slConfirmed: bool
    var tpId: BrokerId
    var tpConfirmed: bool
    var fillPrice: real
    var highestPrice: real
    var slTrigger: real
    var slLimit: real
    var tpLimit: real
    var filledQty: int
    var partialActive: bool
    var timerStarted: bool
    var timerArmed: bool
    var timerStopped: bool
    var pnl: real
    var tasks: multiset<Task>
    ghost var history: History

    constructor (id: GroupId, plan: Plan)
      ensures View() == NewGroup(plan) && this.id == id
    {
      this.id, this.plan := id, plan;
      state := PendingEntry;
      slId, slConfirmed, tpId, tpConfirmed := "", false, "", false;
      fillPrice, highestPrice, slTrigger, slLimit, tpLimit := 0.0, 0.0, 0.0, 0.0, 0.0;
      filledQty, partialActive, timerStarted, timerArmed, timerStopped := 0, false, false, false, false;
      pnl, tasks, history := 0.0, multiset{}, NoHistory();
    }

    ghost function View(): Group
      reads this
    {
      Group(state, plan, Leg(slId, slConfirmed), Leg(tpId, tpConfirmed),
            Prices(fillPrice, highestPrice, slTrigger, slLimit, tpLimit),
            Partial(filledQty, partialActive, timerStarted, timerArmed, timerStopped), pnl, tasks, history)
    }

    method Start(t: Task)
      modifies this`tasks
      ensures View() == Launch(old(View()), t)
    {
      tasks := tasks + multiset{t};
    }

    method Ended(t: Task)
      modifies this`tasks
      ensures View() == Done(old(View()), t)
    {
      tasks := tasks - multiset{t};
    }

    method StartCancel(id: BrokerId)
      modifies this`tasks, this`history
      ensures View() == QueueCancel(old(View()), id)
    {
      tasks := tasks + multiset{CancelLeg(id)};
      history := history.(cancels := history.cancels + {id});
    }

    /** The wait for the rest of a partial fill is over. */
    method StopWaiting()
      modifies this
      ensures View() == old(View()).(partial := WaitEnded(old(View()).partial))
    {
      if timerArmed {
        timerStopped := true;
        timerArmed := false;
      }
      partialActive := false;
      timerStarted := false;
    }

    method BeginPlacing(price: real)
      modifies this
      ensures View() == old(View()).(state := PlacingLegs, prices := old(View()).prices.(fill := price, highest := price),
                                     history := old(history).(launches := old(history).launches + 1))
    {
      fillPrice := price;
      highestPrice := price;
      state := PlacingLegs;
      history := history.(launches := history.launches + 1);
    }

    method HandleEntryFilled(o: Order)
      modifies this
      ensures View() == EntryFilled(old(View()), o)
    {
      if partialActive {
        history := history.(entryClosed := true, entryFilled := true);
        StopWaiting();
        filledQty := plan.quantity;
        Start(ModifyLegs(plan.quantity));
        return;
      }
      if state != PendingEntry {
        return;
      }
      history := history.(entryClosed := true, entryFilled := true);
      var price := FillPrice(o);
      if price <= 0.0 {
        state := Failed;
        return;
      }
      filledQty := plan.quantity;
      BeginPlacing(price);
      Start(PlaceLegs(false));
    }

    method HandleEntryPartlyFilled(o: Order)
      modifies this
      ensures View() == EntryPartlyFilled(old(View()), o)
    {
      if o.filledQty <= 0 {
        return;
      }
      if state == PendingEntry && !partialActive {
        var price := FillPrice(o);
        if price <= 0.0 {
          return;
        }
        filledQty := o.filledQty;
        partialActive := true;
        BeginPlacing(price);
        Start(PlaceLegs(true));
      } else if partialActive {
        filledQty := o.filledQty;
        Start(ModifyLegs(o.filledQty));
      }
    }

    method HandleEntryClosed()
      modifies this
      ensures View() == EntryClosed(old(View()))
    {
      history := history.(entryClosed := true);
      if partialActive {
        StopWaiting();
        return;
      }
      state := Failed;
      Start(Cleanup);
    }

    method CheckConfirmed()
      modifies this`state
      ensures View() == CheckLegsConfirmed(old(View()))
    {
      if state != LegsSubmitted {
        return;
      }
      var slOK := slConfirmed || slId == "";
      var tpOK := tpConfirmed || tpId == "";
      if slOK && tpOK {
        state := Active;
      }
    }

    /** The profit of an exit at the given price, on the filled quantity. */
    method RecordProfit(price: Option<real>)
      modifies this`pnl, this`history
      ensures View() == old(View()).(pnl := if price.Some? then Pnl(old(View()), price.value) else old(pnl),
                                     history := old(history).(pnlWrites := old(history).pnlWrites + if price.Some? then 1 else 0))
    {
      if price.Some? {
        var qty := plan.quantity;
        if filledQty > 0 {
          qty := filledQty;
        }
        pnl := (if plan.side.Buy? then price.value - fillPrice else fillPrice - price.value) * qty as real;
        history := history.(pnlWrites := history.pnlWrites + 1);
      }
    }

    method ExitBy(leg: Role, next: OcoState, otherId: BrokerId, price: Option<real>)
      modifies this`state, this`pnl, this`history
      ensures View() == LegExit(old(View()), leg, next, otherId, price)
    {
      state := next;
      history := history.(exits := history.exits + [Exit(leg, otherId)]);
      RecordProfit(price);
    }

    method HandleSLLegUpdate(o: Order, status: Status)
      modifies this
      ensures View() == SLLegUpdate(old(View()), o, status)
    {
      hide LegExit, QueueCancel, Launch, CheckLegsConfirmed;
      match status
      case Confirmed =>
        if slConfirmed {
          return;
        }
        slConfirmed := true;
        CheckConfirmed();
      case Executed =>
        if state != Active && state != LegsSubmitted {
          return;
        }
        ghost var g := View();
        ExitBy(SLLeg, SLTriggered, tpId, o.filledPrice);
        CompletedExit(g, SLLeg, SLTriggered, tpId, o.filledPrice);
        if tpId != "" {
          StartCancel(tpId);
        } else {
          state := Completed;
        }
      case Rejected =>
        state := Failed;
        StartCancel(tpId);
        Start(Cleanup);
      case PartlyFilled =>
        if state != Active && state != LegsSubmitted {
          return;
        }
        ExitBy(SLLeg, SLTriggered, tpId, None);
        StartCancel(tpId);
      case CancelledByBroker =>
        if state == Active || state == LegsSubmitted {
          state := Cancelled;
          StartCancel(tpId);
          Start(Cleanup);
        }
      case OtherStatus =>
    }

    method HandleTPLegUpdate(o: Order, status: Status)
      modifies this
      ensures View() == TPLegUpdate(old(View()), o, status)
    {
      hide LegExit, QueueCancel, Launch, CheckLegsConfirmed;
      match status
      case Confirmed =>
        if tpConfirmed {
          return;
        }
        tpConfirmed := true;
        CheckConfirmed();
      case Executed =>
        if state != Active && state != LegsSubmitted {
          return;
        }
        ghost var g := View();
        ExitBy(TPLeg, TPTriggered, slId, o.filledPrice);
        CompletedExit(g, TPLeg, TPTriggered, slId, o.filledPrice);
        if slId != "" {
          StartCancel(slId);
        } else {
          state := Completed;
        }
      case Rejected =>
      case PartlyFilled =>
        if state != Active && state != LegsSubmitted {
          return;
        }
        ExitBy(TPLeg, TPTriggered, slId, None);
        StartCancel(slId);
      case CancelledByBroker =>
        if state == Active || state == LegsSubmitted {
          state := Cancelled;
          StartCancel(slId);
          Start(Cleanup);
        }
      case OtherStatus =>
    }

    /** An event for this group, routed by the order's id, else by its stored role;
        says whether the id was recorded here first. */
    method HandleUpdate(o: Order, status: Status) returns (backfilled: bool)
      modifies this
      ensures View() == BrokerUpdate(old(View()), o, status) && backfilled == Backfills(old(View()), o)
    {
      hide EntryUpdate, SLLegUpdate, TPLegUpdate;
      backfilled := false;
      if state.IsTerminal() {
        return;
      }
      if o.id == plan.entryId {
        HandleEntryUpdate(o, status);
      } else if o.id == slId {
        HandleSLLegUpdate(o, status);
      } else if o.id == tpId {
        HandleTPLegUpdate(o, status);
      } else if o.role == Some(SLLeg) {
        if slId == "" {
          slId, backfilled := o.id, true;
        }
        HandleSLLegUpdate(o, status);
      } else if o.role == Some(TPLeg) {
        if tpId == "" {
          tpId, backfilled := o.id, true;
        }
        HandleTPLegUpdate(o, status);
      }
    }

    method HandleEntryUpdate(o: Order, status: Status)
      modifies this
      ensures View() == EntryUpdate(old(View()), o, status)
    {
      hide EntryFilled, EntryPartlyFilled, EntryClosed;
      match status
      case Executed => HandleEntryFilled(o);
      case PartlyFilled => HandleEntryPartlyFilled(o);
      case Rejected => HandleEntryClosed();
      case CancelledByBroker => HandleEntryClosed();
      case _ =>
    }

    /** The prices of the enabled legs, and whether one lies on the wrong side of the
        fill or none is enabled. */
    method ComputeLegPrices() returns (aborts: bool, trigger: real, limit: real, target: real)
      ensures View() == old(View())
      ensures aborts == !Placeable(plan, fillPrice)
      ensures Prices(fillPrice, highestPrice, trigger, limit, target) == LegPrices(plan, View().prices)
    {
      hide RoundNSE;
      var hasSL, hasTP := plan.slPercent > 0.0, plan.tpPercent > 0.0;
      aborts, trigger, limit, target := !hasSL && !hasTP, slTrigger, slLimit, tpLimit;
      if hasSL {
        trigger := SLTriggerPrice(plan.side, fillPrice, plan.slPercent);
        limit := SLLimitPrice(plan.side, fillPrice, plan.slPercent);
        if (plan.side.Buy? && trigger >= fillPrice) || (plan.side.Sell? && trigger <= fillPrice) {
          aborts := true;
        }
      }
      if hasTP {
        target := TPLimitPrice(plan.side, fillPrice, plan.tpPercent);
        if (plan.side.Buy? && target <= fillPrice) || (plan.side.Sell? && target >= fillPrice) {
          aborts := true;
        }
      }
    }

    method SetLegPrices(trigger: real, limit: real, target: real)
      modifies this`slTrigger, this`slLimit, this`tpLimit
      ensures View() == old(View()).(prices := Prices(fillPrice, highestPrice, trigger, limit, target))
    {
      slTrigger, slLimit, tpLimit := trigger, limit, target;
    }

    /** A disabled leg needs no confirmation. */
    method ConfirmDisabled()
      modifies this`slConfirmed, this`tpConfirmed
      ensures View() == old(View()).(sl := Leg(slId, old(slConfirmed) || plan.slPercent <= 0.0),
                                     tp := Leg(tpId, old(tpConfirmed) || plan.tpPercent <= 0.0))
    {
      if !(plan.slPercent > 0.0) {
        slConfirmed := true;
      }
      if !(plan.tpPercent > 0.0) {
        tpConfirmed := true;
      }
    }

    /** First half of `placeOCOLegs`: prices and their validation, up to the calls to
        the broker. */
    method BeginPlacement(partial: bool)
      modifies this
      ensures View() == PlacementStarts(old(View()), partial)
    {
      hide Placeable, LegPrices, PlacementOver, Launch;
      Ended(PlaceLegs(partial));
      var aborts, trigger, limit, target := ComputeLegPrices();
      if aborts {
        state := Failed;
        EndPlacementTask(partial);
        return;
      }
      SendLegs(trigger, limit, target);
      Start(AwaitBroker(partial));
    }

    method SendLegs(trigger: real, limit: real, target: real)
      modifies this
      ensures var g := old(View());
              View() == g.(prices := Prices(old(fillPrice), old(highestPrice), trigger, limit, target),
                           sl := g.sl.(confirmed := g.sl.confirmed || plan.slPercent <= 0.0),
                           tp := g.tp.(confirmed := g.tp.confirmed || plan.tpPercent <= 0.0),
                           history := g.history.(stop := if plan.slPercent > 0.0 then Some(trigger) else None))
    {
      SetLegPrices(trigger, limit, target);
      ConfirmDisabled();
      history := history.(stop := if plan.slPercent > 0.0 then Some(trigger) else None);
    }

    /** The goroutine of a partial fill goes on to the timer. */
    method EndPlacementTask(partial: bool)
      modifies this`tasks
      ensures View() == PlacementOver(old(View()), partial)
    {
      if partial {
        Start(AfterPlacement);
      }
    }

    /** Second half, with the broker's answers for the legs. */
    method FinishPlacement(partial: bool, sl: Option<BrokerId>, tp: Option<BrokerId>)
      modifies this
      ensures View() == PlacementEnds(old(View()), partial, sl, tp)
    {
      hide PlacementOutcome;
      Ended(AwaitBroker(partial));
      RecordPlacement(sl, tp);
      EndPlacementTask(partial);
    }

    /** A leg the broker accepted is confirmed at once. */
    method RecordSL(newId: BrokerId)
      modifies this`slId, this`slConfirmed
      ensures View() == old(View()).(sl := Recorded(old(View()).sl, newId))
    {
      if newId != "" {
        slId, slConfirmed := newId, true;
      }
    }

    method RecordTP(newId: BrokerId)
      modifies this`tpId, this`tpConfirmed
      ensures View() == old(View()).(tp := Recorded(old(View()).tp, newId))
    {
      if newId != "" {
        tpId, tpConfirmed := newId, true;
      }
    }

    method RecordPlacement(sl: Option<BrokerId>, tp: Option<BrokerId>)
      modifies this
      ensures View() == PlacementOutcome(old(View()), sl, tp)
    {
      var hasSL, hasTP := plan.slPercent > 0.0, plan.tpPercent > 0.0;
      hide CheckLegsConfirmed, QueueCancel, Launch, Recorded, Placed;
      var slFailed, tpFailed := hasSL && sl.None?, hasTP && tp.None?;
      var newSL, newTP := Placed(hasSL, sl), Placed(hasTP, tp);
      if slFailed && tpFailed {
        state := Failed;
        Start(Cleanup);
        return;
      }
      if slFailed {
        if newTP != "" {
          tpId := newTP;
        }
        state := Failed;
        StartCancel(newTP);
        return;
      }
      RecordSL(newSL);
      if tpFailed {
        tpConfirmed := true;
      } else {
        RecordTP(newTP);
      }
      state := LegsSubmitted;
      CheckConfirmed();
    }

    /** The rest of a partial fill's goroutine after its placement. */
    method AfterPartialPlacement()
      modifies this
      ensures View() == PartialPlacementEnds(old(View()))
    {
      Ended(AfterPlacement);
      if state != Failed && partialActive && !timerStarted {
        timerStarted := true;
        Start(StartTimer);
      }
    }

    method StartPartialFillTimer()
      modifies this
      ensures View() == TimerStarts(old(View()))
    {
      Ended(StartTimer);
      timerArmed := true;
      Start(Timer);
    }

    method ForgetWait()
      modifies this`partialActive, this`timerStarted, this`timerArmed
      ensures View() == old(View()).(partial := old(View()).partial.(waiting := false, timerStarted := false, timerArmed := false))
    {
      partialActive, timerStarted, timerArmed := false, false, false;
    }

    method TimerExpired()
      modifies this
      ensures View() == TimerFires(old(View()))
    {
      Ended(Timer);
      if !partialActive {
        return;
      }
      ForgetWait();
      history := history.(timeouts := history.timeouts + 1);
      Start(CancelRemaining);
    }

    method CancelEntryRemaining()
      modifies this
      ensures View() == RemainderCancelled(old(View()))
    {
      Ended(CancelRemaining);
      if plan.entryId == "" {
        return;
      }
      history := history.(remainderCancels := history.remainderCancels + 1);
    }

    method FinishCancelLeg(id: BrokerId)
      modifies this
      ensures View() == LegCancelled(old(View()), id)
    {
      Ended(CancelLeg(id));
      if id == "" {
        return;
      }
      state := Completed;
    }

    method ModifyLegsQty(qty: int)
      modifies this
      ensures View() == LegsModified(old(View()), qty)
    {
      Ended(ModifyLegs(qty));
      filledQty := qty;
    }

    method EvaluateTrailing(ltp: real)
      modifies this
      ensures View() == Trailed(old(View()), ltp)
    {
      hide Proportional, ChangePct, Abs, MinStepPct;
      var trigger := CalculateTrailingSL(OcoStop(plan.side, plan.trailing, state.Active?, plan.trailingPct, highestPrice, slTrigger, 0), ltp);
      if trigger.Some? {
        var raw := Proportional(slTrigger, ltp, highestPrice);
        var limit := RoundNSE(raw * (if plan.side.Buy? then 1.0 - 0.005 else 1.0 + 0.005));
        Start(ModifySL(trigger.value, limit, ltp));
      }
    }

    /** Trigger and high-water mark move together. */
    method MoveStop(trigger: real, limit: real, highest: real)
      modifies this`slTrigger, this`slLimit, this`highestPrice
      ensures View() == old(View()).(prices := Prices(fillPrice, if highest > 0.0 then highest else old(highestPrice), trigger, limit, tpLimit))
    {
      slTrigger := trigger;
      slLimit := limit;
      if highest > 0.0 {
        highestPrice := highest;
      }
    }

    method ModifySLLeg(trigger: real, limit: real, highest: real, accepted: bool) returns (ok: bool)
      modifies this
      ensures View() == SLModified(old(View()), trigger, limit, highest, accepted)
      ensures ok == (old(state) == Active && old(slId) != "" && accepted)
    {
      Ended(ModifySL(trigger, limit, highest));
      if state != Active || slId == "" {
        return false;
      }
      if !accepted {
        return false;
      }
      MoveStop(trigger, limit, highest);
      return true;
    }

    /** The timer's goroutine ends on its cancelled context. */
    method TimerStopped()
      modifies this`tasks
      ensures View() == Done(old(View()), Timer)
    {
      Ended(Timer);
    }

    /** Whatever runs next on this group alone: a goroutine's next critical section, a
        price tick or the user's cancellation. */
    method Perform(a: Action)
      requires !a.Update? && !a.EndPlacement? && !a.CleanUp?
      modifies this
      ensures View() == Step(old(View()), a)
    {
      hide PlacementStarts, PartialPlacementEnds, TimerStarts, TimerFires, RemainderCancelled, LegCancelled, LegsModified,
           UserCancels, Trailed, SLModified, Done;
      match a {
        case BeginPlacement(partial) => BeginPlacement(partial);
        case EndPartialPlacement => AfterPartialPlacement();
        case BeginTimer => StartPartialFillTimer();
        case FireTimer => TimerExpired();
        case StopTimer => TimerStopped();
        case CancelRemainder => CancelEntryRemaining();
        case FinishCancel(id) => FinishCancelLeg(id);
        case FinishModify(qty) => ModifyLegsQty(qty);
        case Trail(ltp) => EvaluateTrailing(ltp);
        case FinishTrail(trigger, limit, highest, accepted) => var ok := ModifySLLeg(trigger, limit, highest, accepted);
        case UserCancel => var ok := Cancel();
        case Update(_, _) =>
        case EndPlacement(_, _, _) =>
        case CleanUp =>
      }
    }

    method Cancel() returns (ok: bool)
      modifies this
      ensures View() == UserCancels(old(View())) && ok == !old(state).IsTerminal()
    {
      hide Launch, QueueCancel;
      if state.IsTerminal() {
        return false;
      }
      if state == PendingEntry && plan.entryId != "" {
        StartCancel(plan.entryId);
      }
      if state == Active || state == LegsSubmitted {
        if slId != "" {
          StartCancel(slId);
        }
        if tpId != "" {
          StartCancel(tpId);
        }
      }
      state := Cancelled;
      Start(Cleanup);
      return true;
    }
  }

  lemma NotDelivered(r: Registry, o: Order, tag: Option<GroupId>, status: Status)
    requires var k := Target(r, o, tag); k.None? || k.value !in r.live
    ensures Delivered(r, o, tag, status) == r
  {
    hide BrokerUpdate;
  }

  lemma DeliveredTo(r: Registry, o: Order, tag: Option<GroupId>, status: Status, k: GroupId)
    requires Target(r, o, tag) == Some(k) && k in r.live && k in r.groups
    ensures var g, r1 := r.groups[k], r.(groups := r.groups[k := BrokerUpdate(r.groups[k], o, status)]);
            Delivered(r, o, tag, status) == if Backfills(g, o) then r1.(index := r1.index[o.id := k]) else r1
  {
    hide BrokerUpdate, Backfills;
  }

  lemma PlacementActed(r: Registry, k: GroupId, partial: bool, sl: Option<BrokerId>, tp: Option<BrokerId>)
    requires k in r.groups
    ensures var g := r.groups[k];
            Acted(r, k, EndPlacement(partial, sl, tp)) ==
              r.(groups := r.groups[k := PlacementEnds(g, partial, sl, tp)],
                 index := Indexed(Indexed(r.index, Placed(g.plan.slPercent > 0.0, sl), k), Placed(g.plan.tpPercent > 0.0, tp), k))
  {
    hide PlacementEnds, Placed, Indexed;
  }

  lemma CleanUpActed(r: Registry, k: GroupId)
    requires k in r.groups
    ensures var g := r.groups[k];
            Acted(r, k, CleanUp) ==
              r.(groups := r.groups[k := Done(g, Cleanup)], live := r.live - {k}, index := r.index - Ids(g))
  {
    hide Done;
  }

  function Ids(g: Group): set<BrokerId> {
    {g.plan.entryId, g.sl.id, g.tp.id} - {""}
  }

  lemma AloneActed(r: Registry, k: GroupId, a: Action)
    requires k in r.groups && !a.EndPlacement? && !a.CleanUp?
    ensures Acted(r, k, a) == r.(groups := r.groups[k := Step(r.groups[k], a)])
  {
    hide Step;
  }

  class Manager {
    var groups: map<GroupId, OcoGroup>
    var brokerIndex: map<BrokerId, GroupId>
    /** Every group ever created, as the background tasks hold them. */
    var objects: map<GroupId, OcoGroup>

    constructor ()
      ensures Valid() && View() == Registry(map[], {}, map[])
    {
      groups, brokerIndex, objects := map[], map[], map[];
    }

    ghost predicate Valid()
      reads this
    {
      && (forall k :: k in groups ==> k in objects && objects[k] == groups[k])
      && (forall k :: k in objects ==> objects[k].id == k)
    }

    ghost function Groups(): map<GroupId, Group>
      reads this`objects, objects.Values
    {
      map k | k in objects :: objects[k].View()
    }

    ghost function View(): Registry
      reads this, objects.Values
    {
      Registry(Groups(), groups.Keys, brokerIndex)
    }

    /** `CreateOCOEntry` after the broker's answer: a refused entry makes no group.
        Group ids are fresh. */
    method CreateOCOEntry(k: GroupId, plan: Plan, answer: Option<BrokerId>) returns (g: Option<OcoGroup>)
      requires Valid() && k !in objects
      modifies this
      ensures Valid() && g.Some? == answer.Some? && Grown(k)
      ensures View() == if answer.None? then old(View()) else Created(old(View()), k, plan.(entryId := answer.value))
    {
      if answer.None? {
        return None;
      }
      var group := Register(k, plan.(entryId := answer.value));
      return Some(group);
    }

    /** `AdoptOrder`: an order without a broker id, or with an empty one, is left
        alone. */
    method AdoptOrder(k: GroupId, plan: Plan, brokerId: Option<BrokerId>)
      requires Valid() && k !in objects
      modifies this
      ensures Valid() && Grown(k)
      ensures View() == if brokerId.None? || brokerId.value == "" then old(View())
                        else Created(old(View()), k, plan.(entryId := brokerId.value))
    {
      if brokerId.None? || brokerId.value == "" {
        return;
      }
      var group := Register(k, plan.(entryId := brokerId.value));
    }

    /** At most the new group `k` has joined the known ones. */
    twostate predicate Grown(k: GroupId)
      reads this
    {
      objects == old(objects) || (k in objects && objects == old(objects)[k := objects[k]] && fresh(objects[k]))
    }

    method Register(k: GroupId, plan: Plan) returns (g: OcoGroup)
      requires Valid() && k !in objects
      modifies this
      ensures Valid() && fresh(g) && objects == old(objects)[k := g]
      ensures View() == Created(old(View()), k, plan)
    {
      ghost var before := View();
      g := new OcoGroup(k, plan);
      assert View() == before;
      hide NewGroup;
      Add(k, g);
      hide Groups;
      brokerIndex := brokerIndex[plan.entryId := k];
    }

    method Add(k: GroupId, group: OcoGroup)
      requires Valid() && k !in objects && group.id == k
      modifies this`objects, this`groups
      ensures Valid() && objects == old(objects)[k := group] && View() == old(View()).(groups := old(View()).groups[k := group.View()], live := old(View()).live + {k})
    {
      objects := objects[k := group];
      groups := groups[k := group];
      assert Groups() == old(Groups())[k := group.View()];
      assert groups.Keys == old(groups.Keys) + {k};
    }

    /** A critical section on one group: the others are as before. */
    twostate lemma OneChanged(k: GroupId)
      requires old(Valid()) && Valid() && k in objects
      requires objects == old(objects) && groups == old(groups) && brokerIndex == old(brokerIndex)
      requires forall j :: j in objects && j != k ==> unchanged(objects[j])
      ensures View() == old(View()).(groups := old(View()).groups[k := objects[k].View()])
    {
      assert Groups() == old(Groups())[k := objects[k].View()];
    }

    ghost predicate Known(k: GroupId)
      reads this
    {
      Valid() && k in groups
    }

    /** Registry and index aside from the group's own fields. */
    twostate predicate SameMaps()
      reads this
    {
      objects == old(objects) && groups == old(groups) && brokerIndex == old(brokerIndex)
    }

    method UpdateGroup(k: GroupId, o: Order, status: Status) returns (backfilled: bool)
      requires Known(k)
      modifies groups[k]
      ensures Valid() && SameMaps()
      ensures var g := old(View()).groups[k];
              && View() == old(View()).(groups := old(View()).groups[k := BrokerUpdate(g, o, status)])
              && backfilled == Backfills(g, o)
    {
      hide BrokerUpdate, Backfills;
      backfilled := groups[k].HandleUpdate(o, status);
      OneChanged(k);
    }

    method IndexAs(id: BrokerId, k: GroupId)
      requires Valid()
      modifies this`brokerIndex
      ensures Valid() && View() == old(View()).(index := old(View()).index[id := k])
    {
      hide Groups;
      brokerIndex := brokerIndex[id := k];
    }

    method HandleBrokerUpdate(o: Order, tag: Option<GroupId>, status: string)
      requires Valid()
      modifies this, objects.Values
      ensures Valid() && objects == old(objects) && View() == Delivered(old(View()), o, tag, Classify(status))
    {
      hide Classify, Delivered;
      Deliver(o, tag, Classify(status));
    }

    method Deliver(o: Order, tag: Option<GroupId>, status: Status)
      requires Valid()
      modifies this, objects.Values
      ensures Valid() && objects == old(objects) && View() == Delivered(old(View()), o, tag, status)
    {
      hide BrokerUpdate, Backfills, Groups, Delivered, Target;
      ghost var before := View();
      var target := Locate(o, tag);
      if target.None? || target.value !in groups {
        NotDelivered(before, o, tag, status);
        return;
      }
      KnownInView(target.value);
      DeliveredTo(before, o, tag, status, target.value);
      var backfilled := UpdateGroup(target.value, o, status);
      if backfilled {
        IndexAs(o.id, target.value);
      }
    }

    lemma KnownInView(k: GroupId)
      requires Valid() && k in groups
      ensures k in View().live && k in View().groups
    {
    }

    /** The index first, then the tag of the stored order. */
    function Locate(o: Order, tag: Option<GroupId>): (target: Option<GroupId>)
      requires Valid()
      reads this, objects.Values
      ensures target == Target(View(), o, tag)
    {
      if o.id in brokerIndex then Some(brokerIndex[o.id]) else tag
    }

    /** A step of one group leaves the registry alone. */
    method Perform(g: OcoGroup, a: Action)
      requires Valid() && g.id in objects && objects[g.id] == g && !a.Update? && !a.EndPlacement? && !a.CleanUp?
      modifies g
      ensures Valid() && SameMaps() && View() == Acted(old(View()), g.id, a)
    {
      hide Step, Acted;
      AloneActed(View(), g.id, a);
      g.Perform(a);
      OneChanged(g.id);
    }

    /** Every event of a registry run is one call. */
    method HandleEvent(e: Event)
      requires Valid() && Occurs(View(), e)
      modifies this, objects.Values
      ensures Valid() && View() == Handled(old(View()), e)
      ensures objects == old(objects) || (e.Create? && Grown(e.k))
    {
      hide Created, Delivered, Acted, Enabled;
      assert Groups().Keys == objects.Keys;
      hide Groups;
      match e
      case Create(k, plan) => var g := Register(k, plan);
      case Deliver(o, tag, status) => Deliver(o, tag, status);
      case Act(k, a) =>
        var g := objects[k];
        if a.EndPlacement? {
          PlacementDone(g, a.partial, a.sl, a.tp);
        } else if a.CleanUp? {
          CleanUpGroup(g);
        } else {
          Perform(g, a);
        }
    }

    lemma ViewAt(g: OcoGroup)
      requires Valid() && g.id in objects && objects[g.id] == g
      ensures g.id in View().groups && View().groups[g.id] == g.View() && g.View().plan == g.plan
    {
    }

    method FinishOne(g: OcoGroup, partial: bool, sl: Option<BrokerId>, tp: Option<BrokerId>)
      requires Valid() && g.id in objects && objects[g.id] == g
      modifies g
      ensures Valid() && SameMaps()
      ensures View() == old(View()).(groups := old(View()).groups[g.id := PlacementEnds(old(View()).groups[g.id], partial, sl, tp)])
    {
      hide PlacementEnds;
      g.FinishPlacement(partial, sl, tp);
      OneChanged(g.id);
    }

    /** The placement's end: its leg ids are recorded on the group and indexed. */
    method PlacementDone(g: OcoGroup, partial: bool, sl: Option<BrokerId>, tp: Option<BrokerId>)
      requires Valid() && g.id in objects && objects[g.id] == g
      modifies this`brokerIndex, g
      ensures Valid() && objects == old(objects)
      ensures View() == Acted(old(View()), g.id, EndPlacement(partial, sl, tp))
    {
      hide PlacementEnds, Groups, Placed, Acted, Indexed;
      ViewAt(g);
      PlacementActed(View(), g.id, partial, sl, tp);
      var newSL, newTP := Placed(g.plan.slPercent > 0.0, sl), Placed(g.plan.tpPercent > 0.0, tp);
      FinishOne(g, partial, sl, tp);
      IndexTwo(newSL, newTP, g.id);
    }

    method IndexTwo(newSL: BrokerId, newTP: BrokerId, k: GroupId)
      requires Valid()
      modifies this`brokerIndex
      ensures Valid() && View() == old(View()).(index := Indexed(Indexed(old(View()).index, newSL, k), newTP, k))
    {
      hide Groups;
      if newSL != "" {
        brokerIndex := brokerIndex[newSL := k];
      }
      if newTP != "" {
        brokerIndex := brokerIndex[newTP := k];
      }
    }

    /** The delayed clean-up of a group that has ended. */
    method CleanUpGroup(g: OcoGroup)
      requires Valid() && g.id in objects && objects[g.id] == g
      modifies this, g
      ensures Valid() && objects == old(objects)
      ensures View() == Acted(old(View()), g.id, CleanUp)
    {
      hide Groups, Done, Acted, Ids;
      ViewAt(g);
      CleanUpActed(View(), g.id);
      ForgetIds(g);
      EndCleanup(g);
      Unregister(g.id);
    }

    method Unregister(k: GroupId)
      requires Valid()
      modifies this`groups
      ensures Valid() && View() == old(View()).(live := old(View()).live - {k})
    {
      hide Groups;
      groups := groups - {k};
    }

    method EndCleanup(g: OcoGroup)
      requires Valid() && g.id in objects && objects[g.id] == g
      modifies g`tasks
      ensures Valid() && SameMaps()
      ensures View() == old(View()).(groups := old(View()).groups[g.id := Done(old(View()).groups[g.id], Cleanup)])
    {
      hide Done;
      g.Ended(Cleanup);
      OneChanged(g.id);
    }

    method ForgetIds(g: OcoGroup)
      requires Valid()
      modifies this`brokerIndex
      ensures Valid() && View() == old(View()).(index := old(View()).index - Ids(g.View()))
    {
      hide Groups;
      if g.plan.entryId != "" {
        brokerIndex := brokerIndex - {g.plan.entryId};
      }
      if g.slId != "" {
        brokerIndex := brokerIndex - {g.slId};
      }
      if g.tpId != "" {
        brokerIndex := brokerIndex - {g.tpId};
      }
      assert brokerIndex == old(brokerIndex) - Ids(g.View());
    }

    /** The user's cancellation: an error when the group is unknown or has ended. */
    method CancelGroup(k: GroupId) returns (ok: bool)
      requires Valid()
      modifies objects.Values
      ensures Valid() && SameMaps()
      ensures ok == (k in groups && !old(View()).groups[k].state.IsTerminal())
      ensures View() == if k in groups then Acted(old(View()), k, UserCancel) else old(View())
    {
      hide UserCancels;
      if k !in groups {
        return false;
      }
      assert Groups().Keys == objects.Keys;
      ok := groups[k].Cancel();
      OneChanged(k);
    }
  }

  /** The manager through any run: what is proved of the registry holds of the objects
      the methods update. */
  method AnyRun(events: seq<Event>, ghost states: seq<Registry>, ghost broker: Broker) returns (m: Manager)
    requires Follows(states, events) && DistinctIds(broker)
    requires forall i :: 0 <= i < |events| ==> Honest(broker, events[i])
    ensures fresh(m) && m.Valid() && m.View() == states[|events|]
    ensures IndexExact(broker, m.View()) && GroupsSafe(m.View())
  {
    hide Occurs, Handled, IndexExact, GroupsSafe, DistinctIds, Honest;
    m := new Manager();
    for i := 0 to |events|
      invariant fresh(m) && m.Valid() && m.View() == states[i]
      invariant forall k :: k in m.objects ==> fresh(m.objects[k])
    {
      m.HandleEvent(events[i]);
    }
    RegistryIsExact(broker, states, events, |events|);
  }
}

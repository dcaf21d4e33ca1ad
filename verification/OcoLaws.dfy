/** What the OCO handlers are for, event by event: which orders a cancellation reaches,
    which prices the legs get, what each broker status does; and that a waiting group
    always has its timer coming.
 */
module OcoLaws {
  import opened Orders
  import opened TickRounding
  import opened TrailingStop
  import opened Oco
  import opened OcoLifecycle
  import opened OcoProtection

  // ---- Cancellations ----

  /** How many cancellations of the order are outstanding. */
  function Cancelling(g: Group, id: BrokerId): nat {
    g.tasks[CancelLeg(id)]
  }

  function One(reached: bool): nat {
    if reached then 1 else 0
  }

  lemma QueueReaches(g: Group, wanted: bool, q: BrokerId, id: BrokerId)
    ensures var g' := if wanted then QueueCancel(g, q) else g;
            Cancelling(g', id) == Cancelling(g, id) + One(wanted && id == q)
  {
  }

  lemma CancelledLast(g: Group, id: BrokerId)
    ensures var g' := Launch(g.(state := Cancelled), Cleanup);
            g'.state == Cancelled && Cleanup in g'.tasks && Cancelling(g', id) == Cancelling(g, id)
  {
  }

  /** A granted cancellation cancels exactly the group's own orders that are still
      working: the entry of a pending group, both legs of a watched one. */
  lemma UserCancelReaches(g: Group, id: BrokerId)
    requires !g.state.IsTerminal()
    ensures UserCancels(g).state == Cancelled && Cleanup in UserCancels(g).tasks
    ensures Cancelling(UserCancels(g), id) == Cancelling(g, id) +
              if id == "" then 0
              else One(g.state.PendingEntry? && id == g.plan.entryId) + One(g.state.Watching() && id == g.sl.id)
                   + One(g.state.Watching() && id == g.tp.id)
  {
    hide QueueCancel, Launch, Cancelling;
    var entry, sl, tp := g.state == PendingEntry && g.plan.entryId != "", g.state.Watching() && g.sl.id != "", g.state.Watching() && g.tp.id != "";
    var g1 := if entry then QueueCancel(g, g.plan.entryId) else g;
    var g2 := if sl then QueueCancel(g1, g.sl.id) else g1;
    var g3 := if tp then QueueCancel(g2, g.tp.id) else g2;
    QueueReaches(g, entry, g.plan.entryId, id);
    QueueReaches(g1, sl, g.sl.id, id);
    QueueReaches(g2, tp, g.tp.id, id);
    CancelledLast(g3, id);
  }

  /** A leg that is lost takes the other one with it: the stop-loss when it is rejected
      or, while watched, cancelled; the take-profit when, while watched, it is
      cancelled.  A rejected take-profit changes nothing. */
  lemma LostLegCancelsOther(g: Group, o: Order)
    ensures var g' := SLLegUpdate(g, o, Rejected);
            g'.state == Failed && Cancelling(g', g.tp.id) == Cancelling(g, g.tp.id) + 1
    ensures TPLegUpdate(g, o, Rejected) == g
    ensures var g' := SLLegUpdate(g, o, CancelledByBroker);
            if g.state.Watching() then g'.state == Cancelled && Cancelling(g', g.tp.id) == Cancelling(g, g.tp.id) + 1 else g' == g
    ensures var g' := TPLegUpdate(g, o, CancelledByBroker);
            if g.state.Watching() then g'.state == Cancelled && Cancelling(g', g.sl.id) == Cancelling(g, g.sl.id) + 1 else g' == g
  {
  }

  /** A placement that loses the stop-loss never leaves a take-profit working alone: the
      accepted one is recorded, its cancellation is queued and the group fails. */
  lemma LostStopCancelsTarget(g: Group, partial: bool, tp: BrokerId)
    requires g.plan.slPercent > 0.0 && g.plan.tpPercent > 0.0 && tp != ""
    ensures var g' := PlacementEnds(g, partial, None, Some(tp));
            g'.state == Failed && g'.tp.id == tp && Cancelling(g', tp) == Cancelling(g, tp) + 1
  {
  }

  // ---- Prices ----

  lemma PartOfFill(fill: real, pct: real)
    ensures fill * (1.0 + pct / 100.0) == fill + fill * pct / 100.0
    ensures fill * (1.0 - pct / 100.0) == fill - fill * pct / 100.0
  {
  }

  lemma Near(x: real)
    requires x >= 0.0
    ensures x - 0.025 <= RoundNSE(x) <= x + 0.025
  {
    RoundNSEIdempotentAndClose(x);
  }

  /** How far a price lies from the fill, on the loss side. */
  function Below(side: Side, fill: real, price: real): real {
    if side.Buy? then fill - price else price - fill
  }

  /** The stop's trigger lies its percentage of the fill on the loss side, the
      take-profit its own on the gain side, to within half a tick. */
  lemma LegPriceDistances(side: Side, fill: real, pct: real)
    requires fill >= 0.0 && 0.0 <= pct <= 100.0
    ensures var part := fill * pct / 100.0;
            && part - 0.025 <= Below(side, fill, SLTriggerPrice(side, fill, pct)) <= part + 0.025
            && part - 0.025 <= 0.0 - Below(side, fill, TPLimitPrice(side, fill, pct)) <= part + 0.025
  {
    NonNegative(fill, 1.0 - pct / 100.0);
    NonNegative(fill, 1.0 + pct / 100.0);
    Near(fill * (1.0 - pct / 100.0));
    Near(fill * (1.0 + pct / 100.0));
    PartOfFill(fill, pct);
    hide RoundNSE;
  }

  /** Half a percent of the trigger, to within two half ticks and what rounding the
      trigger moves that half percent. */
  predicate HalfPercentBeyond(side: Side, trigger: real, limit: real) {
    0.005 * trigger - 0.0502 <= Below(side, trigger, limit) <= 0.005 * trigger + 0.0502
  }

  lemma HalfPercent(side: Side, raw: real)
    requires raw >= 0.0
    ensures HalfPercentBeyond(side, RoundNSE(raw), RoundNSE(raw * (if side.Buy? then 1.0 - 0.005 else 1.0 + 0.005)))
  {
    Near(raw);
    Near(raw * (1.0 - 0.005));
    Near(raw * (1.0 + 0.005));
    hide RoundNSE;
  }

  /** The placed limit leaves half a percent beyond the trigger for the fill. */
  lemma StopLimitGap(side: Side, fill: real, pct: real)
    requires fill >= 0.0 && 0.0 <= pct <= 100.0
    ensures HalfPercentBeyond(side, SLTriggerPrice(side, fill, pct), SLLimitPrice(side, fill, pct))
  {
    hide RoundNSE, HalfPercentBeyond;
    NonNegative(fill, 1.0 - pct / 100.0);
    NonNegative(fill, 1.0 + pct / 100.0);
    HalfPercent(side, if side.Buy? then fill * (1.0 - pct / 100.0) else fill * (1.0 + pct / 100.0));
  }

  /** And so does every limit that goes with a trailed trigger. */
  lemma TrailedLimitGap(g: Group, ltp: real)
    requires CalculateTrailingSL(StopView(g), ltp).Some? && ltp >= 0.0
    ensures g.prices.highest > 0.0
    ensures HalfPercentBeyond(g.plan.side, CalculateTrailingSL(StopView(g), ltp).value, TrailedLimit(g, ltp))
  {
    assert g.prices.highest > 0.0 && g.prices.slTrigger > 0.0;
    assert CalculateTrailingSL(StopView(g), ltp).value == RoundNSE(Proportional(g.prices.slTrigger, ltp, g.prices.highest));
    NonNegativeProportion(g.prices.slTrigger, ltp, g.prices.highest);
    hide RoundNSE, HalfPercentBeyond, CalculateTrailingSL, Proportional;
    HalfPercent(g.plan.side, Proportional(g.prices.slTrigger, ltp, g.prices.highest));
  }

  /** The quantity an exit is settled on. */
  function SettledQty(g: Group): int {
    if g.partial.filledQty > 0 then g.partial.filledQty else g.plan.quantity
  }

  lemma TimesDifference(x: real, y: real, q: real)
    ensures (x - y) * q == x * q - y * q
  {
  }

  /** The recorded profit is what the exit brings less what the entry cost, the other
      way round for a SELL entry. */
  lemma ProfitIsProceeds(g: Group, exitPrice: real)
    ensures var out, into := exitPrice * SettledQty(g) as real, g.prices.fill * SettledQty(g) as real;
            Pnl(g, exitPrice) == if g.plan.side.Buy? then out - into else into - out
  {
    TimesDifference(exitPrice, g.prices.fill, SettledQty(g) as real);
    TimesDifference(g.prices.fill, exitPrice, SettledQty(g) as real);
  }

  /** A stop its percentage from the fill, on the loss side, with room for its limit. */
  predicate StopAt(side: Side, fill: real, pct: real, trigger: real, limit: real) {
    var part := fill * pct / 100.0;
    part - 0.025 <= Below(side, fill, trigger) <= part + 0.025 && HalfPercentBeyond(side, trigger, limit)
  }

  /** A take-profit its percentage from the fill, on the gain side. */
  predicate TargetAt(side: Side, fill: real, pct: real, limit: real) {
    var part := fill * pct / 100.0;
    part - 0.025 <= 0.0 - Below(side, fill, limit) <= part + 0.025
  }

  lemma PricesAt(side: Side, fill: real, pct: real)
    requires fill >= 0.0 && 0.0 <= pct <= 100.0
    ensures StopAt(side, fill, pct, SLTriggerPrice(side, fill, pct), SLLimitPrice(side, fill, pct))
    ensures TargetAt(side, fill, pct, TPLimitPrice(side, fill, pct))
  {
    LegPriceDistances(side, fill, pct);
    StopLimitGap(side, fill, pct);
    hide SLTriggerPrice, SLLimitPrice, TPLimitPrice, HalfPercentBeyond, Below;
  }

  /** The prices the legs are sent with, and recorded on the group: each enabled leg's
      own percentage from the fill, on its own side. */
  lemma PlacedLegPrices(g: Group, partial: bool)
    requires !PlacementStarts(g, partial).state.Failed? && g.prices.fill >= 0.0
    requires g.plan.slPercent <= 100.0 && g.plan.tpPercent <= 100.0
    ensures var p, plan := PlacementStarts(g, partial).prices, g.plan;
            && p.fill == g.prices.fill
            && (plan.slPercent > 0.0 ==> StopAt(plan.side, p.fill, plan.slPercent, p.slTrigger, p.slLimit))
            && (plan.tpPercent > 0.0 ==> TargetAt(plan.side, p.fill, plan.tpPercent, p.tpLimit))
  {
    hide SLTriggerPrice, SLLimitPrice, TPLimitPrice, StopAt, TargetAt, Placeable;
    var plan := g.plan;
    if plan.slPercent > 0.0 {
      PricesAt(plan.side, g.prices.fill, plan.slPercent);
    }
    if plan.tpPercent > 0.0 {
      PricesAt(plan.side, g.prices.fill, plan.tpPercent);
    }
  }

  // ---- What each broker status does ----

  /** A traded entry starts the one placement, at the price it traded at. */
  lemma TradedEntryPlacesLegs(g: Group, o: Order, status: string, price: real)
    requires status == "EXECUTED" || status == "TRADED"
    requires g.state.PendingEntry? && !g.partial.waiting && o.id == g.plan.entryId && o.filledPrice == Some(price) && price > 0.0
    ensures var g' := BrokerUpdate(g, o, Classify(status));
            && g'.state == PlacingLegs && g'.prices.fill == g'.prices.highest == price
            && g'.partial.filledQty == g.plan.quantity && !g'.partial.waiting
            && g'.tasks == g.tasks + multiset{PlaceLegs(false)} && g'.history.launches == g.history.launches + 1
  {
  }

  /** Without a traded price the order's own price stands in; without either the group
      fails and nothing is placed. */
  lemma EntryPriceFallsBack(g: Group, o: Order, status: string)
    requires status == "EXECUTED" || status == "TRADED"
    requires g.state.PendingEntry? && !g.partial.waiting && o.id == g.plan.entryId
    requires o.filledPrice.None? || o.filledPrice.value <= 0.0
    ensures var g' := BrokerUpdate(g, o, Classify(status));
            if o.price.Some? && o.price.value > 0.0 then g'.state == PlacingLegs && g'.prices.fill == o.price.value
            else g'.state == Failed && g'.tasks == g.tasks
  {
  }

  predicate PartlyTraded(status: string) {
    status == "PARTIALLY TRADED" || status == "PARTIALLY EXECUTED" || status == "PARTIALLY_FILLED"
  }

  /** The first partial fill places legs for what has filled and waits for the rest;
      each later one asks the legs for the new quantity; the full fill that ends the
      wait asks them for the whole. */
  lemma PartialFillsFollowed(g: Group, o: Order, status: string, price: real)
    requires PartlyTraded(status) && o.id == g.plan.entryId && o.filledQty > 0 && o.filledPrice == Some(price) && price > 0.0
    requires !g.state.IsTerminal()
    ensures var g' := BrokerUpdate(g, o, Classify(status));
            if g.partial.waiting then g'.partial.filledQty == o.filledQty && g'.tasks == g.tasks + multiset{ModifyLegs(o.filledQty)}
            else if g.state.PendingEntry? then
              && g'.state == PlacingLegs && g'.prices.fill == price && g'.partial.filledQty == o.filledQty && g'.partial.waiting
              && g'.tasks == g.tasks + multiset{PlaceLegs(true)}
            else g' == g
    ensures g.partial.waiting ==>
              var g' := BrokerUpdate(g, o, Classify("EXECUTED"));
              && g'.partial.filledQty == g.plan.quantity && !g'.partial.waiting
              && g'.tasks == g.tasks + multiset{ModifyLegs(g.plan.quantity)}
  {
  }

  predicate Dead(status: string) {
    status == "REJECTED" || status == "A.REJECTED" || status == "CANCELLED"
  }

  lemma DeadEntry(g: Group, o: Order, status: string)
    requires Dead(status) && o.id == g.plan.entryId && !g.state.IsTerminal()
    ensures var g' := BrokerUpdate(g, o, Classify(status));
            if g.partial.waiting then g'.state == g.state && !g'.partial.waiting && g'.tasks == g.tasks
            else g'.state == Failed && g'.tasks == g.tasks + multiset{Cleanup}
  {
  }

  predicate OnExchange(status: string) {
    || status == "PENDING" || status == "OPEN" || status == "TRIGGER PENDING" || status == "TRIGGER_PENDING"
    || status == "AFTER MARKET ORDER REQ RECEIVED"
  }

  lemma Strings(status: string)
    ensures status == "EXECUTED" || status == "TRADED" <==> Classify(status).Executed?
    ensures PartlyTraded(status) <==> Classify(status).PartlyFilled?
    ensures status == "REJECTED" || status == "A.REJECTED" <==> Classify(status).Rejected?
    ensures status == "CANCELLED" <==> Classify(status).CancelledByBroker?
    ensures OnExchange(status) <==> Classify(status).Confirmed?
  {
  }

  /** The statuses of a stop-loss leg under its recorded id, string by string. */
  lemma LegStatuses(g: Group, o: Order, status: string)
    requires !g.state.IsTerminal() && o.id != g.plan.entryId && o.id == g.sl.id
    ensures OnExchange(status) ==> BrokerUpdate(g, o, Classify(status)).sl.confirmed
    ensures status == "EXECUTED" || status == "TRADED" || PartlyTraded(status) ==>
              (LegExecution(g, o, Classify(status)) <==> g.state.Watching())
    ensures status == "REJECTED" || status == "A.REJECTED" ==> BrokerUpdate(g, o, Classify(status)).state == Failed
    ensures status == "CANCELLED" && g.state.Watching() ==> BrokerUpdate(g, o, Classify(status)).state == Cancelled
  {
    hide Pnl, Classify;
    Strings(status);
    LostLegCancelsOther(g, o);
    assert BrokerUpdate(g, o, Classify(status)) == SLLegUpdate(g, o, Classify(status));
    hide BrokerUpdate, OnExchange, PartlyTraded;
    if Classify(status).Confirmed? {
      hide LegExecution;
    } else {
      hide SLLegUpdate;
    }
  }

  /** Whatever is none of these strings changes nothing. */
  lemma OtherStatuses(g: Group, o: Order, status: string)
    requires status != "EXECUTED" && status != "TRADED" && !PartlyTraded(status) && !Dead(status) && !OnExchange(status)
    requires o.role.None?
    ensures BrokerUpdate(g, o, Classify(status)) == g
  {
  }

  // ---- A waiting group's timer ----

  /** The tasks a partial fill's timer goes through on its way. */
  predicate TimerComing(tasks: multiset<Task>) {
    PlaceLegs(true) in tasks || AwaitBroker(true) in tasks || AfterPlacement in tasks || StartTimer in tasks || Timer in tasks
  }

  ghost predicate Attended(g: Group) {
    && (g.partial.waiting && !g.state.IsTerminal() ==> TimerComing(g.tasks))
    && (g.partial.timerStarted ==> g.partial.waiting && (StartTimer in g.tasks || Timer in g.tasks))
    && (g.partial.timerStopped ==> !g.partial.waiting && g.history.launches == 1)
    && (PlaceLegs(false) in g.tasks || AwaitBroker(false) in g.tasks ==> !g.partial.waiting)
  }

  /** A step that leaves the wait, its tasks and the placement alone, and does not bring
      an ended group back. */
  ghost predicate Calm(g: Group, g': Group) {
    && g'.partial == g.partial.(filledQty := g'.partial.filledQty) && g'.history.launches == g.history.launches
    && (g.state.IsTerminal() ==> g'.state.IsTerminal())
    && (forall t :: Waits(t) ==> (t in g'.tasks <==> t in g.tasks))
  }

  predicate Waits(t: Task) {
    t.PlaceLegs? || t.AwaitBroker? || t.AfterPlacement? || t.StartTimer? || t.Timer?
  }

  lemma CalmAttends(g: Group, g': Group)
    requires Attended(g) && Calm(g, g')
    ensures Attended(g')
  {
    assert Waits(PlaceLegs(true)) && Waits(PlaceLegs(false)) && Waits(AwaitBroker(true)) && Waits(AwaitBroker(false));
    assert Waits(AfterPlacement) && Waits(StartTimer) && Waits(Timer);
  }

  lemma CalmTransitive(a: Group, b: Group, c: Group)
    requires Calm(a, b) && Calm(b, c)
    ensures Calm(a, c)
  {
  }

  lemma CalmTasks(g: Group, t: Task)
    requires !Waits(t)
    ensures Calm(g, Launch(g, t)) && Calm(g, Done(g, t)) && (t.CancelLeg? ==> Calm(g, QueueCancel(g, t.id)))
  {
  }

  lemma CalmFields(g: Group, g': Group)
    requires g'.partial == g.partial.(filledQty := g'.partial.filledQty) && g'.history.launches == g.history.launches && g'.tasks == g.tasks
    requires g.state.IsTerminal() ==> g'.state.IsTerminal()
    ensures Calm(g, g')
  {
  }

  lemma CalmExit(g: Group, leg: Role, state: OcoState, id: BrokerId, price: Option<real>)
    requires !g.state.IsTerminal()
    ensures Calm(g, LegExit(g, leg, state, id, price)) && Calm(g, QueueCancel(LegExit(g, leg, state, id, price), id))
  {
    hide Pnl;
    var g1 := LegExit(g, leg, state, id, price);
    CalmFields(g, g1);
    hide LegExit, Calm;
    CalmTasks(g1, CancelLeg(id));
    CalmTransitive(g, g1, QueueCancel(g1, id));
  }

  lemma CalmLost(g: Group, state: OcoState, id: BrokerId)
    requires state.IsTerminal()
    ensures Calm(g, Launch(QueueCancel(g.(state := state), id), Cleanup))
  {
    var g1 := g.(state := state);
    var g2 := QueueCancel(g1, id);
    CalmFields(g, g1);
    hide Calm, Launch, QueueCancel;
    CalmTasks(g1, CancelLeg(id));
    CalmTasks(g2, Cleanup);
    CalmTransitive(g, g1, g2);
    CalmTransitive(g, g2, Launch(g2, Cleanup));
  }

  lemma SLLegCalm(g: Group, o: Order, status: Status)
    requires !g.state.IsTerminal()
    ensures Calm(g, SLLegUpdate(g, o, status))
  {
    CalmFields(g, g);
    CalmFields(g, CheckLegsConfirmed(g.(sl := g.sl.(confirmed := true))));
    hide Calm, Launch, QueueCancel, LegExit, Pnl, CheckLegsConfirmed;
    match status
    case Executed =>
      CalmExit(g, SLLeg, SLTriggered, g.tp.id, o.filledPrice);
      CalmExit(g, SLLeg, Completed, g.tp.id, o.filledPrice);
    case PartlyFilled => CalmExit(g, SLLeg, SLTriggered, g.tp.id, None);
    case Rejected => CalmLost(g, Failed, g.tp.id);
    case CancelledByBroker => CalmLost(g, Cancelled, g.tp.id);
    case _ =>
  }

  lemma TPLegCalm(g: Group, o: Order, status: Status)
    requires !g.state.IsTerminal()
    ensures Calm(g, TPLegUpdate(g, o, status))
  {
    CalmFields(g, g);
    CalmFields(g, CheckLegsConfirmed(g.(tp := g.tp.(confirmed := true))));
    hide Calm, Launch, QueueCancel, LegExit, Pnl, CheckLegsConfirmed;
    match status
    case Executed =>
      CalmExit(g, TPLeg, TPTriggered, g.sl.id, o.filledPrice);
      CalmExit(g, TPLeg, Completed, g.sl.id, o.filledPrice);
    case PartlyFilled => CalmExit(g, TPLeg, TPTriggered, g.sl.id, None);
    case CancelledByBroker => CalmLost(g, Cancelled, g.sl.id);
    case _ =>
  }

  lemma FirstFillAttends(g: Group, price: real, partial: Partial, waits: bool)
    requires Invariant(g) && Attended(g) && g.state == PendingEntry && !g.partial.waiting
    requires partial == g.partial.(filledQty := partial.filledQty, waiting := waits)
    ensures Attended(FirstFill(g, price, partial, waits))
  {
    assert Placing(g.tasks) == 0 && g.history.launches == 0;
    hide Invariant;
  }

  lemma WaitEndAttends(g: Group)
    requires Invariant(g) && Attended(g) && g.partial.waiting
    ensures Attended(g.(partial := WaitEnded(g.partial)))
  {
  }

  lemma EntryFilledAttends(g: Group, o: Order)
    requires Invariant(g) && Attended(g) && !g.state.IsTerminal()
    ensures Attended(EntryFilled(g, o))
  {
    hide Placing, ExitedOnce;
    if g.partial.waiting {
      WaitEndAttends(g);
      var g1 := FullyFilled(g).(partial := WaitEnded(g.partial).(filledQty := g.plan.quantity));
      CalmFields(g.(partial := WaitEnded(g.partial)), g1);
      CalmAttends(g.(partial := WaitEnded(g.partial)), g1);
      CalmTasks(g1, ModifyLegs(g.plan.quantity));
      hide Attended, Calm, Launch;
      CalmAttends(g1, Launch(g1, ModifyLegs(g.plan.quantity)));
    } else if g.state == PendingEntry {
      var g1 := FullyFilled(g);
      assert g1.partial == g.partial && g1.tasks == g.tasks && g1.history.launches == g.history.launches;
      hide FullyFilled, FillPrice;
      assert FillPrice(o) > 0.0 ==> EntryFilled(g, o) == FirstFill(g1, FillPrice(o), g.partial.(filledQty := g.plan.quantity), false);
      CalmFields(g, g1.(state := Failed));
      CalmAttends(g, g1.(state := Failed));
      FullyFilledStart(g, FillPrice(o));
      hide FirstFill, Attended, Calm, Invariant;
    }
  }

  lemma FullyFilledStart(g: Group, price: real)
    requires Invariant(g) && Attended(g) && g.state == PendingEntry && !g.partial.waiting
    ensures Attended(FirstFill(FullyFilled(g), price, g.partial.(filledQty := g.plan.quantity), false))
  {
    assert Placing(g.tasks) == 0 && g.history.launches == 0;
    hide Invariant;
  }

  lemma EntryPartlyFilledAttends(g: Group, o: Order)
    requires Invariant(g) && Attended(g) && !g.state.IsTerminal()
    ensures Attended(EntryPartlyFilled(g, o))
  {
    hide FillPrice;
    if g.partial.waiting {
      var g1 := g.(partial := g.partial.(filledQty := o.filledQty));
      CalmFields(g, g1);
      CalmTasks(g1, ModifyLegs(o.filledQty));
      hide Attended, Calm, Launch;
      CalmAttends(g, g1);
      CalmAttends(g1, Launch(g1, ModifyLegs(o.filledQty)));
    } else if g.state == PendingEntry {
      FirstFillAttends(g, FillPrice(o), g.partial.(filledQty := o.filledQty, waiting := true), true);
      hide FirstFill, Attended, Invariant;
    }
  }

  lemma EntryClosedAttends(g: Group)
    requires Invariant(g) && Attended(g) && !g.state.IsTerminal()
    ensures Attended(EntryClosed(g))
  {
    if g.partial.waiting {
      WaitEndAttends(g);
      var g1 := g.(partial := WaitEnded(g.partial));
      CalmFields(g1, Closed(g).(partial := WaitEnded(g.partial)));
      CalmAttends(g1, Closed(g).(partial := WaitEnded(g.partial)));
      hide Attended, Calm, Invariant;
    } else {
      var g1 := Closed(g).(state := Failed);
      CalmFields(g, g1);
      CalmTasks(g1, Cleanup);
      hide Attended, Calm, Launch, Invariant;
      CalmAttends(g, g1);
      CalmAttends(g1, Launch(g1, Cleanup));
    }
  }

  lemma UpdateAttends(g: Group, o: Order, status: Status)
    requires Invariant(g) && Attended(g)
    ensures Attended(BrokerUpdate(g, o, status))
  {
    hide EntryFilled, EntryPartlyFilled, EntryClosed, SLLegUpdate, TPLegUpdate, Invariant, Attended, Calm;
    if !g.state.IsTerminal() {
      var b := Backfilled(g, o);
      CalmFields(g, b);
      assert !b.state.IsTerminal();
      hide Backfilled;
      EntryFilledAttends(g, o);
      EntryPartlyFilledAttends(g, o);
      EntryClosedAttends(g);
      SLLegCalm(g, o, status);
      SLLegCalm(b, o, status);
      TPLegCalm(g, o, status);
      TPLegCalm(b, o, status);
      CalmAttends(g, b);
      CalmAttends(g, SLLegUpdate(g, o, status));
      CalmAttends(g, TPLegUpdate(g, o, status));
      CalmAttends(b, SLLegUpdate(b, o, status));
      CalmAttends(b, TPLegUpdate(b, o, status));
    }
  }

  lemma PlacementStartAttends(g: Group, partial: bool)
    requires Attended(g) && PlaceLegs(partial) in g.tasks
    ensures Attended(PlacementStarts(g, partial))
  {
    hide Placeable, LegPrices;
  }

  lemma OutcomeAttends(g: Group, sl: Option<BrokerId>, tp: Option<BrokerId>)
    ensures var r := PlacementOutcome(g, sl, tp);
            && r.partial == g.partial && r.history.launches == g.history.launches
            && forall t :: Waits(t) ==> (t in r.tasks <==> t in g.tasks)
  {
    hide Placed, Recorded;
  }

  lemma PlacementEndAttends(g: Group, partial: bool, sl: Option<BrokerId>, tp: Option<BrokerId>)
    requires Attended(g) && AwaitBroker(partial) in g.tasks
    ensures Attended(PlacementEnds(g, partial, sl, tp))
  {
    var d := Done(g, AwaitBroker(partial));
    OutcomeAttends(d, sl, tp);
    var r := PlacementOutcome(d, sl, tp);
    hide PlacementOutcome;
    assert Waits(PlaceLegs(false)) && Waits(AwaitBroker(false)) && Waits(StartTimer) && Waits(Timer);
  }

  lemma PartialEndAttends(g: Group)
    requires Attended(g) && AfterPlacement in g.tasks
    ensures Attended(PartialPlacementEnds(g))
  {
  }

  lemma TimerAttends(g: Group, a: Action)
    requires Attended(g) && Enabled(g, a) && (a.BeginTimer? || a.FireTimer? || a.StopTimer?)
    ensures Attended(Step(g, a))
  {
  }

  lemma QueueCalm(g: Group, wanted: bool, q: BrokerId)
    ensures Calm(g, if wanted then QueueCancel(g, q) else g)
  {
    CalmFields(g, g);
    CalmTasks(g, CancelLeg(q));
    hide Calm, QueueCancel;
  }

  lemma CancelledCalm(g: Group)
    ensures Calm(g, Launch(g.(state := Cancelled), Cleanup))
  {
    var g1 := g.(state := Cancelled);
    CalmFields(g, g1);
    CalmTasks(g1, Cleanup);
    hide Calm, Launch;
    CalmTransitive(g, g1, Launch(g1, Cleanup));
  }

  lemma UserCancelCalm(g: Group)
    ensures Calm(g, UserCancels(g))
  {
    CalmFields(g, g);
    hide QueueCancel, Launch, Calm;
    if !g.state.IsTerminal() {
      var entry, sl, tp := g.state == PendingEntry && g.plan.entryId != "", g.state.Watching() && g.sl.id != "", g.state.Watching() && g.tp.id != "";
      var g1 := if entry then QueueCancel(g, g.plan.entryId) else g;
      var g2 := if sl then QueueCancel(g1, g.sl.id) else g1;
      var g3 := if tp then QueueCancel(g2, g.tp.id) else g2;
      QueueCalm(g, entry, g.plan.entryId);
      QueueCalm(g1, sl, g.sl.id);
      QueueCalm(g2, tp, g.tp.id);
      CancelledCalm(g3);
      CalmTransitive(g, g1, g2);
      CalmTransitive(g, g2, g3);
      CalmTransitive(g, g3, UserCancels(g));
    }
  }

  lemma TaskEndCalm(g: Group, a: Action)
    requires a.FinishCancel? || a.FinishModify? || a.FinishTrail? || a.CleanUp? || a.CancelRemainder?
    ensures Calm(g, Step(g, a))
  {
    var t := if a.CancelRemainder? then CancelRemaining else Finished(a);
    CalmTasks(g, t);
    CalmFields(Done(g, t), Step(g, a));
    hide Calm;
    CalmTransitive(g, Done(g, t), Step(g, a));
  }

  lemma TrailCalm(g: Group, ltp: real)
    ensures Calm(g, Trailed(g, ltp))
  {
    CalmFields(g, g);
    hide TrailedLimit, Launch, Calm;
    if CalculateTrailingSL(StopView(g), ltp).Some? {
      assert g.prices.highest > 0.0;
      hide CalculateTrailingSL;
      CalmTasks(g, ModifySL(CalculateTrailingSL(StopView(g), ltp).value, TrailedLimit(g, ltp), ltp));
    }
  }

  lemma StepAttends(g: Group, a: Action)
    requires Invariant(g) && Attended(g) && Enabled(g, a)
    ensures Attended(Step(g, a))
  {
    hide Invariant, Attended, Calm;
    match a
    case Update(o, status) => UpdateAttends(g, o, status);
    case BeginPlacement(partial) => PlacementStartAttends(g, partial);
    case EndPlacement(partial, sl, tp) => PlacementEndAttends(g, partial, sl, tp);
    case EndPartialPlacement => PartialEndAttends(g);
    case UserCancel =>
      UserCancelCalm(g);
      CalmAttends(g, UserCancels(g));
    case Trail(ltp) =>
      TrailCalm(g, ltp);
      CalmAttends(g, Trailed(g, ltp));
    case _ =>
      if a.BeginTimer? || a.FireTimer? || a.StopTimer? {
        TimerAttends(g, a);
      } else {
        TaskEndCalm(g, a);
        hide Step;
        CalmAttends(g, Step(g, a));
      }
  }

  /** In every run a group that waits for the rest of a partial fill, and has not ended,
      has its timer running or on its way; once told to stop, a timer has nothing left
      to do. */
  lemma {:induction false} WaitingIsAttended(plan: Plan, actions: seq<Action>)
    requires Possible(NewGroup(plan), actions)
    ensures Attended(Run(NewGroup(plan), actions))
  {
    hide Attended, Step, Enabled;
    if actions == [] {
      NewIsAttended(plan);
    } else {
      var n := |actions| - 1;
      WaitingIsAttended(plan, actions[..n]);
      Lifecycle(plan, actions[..n]);
      hide Invariant;
      StepAttends(Run(NewGroup(plan), actions[..n]), actions[n]);
    }
  }

  lemma NewIsAttended(plan: Plan)
    ensures Attended(Run(NewGroup(plan), []))
  {
  }
}

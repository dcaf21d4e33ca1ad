/** The one-cancels-other protocol of a single group: an entry order whose fill is
    protected by a stop-loss leg and a take-profit leg.

    Every critical section of the manager is one step.  Goroutines the manager
    starts are outstanding tasks of the group; a task runs at any later time, so a
    run interleaves broker events, placement results, cancel completions, the
    partial-fill timer and the user's cancellation in every order.
 */
module Oco {
  import opened Orders
  import opened TickRounding
  import opened TrailingStop

  /** An order id given by the broker; empty while there is none. */
  type BrokerId = string

  datatype OcoState =
    | PendingEntry | PlacingLegs | LegsSubmitted | Active | SLTriggered | TPTriggered | Completed | Failed | Cancelled
  {
    predicate IsTerminal() {
      Completed? || Failed? || Cancelled?
    }

    /** Both legs are at the broker and neither has executed. */
    predicate Watching() {
      Active? || LegsSubmitted?
    }
  }

  datatype Role = Entry | SLLeg | TPLeg

  /** A goroutine the manager has started for a group. */
  datatype Task =
    | PlaceLegs(partial: bool)
    | AwaitBroker(partial: bool)
    | AfterPlacement
    | StartTimer
    | Timer
    | CancelRemaining
    | CancelLeg(id: BrokerId)
    | ModifyLegs(qty: int)
    | ModifySL(trigger: real, limit: real, highest: real)
    | Cleanup

  /** What acting on a leg's execution left behind: the other leg's id. */
  datatype Exit = Exit(leg: Role, otherId: BrokerId)

  /** Counted along the way, never read by a step. */
  datatype History = History(
    launches: nat,            // leg placements started
    exits: seq<Exit>,         // entries into SL_TRIGGERED or TP_TRIGGERED
    pnlWrites: nat,
    timeouts: nat,            // timer expiries that decided to cancel the remainder
    remainderCancels: nat,    // requests to cancel the remainder
    entryClosed: bool,        // a full fill or a cancellation of the entry was acted on
    entryFilled: bool,        // it was a full fill
    stop: Option<real>,       // trigger the stop-loss leg was placed with
    cancels: set<BrokerId>)   // legs whose cancellation was queued

  /** Set when the group is created. */
  datatype Plan = Plan(
    entryId: BrokerId, side: Side, slPercent: real, tpPercent: real, trailing: bool, trailingPct: real, quantity: int)

  datatype Leg = Leg(id: BrokerId, confirmed: bool)

  datatype Prices = Prices(fill: real, highest: real, slTrigger: real, slLimit: real, tpLimit: real)

  /** The entry's fill, and the wait for the rest of a partial one. */
  datatype Partial = Partial(filledQty: int, waiting: bool, timerStarted: bool, timerArmed: bool, timerStopped: bool)

  datatype Group = Group(
    state: OcoState, plan: Plan, sl: Leg, tp: Leg, prices: Prices, partial: Partial, pnl: real,
    tasks: multiset<Task>, history: History)

  /** A broker status, as the handlers tell them apart. */
  datatype Status = Confirmed | Executed | PartlyFilled | Rejected | CancelledByBroker | OtherStatus

  function Classify(status: string): Status {
    if status in {"EXECUTED", "TRADED"} then Executed
    else if status in {"PARTIALLY TRADED", "PARTIALLY EXECUTED", "PARTIALLY_FILLED"} then PartlyFilled
    else if status in {"REJECTED", "A.REJECTED"} then Rejected
    else if status == "CANCELLED" then CancelledByBroker
    else if status in {"PENDING", "OPEN", "TRIGGER PENDING", "TRIGGER_PENDING", "AFTER MARKET ORDER REQ RECEIVED"} then Confirmed
    else OtherStatus
  }

  /** An order as it comes with a broker event. */
  datatype Order = Order(
    id: BrokerId, role: Option<Role>, filledPrice: Option<real>, price: Option<real>, filledQty: int)

  function NoHistory(): History {
    History(0, [], 0, 0, 0, false, false, None, {})
  }

  function NewGroup(plan: Plan): Group {
    Group(PendingEntry, plan, Leg("", false), Leg("", false), Prices(0.0, 0.0, 0.0, 0.0, 0.0),
          Partial(0, false, false, false, false), 0.0, multiset{}, NoHistory())
  }

  // ---- Prices ----

  function SLTriggerPrice(side: Side, fill: real, pct: real): real {
    RoundNSE(if side.Buy? then fill * (1.0 - pct / 100.0) else fill * (1.0 + pct / 100.0))
  }

  /** The limit leaves half a percent beyond the unrounded trigger. */
  function SLLimitPrice(side: Side, fill: real, pct: real): real {
    RoundNSE(if side.Buy? then fill * (1.0 - pct / 100.0) * (1.0 - 0.005) else fill * (1.0 + pct / 100.0) * (1.0 + 0.005))
  }

  function TPLimitPrice(side: Side, fill: real, pct: real): real {
    RoundNSE(if side.Buy? then fill * (1.0 + pct / 100.0) else fill * (1.0 - pct / 100.0))
  }

  predicate LossSide(side: Side, price: real, fill: real) {
    if side.Buy? then price < fill else price > fill
  }

  /** Legs are placed only when one is enabled and each enabled one lies on its own
      side of the fill after rounding. */
  predicate Placeable(plan: Plan, fill: real) {
    && (plan.slPercent > 0.0 || plan.tpPercent > 0.0)
    && (plan.slPercent > 0.0 ==> LossSide(plan.side, SLTriggerPrice(plan.side, fill, plan.slPercent), fill))
    && (plan.tpPercent > 0.0 ==> LossSide(plan.side, fill, TPLimitPrice(plan.side, fill, plan.tpPercent)))
  }

  function FillPrice(o: Order): real {
    if o.filledPrice.Some? && o.filledPrice.value > 0.0 then o.filledPrice.value
    else if o.price.Some? && o.price.value > 0.0 then o.price.value
    else 0.0
  }

  function Pnl(g: Group, exitPrice: real): real {
    var qty := if g.partial.filledQty > 0 then g.partial.filledQty else g.plan.quantity;
    (if g.plan.side.Buy? then exitPrice - g.prices.fill else g.prices.fill - exitPrice) * qty as real
  }

  // ---- Tasks ----

  function Launch(g: Group, t: Task): Group {
    g.(tasks := g.tasks + multiset{t})
  }

  function Done(g: Group, t: Task): Group {
    g.(tasks := g.tasks - multiset{t})
  }

  function QueueCancel(g: Group, id: BrokerId): Group {
    Launch(g, CancelLeg(id)).(history := g.history.(cancels := g.history.cancels + {id}))
  }

  // ---- Broker events ----

  /** The wait is over and its timer, once armed, is told to stop. */
  function WaitEnded(p: Partial): Partial {
    p.(waiting := false, timerStarted := false, timerArmed := false, timerStopped := p.timerStopped || p.timerArmed)
  }

  function Closed(g: Group): Group {
    g.(history := g.history.(entryClosed := true))
  }

  function FullyFilled(g: Group): Group {
    g.(history := g.history.(entryClosed := true, entryFilled := true))
  }

  /** A first fill at `price` starts the placement of the legs. */
  function FirstFill(g: Group, price: real, partial: Partial, waits: bool): Group {
    Launch(g.(state := PlacingLegs, partial := partial, prices := g.prices.(fill := price, highest := price),
              history := g.history.(launches := g.history.launches + 1)),
           PlaceLegs(waits))
  }

  function EntryFilled(g: Group, o: Order): Group {
    if g.partial.waiting then
      Launch(FullyFilled(g).(partial := WaitEnded(g.partial).(filledQty := g.plan.quantity)), ModifyLegs(g.plan.quantity))
    else if g.state != PendingEntry then g
    else if FillPrice(o) <= 0.0 then FullyFilled(g).(state := Failed)
    else FirstFill(FullyFilled(g), FillPrice(o), g.partial.(filledQty := g.plan.quantity), false)
  }

  function EntryPartlyFilled(g: Group, o: Order): Group {
    if o.filledQty <= 0 then g
    else if g.state == PendingEntry && !g.partial.waiting then
      if FillPrice(o) <= 0.0 then g
      else FirstFill(g, FillPrice(o), g.partial.(filledQty := o.filledQty, waiting := true), true)
    else if g.partial.waiting then Launch(g.(partial := g.partial.(filledQty := o.filledQty)), ModifyLegs(o.filledQty))
    else g
  }

  /** The entry was rejected or cancelled: legs already placed for a partial fill
      are kept, provided the manager still waits for the rest. */
  function EntryClosed(g: Group): Group {
    if g.partial.waiting then Closed(g).(partial := WaitEnded(g.partial))
    else Launch(Closed(g).(state := Failed), Cleanup)
  }

  function EntryUpdate(g: Group, o: Order, status: Status): Group {
    match status
    case Executed => EntryFilled(g, o)
    case PartlyFilled => EntryPartlyFilled(g, o)
    case Rejected => EntryClosed(g)
    case CancelledByBroker => EntryClosed(g)
    case _ => g
  }

  function CheckLegsConfirmed(g: Group): Group {
    if g.state == LegsSubmitted && (g.sl.confirmed || g.sl.id == "") && (g.tp.confirmed || g.tp.id == "")
    then g.(state := Active)
    else g
  }

  /** A leg executed, in full (`price`, if the event carries one) or in part. */
  function LegExit(g: Group, leg: Role, state: OcoState, otherId: BrokerId, price: Option<real>): Group {
    g.(state := state,
       pnl := if price.Some? then Pnl(g, price.value) else g.pnl,
       history := g.history.(exits := g.history.exits + [Exit(leg, otherId)],
                             pnlWrites := g.history.pnlWrites + if price.Some? then 1 else 0))
  }

  function SLLegUpdate(g: Group, o: Order, status: Status): Group {
    match status
    case Confirmed => if g.sl.confirmed then g else CheckLegsConfirmed(g.(sl := g.sl.(confirmed := true)))
    case Executed =>
      if !g.state.Watching() then g
      else if g.tp.id != "" then QueueCancel(LegExit(g, SLLeg, SLTriggered, g.tp.id, o.filledPrice), g.tp.id)
      else LegExit(g, SLLeg, Completed, g.tp.id, o.filledPrice)
    case Rejected => Launch(QueueCancel(g.(state := Failed), g.tp.id), Cleanup)
    case PartlyFilled =>
      if !g.state.Watching() then g else QueueCancel(LegExit(g, SLLeg, SLTriggered, g.tp.id, None), g.tp.id)
    case CancelledByBroker =>
      if !g.state.Watching() then g else Launch(QueueCancel(g.(state := Cancelled), g.tp.id), Cleanup)
    case OtherStatus => g
  }

  /** A rejected take-profit leg changes nothing: the stop-loss still protects. */
  function TPLegUpdate(g: Group, o: Order, status: Status): Group {
    match status
    case Confirmed => if g.tp.confirmed then g else CheckLegsConfirmed(g.(tp := g.tp.(confirmed := true)))
    case Executed =>
      if !g.state.Watching() then g
      else if g.sl.id != "" then QueueCancel(LegExit(g, TPLeg, TPTriggered, g.sl.id, o.filledPrice), g.sl.id)
      else LegExit(g, TPLeg, Completed, g.sl.id, o.filledPrice)
    case Rejected => g
    case PartlyFilled =>
      if !g.state.Watching() then g else QueueCancel(LegExit(g, TPLeg, TPTriggered, g.sl.id, None), g.sl.id)
    case CancelledByBroker =>
      if !g.state.Watching() then g else Launch(QueueCancel(g.(state := Cancelled), g.sl.id), Cleanup)
    case OtherStatus => g
  }

  /** An event for a leg whose id the placement has not recorded yet is routed by
      the role in the database, and its id is kept. */
  function Backfilled(g: Group, o: Order): Group {
    if o.role == Some(SLLeg) && g.sl.id == "" then g.(sl := g.sl.(id := o.id))
    else if o.role == Some(TPLeg) && g.tp.id == "" then g.(tp := g.tp.(id := o.id))
    else g
  }

  function BrokerUpdate(g: Group, o: Order, status: Status): Group {
    if g.state.IsTerminal() then g
    else if o.id == g.plan.entryId then EntryUpdate(g, o, status)
    else if o.id == g.sl.id then SLLegUpdate(g, o, status)
    else if o.id == g.tp.id then TPLegUpdate(g, o, status)
    else if o.role == Some(SLLeg) then SLLegUpdate(Backfilled(g, o), o, status)
    else if o.role == Some(TPLeg) then TPLegUpdate(Backfilled(g, o), o, status)
    else g
  }

  // ---- Placement ----

  function LegPrices(plan: Plan, p: Prices): Prices {
    var p := if plan.slPercent <= 0.0 then p
             else p.(slTrigger := SLTriggerPrice(plan.side, p.fill, plan.slPercent),
                     slLimit := SLLimitPrice(plan.side, p.fill, plan.slPercent));
    if plan.tpPercent <= 0.0 then p else p.(tpLimit := TPLimitPrice(plan.side, p.fill, plan.tpPercent))
  }

  /** A disabled leg counts as confirmed. */
  function PlacementStarts(g: Group, partial: bool): Group {
    var g, plan := Done(g, PlaceLegs(partial)), g.plan;
    if !Placeable(plan, g.prices.fill) then PlacementOver(g.(state := Failed), partial)
    else
      var prices := LegPrices(plan, g.prices);
      Launch(g.(prices := prices,
                sl := g.sl.(confirmed := g.sl.confirmed || plan.slPercent <= 0.0),
                tp := g.tp.(confirmed := g.tp.confirmed || plan.tpPercent <= 0.0),
                history := g.history.(stop := if plan.slPercent > 0.0 then Some(prices.slTrigger) else None)),
             AwaitBroker(partial))
  }

  /** After a placement for a partial fill its goroutine goes on to the timer. */
  function PlacementOver(g: Group, partial: bool): Group {
    if partial then Launch(g, AfterPlacement) else g
  }

  /** The id a leg was placed under: empty when it is disabled or was refused. */
  function Placed(enabled: bool, result: Option<BrokerId>): BrokerId {
    if enabled && result.Some? then result.value else ""
  }

  function Recorded(leg: Leg, id: BrokerId): Leg {
    if id != "" then Leg(id, true) else leg
  }

  /** The broker's answers for the enabled legs, None after the last failed try. */
  function PlacementOutcome(g: Group, slResult: Option<BrokerId>, tpResult: Option<BrokerId>): Group {
    var hasSL, hasTP := g.plan.slPercent > 0.0, g.plan.tpPercent > 0.0;
    var sl, tp := Placed(hasSL, slResult), Placed(hasTP, tpResult);
    if hasSL && slResult.None? && hasTP && tpResult.None? then Launch(g.(state := Failed), Cleanup)
    else if hasSL && slResult.None? then
      QueueCancel(g.(tp := g.tp.(id := if tp != "" then tp else g.tp.id), state := Failed), tp)
    else if hasTP && tpResult.None? then
      CheckLegsConfirmed(g.(sl := Recorded(g.sl, sl), tp := g.tp.(confirmed := true), state := LegsSubmitted))
    else CheckLegsConfirmed(g.(sl := Recorded(g.sl, sl), tp := Recorded(g.tp, tp), state := LegsSubmitted))
  }

  function PlacementEnds(g: Group, partial: bool, slResult: Option<BrokerId>, tpResult: Option<BrokerId>): Group {
    PlacementOver(PlacementOutcome(Done(g, AwaitBroker(partial)), slResult, tpResult), partial)
  }

  // ---- Timer, cancellations, modifies ----

  function PartialPlacementEnds(g: Group): Group {
    var g := Done(g, AfterPlacement);
    if g.state != Failed && g.partial.waiting && !g.partial.timerStarted
    then Launch(g.(partial := g.partial.(timerStarted := true)), StartTimer)
    else g
  }

  function TimerStarts(g: Group): Group {
    Launch(Done(g, StartTimer).(partial := g.partial.(timerArmed := true)), Timer)
  }

  function TimerFires(g: Group): Group {
    var g := Done(g, Timer);
    if !g.partial.waiting then g
    else
      Launch(g.(partial := g.partial.(waiting := false, timerStarted := false, timerArmed := false),
                history := g.history.(timeouts := g.history.timeouts + 1)),
             CancelRemaining)
  }

  /** `cancelEntryRemaining`: a request to the broker, no change of state. */
  function RemainderCancelled(g: Group): Group {
    var g := Done(g, CancelRemaining);
    if g.plan.entryId == "" then g
    else g.(history := g.history.(remainderCancels := g.history.remainderCancels + 1))
  }

  /** `cancelLeg`: completes the group whether or not the broker accepted. */
  function LegCancelled(g: Group, id: BrokerId): Group {
    var g := Done(g, CancelLeg(id));
    if id == "" then g else g.(state := Completed)
  }

  function LegsModified(g: Group, qty: int): Group {
    Done(g, ModifyLegs(qty)).(partial := g.partial.(filledQty := qty))
  }

  function UserCancels(g: Group): Group {
    if g.state.IsTerminal() then g
    else
      var g1 := if g.state == PendingEntry && g.plan.entryId != "" then QueueCancel(g, g.plan.entryId) else g;
      var g2 := if g.state.Watching() && g.sl.id != "" then QueueCancel(g1, g.sl.id) else g1;
      var g3 := if g.state.Watching() && g.tp.id != "" then QueueCancel(g2, g.tp.id) else g2;
      Launch(g3.(state := Cancelled), Cleanup)
  }

  function StopView(g: Group): OcoStop {
    OcoStop(g.plan.side, g.plan.trailing, g.state.Active?, g.plan.trailingPct, g.prices.highest, g.prices.slTrigger, 0)
  }

  /** The limit that goes with a trailed trigger, from the trigger before rounding. */
  function TrailedLimit(g: Group, ltp: real): real
    requires g.prices.highest > 0.0
  {
    RoundNSE(Proportional(g.prices.slTrigger, ltp, g.prices.highest) * (if g.plan.side.Buy? then 1.0 - 0.005 else 1.0 + 0.005))
  }

  /** `evaluateTrailing`: the new trigger is computed under the lock, which is then
      released; the modify takes it again. */
  function Trailed(g: Group, ltp: real): Group {
    match CalculateTrailingSL(StopView(g), ltp)
    case None => g
    case Some(trigger) => Launch(g, ModifySL(trigger, TrailedLimit(g, ltp), ltp))
  }

  /** `ModifySLLeg`; `accepted` is the broker's answer. */
  function SLModified(g: Group, trigger: real, limit: real, highest: real, accepted: bool): Group {
    var g := Done(g, ModifySL(trigger, limit, highest));
    if g.state != Active || g.sl.id == "" || !accepted then g
    else g.(prices := g.prices.(slTrigger := trigger, slLimit := limit, highest := if highest > 0.0 then highest else g.prices.highest))
  }

  // ---- Steps and runs ----

  datatype Action =
    | Update(order: Order, status: Status)
    | BeginPlacement(partial: bool)
    | EndPlacement(partial: bool, sl: Option<BrokerId>, tp: Option<BrokerId>)
    | EndPartialPlacement
    | BeginTimer
    | FireTimer
    | StopTimer
    | CancelRemainder
    | FinishCancel(id: BrokerId)
    | FinishModify(qty: int)
    | UserCancel
    | Trail(ltp: real)
    | FinishTrail(trigger: real, limit: real, highest: real, accepted: bool)
    | CleanUp

  /** A task can run when it is outstanding; the timer's goroutine can stop once its
      context is cancelled; events and requests can come at any time. */
  predicate Enabled(g: Group, a: Action) {
    match a
    case BeginPlacement(partial) => PlaceLegs(partial) in g.tasks
    case EndPlacement(partial, _, _) => AwaitBroker(partial) in g.tasks
    case EndPartialPlacement => AfterPlacement in g.tasks
    case BeginTimer => StartTimer in g.tasks
    case FireTimer => Timer in g.tasks
    case StopTimer => Timer in g.tasks && g.partial.timerStopped
    case CancelRemainder => CancelRemaining in g.tasks
    case FinishCancel(id) => CancelLeg(id) in g.tasks
    case FinishModify(qty) => ModifyLegs(qty) in g.tasks
    case FinishTrail(trigger, limit, highest, _) => ModifySL(trigger, limit, highest) in g.tasks
    case CleanUp => Cleanup in g.tasks
    case _ => true
  }

  function Step(g: Group, a: Action): Group {
    match a
    case Update(o, status) => BrokerUpdate(g, o, status)
    case BeginPlacement(partial) => PlacementStarts(g, partial)
    case EndPlacement(partial, sl, tp) => PlacementEnds(g, partial, sl, tp)
    case EndPartialPlacement => PartialPlacementEnds(g)
    case BeginTimer => TimerStarts(g)
    case FireTimer => TimerFires(g)
    case StopTimer => Done(g, Timer)
    case CancelRemainder => RemainderCancelled(g)
    case FinishCancel(id) => LegCancelled(g, id)
    case FinishModify(qty) => LegsModified(g, qty)
    case UserCancel => UserCancels(g)
    case Trail(ltp) => Trailed(g, ltp)
    case FinishTrail(trigger, limit, highest, accepted) => SLModified(g, trigger, limit, highest, accepted)
    case CleanUp => Done(g, Cleanup)
  }

  predicate Possible(g: Group, actions: seq<Action>) {
    actions == [] || (Possible(g, actions[..|actions| - 1]) && Enabled(Run(g, actions[..|actions| - 1]), actions[|actions| - 1]))
  }

  function Run(g: Group, actions: seq<Action>): Group {
    if actions == [] then g else Step(Run(g, actions[..|actions| - 1]), actions[|actions| - 1])
  }
}

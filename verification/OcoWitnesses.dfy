/** Reachable runs in which an OCO group does not do what one would expect; the
    lemmas that say exactly when are in OcoLifecycle and OcoTrailing. */
module OcoWitnesses {
  import opened Orders
  import opened TickRounding
  import opened TrailingStop
  import opened Oco

  ghost predicate Next(g: Group, a: Action, g': Group) {
    Enabled(g, a) && g' == Step(g, a)
  }

  const EXAMPLE := Plan("E", Buy, 2.0, 3.0, true, 0.1, 100)

  function FullFill(): Action {
    Update(Order("E", None, Some(100.0), None, 100), Executed)
  }

  function PartialFill(): Action {
    Update(Order("E", None, Some(100.0), None, 40), PartlyFilled)
  }

  function BothPlaced(partial: bool): Action {
    EndPlacement(partial, Some("S"), Some("T"))
  }

  lemma ExamplePrices()
    ensures Placeable(EXAMPLE, 100.0)
    ensures SLTriggerPrice(Buy, 100.0, 2.0) == 98.0
  {
    RoundNSEFixesGrid(1960);
    RoundNSEFixesGrid(2060);
  }

  /** The part of a group the runs below follow. */
  ghost predicate Looks(g: Group, state: OcoState, task: Task, waiting: bool) {
    && g.plan == EXAMPLE && g.state == state && task in g.tasks && g.partial.waiting == waiting
    && !g.partial.timerStarted && g.sl.id == "" && g.tp.id == "" && g.history.cancels == {}
    && g.prices.fill == 100.0 && g.prices.highest == 100.0 && (task.AwaitBroker? ==> g.prices.slTrigger == 98.0)
  }

  ghost predicate Armed(g: Group, waiting: bool) {
    && g.plan == EXAMPLE && g.state == Active && g.sl.id == "S" && g.tp.id == "T" && g.partial.waiting == waiting
    && g.history.cancels == {} && g.prices.slTrigger == 98.0 && g.prices.highest == 100.0
  }

  lemma Filled()
    ensures Looks(Step(NewGroup(EXAMPLE), FullFill()), PlacingLegs, PlaceLegs(false), false)
    ensures Looks(Step(NewGroup(EXAMPLE), PartialFill()), PlacingLegs, PlaceLegs(true), true)
  {
  }

  lemma Began(g: Group, partial: bool, waiting: bool)
    requires Looks(g, PlacingLegs, PlaceLegs(partial), waiting)
    ensures Looks(Step(g, BeginPlacement(partial)), PlacingLegs, AwaitBroker(partial), waiting)
  {
    ExamplePrices();
    hide SLTriggerPrice, SLLimitPrice, TPLimitPrice, Placeable;
  }

  lemma CancelGranted(g: Group)
    requires Looks(g, PlacingLegs, AwaitBroker(false), false)
    ensures Looks(Step(g, UserCancel), Cancelled, AwaitBroker(false), false)
  {
  }

  lemma Ended(g: Group, state: OcoState, partial: bool, waiting: bool)
    requires Looks(g, state, AwaitBroker(partial), waiting)
    ensures Armed(Step(g, BothPlaced(partial)), waiting)
    ensures partial ==> AfterPlacement in Step(g, BothPlaced(partial)).tasks && !Step(g, BothPlaced(partial)).partial.timerStarted
  {
  }

  lemma ToBroker(a: Action, partial: bool) returns (filled: Group, g: Group)
    requires a == if partial then PartialFill() else FullFill()
    ensures Next(NewGroup(EXAMPLE), a, filled) && Next(filled, BeginPlacement(partial), g)
    ensures Looks(g, PlacingLegs, AwaitBroker(partial), partial)
  {
    Filled();
    filled := Step(NewGroup(EXAMPLE), a);
    hide Step;
    assert PlaceLegs(partial) in filled.tasks;
    hide Looks;
    g := Step(filled, BeginPlacement(partial));
    Began(filled, partial, partial);
  }

  /** A group whose cancellation the user was granted while its legs were being
      placed ends up active, both legs live and no cancellation queued. */
  lemma GrantedCancelIsLost() returns (filled: Group, placing: Group, cancelled: Group, end: Group)
    ensures Next(NewGroup(EXAMPLE), FullFill(), filled) && Next(filled, BeginPlacement(false), placing)
    ensures Next(placing, UserCancel, cancelled) && cancelled.state == Cancelled
    ensures Next(cancelled, BothPlaced(false), end) && Armed(end, false)
  {
    hide Step, NewGroup, Looks, Armed;
    filled, placing := ToBroker(FullFill(), false);
    CancelGranted(placing);
    cancelled := Step(placing, UserCancel);
    TaskOf(cancelled, Cancelled, AwaitBroker(false), false);
    Ended(cancelled, Cancelled, false, false);
    end := Step(cancelled, BothPlaced(false));
  }

  lemma TaskOf(g: Group, state: OcoState, task: Task, waiting: bool)
    requires Looks(g, state, task, waiting)
    ensures task in g.tasks && g.state == state
  {
  }

  lemma TimerSteps(g: Group) returns (started: Group, armed: Group, fired: Group)
    requires Armed(g, true) && AfterPlacement in g.tasks && !g.partial.timerStarted
    ensures Next(g, EndPartialPlacement, started) && Next(started, BeginTimer, armed)
    ensures Next(armed, FireTimer, fired) && Armed(fired, false) && CancelRemaining in fired.tasks
  {
    started := Step(g, EndPartialPlacement);
    assert Armed(started, true) && StartTimer in started.tasks;
    armed := Step(started, BeginTimer);
    assert Armed(armed, true) && Timer in armed.tasks;
    fired := Step(armed, FireTimer);
  }

  function Ack(): Action {
    Update(Order("E", None, None, None, 40), CancelledByBroker)
  }

  lemma AckFails(g: Group)
    requires Armed(g, false)
    ensures Step(g, Ack()).state == Failed && Step(g, Ack()).history.cancels == {}
    ensures Step(g, Ack()).sl.id == "S" && Step(g, Ack()).tp.id == "T"
    ensures Step(g, Ack()).history.entryClosed && Step(g, Ack()).plan == EXAMPLE
    ensures CancelRemaining in g.tasks ==> CancelRemaining in Step(g, Ack()).tasks
  {
  }

  /** A partial fill times out, the broker acknowledges the cancellation of the rest,
      and the group fails with both legs live and no cancellation queued. */
  lemma TimedOutGroupFails()
    returns (filled: Group, placing: Group, placed: Group, started: Group, armed: Group, fired: Group, end: Group)
    ensures Next(NewGroup(EXAMPLE), PartialFill(), filled) && Next(filled, BeginPlacement(true), placing)
    ensures Next(placing, BothPlaced(true), placed) && Next(placed, EndPartialPlacement, started)
    ensures Next(started, BeginTimer, armed) && Next(armed, FireTimer, fired)
    ensures Next(fired, Ack(), end)
    ensures end.state == Failed && end.sl.id == "S" && end.tp.id == "T" && end.history.cancels == {}
    ensures end.history.entryClosed && end.plan == EXAMPLE && CancelRemaining in end.tasks
  {
    filled, placing := ToBroker(PartialFill(), true);
    hide Step;
    Ended(placing, PlacingLegs, true, true);
    placed := Step(placing, BothPlaced(true));
    started, armed, fired := TimerSteps(placed);
    hide Looks;
    AckFails(fired);
    end := Step(fired, Ack());
  }

  /** The same run one step on: the timer's request goes out although the entry's
      cancellation has been acted on. */
  lemma RequestAfterClose()
    returns (filled: Group, placing: Group, placed: Group, started: Group, armed: Group, fired: Group, closed: Group, end: Group)
    ensures Next(NewGroup(EXAMPLE), PartialFill(), filled) && Next(filled, BeginPlacement(true), placing)
    ensures Next(placing, BothPlaced(true), placed) && Next(placed, EndPartialPlacement, started)
    ensures Next(started, BeginTimer, armed) && Next(armed, FireTimer, fired)
    ensures Next(fired, Ack(), closed) && closed.history.entryClosed
    ensures Next(closed, CancelRemainder, end) && end.history.remainderCancels == closed.history.remainderCancels + 1
  {
    hide Step, NewGroup, Next;
    filled, placing, placed, started, armed, fired, closed := TimedOutGroupFails();
    end := Requested(closed);
  }

  lemma Requested(g: Group) returns (end: Group)
    requires CancelRemaining in g.tasks && g.plan == EXAMPLE
    ensures Next(g, CancelRemainder, end) && end.history.remainderCancels == g.history.remainderCancels + 1
  {
    end := RemainderCancelled(g);
  }

  lemma ExampleTrail()
    ensures RoundNSE(98.98) == 99.0 && RoundNSE(102.9) == 102.9
  {
  }

  lemma TrailTo(g: Group, ltp: real, raw: real)
    requires g.plan == EXAMPLE && g.state == Active && g.prices.slTrigger == 98.0 && g.prices.highest == 100.0
    requires (ltp == 101.0 && raw == 98.98) || (ltp == 105.0 && raw == 102.9)
    ensures CalculateTrailingSL(StopView(g), ltp) == Some(RoundNSE(raw))
  {
    hide RoundNSE;
  }

  /** A tick on the example group leaves one more modify outstanding and no other
      change. */
  lemma TrailedBy(g: Group, ltp: real, trigger: real) returns (limit: real)
    requires g.plan == EXAMPLE && g.state == Active && g.prices.slTrigger == 98.0 && g.prices.highest == 100.0
    requires (ltp == 101.0 && trigger == 99.0) || (ltp == 105.0 && trigger == 102.9)
    ensures Step(g, Trail(ltp)) == g.(tasks := g.tasks + multiset{ModifySL(trigger, limit, ltp)})
  {
    ExampleTrail();
    TrailTo(g, ltp, if ltp == 101.0 then 98.98 else 102.9);
    limit := TrailedLimit(g, ltp);
    hide RoundNSE, CalculateTrailingSL, TrailedLimit;
  }

  lemma Accepted(g: Group, trigger: real, limit: real, ltp: real)
    requires g.state == Active && g.sl.id != "" && ltp > 0.0
    ensures Step(g, FinishTrail(trigger, limit, ltp, true)) ==
              g.(tasks := g.tasks - multiset{ModifySL(trigger, limit, ltp)},
                 prices := g.prices.(slTrigger := trigger, slLimit := limit, highest := ltp))
  {
  }

  /** From an armed group: two ticks whose modifies reach the broker in the other
      order. */
  lemma Race(g: Group) returns (g1: Group, g2: Group, low: real, high: real, tight: Group, loose: Group)
    requires Armed(g, false)
    ensures Next(g, Trail(101.0), g1) && Next(g1, Trail(105.0), g2)
    ensures Next(g2, FinishTrail(102.9, high, 105.0, true), tight) && tight.prices.slTrigger == 102.9
    ensures Next(tight, FinishTrail(99.0, low, 101.0, true), loose) && loose.prices.slTrigger == 99.0
  {
    low := TrailedBy(g, 101.0, 99.0);
    g1 := Step(g, Trail(101.0));
    high := TrailedBy(g1, 105.0, 102.9);
    g2 := Step(g1, Trail(105.0));
    Accepted(g2, 102.9, high, 105.0);
    tight := Step(g2, FinishTrail(102.9, high, 105.0, true));
    Accepted(tight, 99.0, low, 101.0);
    loose := Step(tight, FinishTrail(99.0, low, 101.0, true));
    hide Step;
  }

  /** From a new group: two ticks whose modifies reach the broker in the other order
      loosen a trailing stop, which moves back from 102.9 to 99. */
  lemma RacingModifiesLoosen()
    returns (filled: Group, placing: Group, placed: Group, g1: Group, g2: Group, low: real, high: real, tight: Group, loose: Group)
    ensures Next(NewGroup(EXAMPLE), FullFill(), filled) && Next(filled, BeginPlacement(false), placing)
    ensures Next(placing, BothPlaced(false), placed)
    ensures Next(placed, Trail(101.0), g1) && Next(g1, Trail(105.0), g2)
    ensures Next(g2, FinishTrail(102.9, high, 105.0, true), tight) && tight.prices.slTrigger == 102.9
    ensures Next(tight, FinishTrail(99.0, low, 101.0, true), loose) && loose.prices.slTrigger == 99.0
  {
    filled, placing := ToBroker(FullFill(), false);
    hide Step, NewGroup;
    Ended(placing, PlacingLegs, false, false);
    placed := Step(placing, BothPlaced(false));
    EnabledBroker(placing, false);
    hide Looks, Armed, Enabled;
    g1, g2, low, high, tight, loose := Race(placed);
  }

  lemma EnabledBroker(g: Group, partial: bool)
    requires AwaitBroker(partial) in g.tasks
    ensures Enabled(g, BothPlaced(partial))
  {
  }
}

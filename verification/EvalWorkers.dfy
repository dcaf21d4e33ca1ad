/** The shared worker pool that evaluates paper groups on ticks, at the
    granularity of its locks and its compare-and-swap.

    Any number of workers take (group, price) jobs from a queue.  A worker claims
    the group by compare-and-swap and drops the job when that fails; the rest of
    the evaluation is one lock or atomic access at a time.  The module proves that
    every interleaving behaves like a sequential run of the jobs that were not
    dropped.
 */
module EvalWorkers {
  import opened Orders
  import opened Apportionment
  import opened MultiLevel
  import opened PaperExits

  datatype Job = Job(group: nat, ltp: real)

  /** Where a worker stands; each step performs the named access. */
  datatype PC =
    | Idle
    | AtClaim(job: Job)
    | AtState(job: Job)
    | AtScan(job: Job, t: ExitType, k: nat)
    | AtMark(job: Job, t: ExitType, k: nat)
    | AtQty(job: Job, t: ExitType, k: nat)
    | AtDecrement(job: Job, t: ExitType, k: nat, qty: int)
    | AtRow(job: Job, t: ExitType, k: nat, qty: int, remaining: int)
    | AtCollect(job: Job, t: ExitType, k: nat, remaining: int, m: nat, idx: seq<nat>)
    | AtWrite(job: Job, t: ExitType, k: nat, remaining: int, idx: seq<nat>, qtys: seq<int>, m: nat)
    | AtFinish(job: Job, t: ExitType, k: nat)
    | AtRelease(job: Job)

  /** `base`, `submitted` and `evaluated` are history: each group as of its last
      release, the jobs ever queued, the jobs evaluated in order of release. */
  datatype System = System(
    groups: seq<Group>, claimed: seq<bool>, workers: seq<PC>, queue: multiset<Job>,
    base: seq<Group>, submitted: multiset<Job>, evaluated: seq<Job>)

  predicate Critical(pc: PC) {
    !pc.Idle? && !pc.AtClaim?
  }

  predicate InGroup(pc: PC, j: nat) {
    Critical(pc) && pc.job.group == j
  }

  // ---- Steps inside a claimed evaluation ----

  ghost predicate ScanStep(pc: PC, g: Group, pc': PC, g': Group)
    requires pc.AtScan?
  {
    var levels := g.Levels(pc.t);
    && g' == g
    && pc' == if pc.k >= |levels| then (if pc.t.SL? then AtScan(pc.job, TP, 0) else AtRelease(pc.job))
              else if levels[pc.k].status.LevelActive? && Hit(g.side, pc.t, levels[pc.k].triggerPrice, pc.job.ltp)
              then AtMark(pc.job, pc.t, pc.k)
              else AtScan(pc.job, pc.t, pc.k + 1)
  }

  /** `tryMarkTriggered`: a level no longer active is skipped. */
  ghost predicate MarkStep(pc: PC, g: Group, pc': PC, g': Group)
    requires pc.AtMark?
  {
    && pc.k < |g.Levels(pc.t)|
    && (if g.Levels(pc.t)[pc.k].status.LevelActive?
        then pc' == AtQty(pc.job, pc.t, pc.k) && g' == g.WithLevels(pc.t, Marked(g.Levels(pc.t), pc.k, LevelTriggered, pc.job.ltp))
        else pc' == AtScan(pc.job, pc.t, pc.k + 1) && g' == g)
  }

  ghost predicate QtyStep(pc: PC, g: Group, pc': PC, g': Group)
    requires pc.AtQty?
  {
    && pc.k < |g.Levels(pc.t)| && g' == g
    && pc' == AtDecrement(pc.job, pc.t, pc.k, g.Levels(pc.t)[pc.k].exitQty)
  }

  ghost predicate DecrementStep(pc: PC, g: Group, pc': PC, g': Group)
    requires pc.AtDecrement?
  {
    var remaining := g.remainingQty - pc.qty;
    && g' == g.(remainingQty := remaining, state := if remaining <= 0 then GroupCompleted else g.state)
    && pc' == AtRow(pc.job, pc.t, pc.k, pc.qty, remaining)
  }

  ghost predicate RowStep(pc: PC, g: Group, pc': PC, g': Group)
    requires pc.AtRow?
  {
    && pc.k < |g.Levels(pc.t)|
    && g' == g.(rows := AddRow(g.rows, Row(pc.qty, pc.job.ltp, Some(pc.t), g.Levels(pc.t)[pc.k].levelNum)))
    && pc' == if pc.remaining > 0 then AtCollect(pc.job, pc.t, pc.k, pc.remaining, 0, []) else AtFinish(pc.job, pc.t, pc.k)
  }

  ghost predicate InRange(levels: seq<Level>, idx: seq<nat>) {
    forall k :: 0 <= k < |idx| ==> idx[k] < |levels|
  }

  /** The new quantities a rebalance may compute for the collected levels. */
  ghost predicate NewQtys(levels: seq<Level>, configs: seq<Config>, remaining: int, idx: seq<nat>, qtys: seq<int>)
    requires InRange(levels, idx)
  {
    var pcts := PctsAt(levels, configs, idx);
    && SumReal(pcts) > 0.0
    && IsLargestRemainder(Shares(pcts, SumReal(pcts), remaining), remaining, qtys)
  }

  ghost predicate CollectStep(pc: PC, g: Group, pc': PC, g': Group)
    requires pc.AtCollect?
  {
    var o := Other(pc.t);
    var levels := g.Levels(o);
    && g' == g
    && if pc.m < |levels| then
         pc' == AtCollect(pc.job, pc.t, pc.k, pc.remaining, pc.m + 1,
                          if Participates(levels[pc.m], g.Configs(o)) then pc.idx + [pc.m] else pc.idx)
       else
         && InRange(levels, pc.idx)
         && if pc.idx == [] || SumReal(PctsAt(levels, g.Configs(o), pc.idx)) <= 0.0 then pc' == AtRelease(pc.job)
            else
              && pc'.AtWrite? && NewQtys(levels, g.Configs(o), pc.remaining, pc.idx, pc'.qtys)
              && pc' == AtWrite(pc.job, pc.t, pc.k, pc.remaining, pc.idx, pc'.qtys, 0)
  }

  ghost predicate WriteStep(pc: PC, g: Group, pc': PC, g': Group)
    requires pc.AtWrite?
  {
    var levels := g.Levels(Other(pc.t));
    if pc.m < |pc.idx| then
      && |pc.qtys| == |pc.idx| && InRange(levels, pc.idx)
      && g' == g.WithLevels(Other(pc.t), levels[pc.idx[pc.m] := levels[pc.idx[pc.m]].(exitQty := pc.qtys[pc.m])])
      && pc' == pc.(m := pc.m + 1)
    else g' == g && pc' == AtRelease(pc.job)
  }

  ghost predicate LocalStep(pc: PC, g: Group, pc': PC, g': Group) {
    match pc
    case AtState(job) =>
      && g' == g
      && pc' == if !g.state.GroupActive? then AtRelease(job)
                else AtScan(job, if g.slMode.MultiLevelSL? then SL else TP, 0)
    case AtScan(_, _, _) => ScanStep(pc, g, pc', g')
    case AtMark(_, _, _) => MarkStep(pc, g, pc', g')
    case AtQty(_, _, _) => QtyStep(pc, g, pc', g')
    case AtDecrement(_, _, _, _) => DecrementStep(pc, g, pc', g')
    case AtRow(_, _, _, _, _) => RowStep(pc, g, pc', g')
    case AtCollect(_, _, _, _, _, _) => CollectStep(pc, g, pc', g')
    case AtWrite(_, _, _, _, _, _, _) => WriteStep(pc, g, pc', g')
    case AtFinish(job, _, _) => g' == g.(registered := false) && pc' == AtRelease(job)
    case _ => false
  }

  // ---- What holds at each point of an evaluation that started in `b` ----

  ghost predicate NoHitBefore(b: Group, t: ExitType, ltp: real, k: nat) {
    k <= |b.Levels(t)|
    && forall i :: 0 <= i < k ==> !(b.Levels(t)[i].status.LevelActive? && Hit(b.side, t, b.Levels(t)[i].triggerPrice, ltp))
  }

  /** The scan of side `t` has been reached. */
  ghost predicate Scanning(b: Group, t: ExitType, ltp: real) {
    && b.state.GroupActive?
    && if t.SL? then b.slMode.MultiLevelSL? else SLHit(b, ltp) == |b.slLevels|
  }

  /** Level `k` of side `t` is the one the evaluation fires. */
  ghost predicate Chosen(b: Group, t: ExitType, ltp: real, k: nat) {
    && Scanning(b, t, ltp) && k < |b.Levels(t)| && k == FirstHit(b.side, t, b.Levels(t), ltp, 0)
  }

  ghost function AfterMark(b: Group, t: ExitType, k: nat, ltp: real): Group
    requires k < |b.Levels(t)|
  {
    b.WithLevels(t, Marked(b.Levels(t), k, LevelTriggered, ltp))
  }

  ghost function AfterDecrement(b: Group, t: ExitType, k: nat, ltp: real): Group
    requires k < |b.Levels(t)|
  {
    var remaining := b.remainingQty - b.Levels(t)[k].exitQty;
    AfterMark(b, t, k, ltp).(remainingQty := remaining, state := if remaining <= 0 then GroupCompleted else b.state)
  }

  ghost function AfterRow(b: Group, t: ExitType, k: nat, ltp: real): Group
    requires k < |b.Levels(t)|
  {
    var l := b.Levels(t)[k];
    AfterDecrement(b, t, k, ltp).(rows := AddRow(b.rows, Row(l.exitQty, ltp, Some(t), l.levelNum)))
  }

  ghost predicate At(b: Group, pc: PC, g: Group)
    requires Critical(pc)
  {
    match pc
    case AtState(job) => g == b
    case AtScan(job, t, k) => g == b && Scanning(b, t, job.ltp) && NoHitBefore(b, t, job.ltp, k)
    case AtMark(job, t, k) => g == b && Chosen(b, t, job.ltp, k)
    case AtQty(job, t, k) => Chosen(b, t, job.ltp, k) && g == AfterMark(b, t, k, job.ltp)
    case AtDecrement(job, t, k, qty) =>
      Chosen(b, t, job.ltp, k) && qty == b.Levels(t)[k].exitQty && g == AfterMark(b, t, k, job.ltp)
    case AtRow(job, t, k, qty, remaining) =>
      && Chosen(b, t, job.ltp, k) && qty == b.Levels(t)[k].exitQty && remaining == b.remainingQty - qty
      && g == AfterDecrement(b, t, k, job.ltp)
    case AtCollect(job, t, k, remaining, m, idx) =>
      && Chosen(b, t, job.ltp, k) && remaining == b.remainingQty - b.Levels(t)[k].exitQty > 0
      && g == AfterRow(b, t, k, job.ltp)
      && m <= |b.Levels(Other(t))| && idx == ActiveIdx(b.Levels(Other(t))[..m], b.Configs(Other(t)))
    case AtWrite(job, t, k, remaining, idx, qtys, m) =>
      && Chosen(b, t, job.ltp, k) && remaining == b.remainingQty - b.Levels(t)[k].exitQty > 0
      && idx == ActiveIdx(b.Levels(Other(t)), b.Configs(Other(t)))
      && NewQtys(b.Levels(Other(t)), b.Configs(Other(t)), remaining, idx, qtys)
      && WrittenBack(b.Levels(Other(t)), idx, qtys, m, g.Levels(Other(t)))
      && g == AfterRow(b, t, k, job.ltp).WithLevels(Other(t), g.Levels(Other(t)))
    case AtFinish(job, t, k) =>
      Chosen(b, t, job.ltp, k) && b.remainingQty - b.Levels(t)[k].exitQty <= 0 && g == AfterRow(b, t, k, job.ltp)
    case AtRelease(job) => Tick(b, job.ltp, g)
  }

  // ---- One evaluation ends in the atomic tick ----

  lemma FirstHitFound(b: Group, t: ExitType, ltp: real, k: nat)
    requires NoHitBefore(b, t, ltp, k)
    ensures k < |b.Levels(t)| && b.Levels(t)[k].status.LevelActive? && Hit(b.side, t, b.Levels(t)[k].triggerPrice, ltp) ==>
              k == FirstHit(b.side, t, b.Levels(t), ltp, 0)
    ensures k == |b.Levels(t)| ==> k == FirstHit(b.side, t, b.Levels(t), ltp, 0)
  {
  }

  lemma ChosenTick(b: Group, t: ExitType, ltp: real, k: nat, g: Group)
    requires Chosen(b, t, ltp, k) && Fires(b, t, k, ltp, g)
    ensures Tick(b, ltp, g)
  {
    hide Fires, FirstHit;
  }

  lemma ScanKeeps(b: Group, pc: PC, g: Group, pc': PC, g': Group)
    requires pc.AtScan? && At(b, pc, g) && ScanStep(pc, g, pc', g')
    ensures Critical(pc') && pc'.job == pc.job && At(b, pc', g')
  {
    hide FirstHit, Hit, Fires;
    FirstHitFound(b, pc.t, pc.job.ltp, pc.k);
  }

  lemma ActiveIdxNext(levels: seq<Level>, configs: seq<Config>, m: nat)
    requires m < |levels|
    ensures ActiveIdx(levels[..m + 1], configs) ==
              ActiveIdx(levels[..m], configs) + if Participates(levels[m], configs) then [m] else []
  {
    hide Participates;
    assert levels[..m + 1][..m] == levels[..m];
  }

  lemma CollectOne(b: Group, pc: PC, g: Group, pc': PC, g': Group)
    requires pc.AtCollect? && At(b, pc, g) && CollectStep(pc, g, pc', g') && pc.m < |g.Levels(Other(pc.t))|
    ensures Critical(pc') && pc'.job == pc.job && At(b, pc', g')
  {
    hide FirstHit, Hit, AddRow, Marked, Tick, NewQtys, PctsAt, WrittenBack, Scanning, Chosen, ActiveIdx, Participates;
    var levels, configs := b.Levels(Other(pc.t)), b.Configs(Other(pc.t));
    assert g.Levels(Other(pc.t)) == levels && g.Configs(Other(pc.t)) == configs;
    ActiveIdxNext(levels, configs, pc.m);
  }

  lemma CollectKeeps(b: Group, pc: PC, g: Group, pc': PC, g': Group)
    requires pc.AtCollect? && At(b, pc, g) && CollectStep(pc, g, pc', g')
    ensures Critical(pc') && pc'.job == pc.job && At(b, pc', g')
  {
    hide FirstHit, Hit, AddRow, Marked, Tick, NewQtys, PctsAt, WrittenBack, Scanning, ActiveIdx;
    var o := Other(pc.t);
    var levels := b.Levels(o);
    assert g.Levels(o) == levels && g.Configs(o) == b.Configs(o);
    if pc.m < |levels| {
      CollectOne(b, pc, g, pc', g');
    } else {
      assert levels[..pc.m] == levels;
      hide Rebalanced;
      if pc'.AtRelease? {
        NothingToRebalance(levels, b.Configs(o), pc.remaining);
        assert Fires(b, pc.t, pc.k, pc.job.ltp, g');
        ChosenTick(b, pc.t, pc.job.ltp, pc.k, g');
      } else {
        NothingWritten(levels, b.Configs(o), pc.remaining, pc'.qtys);
      }
    }
  }

  lemma NothingToRebalance(levels: seq<Level>, configs: seq<Config>, remaining: int)
    requires var idx := ActiveIdx(levels, configs);
             idx == [] || SumReal(PctsAt(levels, configs, idx)) <= 0.0
    ensures Rebalanced(levels, configs, remaining, levels)
  {
  }

  lemma NothingWritten(levels: seq<Level>, configs: seq<Config>, remaining: int, qtys: seq<int>)
    requires NewQtys(levels, configs, remaining, ActiveIdx(levels, configs), qtys)
    ensures WrittenBack(levels, ActiveIdx(levels, configs), qtys, 0, levels)
  {
  }

  lemma WriteKeeps(b: Group, pc: PC, g: Group, pc': PC, g': Group)
    requires pc.AtWrite? && At(b, pc, g) && WriteStep(pc, g, pc', g')
    ensures Critical(pc') && pc'.job == pc.job && At(b, pc', g')
  {
    hide FirstHit, Hit, AddRow, IsLargestRemainder, Marked, Tick, ActiveIdx, WrittenBack, PctsAt, Chosen;
    var o := Other(pc.t);
    if pc.m < |pc.idx| {
      WrittenBackStep(b.Levels(o), b.Configs(o), pc.qtys, pc.m, g.Levels(o), g'.Levels(o));
    } else {
      LastWrite(b, pc, g);
    }
  }

  lemma LastWrite(b: Group, pc: PC, g: Group)
    requires pc.AtWrite? && At(b, pc, g) && pc.m >= |pc.idx|
    ensures Tick(b, pc.job.ltp, g)
  {
    hide FirstHit, Hit, AddRow, IsLargestRemainder, Marked, Tick, ActiveIdx, WrittenBack, PctsAt, Scanning;
    var o := Other(pc.t);
    WrittenBackLength(b.Levels(o), pc.idx, pc.qtys, pc.m, g.Levels(o));
    WrittenBackRebalances(b.Levels(o), b.Configs(o), pc.remaining, pc.qtys, g.Levels(o));
    hide Rebalanced, NewQtys;
    assert Fires(b, pc.t, pc.k, pc.job.ltp, g);
    ChosenTick(b, pc.t, pc.job.ltp, pc.k, g);
  }

  lemma WrittenBackLength(levels: seq<Level>, idx: seq<nat>, qtys: seq<int>, k: nat, levels': seq<Level>)
    requires WrittenBack(levels, idx, qtys, k, levels')
    ensures k <= |idx| && |levels'| == |levels|
  {
  }

  lemma FinishKeeps(b: Group, pc: PC, g: Group, pc': PC, g': Group)
    requires pc.AtFinish? && At(b, pc, g) && LocalStep(pc, g, pc', g')
    ensures Critical(pc') && pc'.job == pc.job && At(b, pc', g')
  {
    hide FirstHit, Tick, Hit;
    assert Fires(b, pc.t, pc.k, pc.job.ltp, g');
    ChosenTick(b, pc.t, pc.job.ltp, pc.k, g');
  }

  /** The lock and atomic accesses between the mark and the row. */
  lemma RecordKeeps(b: Group, pc: PC, g: Group, pc': PC, g': Group)
    requires pc.AtMark? || pc.AtQty? || pc.AtDecrement? || pc.AtRow?
    requires At(b, pc, g) && LocalStep(pc, g, pc', g')
    ensures Critical(pc') && pc'.job == pc.job && At(b, pc', g')
  {
    hide FirstHit, Tick, Hit, AddRow, Scanning, NewQtys, WrittenBack;
  }

  lemma LocalKeeps(b: Group, pc: PC, g: Group, pc': PC, g': Group)
    requires Critical(pc) && At(b, pc, g) && LocalStep(pc, g, pc', g')
    ensures Critical(pc') && pc'.job == pc.job && At(b, pc', g')
  {
    if pc.AtScan? {
      ScanKeeps(b, pc, g, pc', g');
    } else if pc.AtCollect? {
      CollectKeeps(b, pc, g, pc', g');
    } else if pc.AtWrite? {
      WriteKeeps(b, pc, g, pc', g');
    } else if pc.AtFinish? {
      FinishKeeps(b, pc, g, pc', g');
    } else if pc.AtState? {
      hide FirstHit, ActiveIdx, NewQtys, WrittenBack;
    } else {
      hide LocalStep, At;
      RecordKeeps(b, pc, g, pc', g');
    }
  }

  // ---- The whole pool ----

  ghost predicate Enqueue(s: System, job: Job, s': System) {
    job.group < |s.groups| && s' == s.(queue := s.queue + multiset{job}, submitted := s.submitted + multiset{job})
  }

  /** Worker `w` takes its next step. */
  ghost predicate WorkerStep(s: System, w: nat, s': System)
    requires Shaped(s) && w < |s.workers|
  {
    var pc := s.workers[w];
    match pc
    case Idle =>
      // take a job
      exists job :: job in s.queue && s' == s.(queue := s.queue - multiset{job}, workers := s.workers[w := AtClaim(job)])
    case AtClaim(job) =>
      // compare-and-swap: another worker's claim drops the job
      if s.claimed[job.group] then s' == s.(workers := s.workers[w := Idle])
      else s' == s.(claimed := s.claimed[job.group := true], workers := s.workers[w := AtState(job)])
    case AtRelease(job) =>
      s' == s.(claimed := s.claimed[job.group := false], workers := s.workers[w := Idle],
               base := s.base[job.group := s.groups[job.group]], evaluated := s.evaluated + [job])
    case _ =>
      && |s'.groups| == |s.groups| && |s'.workers| == |s.workers|
      && LocalStep(pc, s.groups[pc.job.group], s'.workers[w], s'.groups[pc.job.group])
      && s' == s.(workers := s.workers[w := s'.workers[w]],
                  groups := s.groups[pc.job.group := s'.groups[pc.job.group]])
  }

  ghost predicate Shaped(s: System) {
    && |s.claimed| == |s.groups| == |s.base|
    && (forall w :: 0 <= w < |s.workers| && !s.workers[w].Idle? ==> s.workers[w].job.group < |s.groups|)
    && (forall job :: job in s.queue ==> job.group < |s.groups|)
  }

  datatype Action = Submit(job: Job) | Work(worker: nat)

  ghost predicate Next(s: System, a: Action, s': System) {
    && Shaped(s)
    && match a
       case Submit(job) => Enqueue(s, job, s')
       case Work(w) => w < |s.workers| && WorkerStep(s, w, s')
  }

  ghost predicate PoolRun(states: seq<System>, actions: seq<Action>) {
    && |states| == |actions| + 1
    && forall i :: 0 <= i < |actions| ==> Next(states[i], actions[i], states[i + 1])
  }

  ghost predicate PoolInitial(s: System) {
    && |s.claimed| == |s.groups| && s.base == s.groups && s.queue == multiset{} == s.submitted && s.evaluated == []
    && (forall j :: 0 <= j < |s.groups| ==> !s.claimed[j])
    && (forall w :: 0 <= w < |s.workers| ==> s.workers[w].Idle?)
  }

  /** At most one worker is inside a group's evaluation, and the claim flag says
      whether there is one. */
  ghost predicate Exclusive(s: System)
    requires Shaped(s)
  {
    && (forall v, w :: 0 <= v < w < |s.workers| && Critical(s.workers[v]) && Critical(s.workers[w]) ==>
          s.workers[v].job.group != s.workers[w].job.group)
    && (forall w :: 0 <= w < |s.workers| && Critical(s.workers[w]) ==> s.claimed[s.workers[w].job.group])
  }

  /** An unclaimed group is as it was last released; a claimed one is where its
      worker's position says. */
  ghost predicate Accounted(s: System)
    requires Shaped(s)
  {
    Located(s) && Owned(s) && forall j :: 0 <= j < |s.groups| && !s.claimed[j] ==> s.groups[j] == s.base[j]
  }

  ghost predicate Located(s: System)
    requires Shaped(s)
  {
    forall w :: 0 <= w < |s.workers| && Critical(s.workers[w]) ==>
      At(s.base[s.workers[w].job.group], s.workers[w], s.groups[s.workers[w].job.group])
  }

  ghost predicate Owned(s: System)
    requires Shaped(s)
  {
    forall j :: 0 <= j < |s.groups| && s.claimed[j] ==> exists w :: 0 <= w < |s.workers| && InGroup(s.workers[w], j)
  }

  function Carried(workers: seq<PC>): multiset<Job> {
    if workers == [] then multiset{}
    else
      var n := |workers| - 1;
      Carried(workers[..n]) + Held(workers[n])
  }

  function Held(pc: PC): multiset<Job> {
    if pc.Idle? then multiset{} else multiset{pc.job}
  }

  /** No job is lost twice or invented: those evaluated, held and queued are among
      those submitted. */
  ghost predicate JobsOnce(s: System) {
    multiset(s.evaluated) + Carried(s.workers) + s.queue <= s.submitted
  }

  lemma CarriedSnoc(workers: seq<PC>, pc: PC)
    ensures Carried(workers + [pc]) == Carried(workers) + Held(pc)
  {
    assert (workers + [pc])[..|workers|] == workers;
    hide Held;
  }

  lemma {:induction false} CarriedUpdate(workers: seq<PC>, w: nat, pc: PC)
    requires w < |workers|
    ensures Held(workers[w]) <= Carried(workers)
    ensures Carried(workers[w := pc]) == Carried(workers) - Held(workers[w]) + Held(pc)
  {
    hide Carried, Held;
    var n := |workers| - 1;
    var before, last := workers[..n], workers[n];
    assert workers == before + [last];
    CarriedSnoc(before, last);
    if w < n {
      CarriedUpdate(before, w, pc);
      assert workers[w := pc] == before[w := pc] + [last];
      CarriedSnoc(before[w := pc], last);
      Exchange(Carried(before), Held(workers[w]), Held(pc), Held(last));
    } else {
      assert workers[w := pc] == before + [pc];
      CarriedSnoc(before, pc);
      Exchange(Carried(before), multiset{}, Held(pc), Held(last));
    }
  }

  lemma Exchange(c: multiset<Job>, x: multiset<Job>, y: multiset<Job>, last: multiset<Job>)
    requires x <= c
    ensures x <= c + last && last <= c + last
    ensures (c - x + y) + last == c + last - x + y
    ensures c + last - last == c
  {
  }

  ghost predicate PoolInvariant(s: System) {
    Shaped(s) && Exclusive(s) && Accounted(s) && JobsOnce(s)
  }

  /** A sequential run: each job in turn is one atomic tick of its group. */
  ghost predicate Replay(start: seq<Group>, jobs: seq<Job>, end: seq<Group>) {
    if jobs == [] then end == start
    else
      var n := |jobs| - 1;
      exists mid: seq<Group> ::
        && Replay(start, jobs[..n], mid)
        && jobs[n].group < |mid| == |end|
        && Tick(mid[jobs[n].group], jobs[n].ltp, end[jobs[n].group])
        && end == mid[jobs[n].group := end[jobs[n].group]]
  }

  /** How a step changes the jobs evaluated, held and queued. */
  lemma JobsMove(e: multiset<Job>, c: multiset<Job>, q: multiset<Job>, submitted: multiset<Job>, job: Job)
    requires e + c + q <= submitted
    ensures e + c + (q + multiset{job}) <= submitted + multiset{job}
    ensures job in q ==> e + (c + multiset{job}) + (q - multiset{job}) <= submitted
    ensures job in c ==> e + (c - multiset{job}) + q <= submitted && (e + multiset{job}) + (c - multiset{job}) + q <= submitted
  {
  }

  lemma TakeKeepsJobs(s: System, w: nat, job: Job)
    requires JobsOnce(s) && w < |s.workers| && s.workers[w].Idle? && job in s.queue
    ensures JobsOnce(s.(queue := s.queue - multiset{job}, workers := s.workers[w := AtClaim(job)]))
  {
    CarriedUpdate(s.workers, w, AtClaim(job));
    JobsMove(multiset(s.evaluated), Carried(s.workers), s.queue, s.submitted, job);
    assert Carried(s.workers[w := AtClaim(job)]) == Carried(s.workers) + multiset{job};
  }

  lemma DropKeepsJobs(s: System, w: nat, s': System)
    requires JobsOnce(s) && w < |s.workers| && !s.workers[w].Idle?
    requires s'.workers == s.workers[w := Idle] && s'.queue == s.queue && s'.submitted == s.submitted
    requires s'.evaluated == s.evaluated || s'.evaluated == s.evaluated + [s.workers[w].job]
    ensures JobsOnce(s')
  {
    var job := s.workers[w].job;
    CarriedUpdate(s.workers, w, Idle);
    assert job in Held(s.workers[w]);
    JobsMove(multiset(s.evaluated), Carried(s.workers), s.queue, s.submitted, job);
    assert Carried(s'.workers) == Carried(s.workers) - multiset{job};
    assert multiset(s.evaluated + [job]) == multiset(s.evaluated) + multiset{job};
  }

  lemma MoveKeepsJobs(s: System, w: nat, s': System)
    requires JobsOnce(s) && w < |s.workers| == |s'.workers| && !s.workers[w].Idle? && !s'.workers[w].Idle?
    requires s'.workers == s.workers[w := s'.workers[w]] && s'.workers[w].job == s.workers[w].job
    requires s'.queue == s.queue && s'.submitted == s.submitted && s'.evaluated == s.evaluated
    ensures JobsOnce(s')
  {
    CarriedUpdate(s.workers, w, s'.workers[w]);
    assert Carried(s'.workers) == Carried(s.workers) - Held(s.workers[w]) + Held(s.workers[w]);
  }

  lemma JobsStep(s: System, a: Action, s': System)
    requires JobsOnce(s) && Next(s, a, s')
    ensures JobsOnce(s')
  {
    hide JobsOnce, LocalStep, Held, Carried;
    match a
    case Submit(job) => SubmitKeepsJobs(s, job, s');
    case Work(w) =>
      match s.workers[w]
      case Idle =>
        var job :| job in s.queue && s' == s.(queue := s.queue - multiset{job}, workers := s.workers[w := AtClaim(job)]);
        TakeKeepsJobs(s, w, job);
      case AtClaim(job) =>
        if s.claimed[job.group] {
          DropKeepsJobs(s, w, s');
        } else {
          MoveKeepsJobs(s, w, s');
        }
      case AtRelease(_) => DropKeepsJobs(s, w, s');
      case _ =>
        WorkerCase(s, w, s');
        LocalKeepsJob(s.workers[w], s.groups[s.workers[w].job.group], s'.workers[w], s'.groups[s.workers[w].job.group]);
        MoveKeepsJobs(s, w, s');
  }

  lemma SubmitKeepsJobs(s: System, job: Job, s': System)
    requires JobsOnce(s) && Enqueue(s, job, s')
    ensures JobsOnce(s')
  {
    JobsMove(multiset(s.evaluated), Carried(s.workers), s.queue, s.submitted, job);
  }

  lemma LocalKeepsJob(pc: PC, g: Group, pc': PC, g': Group)
    requires Critical(pc) && LocalStep(pc, g, pc', g')
    ensures Critical(pc') && pc'.job == pc.job
  {
  }

  /** A step of worker `w` keeps every claimed group owned when `w` stays in its
      group or is in none, or when its group is no longer claimed. */
  lemma OwnedKept(s: System, w: nat, s': System)
    requires Shaped(s) && Shaped(s') && Owned(s) && w < |s.workers| == |s'.workers| && |s'.groups| == |s.groups|
    requires forall v :: 0 <= v < |s.workers| && v != w ==> s'.workers[v] == s.workers[v]
    requires forall j :: 0 <= j < |s.groups| && s'.claimed[j] && !s.claimed[j] ==> InGroup(s'.workers[w], j)
    requires forall j :: 0 <= j < |s.groups| && s'.claimed[j] && InGroup(s.workers[w], j) ==> InGroup(s'.workers[w], j)
    ensures Owned(s')
  {
    forall j | 0 <= j < |s'.groups| && s'.claimed[j] ensures exists v :: 0 <= v < |s'.workers| && InGroup(s'.workers[v], j) {
      if s.claimed[j] {
        var v :| 0 <= v < |s.workers| && InGroup(s.workers[v], j);
        assert InGroup(s'.workers[v], j);
      } else {
        assert InGroup(s'.workers[w], j);
      }
    }
  }

  /** A step inside a claimed evaluation. */
  lemma CriticalStep(s: System, w: nat, s': System)
    requires PoolInvariant(s) && w < |s.workers| && Critical(s.workers[w]) && !s.workers[w].AtRelease?
    requires Next(s, Work(w), s')
    ensures Shaped(s') && Exclusive(s') && Accounted(s') && s'.base == s.base && s'.evaluated == s.evaluated
  {
    hide At, LocalStep, JobsOnce;
    var pc := s.workers[w];
    var j := pc.job.group;
    assert LocalStep(pc, s.groups[j], s'.workers[w], s'.groups[j]) && s'.claimed == s.claimed
        && s'.workers == s.workers[w := s'.workers[w]] && s'.groups == s.groups[j := s'.groups[j]]
        && s'.queue == s.queue && s'.base == s.base && s'.evaluated == s.evaluated by {
      WorkerCase(s, w, s');
    }
    LocalKeeps(s.base[j], pc, s.groups[j], s'.workers[w], s'.groups[j]);
    OwnedKept(s, w, s');
    hide Owned;
  }

  lemma WorkerCase(s: System, w: nat, s': System)
    requires Shaped(s) && w < |s.workers| && Critical(s.workers[w]) && !s.workers[w].AtRelease? && WorkerStep(s, w, s')
    ensures var j := s.workers[w].job.group;
            && |s'.groups| == |s.groups| && |s'.workers| == |s.workers|
            && LocalStep(s.workers[w], s.groups[j], s'.workers[w], s'.groups[j])
            && s' == s.(workers := s.workers[w := s'.workers[w]], groups := s.groups[j := s'.groups[j]])
  {
    hide LocalStep;
  }

  /** Taking a job, or failing to claim its group. */
  lemma OutsideKeeps(s: System, w: nat, pc: PC, queue: multiset<Job>)
    requires PoolInvariant(s) && w < |s.workers| && !Critical(s.workers[w]) && !Critical(pc)
    requires queue <= s.queue && (!pc.Idle? ==> pc.job.group < |s.groups|)
    ensures var s' := s.(queue := queue, workers := s.workers[w := pc]);
            Shaped(s') && Exclusive(s') && Accounted(s')
  {
    hide JobsOnce, At;
    var s' := s.(queue := queue, workers := s.workers[w := pc]);
    OwnedKept(s, w, s');
    hide Owned;
  }

  lemma StartOfEvaluation(g: Group, job: Job)
    ensures At(g, AtState(job), g)
  {
  }

  lemma EndOfEvaluation(b: Group, job: Job, g: Group)
    requires At(b, AtRelease(job), g)
    ensures Tick(b, job.ltp, g)
  {
  }

  /** Claiming a free group. */
  lemma ClaimKeeps(s: System, w: nat, job: Job)
    requires PoolInvariant(s) && w < |s.workers| && s.workers[w] == AtClaim(job) && !s.claimed[job.group]
    ensures var s' := s.(claimed := s.claimed[job.group := true], workers := s.workers[w := AtState(job)]);
            Shaped(s') && Exclusive(s') && Accounted(s')
  {
    StartOfEvaluation(s.groups[job.group], job);
    hide JobsOnce, At;
    var s' := s.(claimed := s.claimed[job.group := true], workers := s.workers[w := AtState(job)]);
    forall v | 0 <= v < |s.workers| && Critical(s.workers[v]) ensures s.workers[v].job.group != job.group {
      assert s.claimed[s.workers[v].job.group];
    }
    OwnedKept(s, w, s');
    hide Owned;
  }

  lemma OutsideStep(s: System, w: nat, s': System)
    requires PoolInvariant(s) && w < |s.workers| && !Critical(s.workers[w]) && Next(s, Work(w), s')
    ensures Shaped(s') && Exclusive(s') && Accounted(s') && s'.base == s.base && s'.evaluated == s.evaluated
  {
    hide JobsOnce, Exclusive, Accounted, LocalStep;
    match s.workers[w]
    case Idle =>
      var job :| job in s.queue && s' == s.(queue := s.queue - multiset{job}, workers := s.workers[w := AtClaim(job)]);
      OutsideKeeps(s, w, AtClaim(job), s.queue - multiset{job});
    case AtClaim(job) =>
      if s.claimed[job.group] {
        OutsideKeeps(s, w, Idle, s.queue);
      } else {
        ClaimKeeps(s, w, job);
      }
  }

  /** Releasing: the group has just gone through one atomic tick. */
  lemma ReleaseStep(s: System, w: nat, s': System)
    requires PoolInvariant(s) && w < |s.workers| && s.workers[w].AtRelease? && Next(s, Work(w), s')
    ensures Shaped(s') && Exclusive(s') && Accounted(s')
    ensures var job := s.workers[w].job;
            && Tick(s.base[job.group], job.ltp, s'.base[job.group])
            && s'.base == s.base[job.group := s'.base[job.group]] && s'.evaluated == s.evaluated + [job]
  {
    hide LocalStep, JobsOnce, Tick, At;
    assert At(s.base[s.workers[w].job.group], s.workers[w], s.groups[s.workers[w].job.group]);
    EndOfEvaluation(s.base[s.workers[w].job.group], s.workers[w].job, s.groups[s.workers[w].job.group]);
    OwnedKept(s, w, s');
    hide Owned;
  }

  lemma ReplayExtends(start: seq<Group>, jobs: seq<Job>, mid: seq<Group>, job: Job, end: seq<Group>)
    requires Replay(start, jobs, mid) && job.group < |mid| == |end|
    requires Tick(mid[job.group], job.ltp, end[job.group]) && end == mid[job.group := end[job.group]]
    ensures Replay(start, jobs + [job], end)
  {
    hide Tick;
    assert (jobs + [job])[..|jobs|] == jobs;
  }

  lemma NextKeeps(start: seq<Group>, s: System, a: Action, s': System)
    requires PoolInvariant(s) && Replay(start, s.evaluated, s.base) && Next(s, a, s')
    ensures PoolInvariant(s') && Replay(start, s'.evaluated, s'.base)
  {
    JobsStep(s, a, s');
    hide JobsOnce, Exclusive, Accounted, WorkerStep, Tick, Replay, Shaped;
    match a
    case Submit(job) => SubmitKeeps(s, job, s');
    case Work(w) =>
      if !Critical(s.workers[w]) {
        OutsideStep(s, w, s');
      } else if s.workers[w].AtRelease? {
        ReleaseStep(s, w, s');
        ReplayExtends(start, s.evaluated, s.base, s.workers[w].job, s'.base);
      } else {
        CriticalStep(s, w, s');
      }
  }

  lemma SubmitKeeps(s: System, job: Job, s': System)
    requires PoolInvariant(s) && Enqueue(s, job, s')
    ensures Shaped(s') && Exclusive(s') && Accounted(s') && s'.base == s.base && s'.evaluated == s.evaluated
  {
    hide At;
    assert s'.workers == s.workers;
  }

  /** The pool refines a sequential evaluator: in every state of every run at most
      one worker is inside a group's evaluation, the jobs evaluated are some of
      those submitted, each at most once, and every group that is not being
      evaluated is exactly where running those jobs one after the other, as atomic
      ticks, takes it. */
  lemma {:induction false} PoolIsSequential(states: seq<System>, actions: seq<Action>, n: nat)
    requires PoolRun(states, actions) && n < |states| && PoolInitial(states[0])
    ensures PoolInvariant(states[n])
    ensures Replay(states[0].groups, states[n].evaluated, states[n].base)
    ensures multiset(states[n].evaluated) <= states[n].submitted
    ensures forall j :: 0 <= j < |states[n].groups| && !states[n].claimed[j] ==> states[n].groups[j] == states[n].base[j]
  {
    hide Next, Replay;
    if n > 0 {
      PoolIsSequential(states, actions, n - 1);
      NextKeeps(states[0].groups, states[n - 1], actions[n - 1], states[n]);
    } else {
      InitialHolds(states[0]);
    }
  }

  lemma InitialHolds(s: System)
    requires PoolInitial(s)
    ensures PoolInvariant(s) && Replay(s.groups, s.evaluated, s.base)
  {
    NothingCarried(s.workers);
  }

  lemma {:induction false} NothingCarried(workers: seq<PC>)
    requires forall w :: 0 <= w < |workers| ==> workers[w].Idle?
    ensures Carried(workers) == multiset{}
  {
    if workers != [] {
      NothingCarried(workers[..|workers| - 1]);
    }
  }

  // ---- No level fires twice ----

  ghost predicate StaysTriggered(levels: seq<Level>, levels': seq<Level>) {
    && |levels'| == |levels|
    && forall i :: 0 <= i < |levels| && levels[i].status.LevelTriggered? ==>
         levels'[i].status.LevelTriggered? && levels'[i].exitPrice == levels[i].exitPrice
  }

  /** Whatever the interleaving, a step leaves triggered levels as they are; only
      marking an active level triggers one. */
  lemma TriggeredForGood(pc: PC, g: Group, pc': PC, g': Group, t: ExitType)
    requires LocalStep(pc, g, pc', g')
    ensures StaysTriggered(g.Levels(t), g'.Levels(t))
    ensures forall i :: 0 <= i < |g.Levels(t)| && g'.Levels(t)[i].status != g.Levels(t)[i].status ==>
              pc.AtMark? && pc.t == t && pc.k == i && g.Levels(t)[i].status.LevelActive?
  {
  }

  lemma StaysTriggeredTransitive(a: seq<Level>, b: seq<Level>, c: seq<Level>)
    requires StaysTriggered(a, b) && StaysTriggered(b, c)
    ensures StaysTriggered(a, c)
  {
  }

  lemma StepStaysTriggered(s: System, a: Action, s': System, j: nat, t: ExitType)
    requires Next(s, a, s') && j < |s.groups|
    ensures |s'.groups| == |s.groups| && StaysTriggered(s.groups[j].Levels(t), s'.groups[j].Levels(t))
  {
    hide LocalStep;
    if a.Work? && Critical(s.workers[a.worker]) && !s.workers[a.worker].AtRelease? {
      WorkerCase(s, a.worker, s');
      var pc := s.workers[a.worker];
      TriggeredForGood(pc, s.groups[pc.job.group], s'.workers[a.worker], s'.groups[pc.job.group], t);
      hide WorkerStep, StaysTriggered, Shaped;
      assert StaysTriggered(s.groups[j].Levels(t), s.groups[j].Levels(t)) by { SameStays(s.groups[j].Levels(t)); }
    }
  }

  lemma SameStays(levels: seq<Level>)
    ensures StaysTriggered(levels, levels)
  {
  }

  /** Between any two moments of any run of the pool, triggered levels stay triggered
      at their prices. */
  lemma {:induction false} TriggeredInEveryRun(states: seq<System>, actions: seq<Action>, m: nat, n: nat, j: nat, t: ExitType)
    requires PoolRun(states, actions) && m <= n < |states| && j < |states[m].groups|
    ensures |states[n].groups| == |states[m].groups|
    ensures StaysTriggered(states[m].groups[j].Levels(t), states[n].groups[j].Levels(t))
  {
    hide StaysTriggered, Next;
    if m < n {
      TriggeredInEveryRun(states, actions, m, n - 1, j, t);
      StepStaysTriggered(states[n - 1], actions[n - 1], states[n], j, t);
      StaysTriggeredTransitive(states[m].groups[j].Levels(t), states[n - 1].groups[j].Levels(t), states[n].groups[j].Levels(t));
    } else {
      SameStays(states[m].groups[j].Levels(t));
    }
  }

  /** Level `i` fires between the two states. */
  ghost predicate FiresBetween(s: System, s': System, j: nat, t: ExitType, i: nat) {
    && j < |s.groups| == |s'.groups| && i < |s.groups[j].Levels(t)| == |s'.groups[j].Levels(t)|
    && !s.groups[j].Levels(t)[i].status.LevelTriggered? && s'.groups[j].Levels(t)[i].status.LevelTriggered?
  }

  /** In every run of the pool each level fires at most once: of any two steps, not
      both fire it. */
  lemma LevelFiresAtMostOnce(states: seq<System>, actions: seq<Action>, m: nat, n: nat, j: nat, t: ExitType, i: nat)
    requires PoolRun(states, actions) && m < n < |actions| && FiresBetween(states[m], states[m + 1], j, t, i)
    ensures !FiresBetween(states[n], states[n + 1], j, t, i)
  {
    hide Next;
    TriggeredInEveryRun(states, actions, m + 1, n, j, t);
  }

  // ---- Conservation under the pool ----

  ghost predicate AllConserve(groups: seq<Group>) {
    forall j :: 0 <= j < |groups| ==> Invariant(groups[j])
  }

  lemma {:induction false} ReplayConserves(start: seq<Group>, jobs: seq<Job>, end: seq<Group>)
    requires Replay(start, jobs, end) && AllConserve(start)
    ensures AllConserve(end)
  {
    hide Invariant, Tick;
    if jobs != [] {
      var n := |jobs| - 1;
      var mid: seq<Group> :| && Replay(start, jobs[..n], mid) && jobs[n].group < |mid| == |end|
                             && Tick(mid[jobs[n].group], jobs[n].ltp, end[jobs[n].group])
                             && end == mid[jobs[n].group := end[jobs[n].group]];
      ReplayConserves(start, jobs[..n], mid);
      StepKeepsInvariant(mid[jobs[n].group], TickEvent(jobs[n].ltp), end[jobs[n].group]);
    }
  }

  /** In every state of every run of the pool, every group that is not inside an
      evaluation conserves its quantities. */
  lemma PoolConserves(states: seq<System>, actions: seq<Action>, n: nat)
    requires PoolRun(states, actions) && n < |states| && PoolInitial(states[0]) && AllConserve(states[0].groups)
    ensures |states[n].claimed| == |states[n].groups|
    ensures forall j :: 0 <= j < |states[n].groups| && !states[n].claimed[j] ==> Invariant(states[n].groups[j])
  {
    PoolIsSequential(states, actions, n);
    ReplayConserves(states[0].groups, states[n].evaluated, states[n].base);
    hide Invariant, Replay, Next, PoolRun, Exclusive, Located, Owned, JobsOnce;
  }
}

/** The refresher of the distance cache: a small state machine of timers
    around a refresh process that rewrites the writer slots of every node by
    an incremental Dijkstra from our own node, a few steps at a time.

    Timers are modelled as flags: `deferred` is the scheduled deferred
    trigger, `reawaken` the scheduled reawakening of a running process.  The
    firing of the deferred timer is a call of `ImmediateTrigger` (its
    callback), the firing of the reawaken timer a call of `Reawaken`.  The
    refresh callback is counted in `refreshCount`. */
module Refresher {
  import opened Wrappers
  import opened MachineInts
  import opened Routing
  import opened DistanceCache
  import opened PriorityQueue
  import opened Costing
  import opened Sweep

  /** One millibitcoin: 1000 msat per satoshi, 100 satoshi per
      microbitcoin, 1000 microbitcoin per millibitcoin. */
  const DHCACHE_REFRESHER_DEFAULT_SAMPLE_AMOUNT: u64 := 1000 * 100 * 1000

  /** Ten percent per annum. */
  const DHCACHE_REFRESHER_DEFAULT_SAMPLE_RISKFACTOR: Double := Number(10.0)

  /** A relative time, in nanoseconds. */
  type TimeRel = nat

  const DHCACHE_REFRESHER_DEFAULT_DEFER_TIME: TimeRel := 10 * 1_000_000_000

  /** Steps run between two looks at the clock in `Reawaken`. */
  const STEPS_PER_TIME_CHECK: nat := 16

  /** `enum refresh_process_step_result`. */
  datatype StepResult = Continue | Failed | Completed

  /** The step function a process runs next (`process->step`). */
  datatype Step = Init | Loop

  /** How a reawakening ended. */
  datatype Wakeup = Slept | ProcessFailed | ProcessCompleted

  /** `struct refresh_process`: one refresh in progress. */
  class Process {
    const rstate: RoutingState
    const writer: Writer
    /** Queue of node ids, by candidate distance. */
    const queue: PriorityQueue<NodeId>
    /** The settings this refresh prices channels with, copied at install. */
    const coster: Coster
    const costOf: ChannelCost
    var step: Step
    /** For every visited node, a walk from the landmark whose saturated cost
        is its writer distance. */
    ghost var paths: map<NodeId, seq<Hop>>

    ghost predicate Valid()
      reads this, queue
    {
      queue.Valid() && (step == Init ==> queue.entries == [])
    }

    /** The sweep this process performs on the current graph. */
    function SweepOf(): Sweep
      reads this, rstate
    {
      Sweep(rstate.channels, rstate.localId, writer, coster, costOf)
    }

    /** The sweep invariant holds, unless the process has not started. */
    ghost predicate Sound()
      reads this, rstate, queue
    {
      step == Init || SweepState(SweepOf(), rstate.distances, queue.Contents(), paths)
    }

    constructor (rstate: RoutingState, writer: Writer, coster: Coster, costOf: ChannelCost)
      ensures this.rstate == rstate && this.writer == writer && this.coster == coster && this.costOf == costOf
      ensures step == Init && fresh(queue) && queue.entries == []
      ensures Valid()
    {
      this.rstate := rstate;
      this.writer := writer;
      this.coster := coster;
      this.costOf := costOf;
      queue := new PriorityQueue<NodeId>();
      step := Init;
      paths := map[];
    }

    /** `refresh_process_step_init`: fail when our own node is not in the
        graph; otherwise clear every writer slot, seed our own node at
        distance 0 as visited, queue it with priority 0 and move on to the
        loop step. */
    method StepInit() returns (res: StepResult)
      requires Valid() && step == Init && rstate.Valid()
      modifies this, rstate, queue
      ensures Valid()
      ensures rstate.channels == old(rstate.channels) && rstate.distances.Keys == old(rstate.distances.Keys)
      ensures rstate.localId !in old(rstate.distances) ==>
                && res == Failed && step == Init
                && rstate.distances == old(rstate.distances) && queue.entries == old(queue.entries)
      ensures rstate.localId in old(rstate.distances) ==>
                && res == Continue && step == Loop
                && rstate.distances == SeededSlots(writer, old(rstate.distances), rstate.localId)
                && queue.Contents() == multiset{Entry(0, rstate.localId)}
                && Sound()
    {
      if rstate.localId !in rstate.distances {
        return Failed;
      }
      ghost var dist0 := rstate.distances;
      WriterClearAllNodes(writer, rstate);
      WriterSetDistance(writer, rstate, rstate.localId, 0);
      WriterMarkVisited(writer, rstate, rstate.localId);
      queue.Add(rstate.localId, 0);
      step := Loop;
      paths := map[rstate.localId := []];
      ClearedSlotsAreUnvisited(writer, dist0);
      SeedingStartsSweep(SweepOf(), dist0);
      return Continue;
    }

    /** `refresh_process_step_loop`: pop the nearest queued node; complete
        when there is none; skip it when it has vanished from the graph;
        otherwise relax each of its channels in order. */
    method StepLoop() returns (res: StepResult, ghost popped: Option<Entry<NodeId>>)
      requires Valid() && step == Loop && rstate.Valid()
      modifies this, rstate, queue
      ensures Valid() && step == Loop
      ensures rstate.channels == old(rstate.channels) && rstate.distances.Keys == old(rstate.distances.Keys)
      ensures old(queue.entries) == [] ==>
                && res == Completed && popped == None
                && rstate.distances == old(rstate.distances) && queue.entries == []
      ensures old(queue.entries) != [] ==>
                && res == Continue && popped.Some?
                && popped.value in old(queue.Contents())
                && (forall e | e in old(queue.Contents()) :: popped.value.priority <= e.priority)
      ensures popped.Some? && popped.value.item !in old(rstate.distances) ==>
                && rstate.distances == old(rstate.distances)
                && queue.Contents() == old(queue.Contents()) - multiset{popped.value}
      ensures popped.Some? && popped.value.item in old(rstate.distances) ==>
                var u := popped.value.item;
                var r := RelaxChannels(SweepOf(), old(rstate.distances), u,
                                       WriterGetDistance(writer, old(rstate.distances)[u]), rstate.channels[u]);
                && rstate.distances == r.dist
                && queue.Contents() == old(queue.Contents()) - multiset{popped.value} + multiset(r.pushed)
      ensures old(Sound()) ==> Sound()
      ensures res == Completed && Sound() ==> Exact(SweepOf(), rstate.distances)
    {
      ghost var wasSound := Sound();
      ghost var s := SweepOf();
      var item;
      ghost var priority;
      item, priority := queue.GetMin();
      if item == None {
        if wasSound {
          assert queue.Contents() == multiset{};
          CompletedSweepIsExact(s, rstate.distances, paths);
        }
        return Completed, None;
      }
      popped := Some(Entry(priority, item.value));
      var u := item.value;
      if u !in rstate.distances {
        return Continue, popped;
      }
      if wasSound {
        PopStartsRelaxing(s, rstate.distances, old(queue.Contents()), paths, popped.value);
      }
      var du := WriterGetDistance(writer, rstate.distances[u]);
      ghost var pushed := RelaxChannelsOf(u, du);
      return Continue, popped;
    }

    /** The channel loop of `refresh_process_step_loop` for the popped node
        `u` at distance `du`: each neighbour that is unvisited, or farther
        than the candidate through `u`, is marked visited, given the
        candidate distance and queued with it. */
    method RelaxChannelsOf(u: NodeId, du: Distance) returns (ghost pushed: seq<Entry<NodeId>>)
      requires queue.Valid() && rstate.Valid() && u in rstate.distances
      modifies this`paths, rstate, queue
      ensures queue.Valid()
      ensures rstate.channels == old(rstate.channels)
      ensures Relaxation(rstate.distances, pushed) == RelaxChannels(SweepOf(), old(rstate.distances), u, du, rstate.channels[u])
      ensures queue.Contents() == old(queue.Contents()) + multiset(pushed)
      ensures old(Relaxing(SweepOf(), rstate.distances, queue.Contents(), paths, u, du, 0)) ==>
                SweepState(SweepOf(), rstate.distances, queue.Contents(), paths)
    {
      ghost var s := SweepOf();
      ghost var wasRelaxing := Relaxing(s, rstate.distances, queue.Contents(), paths, u, du, 0);
      ghost var dist0 := rstate.distances;
      ghost var q0 := queue.Contents();
      pushed := [];
      var i := 0;
      assert s.channels[u][..0] == [];
      while i < |rstate.channels[u]|
        invariant RelaxedPrefix(s, dist0, q0, u, du, i, pushed, wasRelaxing)
        decreases |rstate.channels[u]| - i
      {
        pushed := RelaxNext(u, du, i, s, dist0, q0, wasRelaxing, pushed);
        i := i + 1;
      }
      assert s.channels[u][..i] == s.channels[u];
      if wasRelaxing {
        RelaxingDoneKeepsSweep(s, rstate.distances, queue.Contents(), paths, u, du);
      }
    }

    /** The state of the channel loop above after the first `i` channels of
        `u`, from the slots `dist0` and the queue contents `q0`, having
        pushed `pushed`; the sweep is still relaxing `u` if it was. */
    ghost predicate RelaxedPrefix(s: Sweep, dist0: map<NodeId, SlotPair>, q0: multiset<Entry<NodeId>>,
                                  u: NodeId, du: Distance, i: nat, pushed: seq<Entry<NodeId>>, wasRelaxing: bool)
      reads this, rstate, queue
    {
      && queue.Valid() && s == SweepOf()
      && u in s.channels && i <= |s.channels[u]|
      && rstate.distances.Keys == dist0.Keys
      && (forall c | c in s.channels[u] :: c.peer in dist0)
      && Relaxation(rstate.distances, pushed) == RelaxChannels(s, dist0, u, du, s.channels[u][..i])
      && queue.Contents() == q0 + multiset(pushed)
      && (wasRelaxing ==> Relaxing(s, rstate.distances, queue.Contents(), paths, u, du, i))
    }

    /** The `i`-th turn of the channel loop. */
    method RelaxNext(u: NodeId, du: Distance, i: nat, ghost s: Sweep, ghost dist0: map<NodeId, SlotPair>,
                     ghost q0: multiset<Entry<NodeId>>, ghost wasRelaxing: bool, ghost pushed: seq<Entry<NodeId>>)
      returns (ghost pushed': seq<Entry<NodeId>>)
      requires RelaxedPrefix(s, dist0, q0, u, du, i, pushed, wasRelaxing) && i < |rstate.channels[u]|
      modifies this`paths, rstate, queue
      ensures RelaxedPrefix(s, dist0, q0, u, du, i + 1, pushed', wasRelaxing)
    {
      var c := rstate.channels[u][i];
      assert c in s.channels[u];
      RelaxChannelsSnoc(s, dist0, u, du, s.channels[u], i);
      ghost var dist := rstate.distances;
      ghost var q := queue.Contents();
      ghost var walks := paths;
      if wasRelaxing {
        RelaxChannelKeepsRelaxing(s, dist, q, walks, u, du, i);
        assert u in walks;
      }
      ghost var pushedNow := RelaxOne(u, du, c);
      pushed' := pushed + pushedNow;
    }

    /** One turn of the channel loop: relax the channel `c` of `u`. */
    method RelaxOne(u: NodeId, du: Distance, c: Chan) returns (ghost pushed: seq<Entry<NodeId>>)
      requires queue.Valid() && c.peer in rstate.distances
      modifies this`paths, rstate, queue
      ensures queue.Valid()
      ensures rstate.channels == old(rstate.channels)
      ensures Relaxation(rstate.distances, pushed) == RelaxChannel(SweepOf(), old(rstate.distances), u, du, c)
      ensures queue.Contents() == old(queue.Contents()) + multiset(pushed)
      ensures u in old(paths) ==>
                paths == if pushed == [] then old(paths) else old(paths)[c.peer := old(paths)[u] + [Hop(u, c)]]
    {
      var neighbor := c.peer;
      var candidate := Candidate(du, costOf(coster, u, c));
      pushed := [];
      if !WriterGetVisited(writer, rstate.distances[neighbor])
         || WriterGetDistance(writer, rstate.distances[neighbor]) > candidate
      {
        WriterMarkVisited(writer, rstate, neighbor);
        WriterSetDistance(writer, rstate, neighbor, candidate);
        queue.Add(neighbor, candidate);
        pushed := [Entry(candidate, neighbor)];
        if u in paths {
          paths := paths[neighbor := paths[u] + [Hop(u, c)]];
        }
      }
    }

    /** `process->step(process)`: run the current step function. */
    method Step() returns (res: StepResult)
      requires Valid() && rstate.Valid()
      modifies this, rstate, queue
      ensures Valid() && rstate.Valid()
      ensures rstate.channels == old(rstate.channels)
      ensures res == Failed ==>
                old(step) == Init && step == Init && rstate.localId !in rstate.distances
                && rstate.distances == old(rstate.distances)
      ensures res != Failed ==> step == Loop
      ensures old(Sound()) ==> Sound()
      ensures res == Completed ==> queue.entries == [] && (Sound() ==> Exact(SweepOf(), rstate.distances))
    {
      if step == Init {
        res := StepInit();
      } else {
        ghost var popped;
        res, popped := StepLoop();
      }
    }

    /** The inner loop of `refresher_reawaken`: run up to 16 steps, stopping
        at the first that fails or completes. */
    method Burst() returns (res: StepResult, ghost steps: nat)
      requires Valid() && rstate.Valid()
      modifies this, rstate, queue
      ensures Valid() && rstate.Valid()
      ensures rstate.channels == old(rstate.channels)
      ensures 1 <= steps <= STEPS_PER_TIME_CHECK
      ensures res == Continue ==> steps == STEPS_PER_TIME_CHECK
      ensures old(Sound()) ==> Sound()
      ensures res == Completed ==> queue.entries == [] && (Sound() ==> Exact(SweepOf(), rstate.distances))
    {
      steps := 0;
      var i := 0;
      while i < STEPS_PER_TIME_CHECK
        invariant Valid() && rstate.Valid() && rstate.channels == old(rstate.channels)
        invariant 0 <= i <= STEPS_PER_TIME_CHECK && steps == i
        invariant old(Sound()) ==> Sound()
      {
        res := Step();
        steps := steps + 1;
        match res {
          case Continue =>
          case Failed =>
            return;
          case Completed =>
            return;
        }
        i := i + 1;
      }
      return Continue, steps;
    }

    /** The outer loop of `refresher_reawaken`: run bursts until one fails
        or completes, or until the clock, read after each burst, finds the
        working time spent; `timeChecks` is how many reads still find time
        left.  `Continue` means the process goes to sleep. */
    method Bursts(timeChecks: nat) returns (res: StepResult, ghost steps: nat)
      requires Valid() && rstate.Valid()
      modifies this, rstate, queue
      ensures Valid() && rstate.Valid()
      ensures rstate.channels == old(rstate.channels)
      ensures steps <= STEPS_PER_TIME_CHECK * (timeChecks + 1)
      ensures old(Sound()) ==> Sound()
      ensures res == Completed ==> queue.entries == [] && (Sound() ==> Exact(SweepOf(), rstate.distances))
    {
      steps := 0;
      var checks: nat := timeChecks;
      while true
        invariant Valid() && rstate.Valid() && rstate.channels == old(rstate.channels)
        invariant checks <= timeChecks
        invariant steps <= STEPS_PER_TIME_CHECK * (timeChecks - checks)
        invariant old(Sound()) ==> Sound()
        decreases checks
      {
        ghost var burstSteps;
        res, burstSteps := Burst();
        steps := steps + burstSteps;
        if res != Continue || checks == 0 {
          return;
        }
        checks := checks - 1;
      }
    }

    /** `destroy_refresh_process`: drain whatever is still queued. */
    method Destroy()
      requires Valid()
      modifies queue
      ensures queue.Valid() && queue.entries == []
    {
      while true
        invariant queue.Valid()
        decreases |queue.entries|
      {
        var item;
        ghost var priority;
        item, priority := queue.GetMin();
        if item == None {
          return;
        }
      }
    }
  }

  /** `struct dhcache_refresher`. */
  class Refresher {
    const rstate: RoutingState
    const dhcache: DhCache
    /** The channel pricing `dhcache_coster_get` stands for. */
    const costOf: ChannelCost

    /** Current settings. */
    var sampleAmount: u64
    var riskfactor: Double
    var deferTime: TimeRel

    /** The coster of the most recently completed refresh. */
    var coster: Coster

    /** A deferred trigger is scheduled. */
    var deferred: bool
    /** The running refresh, if any. */
    var process: Process?
    /** A reawakening of the running refresh is scheduled. */
    var reawaken: bool
    /** How many times the refresh callback was called. */
    var refreshCount: nat

    /** Between calls: a running process always has its reawakening
        scheduled and nothing else does; a deferred trigger is never pending
        beside a running process; the process works on this refresher's
        graph, through the cache's current writer slot. */
    ghost predicate Valid()
      reads this, dhcache
      reads if process != null then {process, process.queue} else {}
    {
      && (reawaken <==> process != null)
      && !(deferred && process != null)
      && (process != null ==>
            && process.rstate == rstate
            && process.writer == dhcache.WriterInit()
            && process.costOf == costOf
            && process.Valid())
    }

    /** `dhcache_refresher_new`: default settings, the unset coster, and no
        timer or process. */
    constructor (rstate: RoutingState, dhcache: DhCache, costOf: ChannelCost)
      ensures this.rstate == rstate && this.dhcache == dhcache && this.costOf == costOf
      ensures sampleAmount == DHCACHE_REFRESHER_DEFAULT_SAMPLE_AMOUNT
      ensures riskfactor == DHCACHE_REFRESHER_DEFAULT_SAMPLE_RISKFACTOR
      ensures deferTime == DHCACHE_REFRESHER_DEFAULT_DEFER_TIME
      ensures coster == UNSET_COSTER
      ensures !deferred && process == null && !reawaken && refreshCount == 0
      ensures Valid()
    {
      this.rstate := rstate;
      this.dhcache := dhcache;
      this.costOf := costOf;
      sampleAmount := DHCACHE_REFRESHER_DEFAULT_SAMPLE_AMOUNT;
      riskfactor := DHCACHE_REFRESHER_DEFAULT_SAMPLE_RISKFACTOR;
      deferTime := DHCACHE_REFRESHER_DEFAULT_DEFER_TIME;
      coster := UNSET_COSTER;
      deferred := false;
      process := null;
      reawaken := false;
      refreshCount := 0;
    }

    function GetSampleAmount(): u64
      reads this
    {
      sampleAmount
    }

    /** `dhcache_refresher_set_sample_amount`: a running process keeps the
        amount it was installed with. */
    method SetSampleAmount(amount: u64)
      modifies this
      ensures sampleAmount == amount
      ensures riskfactor == old(riskfactor) && deferTime == old(deferTime) && coster == old(coster)
      ensures deferred == old(deferred) && process == old(process) && reawaken == old(reawaken)
      ensures refreshCount == old(refreshCount)
    {
      sampleAmount := amount;
    }

    function GetSampleRiskfactor(): Double
      reads this
    {
      riskfactor
    }

    /** `dhcache_refresher_set_sample_riskfactor`: a running process keeps
        the risk factor it was installed with. */
    method SetSampleRiskfactor(riskfactor: Double)
      modifies this
      ensures this.riskfactor == riskfactor
      ensures sampleAmount == old(sampleAmount) && deferTime == old(deferTime) && coster == old(coster)
      ensures deferred == old(deferred) && process == old(process) && reawaken == old(reawaken)
      ensures refreshCount == old(refreshCount)
    {
      this.riskfactor := riskfactor;
    }

    function GetDeferTime(): TimeRel
      reads this
    {
      deferTime
    }

    /** `dhcache_refresher_set_defer_time`. */
    method SetDeferTime(time: TimeRel)
      modifies this
      ensures deferTime == time
      ensures sampleAmount == old(sampleAmount) && riskfactor == old(riskfactor) && coster == old(coster)
      ensures deferred == old(deferred) && process == old(process) && reawaken == old(reawaken)
      ensures refreshCount == old(refreshCount)
    {
      deferTime := time;
    }

    /** `dhcache_refresher_deferred_trigger`: schedule the deferred trigger
        unless it is already scheduled or a refresh is running. */
    method DeferredTrigger()
      requires Valid()
      modifies this
      ensures Valid()
      ensures deferred == (old(deferred) || old(process) == null)
      ensures process == old(process) && reawaken == old(reawaken)
      ensures sampleAmount == old(sampleAmount) && riskfactor == old(riskfactor) && deferTime == old(deferTime)
      ensures coster == old(coster) && refreshCount == old(refreshCount)
    {
      if deferred || process != null {
        return;
      }
      deferred := true;
    }

    /** `install_refresh_process`: a new process in its init step, with an
        empty queue, the cache's writer and the current settings, and its
        first reawakening scheduled. */
    method InstallRefreshProcess()
      requires process == null && !reawaken && !deferred
      modifies this
      ensures process != null && fresh(process) && fresh(process.queue)
      ensures process.step == Init && process.queue.entries == []
      ensures process.rstate == rstate && process.writer == dhcache.WriterInit() && process.costOf == costOf
      ensures process.coster == Coster(sampleAmount, riskfactor)
      ensures reawaken && !deferred
      ensures sampleAmount == old(sampleAmount) && riskfactor == old(riskfactor) && deferTime == old(deferTime)
      ensures coster == old(coster) && refreshCount == old(refreshCount)
      ensures Valid()
    {
      process := new Process(rstate, dhcache.WriterInit(), Coster(sampleAmount, riskfactor), costOf);
      reawaken := true;
    }

    /** `dhcache_refresher_immediate_trigger`: cancel a scheduled deferred
        trigger, then install a process unless one is running. */
    method ImmediateTrigger()
      requires Valid()
      modifies this
      ensures Valid() && !deferred
      ensures old(process) != null ==> process == old(process)
      ensures old(process) == null ==>
                && process != null && fresh(process)
                && process.step == Init && process.queue.entries == []
                && process.coster == Coster(sampleAmount, riskfactor)
      ensures sampleAmount == old(sampleAmount) && riskfactor == old(riskfactor) && deferTime == old(deferTime)
      ensures coster == old(coster) && refreshCount == old(refreshCount)
    {
      if deferred {
        deferred := false;
      }
      if process != null {
        return;
      }
      InstallRefreshProcess();
    }

    /** The failed branch of `refresher_reawaken`: drop the process and
        schedule a deferred trigger. */
    method DropFailedProcess()
      requires process != null && process.Valid() && !deferred && !reawaken
      modifies this, process.queue
      ensures process == null && !reawaken && deferred
      ensures coster == old(coster) && refreshCount == old(refreshCount)
      ensures sampleAmount == old(sampleAmount) && riskfactor == old(riskfactor) && deferTime == old(deferTime)
      ensures Valid()
    {
      process.Destroy();
      process := null;
      DeferredTrigger();
    }

    /** The completed branch of `refresher_reawaken`: flip the cache, keep
        the process's coster, drop the process and call the refresh
        callback. */
    method PublishCompletedProcess()
      requires process != null && process.Valid() && !deferred && !reawaken
      modifies this, dhcache, process.queue
      ensures process == null && !reawaken && !deferred
      ensures coster == old(process.coster) && refreshCount == old(refreshCount) + 1
      ensures dhcache.writerSelector == 1 - old(dhcache.writerSelector) && dhcache.available
      ensures sampleAmount == old(sampleAmount) && riskfactor == old(riskfactor) && deferTime == old(deferTime)
      ensures Valid()
    {
      dhcache.Flip();
      coster := process.coster;
      process.Destroy();
      process := null;
      refreshCount := refreshCount + 1;
    }

    /** `refresher_reawaken`: run the process in bursts of 16 steps.  A
        failed process is dropped and a deferred trigger scheduled; a
        completed one flips the cache, hands its coster to the refresher, is
        dropped, and the refresh callback runs.  After each burst the clock
        is read: `timeChecks` is how many of those reads still find the
        working time unspent; the next one sends the process to sleep until
        its next reawakening.  `steps` counts the steps run. */
    method Reawaken(timeChecks: nat) returns (ghost outcome: Wakeup, ghost steps: nat)
      requires Valid() && process != null && reawaken && rstate.Valid()
      modifies this, dhcache, rstate, process, process.queue
      ensures Valid() && rstate.Valid()
      ensures rstate.channels == old(rstate.channels)
      ensures steps <= STEPS_PER_TIME_CHECK * (timeChecks + 1)
      ensures sampleAmount == old(sampleAmount) && riskfactor == old(riskfactor) && deferTime == old(deferTime)
      ensures outcome == Slept ==>
                && process == old(process) && reawaken && !deferred
                && coster == old(coster) && refreshCount == old(refreshCount)
                && dhcache.writerSelector == old(dhcache.writerSelector) && dhcache.available == old(dhcache.available)
      ensures outcome == ProcessFailed ==>
                && process == null && !reawaken && deferred
                && coster == old(coster) && refreshCount == old(refreshCount)
                && dhcache.writerSelector == old(dhcache.writerSelector) && dhcache.available == old(dhcache.available)
      ensures outcome == ProcessCompleted ==>
                && process == null && !reawaken && !deferred
                && coster == old(process.coster) && refreshCount == old(refreshCount) + 1
                && dhcache.writerSelector == 1 - old(dhcache.writerSelector) && dhcache.available
      ensures old(process.Sound()) && outcome == Slept ==> process.Sound()
      ensures old(process.Sound()) && outcome == ProcessCompleted ==>
                Exact(Sweep(rstate.channels, rstate.localId, Writer(1 - dhcache.writerSelector), coster, costOf),
                      rstate.distances)
    {
      reawaken := false;
      var res;
      res, steps := process.Bursts(timeChecks);
      match res {
        case Continue =>
          reawaken := true;
          outcome := Slept;
        case Failed =>
          DropFailedProcess();
          outcome := ProcessFailed;
        case Completed =>
          PublishCompletedProcess();
          outcome := ProcessCompleted;
      }
    }

    /** `dhcache_coster_init`: the coster of the most recently completed
        refresh.  The cache must be available and that coster must no longer
        be the unset one. */
    function CosterInit(): (c: Coster)
      reads this, dhcache
      requires dhcache.available
      requires coster.sampleAmount != U64_LIMIT - 1 && !coster.riskfactor.NaN?
      ensures c == coster && c != UNSET_COSTER
    {
      coster
    }
  }
}

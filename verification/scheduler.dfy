/**
 * The scheduler of student.c: the ready queue, the four multi-level
 * feedback levels, the CPU assignment table `current`, the preempting flag
 * and the per-process state and link fields, updated in place by the event
 * handlers the simulator calls.
 *
 * Every pointer update is specified by a function of LinkedQueue; the calls
 * into the simulator (context_switch, force_preempt) are entries appended
 * to the ghost log.
 */
module Scheduling {
  import opened Process
  import opened LinkedQueue
  import opened CpuTable

  /** scheduler_alg */
  datatype Alg = Fifo | RoundRobin | StaticPriority | Mlf

  /** A call from the scheduler into the simulator. */
  datatype SimCall =
    | ContextSwitch(cpu: nat, proc: Option<Proc>, timeSlice: int)
    | ForcePreempt(cpu: nat)

  datatype Config = Config(alg: Alg, timeSlice: int)

  /**
   * The `state == PROCESS_WAITING` test of wake_up. A record whose state the
   * scheduler has never written (a new arrival) is not waiting.
   */
  predicate Waits(state: map<Proc, State>, p: Proc)
  {
    p in state && state[p] == Waiting
  }

  /**
   * The choice of policy made by main from its arguments: argc, argv[2]
   * and atoi(argv[3]) (given as already parsed). None is the usage error.
   */
  function SelectPolicy(argc: int, flag: string, slice: int): (r: Option<Config>)
    ensures argc == 2 ==> r == Some(Config(Fifo, -1))
    ensures r.Some? && r.value.alg in {RoundRobin, Mlf} ==> argc > 3 && r.value.timeSlice == slice
    ensures r.Some? && r.value.alg in {Fifo, StaticPriority} ==> r.value.timeSlice == -1
    ensures r.Some? && r.value.alg == RoundRobin ==> flag == "-r"
    ensures r.Some? && r.value.alg == StaticPriority ==> flag == "-p" && argc > 2
    ensures r.Some? && r.value.alg == Mlf ==> flag == "-m"
    ensures argc > 3 && flag == "-r" ==> r == Some(Config(RoundRobin, slice))
    ensures argc > 2 && flag == "-p" ==> r == Some(Config(StaticPriority, -1))
    ensures argc > 3 && flag == "-m" ==> r == Some(Config(Mlf, slice))
    ensures r.Some? && r.value.alg == Fifo ==> argc == 2
    ensures r.None? <==> argc != 2 && (argc <= 2 || (flag != "-p" && (argc <= 3 || (flag != "-r" && flag != "-m"))))
  {
    if argc == 2 then Some(Config(Fifo, -1))
    else if argc > 2 && flag == "-r" && argc > 3 then Some(Config(RoundRobin, slice))
    else if argc > 2 && flag == "-p" then Some(Config(StaticPriority, -1))
    else if argc > 2 && flag == "-m" && argc > 3 then Some(Config(Mlf, slice))
    else None
  }

  /** The lowest-numbered non-empty level (0-based), or -1 when all four are empty. */
  function FirstNonEmpty(levels: seq<Queue>): (k: int)
    requires |levels| == 4
    ensures -1 <= k < 4
    ensures k == -1 <==> forall j :: 0 <= j < 4 ==> levels[j].head.None?
    ensures k >= 0 ==> levels[k].head.Some? && forall j :: 0 <= j < k ==> levels[j].head.None?
  {
    if levels[0].head.Some? then 0
    else if levels[1].head.Some? then 1
    else if levels[2].head.Some? then 2
    else if levels[3].head.Some? then 3
    else -1
  }

  /** getHighestMLF: pop the lowest-numbered non-empty level. */
  function PopHighest(links: Links, levels: seq<Queue>): (r: (Option<Proc>, seq<Queue>))
    requires |levels| == 4
    ensures |r.1| == 4
    ensures r.0.None? <==> forall j :: 0 <= j < 4 ==> levels[j].head.None?
    ensures r.0.None? ==> r.1 == levels
    ensures r.0.Some? ==> exists k ::
      && 0 <= k < 4
      && (forall j :: 0 <= j < k ==> levels[j].head.None?)
      && r.0 == levels[k].head
      && r.1 == levels[k := Pop(links, levels[k]).1]
  {
    var k := FirstNonEmpty(levels);
    if k < 0 then (None, levels)
    else
      var (x, q) := Pop(links, levels[k]);
      (x, levels[k := q])
  }

  /** The dequeue of schedule(): the multi-level set under MLF, the ready queue otherwise. */
  function Dispatch(alg: Alg, links: Links, ready: Queue, levels: seq<Queue>): (r: (Option<Proc>, Queue, seq<Queue>))
    requires |levels| == 4
    ensures |r.2| == 4
    ensures alg == Mlf ==> r.1 == ready
    ensures alg != Mlf ==> r.2 == levels && r.0 == ready.head
  {
    if alg == Mlf then
      var (x, lv) := PopHighest(links, levels);
      (x, ready, lv)
    else
      var (x, q) := Pop(links, ready);
      (x, q, levels)
  }

  class Scheduler {
    const alg: Alg
    const timeSlice: int
    /** current[0..cpu_count): the process bound to each CPU, NULL when it runs idle. */
    const current: array<Option<Proc>>

    var state: map<Proc, State>
    var links: Links
    var ready: Queue
    /** mlhead1/mltail1 .. mlhead4/mltail4 at indices 0 .. 3. */
    var levels: seq<Queue>
    var preempting: bool
    ghost var log: seq<SimCall>

    ghost predicate Valid()
      reads this
    {
      && |levels| == 4
      && PairOk(ready)
      && forall k :: 0 <= k < 4 ==> PairOk(levels[k])
    }

    /**
     * The state between two handler calls: every head/tail pair is both NULL
     * or both set, and no head insertion is pending, since wake_up clears the
     * flag it sets. It does not make every list an IsList: the two link bugs
     * (MlAppendDropsLater, PushFrontStaleNext) break that.
     */
    ghost predicate Settled()
      reads this
    {
      Valid() && !preempting
    }

    /** The state main sets up: every CPU idle, every list empty, the flag clear. */
    constructor (cpuCount: nat, config: Config)
      ensures Settled()
      ensures fresh(current) && current.Length == cpuCount
      ensures forall i :: 0 <= i < cpuCount ==> current[i].None?
      ensures alg == config.alg && timeSlice == config.timeSlice
      ensures ready == Empty && levels == [Empty, Empty, Empty, Empty]
      ensures links == map[] && state == map[] && !preempting && log == []
    {
      alg := config.alg;
      timeSlice := config.timeSlice;
      current := new Option<Proc>[cpuCount](_ => None);
      state := map[];
      links := map[];
      ready := Empty;
      levels := [Empty, Empty, Empty, Empty];
      preempting := false;
      log := [];
    }

    // -------------------------------------------------------------------
    // The single ready queue
    // -------------------------------------------------------------------

    /** addReadyProcess: at the head (clearing the flag) when preempting, at the tail otherwise. */
    method AddReadyProcess(p: Proc)
      requires Valid()
      modifies this
      ensures Valid()
      ensures (links, ready) == AddReady(old(links), old(ready), p, old(preempting))
      ensures !preempting
      ensures state == old(state) && levels == old(levels) && log == old(log)
    {
      if preempting {
        preempting := false;
        if ready.head.None? {
          ready := Queue(Some(p), Some(p));
        } else {
          var temp := ready.head.value;
          ready := ready.(head := Some(p));
          links := links[p := Some(temp)];
          if NextOf(links, temp).None? {
            ready := ready.(tail := Some(temp));
          }
        }
      } else {
        if ready.head.None? {
          ready := Queue(Some(p), Some(p));
        } else {
          links := links[ready.tail.value := Some(p)];
          ready := ready.(tail := Some(p));
        }
        links := links[p := None];
      }
    }

    /** getReadyProcess: pop the head, NULL when the queue is empty. */
    method GetReadyProcess() returns (first: Option<Proc>)
      requires Valid()
      modifies this
      ensures Valid()
      ensures (first, ready) == Pop(old(links), old(ready))
      ensures links == old(links) && state == old(state) && levels == old(levels)
      ensures preempting == old(preempting) && log == old(log)
    {
      if ready.head.None? {
        return None;
      }
      first := ready.head;
      var h := NextOf(links, first.value);
      ready := ready.(head := h);
      if h.None? {
        ready := ready.(tail := None);
      }
    }

    // -------------------------------------------------------------------
    // The multi-level queue set
    // -------------------------------------------------------------------

    /** addToQueue: append to level 1..4; any other level leaves everything as it was. */
    method AddToQueue(p: Proc, level: int)
      requires Valid()
      modifies this
      ensures Valid()
      ensures 1 <= level <= 4 ==>
        var (l, q) := MlAppend(old(links), old(levels)[level - 1], p);
        links == l && levels == old(levels)[level - 1 := q]
      ensures !(1 <= level <= 4) ==> links == old(links) && levels == old(levels)
      ensures ready == old(ready) && state == old(state)
      ensures preempting == old(preempting) && log == old(log)
    {
      if 1 <= level <= 4 {
        var q := levels[level - 1];
        if q.head.None? {
          q := Queue(Some(p), Some(p));
          links := links[p := None];
        } else {
          q := q.(tail := Some(p));
          links := links[p := None];
          if NextOf(links, q.head.value).None? {
            links := links[q.head.value := Some(p)];
          }
        }
        levels := levels[level - 1 := q];
      }
    }

    /** removeFromQueue: pop level 1..4, which must be non-empty; any other level gives NULL. */
    method RemoveFromQueue(level: int) returns (first: Option<Proc>)
      requires Valid()
      requires 1 <= level <= 4 ==> levels[level - 1].head.Some?
      modifies this
      ensures Valid()
      ensures 1 <= level <= 4 ==>
        var (x, q) := Pop(old(links), old(levels)[level - 1]);
        first == x && first.Some? && levels == old(levels)[level - 1 := q]
      ensures !(1 <= level <= 4) ==> first.None? && levels == old(levels)
      ensures links == old(links) && ready == old(ready) && state == old(state)
      ensures preempting == old(preempting) && log == old(log)
    {
      if 1 <= level <= 4 {
        var q := levels[level - 1];
        first := q.head;
        var h := NextOf(links, first.value);
        q := q.(head := h);
        if h.None? {
          q := q.(tail := None);
        }
        levels := levels[level - 1 := q];
        return;
      }
      return None;
    }

    /** getHighestMLF: serve the lowest-numbered non-empty level, NULL when all are empty. */
    method GetHighestMLF() returns (r: Option<Proc>)
      requires Valid()
      modifies this
      ensures Valid()
      ensures (r, levels) == PopHighest(old(links), old(levels))
      ensures links == old(links) && ready == old(ready) && state == old(state)
      ensures preempting == old(preempting) && log == old(log)
    {
      if levels[0].head.Some? {
        r := RemoveFromQueue(1);
        return;
      }
      if levels[1].head.Some? {
        r := RemoveFromQueue(2);
        return;
      }
      if levels[2].head.Some? {
        r := RemoveFromQueue(3);
        return;
      }
      if levels[3].head.Some? {
        r := RemoveFromQueue(4);
        return;
      }
      r := None;
    }

    // -------------------------------------------------------------------
    // Scans of the CPU assignment table
    // -------------------------------------------------------------------

    /** getProcessForCpuId: the process on the CPU; NULL means that CPU runs idle. */
    function ProcessForCpu(cpu: nat): (r: Option<Proc>)
      requires cpu < current.Length
      reads current
      ensures r.Some? ==> r in current[..]
      ensures r.None? ==> HasIdle(current[..])
    {
      current[cpu]
    }

    /** setState: write the state of the process on the CPU, if there is one. */
    method SetState(cpu: nat, s: State)
      requires cpu < current.Length
      modifies this
      ensures state == if current[cpu].Some? then old(state)[current[cpu].value := s] else old(state)
      ensures links == old(links) && ready == old(ready) && levels == old(levels)
      ensures preempting == old(preempting) && log == old(log)
    {
      var process := ProcessForCpu(cpu);
      if process.Some? {
        state := state[process.value := s];
      }
    }

    /** hasEmptyCpus: is some CPU running idle? */
    method HasEmptyCpus() returns (hasEmpty: bool)
      ensures hasEmpty <==> HasIdle(current[..])
    {
      hasEmpty := false;
      var i := 0;
      while i < current.Length
        invariant 0 <= i <= current.Length
        invariant hasEmpty <==> exists j :: 0 <= j < i && current[j].None?
      {
        if current[i].None? {
          hasEmpty := true;
        }
        i := i + 1;
      }
      assert forall j :: 0 <= j < current.Length ==> current[..][j] == current[j];
    }

    /** getCpuIdForProcess: the first CPU running p, or -1. */
    method GetCpuIdForProcess(p: Proc) returns (id: int)
      ensures -1 <= id < current.Length
      ensures id == -1 <==> forall i :: 0 <= i < current.Length ==> current[i] != Some(p)
      ensures id >= 0 ==> current[id] == Some(p) && forall j :: 0 <= j < id ==> current[j] != Some(p)
    {
      var i := 0;
      while i < current.Length
        invariant 0 <= i <= current.Length
        invariant forall j :: 0 <= j < i ==> current[j] != Some(p)
      {
        if current[i] == Some(p) {
          return i;
        }
        i := i + 1;
      }
      return -1;
    }

    /**
     * getLowestPriorityProcess: the running process of least static
     * priority strictly below w's, first by CPU index on ties, or NULL.
     */
    method GetLowestPriorityProcess(w: Proc) returns (r: Option<Proc>)
      ensures r.None? <==> NoneBelow(current[..], w)
      ensures r.Some? ==> r.value.staticPriority < w.staticPriority && r in current[..]
      ensures r.Some? ==> forall j :: 0 <= j < current.Length && current[j].Some? ==>
        r.value.staticPriority <= current[j].value.staticPriority
      ensures r.Some? ==> forall j :: 0 <= j < current.Length && current[j].Some? && current[j] != r ==>
        (current[j].value.staticPriority == r.value.staticPriority ==> r in current[..j])
    {
      var lowest := w;
      ghost var at := -1;
      var i := 0;
      while i < current.Length
        invariant 0 <= i <= current.Length
        invariant -1 <= at < i
        invariant lowest.staticPriority <= w.staticPriority
        invariant forall j :: 0 <= j < i && current[j].Some? ==>
          lowest.staticPriority <= current[j].value.staticPriority
        invariant at == -1 ==> lowest == w
        invariant at >= 0 ==>
          && current[at] == Some(lowest)
          && lowest.staticPriority < w.staticPriority
          && forall j :: 0 <= j < at && current[j].Some? ==>
               lowest.staticPriority < current[j].value.staticPriority
      {
        if current[i].Some? && current[i].value.staticPriority < lowest.staticPriority {
          lowest := current[i].value;
          at := i;
        }
        i := i + 1;
      }
      assert forall j :: 0 <= j < current.Length ==> current[..][j] == current[j];
      if lowest.staticPriority >= w.staticPriority {
        r := None;
      } else {
        r := Some(lowest);
        assert current[..][at] == r;
        forall j | 0 <= j < current.Length && current[j].Some? && current[j] != r &&
            current[j].value.staticPriority == r.value.staticPriority
          ensures r in current[..j]
        {
          assert at < j && current[..j][at] == r;
        }
      }
    }

    // -------------------------------------------------------------------
    // Event handlers
    // -------------------------------------------------------------------

    /**
     * schedule: dequeue per the policy, bind the result (or NULL) to the CPU,
     * mark it RUNNING, and switch context to it. A file-local helper, reached
     * only at the end of idle, preempt, yield and terminate.
     */
    method Schedule(cpu: nat)
      requires Valid() && cpu < current.Length
      modifies this, current
      ensures Valid()
      ensures (current[cpu], ready, levels) == Dispatch(alg, old(links), old(ready), old(levels))
      ensures forall i :: 0 <= i < current.Length && i != cpu ==> current[i] == old(current[i])
      ensures state == if current[cpu].Some? then old(state)[current[cpu].value := Running] else old(state)
      ensures log == old(log) + [ContextSwitch(cpu, current[cpu], timeSlice)]
      ensures links == old(links) && preempting == old(preempting)
    {
      var proc;
      if alg == Mlf {
        proc := GetHighestMLF();
      } else {
        proc := GetReadyProcess();
      }
      current[cpu] := proc;
      if proc.Some? {
        state := state[proc.value := Running];
      }
      log := log + [ContextSwitch(cpu, proc, timeSlice)];
    }

    /** idle, once its wait is over: a process is waiting in the queue(s) the policy serves. */
    method Idle(cpu: nat)
      requires Settled() && cpu < current.Length
      requires alg == Mlf ==> exists k :: 0 <= k < 4 && levels[k].head.Some?
      requires alg != Mlf ==> ready.head.Some?
      modifies this, current
      ensures Settled()
      ensures current[cpu].Some?
      ensures links == old(links) && preempting == old(preempting)
      ensures (current[cpu], ready, levels) == Dispatch(alg, old(links), old(ready), old(levels))
      ensures forall i :: 0 <= i < current.Length && i != cpu ==> current[i] == old(current[i])
      ensures state == old(state)[current[cpu].value := Running]
      ensures log == old(log) + [ContextSwitch(cpu, current[cpu], timeSlice)]
    {
      Schedule(cpu);
    }

    /**
     * preempt: the running process becomes READY and goes back to level 2
     * under MLF, through addReadyProcess otherwise; then schedule.
     */
    method Preempt(cpu: nat)
      requires Settled() && cpu < current.Length && current[cpu].Some?
      modifies this, current
      ensures Settled()
      ensures
        var p := old(current[cpu]).value;
        var (l, q, lv) :=
          if alg == Mlf then
            var (l2, q2) := MlAppend(old(links), old(levels)[1], p);
            (l2, old(ready), old(levels)[1 := q2])
          else
            var (l1, q1) := Append(old(links), old(ready), p);
            (l1, q1, old(levels));
        links == l && (current[cpu], ready, levels) == Dispatch(alg, l, q, lv)
      ensures forall i :: 0 <= i < current.Length && i != cpu ==> current[i] == old(current[i])
      ensures
        var s := old(state)[old(current[cpu]).value := Ready];
        state == if current[cpu].Some? then s[current[cpu].value := Running] else s
      ensures log == old(log) + [ContextSwitch(cpu, current[cpu], timeSlice)]
    {
      if alg == Mlf {
        var proc := ProcessForCpu(cpu);
        SetState(cpu, Ready);
        AddToQueue(proc.value, 2);
      } else {
        SetState(cpu, Ready);
        var proc := ProcessForCpu(cpu);
        AddReadyProcess(proc.value);
      }
      Schedule(cpu);
    }

    /** yield: the running process starts waiting on I/O and joins no queue; then schedule. */
    method Yield(cpu: nat)
      requires Settled() && cpu < current.Length && current[cpu].Some?
      modifies this, current
      ensures Settled()
      ensures (current[cpu], ready, levels) == Dispatch(alg, old(links), old(ready), old(levels))
      ensures forall i :: 0 <= i < current.Length && i != cpu ==> current[i] == old(current[i])
      ensures
        var s := old(state)[old(current[cpu]).value := Waiting];
        state == if current[cpu].Some? then s[current[cpu].value := Running] else s
      ensures links == old(links) && preempting == old(preempting)
      ensures log == old(log) + [ContextSwitch(cpu, current[cpu], timeSlice)]
    {
      state := state[current[cpu].value := Waiting];
      Schedule(cpu);
    }

    /** terminate: the running process is TERMINATED and joins no queue; then schedule. */
    method Terminate(cpu: nat)
      requires Settled() && cpu < current.Length && current[cpu].Some?
      modifies this, current
      ensures Settled()
      ensures (current[cpu], ready, levels) == Dispatch(alg, old(links), old(ready), old(levels))
      ensures forall i :: 0 <= i < current.Length && i != cpu ==> current[i] == old(current[i])
      ensures
        var s := old(state)[old(current[cpu]).value := Terminated];
        state == if current[cpu].Some? then s[current[cpu].value := Running] else s
      ensures links == old(links) && preempting == old(preempting)
      ensures log == old(log) + [ContextSwitch(cpu, current[cpu], timeSlice)]
    {
      state := state[current[cpu].value := Terminated];
      Schedule(cpu);
    }

    /**
     * wake_up: w becomes READY and is placed by the policy. Under static
     * priority, when no CPU is idle and some running process has a lower
     * priority than w, w goes to the head of the ready queue and the CPU of
     * that process is asked to preempt.
     */
    method WakeUp(w: Proc)
      requires Settled()
      modifies this
      ensures Settled()
      ensures state == old(state)[w := Ready]
      ensures alg == StaticPriority ==>
        var forced := !HasIdle(current[..]) && !NoneBelow(current[..], w);
        && levels == old(levels)
        && (forced ==>
              && (links, ready) == PushFront(old(links), old(ready), w)
              && exists i :: IsVictim(current[..], w, i) && log == old(log) + [ForcePreempt(i)])
        && (!forced ==>
              && (links, ready) == Append(old(links), old(ready), w)
              && log == old(log))
      ensures alg == Mlf ==>
        var k := if !Waits(old(state), w) then 0 else 2;
        var (l, q) := MlAppend(old(links), old(levels)[k], w);
        && links == l && levels == old(levels)[k := q]
        && ready == old(ready) && log == old(log)
      ensures levels[3] == old(levels)[3]
      ensures alg in {Fifo, RoundRobin} ==>
        && (links, ready) == Append(old(links), old(ready), w)
        && levels == old(levels) && log == old(log)
    {
      if alg == StaticPriority {
        var lowProcess := GetLowestPriorityProcess(w);
        var hasEmpty := HasEmptyCpus();
        if !hasEmpty && lowProcess.Some? {
          var cpuId := GetCpuIdForProcess(lowProcess.value);
          assert IsVictim(current[..], w, cpuId) by {
            assert current[..][cpuId] == current[cpuId];
          }
          preempting := true;
          state := state[w := Ready];
          AddReadyProcess(w);
          log := log + [ForcePreempt(cpuId)];
        } else {
          state := state[w := Ready];
          AddReadyProcess(w);
        }
      } else if alg == Mlf {
        if !Waits(state, w) {
          state := state[w := Ready];
          AddToQueue(w, 1);
        } else {
          state := state[w := Ready];
          AddToQueue(w, 3);
        }
      } else {
        state := state[w := Ready];
        AddReadyProcess(w);
      }
    }
  }
}

# Scheduler decision core, modelled in Dafny

This project models the CPU scheduler of `student.c`. The scheduler is the
decision core of a simulated operating system. A simulator owns time and one
driver thread per CPU, and calls the scheduler's five event handlers:
`idle`, `preempt`, `yield`, `terminate` and `wake_up`. The first four end by
calling the file-local helper `schedule` (student.c:168, 228, 246, 263),
which the simulator never calls directly. The scheduler keeps this state:

- a single FIFO ready queue (`head`/`tail` over each process record's
  `next` link), used by FIFO, Round Robin and static priority;
- four multi-level feedback levels (`mlhead1..4`/`mltail1..4`), used by MLF;
- the CPU assignment table `current[0..cpu_count)`;
- the `preempting` flag, which makes the next ready-queue insertion go to
  the head;
- the `state` and `next` fields of the process records.

Files:

- `process.dfy` (module `Process`): the process record. A `pcb_t*` is an
  `Option<Proc>`. `Proc` carries the fields the scheduler never writes (pid
  and static priority). The fields it writes (`state`, `next`) are maps keyed
  by `Proc`.
- `linked_queue.dfy` (module `LinkedQueue`): every pointer update of the
  lists, as a function on (links, head/tail pair). `IsList` abstracts a list
  to the sequence a walk from the head visits. The lemmas say when each
  update is a correct FIFO operation and when it is not.
- `cpu_table.dfy` (module `CpuTable`): predicates on the CPU table, namely an
  idle CPU, and the preemption victim for a waking process.
- `scheduler.dfy` (module `Scheduling`): the class `Scheduler`. Its methods
  update the fields in place, in the same order as the C code. Each
  method's `ensures` ties the new state to the `LinkedQueue` functions of the
  old state. The calls `context_switch` and `force_preempt` into the
  simulator are entries appended to the ghost `log`. Between handler calls
  the state is `Settled()`: every head/tail pair is both NULL or both set,
  and the `preempting` flag is clear, because `wake_up` clears the flag it
  sets in the same call. `Settled()` does not say that each list is a
  well-formed chain (`IsList`): the two link bugs under Findings are exactly
  the ways a list stops being one.

The class methods follow the code as written, including its two link bugs
(see Findings). The corrected definitions, with their FIFO property proved,
are in `LinkedQueue`.

## Model

| member | source | states |
|---|---|---|
| `LinkedQueue.Pop` | student.c:385-403 | returns the old head (NULL on an empty list, which stays as it was); keeps head and tail both NULL or both set |
| `LinkedQueue.PopIsList` | student.c:388-402 | on a well-formed list s, an empty s gives NULL and no change; otherwise the pop returns s[0], the rest is the list s[1..], and tail becomes NULL exactly when the last element goes |
| `LinkedQueue.Append` | student.c:352-366 | tail insertion makes p the tail with a NULL next and keeps a non-empty list's head |
| `LinkedQueue.AppendIsList` | student.c:352-366 | with the flag clear, inserting p (not already queued) turns the list s into s + [p] |
| `LinkedQueue.AppendAllIsList` | student.c:352-366 | successive tail insertions of distinct processes ps turn s into s + ps |
| `LinkedQueue.ChainDrain` | student.c:394-399 | popping a list that holds s returns exactly s, in order, then NULL |
| `LinkedQueue.FifoOrder` | student.c:329-403 | with the flag clear, successive pops return processes in insertion order, then NULL |
| `LinkedQueue.PushFront` | student.c:334-351 | head insertion makes p the head; into an empty list it does not touch any next link |
| `LinkedQueue.PushFrontIsList` | student.c:344-350 | with the flag set, inserting p into a non-empty list s gives [p] + s, tail fixed up when s had one element |
| `LinkedQueue.PushFrontStaleNext` | student.c:338-343 | head insertion into an empty list keeps p's stale next x: the result is not the list [p], and two pops return p then x |
| `LinkedQueue.PushFrontFixed` | student.c:338-343 | corrected head insertion, which also clears p's next in the empty case; p becomes the head |
| `LinkedQueue.PushFrontFixedIsList` | student.c:334-351 | the corrected head insertion gives [p] + s for every list s, empty included |
| `LinkedQueue.AddReady` | student.c:329-368 | the flag set puts p at the head, the flag clear puts p at the tail |
| `LinkedQueue.MlAppend` | student.c:471-533 | a level insertion makes p the tail and keeps a non-empty level's head |
| `LinkedQueue.MlAppendIsList` | student.c:474-485 | while the level holds at most one process, inserting p turns s into s + [p] |
| `LinkedQueue.MlAppendDropsLater` | student.c:480-485 | once the level holds two or more processes s, p becomes the tail but stays unreachable: pops return s and never p |
| `LinkedQueue.MlThirdInsertLost` | student.c:471-533 | three insertions a, b, c into an empty level are served as [a, b]; c is lost |
| `CpuTable.VictimExists` | student.c:420-442 | a preemption victim exists exactly when some running process has a priority below the waker's, and it is unique |
| `Scheduling.SelectPolicy` | student.c:90-114 | argc 2 gives FIFO, and FIFO arises only then; otherwise -r or -m with a fourth argument gives Round Robin or MLF with its slice, and -p gives static priority; any other combination is a usage error; FIFO and static priority keep time_slice -1 |
| `Scheduling.FirstNonEmpty` | student.c:587-598 | the first non-empty level, with every earlier level empty; -1 exactly when all four are empty |
| `Scheduling.PopHighest` | student.c:587-598 | NULL exactly when all four levels are empty, and then nothing changes; otherwise pops level k, whose predecessors are all empty, and leaves the other levels alone |
| `Scheduling.Dispatch` | student.c:189 | under MLF the ready queue is untouched; otherwise the levels are untouched and the result is the ready queue's head |
| `Scheduling.Scheduler.constructor` | student.c:118-125 | every CPU slot starts NULL, all lists empty, the flag clear |
| `Scheduling.Scheduler.AddReadyProcess` | student.c:329-368 | the pointers become `AddReady` of the old ones for the old flag; the flag ends clear; nothing else changes |
| `Scheduling.Scheduler.GetReadyProcess` | student.c:385-403 | result and ready queue are `Pop` of the old queue; links and all else unchanged |
| `Scheduling.Scheduler.AddToQueue` | student.c:471-533 | levels 1..4 become `MlAppend` of that level and the others stay; any other level number changes nothing |
| `Scheduling.Scheduler.RemoveFromQueue` | student.c:535-578 | needs a non-empty level 1..4; pops it and returns its old head; any other level number returns NULL |
| `Scheduling.Scheduler.GetHighestMLF` | student.c:587-598 | result and levels are `PopHighest` of the old levels |
| `Scheduling.Scheduler.ProcessForCpu` | student.c:417-419 | the process bound to the CPU, which is in the table; NULL means some CPU runs idle |
| `Scheduling.Scheduler.SetState` | student.c:407-416 | writes the state of the process on the CPU, and does nothing when the slot is NULL |
| `Scheduling.Scheduler.HasEmptyCpus` | student.c:443-456 | true exactly when some slot of `current` is NULL |
| `Scheduling.Scheduler.GetCpuIdForProcess` | student.c:457-469 | the lowest index whose slot holds p, or -1 exactly when no slot holds it |
| `Scheduling.Scheduler.GetLowestPriorityProcess` | student.c:420-442 | NULL exactly when no running process has a priority strictly below w's; otherwise the minimum-priority running process, at the lowest CPU index on ties |
| `Scheduling.Scheduler.Schedule` | student.c:187-203 | the CPU slot gets the dequeued process or NULL; that process becomes RUNNING only if non-NULL; other slots unchanged; one context switch with the time slice is logged |
| `Scheduling.Scheduler.Idle` | student.c:152-169 | once a served queue is non-empty, schedule binds a non-NULL process to the CPU and marks it RUNNING; links and the flag are unchanged |
| `Scheduling.Scheduler.Preempt` | student.c:218-229 | the running process becomes READY and goes to the tail of level 2 under MLF, to the tail of the ready queue otherwise; then schedule |
| `Scheduling.Scheduler.Yield` | student.c:241-247 | the running process becomes WAITING without entering any queue; then schedule |
| `Scheduling.Scheduler.Terminate` | student.c:258-264 | the running process becomes TERMINATED without entering any queue; then schedule |
| `Scheduling.Scheduler.WakeUp` | student.c:283-319 | w becomes READY. Static priority: a force_preempt of the victim's CPU is logged and w goes to the head only when no CPU is idle and a victim exists; otherwise w is enqueued normally. MLF: level 1 unless w was WAITING, then level 3. Level 4 never receives w. Otherwise w is enqueued |

## Findings

| source | as written | input that shows it | evidently intended | confidence | as-written member | corrected member |
|---|---|---|---|---|---|---|
| student.c:480-485 | a non-empty level gets a new tail, but the old tail's `next` is never set; only a head without a successor is linked | insert a, b, c into an empty level: the pops return a, b, then NULL, and c is never served | link the old tail to the new node, as `addReadyProcess` does at student.c:360 | high (not executed) | `LinkedQueue.MlThirdInsertLost` (on `LinkedQueue.MlAppend`) | `LinkedQueue.AppendIsList` (on `LinkedQueue.Append`) |
| student.c:338-343 | head insertion into an empty ready queue leaves the process's `next` as it was; popping at student.c:394-395 never clears it | p was popped while x followed it, then p wakes with the flag set into an empty queue, and another CPU's schedule (after its yield or terminate) pops p before the preempted victim's tail insertion overwrites p's next: the next pop returns x, which was never re-inserted | clear `proc->next` in that branch too | high (not executed) | `LinkedQueue.PushFrontStaleNext` (on `LinkedQueue.PushFront`) | `LinkedQueue.PushFrontFixedIsList` (on `LinkedQueue.PushFrontFixed`) |

The class methods keep the code's behaviour, so these divergences stay
visible in the model of the handlers. The corrected functions are what the
intended FIFO behaviour is proved against.

## Left out

- Mutexes and condition variables (`ready_mutex`, `current_mutex`, `preempt_mutex`, `ml_mutex`, `ready_empty`, `ml_empty`) are left out. The model is sequential, so it does not capture the cross-thread race on `preempting` or the mutex still locked when `removeFromQueue` returns NULL at student.c:577.
- Idle: the blocking wait of `idle` is left out. It is modelled as `schedule` under the precondition that the served queue or levels are non-empty.
- `context_switch`, `force_preempt` and `start_simulator` are calls into the simulator library, which is not part of this model. The first two appear only as entries of the ghost `log`.
- `printf`, `print` and `fflush` are output only.
- `main`: `atoi`, `malloc` and starting the simulator are left out. The policy choice is `SelectPolicy`, which takes argc, argv[2] and the already parsed time slice. The constructor takes the CPU count and the chosen configuration.
- The process record headers are not part of this model. A record carries only pid, static priority, state and next. A record without a `next` entry is taken to have a NULL link. Two records with the same pid and priority are the same record, since pointers are compared as values.
- Integer widths: `static_priority`, `cpu_id` and `time_slice` are unbounded integers. The scheduler does no arithmetic on them, only comparisons.
- Scheduling.Waits: a process record whose state the scheduler has never written counts as not WAITING, so under MLF a new arrival goes to level 1. The simulator's initial state for new processes is not part of this model.
- Preempt, Yield and Terminate require a process on the CPU. The code dereferences that slot (student.c:222, 226, 244, 261), so a NULL slot would crash it.
- The invariant that a process is in at most one queue or one CPU slot is not proved. The code does not maintain it: see Findings.

/**
 * The browser task scheduler of the zbrowser scraper (`scraper/core.go`).
 *
 * `New` builds a pool of `Workers` browser sessions ("slots") fed by a task
 * channel buffered to `Workers` entries; `Execute` adds one to the in-flight
 * counter (a `sync.WaitGroup`), sends it and waits for its result;
 * each worker loops on a `select` between the `tasks` channel and the shutdown
 * channel; `Close` waits for the counter to reach zero, closes both channels
 * and cancels the browser allocator.
 *
 * The goroutines are modelled as a sequential state machine: every step a
 * goroutine can take (a caller's send, a worker's `select`, a worker
 * finishing its task, a caller receiving its result, `Close`) is a method,
 * and any interleaving of the concurrent program is a sequence of calls.
 * What a task computes, and which browser data it leaves behind, come from
 * the browser and are parameters of the step that finishes it.
 */
module Scheduler {
  import opened Wrappers

  /** A CDP network resource type such as "Image" or "Stylesheet". */
  type ResourceType = string
  type TaskId = nat
  type Err = string

  /** `scraper.Config`; the user's allocator options are named by strings. */
  datatype Config = Config(
    workers: int,
    opts: seq<string>,
    blockResources: seq<ResourceType>,
    url: Option<string>)

  datatype FlagValue = Text(text: string) | Bool(on: bool)

  /** A Chrome launch option: chromedp's default set, one flag, or a user option. */
  datatype Opt = ChromedpDefaults | Flag(name: string, value: FlagValue) | UserOpt(opt: string)

  /** The browser allocator: a remote Chrome at a URL, or a locally launched one. */
  datatype Allocator = Remote(url: string) | Local(opts: seq<Opt>)

  /** The flags `New` appends to chromedp's default launch options. */
  const LaunchFlags: seq<Opt> := [
    Flag("user-agent", Text("Mozilla/5.0 (Windows NT 10.0; Win64; x64) AppleWebKit/537.36 (KHTML, like Gecko) Chrome/114.0.0.0 Safari/537.36")),
    Flag("headless", Bool(false)),
    Flag("disable-gpu", Bool(false)),
    Flag("disable-dev-shm-usage", Bool(false)),
    Flag("no-sandbox", Bool(false)),
    Flag("window-size", Text("1920,1080"))
  ]

  /** The number of workers `New` starts: a non-positive request is coerced to one. */
  function EffectiveWorkers(requested: int): (n: nat)
    ensures n >= 1
    ensures requested > 0 ==> n == requested
    ensures requested <= 0 ==> n == 1
  {
    if requested <= 0 then 1 else requested
  }

  /**
   * The blocked-resource set: built only from a non-empty list (Go leaves
   * the map nil otherwise, and a nil map answers every lookup with "absent").
   */
  function BlockSet(list: seq<ResourceType>): (m: Option<set<ResourceType>>)
    ensures m.Some? <==> |list| > 0
    ensures m.Some? ==> forall r :: r in m.value <==> r in list
  {
    if |list| > 0 then Some(set r | r in list) else None
  }

  /** The lookup the request inspector performs on the blocked-resource set. */
  predicate IsBlocked(m: Option<set<ResourceType>>, r: ResourceType) {
    m.Some? && r in m.value
  }

  lemma BlockedIffListed(list: seq<ResourceType>, r: ResourceType)
    ensures IsBlocked(BlockSet(list), r) <==> r in list
  {
    if r in list {
      assert |list| > 0;
    }
  }

  function UserOpts(opts: seq<string>): (r: seq<Opt>)
    ensures |r| == |opts|
    ensures forall i :: 0 <= i < |opts| ==> r[i] == UserOpt(opts[i])
  {
    if opts == [] then [] else [UserOpt(opts[0])] + UserOpts(opts[1..])
  }

  /**
   * Exactly one allocator: remote when a URL is configured, else a local
   * launch whose options are chromedp's defaults, then the fixed flags, then
   * the user's options (later options override earlier ones).
   */
  function AllocatorFor(config: Config): (a: Allocator)
    ensures a.Remote? <==> config.url.Some?
    ensures a.Remote? ==> a.url == config.url.value
    ensures a.Local? ==> |a.opts| == 1 + |LaunchFlags| + |config.opts|
    ensures a.Local? ==> a.opts[0] == ChromedpDefaults && a.opts[1..1 + |LaunchFlags|] == LaunchFlags
    ensures a.Local? ==> forall i :: 0 <= i < |config.opts| ==> a.opts[1 + |LaunchFlags| + i] == UserOpt(config.opts[i])
  {
    match config.url
    case Some(u) => Remote(u)
    case None => Local([ChromedpDefaults] + LaunchFlags + UserOpts(config.opts))
  }

  /** What one pass of a worker's `select` does. */
  datatype Choice =
    | TakeTask   // received a task from the buffer
    | ZeroTask   // received the zero Task from the closed, empty task channel
    | Shutdown   // took the shutdown case: cancel the session and exit
    | Wait       // no case ready: stay blocked

  /**
   * The worker's `select` as written. A receive from a closed channel is
   * always ready and yields the zero value; when both cases are ready Go
   * picks one at random, here `coin` (true picks the receive-a-task case).
   */
  function SelectAsWritten(buffered: bool, tasksClosed: bool, closeSignalled: bool, coin: bool): (c: Choice)
    ensures c == TakeTask ==> buffered
    ensures c == ZeroTask <==> !buffered && tasksClosed && (!closeSignalled || coin)
    ensures c == Shutdown ==> closeSignalled
    ensures c == Wait <==> !buffered && !tasksClosed && !closeSignalled
  {
    var receiveReady := buffered || tasksClosed;
    if receiveReady && (!closeSignalled || coin) then
      (if buffered then TakeTask else ZeroTask)
    else if closeSignalled then Shutdown
    else Wait
  }

  /**
   * After `Close`, both channels are closed and the buffer is empty; a worker
   * that reaches its `select` then (for example one that was between
   * `taskWg.Done()` and its next loop iteration when `Close` returned from
   * `Wait`) can take the receive-a-task case, receive the zero Task and call its nil
   * `Func`, which panics.
   */
  lemma ZeroTaskAfterClose()
    ensures SelectAsWritten(false, true, true, true) == ZeroTask
  {
  }

  /** The `select` as evidently intended: a closed task channel means shut down. */
  function SelectCorrected(buffered: bool, tasksClosed: bool, closeSignalled: bool, coin: bool): (c: Choice)
    ensures c != ZeroTask
    ensures c == TakeTask ==> buffered
    ensures c == Shutdown ==> closeSignalled || tasksClosed
    ensures c == Wait <==> !buffered && !tasksClosed && !closeSignalled
  {
    match SelectAsWritten(buffered, tasksClosed, closeSignalled, coin)
    case ZeroTask => Shutdown
    case other => other
  }

  lemma CorrectedAgreesWhenOpen(buffered: bool, closeSignalled: bool, coin: bool)
    ensures SelectCorrected(buffered, false, closeSignalled, coin) == SelectAsWritten(buffered, false, closeSignalled, coin)
  {
  }

  datatype SlotState = Idle | Running(task: TaskId) | Exited

  /** A worker slot: its state and the browser data (cookies, cache) its session holds. */
  datatype Slot = Slot(state: SlotState, session: set<string>)

  /** `Result[any]`: a task's value and error. */
  datatype Outcome<V> = Outcome(value: V, err: Option<Err>)

  datatype CloseStatus =
    | StillWaiting      // `taskWg.Wait()` blocks: tasks are in flight
    | Closed            // channels closed, allocator cancelled
    | DoubleClosePanic  // a second Close closes a closed channel

  /** The generic `Execute[T]`: the zero value on error, else the value it carries. */
  function TypedResult<T>(o: Outcome<T>, zero: T): (r: (T, Option<Err>))
    ensures r.1 == o.err
    ensures o.err.Some? ==> r.0 == zero
    ensures o.err.None? ==> r.0 == o.value
  {
    if o.err.Some? then (zero, o.err) else (o.value, None)
  }

  function SlotTask(s: Slot): multiset<TaskId> {
    if s.state.Running? then multiset{s.state.task} else multiset{}
  }

  /** The tasks the slots are running. */
  function RunningIds(slots: seq<Slot>): multiset<TaskId> {
    if slots == [] then multiset{} else SlotTask(slots[0]) + RunningIds(slots[1..])
  }

  lemma AddShuffle(a: multiset<TaskId>, b: multiset<TaskId>, c: multiset<TaskId>, d: multiset<TaskId>, e: multiset<TaskId>)
    requires b + c == e + d
    ensures a + b + c == (a + e) + d
  {
    forall x ensures (a + b + c)[x] == ((a + e) + d)[x] {
      assert (b + c)[x] == (e + d)[x];
    }
  }

  lemma {:induction false} RunningIdsUpdate(slots: seq<Slot>, i: nat, s: Slot)
    requires i < |slots|
    ensures RunningIds(slots[i := s]) + SlotTask(slots[i]) == RunningIds(slots) + SlotTask(s)
    decreases i
  {
    var u := slots[i := s];
    if i > 0 {
      var tail := slots[1..];
      RunningIdsUpdate(tail, i - 1, s);
      assert u[1..] == tail[i - 1 := s];
      assert tail[i - 1] == slots[i];
      var a, b, c, d := SlotTask(slots[0]), RunningIds(tail[i - 1 := s]), SlotTask(slots[i]), SlotTask(s);
      assert b + c == RunningIds(tail) + d;
      assert u[0] == slots[0];
      assert RunningIds(u) == a + b;
      assert RunningIds(slots) == a + RunningIds(tail);
      AddShuffle(a, b, c, d, RunningIds(tail));
    } else {
      assert u[1..] == slots[1..];
    }
  }

  /** Task ids of a channel's contents, the blocked senders and the running slots. */
  ghost function PendingOf(tasks: seq<TaskId>, senders: seq<TaskId>, slots: seq<Slot>): multiset<TaskId> {
    multiset(tasks) + multiset(senders) + RunningIds(slots)
  }

  /**
   * Every pending task is counted once, was numbered before `next`, and has
   * no result yet; every result belongs to a numbered task.
   */
  /** How often `id` occurs in `p`; named so that distinctness has a trigger of its own. */
  ghost function Occurrences(p: multiset<TaskId>, id: TaskId): nat {
    p[id]
  }

  ghost predicate Tracked<V>(p: multiset<TaskId>, next: TaskId, results: map<TaskId, Outcome<V>>) {
    && (forall id: TaskId :: Occurrences(p, id) <= 1)
    && (forall id: TaskId :: Occurrences(p, id) > 0 ==> id < next && id !in results)
    && (forall id :: id in results ==> id < next)
  }

  /** Taking the head of the buffer into an idle slot keeps the pending tasks. */
  lemma TakeKeepsPending(tasks: seq<TaskId>, senders: seq<TaskId>, slots: seq<Slot>, idx: nat)
    requires tasks != [] && idx < |slots| && slots[idx].state.Idle?
    ensures var slots' := slots[idx := Slot(Running(tasks[0]), slots[idx].session)];
            && PendingOf(tasks[1..], senders, slots') == PendingOf(tasks, senders, slots)
            && (senders != [] ==> PendingOf(tasks[1..] + [senders[0]], senders[1..], slots') == PendingOf(tasks, senders, slots))
  {
    var t := tasks[0];
    var slots' := slots[idx := Slot(Running(t), slots[idx].session)];
    RunningIdsUpdate(slots, idx, Slot(Running(t), slots[idx].session));
    assert SlotTask(slots[idx]) == multiset{};
    assert RunningIds(slots') == RunningIds(slots) + multiset{t};
    assert tasks == [t] + tasks[1..];
    assert multiset(tasks) == multiset{t} + multiset(tasks[1..]);
    calc {
      PendingOf(tasks[1..], senders, slots');
      multiset(tasks[1..]) + multiset(senders) + (RunningIds(slots) + multiset{t});
      (multiset{t} + multiset(tasks[1..])) + multiset(senders) + RunningIds(slots);
      PendingOf(tasks, senders, slots);
    }
    if senders != [] {
      assert senders == [senders[0]] + senders[1..];
      assert multiset(senders) == multiset{senders[0]} + multiset(senders[1..]);
      assert multiset(tasks[1..] + [senders[0]]) == multiset(tasks[1..]) + multiset{senders[0]};
    }
  }

  lemma {:induction false} RunningIdsIdle(n: nat)
    ensures RunningIds(seq(n, _ => Slot(Idle, {}))) == multiset{}
  {
    if n > 0 {
      RunningIdsIdle(n - 1);
      assert seq(n, _ => Slot(Idle, {}))[1..] == seq(n - 1, _ => Slot(Idle, {}));
    }
  }

  lemma TrackedAdd<V>(p: multiset<TaskId>, next: TaskId, results: map<TaskId, Outcome<V>>)
    requires Tracked(p, next, results)
    ensures next !in p
    ensures Tracked(p + multiset{next}, next + 1, results)
  {
    var q := p + multiset{next};
    assert Occurrences(p, next) == 0;
    forall x: TaskId ensures Occurrences(q, x) <= 1 {
      assert Occurrences(p, x) <= 1;
    }
    forall x: TaskId | Occurrences(q, x) > 0 ensures x < next + 1 && x !in results {
      if x != next {
        assert Occurrences(p, x) > 0;
      }
    }
  }

  lemma TrackedFinish<V>(p: multiset<TaskId>, id: TaskId, next: TaskId, results: map<TaskId, Outcome<V>>, o: Outcome<V>)
    requires Tracked(p + multiset{id}, next, results)
    ensures id !in p && id !in results
    ensures Tracked(p, next, results[id := o])
  {
    var q := p + multiset{id};
    assert Occurrences(q, id) == p[id] + 1;
    forall x: TaskId ensures Occurrences(p, x) <= 1 {
      assert Occurrences(q, x) >= p[x];
    }
    assert Occurrences(q, id) > 0;
    forall x: TaskId | Occurrences(p, x) > 0 ensures x < next && x !in results[id := o] {
      assert Occurrences(q, x) >= p[x];
    }
  }

  lemma TrackedReceive<V>(p: multiset<TaskId>, next: TaskId, results: map<TaskId, Outcome<V>>, id: TaskId)
    requires Tracked(p, next, results)
    ensures Tracked(p, next, results - {id})
  {
  }

  lemma AppendPending(tasks: seq<TaskId>, senders: seq<TaskId>, slots: seq<Slot>, id: TaskId)
    ensures PendingOf(tasks + [id], senders, slots) == PendingOf(tasks, senders, slots) + multiset{id}
    ensures PendingOf(tasks, senders + [id], slots) == PendingOf(tasks, senders, slots) + multiset{id}
  {
    assert multiset(tasks + [id]) == multiset(tasks) + multiset{id};
    assert multiset(senders + [id]) == multiset(senders) + multiset{id};
  }

  lemma FinishPending(tasks: seq<TaskId>, senders: seq<TaskId>, slots: seq<Slot>, idx: nat, s: Slot)
    requires idx < |slots| && slots[idx].state.Running? && !s.state.Running?
    ensures PendingOf(tasks, senders, slots) == PendingOf(tasks, senders, slots[idx := s]) + multiset{slots[idx].state.task}
  {
    var u := slots[idx := s];
    var id := slots[idx].state.task;
    RunningIdsUpdate(slots, idx, s);
    assert SlotTask(s) == multiset{};
    assert SlotTask(slots[idx]) == multiset{id};
    assert RunningIds(slots) == RunningIds(u) + multiset{id};
    calc {
      PendingOf(tasks, senders, slots);
      multiset(tasks) + multiset(senders) + (RunningIds(u) + multiset{id});
      PendingOf(tasks, senders, u) + multiset{id};
    }
  }

  /** The scheduler's invariant, over the values of its fields. */
  ghost predicate Inv<V>(workers: nat, tasks: seq<TaskId>, senders: seq<TaskId>, slots: seq<Slot>,
                         inFlight: nat, results: map<TaskId, Outcome<V>>, nextId: TaskId, closed: bool)
  {
    && workers >= 1
    && |slots| == workers
    && |tasks| <= workers
    && (senders != [] ==> |tasks| == workers)
    && inFlight == |PendingOf(tasks, senders, slots)|
    && Tracked(PendingOf(tasks, senders, slots), nextId, results)
    && (closed ==> tasks == [] && senders == [] && RunningIds(slots) == multiset{})
  }

  lemma SubmitKeepsInv<V>(workers: nat, tasks: seq<TaskId>, senders: seq<TaskId>, slots: seq<Slot>,
                          inFlight: nat, results: map<TaskId, Outcome<V>>, nextId: TaskId)
    requires Inv(workers, tasks, senders, slots, inFlight, results, nextId, false)
    ensures |tasks| < workers ==> Inv(workers, tasks + [nextId], senders, slots, inFlight + 1, results, nextId + 1, false)
    ensures |tasks| >= workers ==> Inv(workers, tasks, senders + [nextId], slots, inFlight + 1, results, nextId + 1, false)
  {
    TrackedAdd(PendingOf(tasks, senders, slots), nextId, results);
    AppendPending(tasks, senders, slots, nextId);
  }

  lemma TakeKeepsInv<V>(workers: nat, tasks: seq<TaskId>, senders: seq<TaskId>, slots: seq<Slot>,
                        inFlight: nat, results: map<TaskId, Outcome<V>>, nextId: TaskId, closed: bool, idx: nat)
    requires Inv(workers, tasks, senders, slots, inFlight, results, nextId, closed)
    requires tasks != [] && idx < |slots| && slots[idx].state.Idle?
    ensures var slots' := slots[idx := Slot(Running(tasks[0]), slots[idx].session)];
            && (senders == [] ==> Inv(workers, tasks[1..], senders, slots', inFlight, results, nextId, closed))
            && (senders != [] ==> Inv(workers, tasks[1..] + [senders[0]], senders[1..], slots', inFlight, results, nextId, closed))
  {
    TakeKeepsPending(tasks, senders, slots, idx);
  }

  /** Taking the head task and admitting the first blocked sender advances the queue by one. */
  lemma QueueAdvance(tasks: seq<TaskId>, senders: seq<TaskId>)
    requires tasks != []
    ensures senders == [] ==> tasks[1..] + senders == (tasks + senders)[1..]
    ensures senders != [] ==> (tasks[1..] + [senders[0]]) + senders[1..] == (tasks + senders)[1..]
  {
    if senders != [] {
      assert senders == [senders[0]] + senders[1..];
    }
  }

  lemma ShutdownKeepsInv<V>(workers: nat, tasks: seq<TaskId>, senders: seq<TaskId>, slots: seq<Slot>,
                            inFlight: nat, results: map<TaskId, Outcome<V>>, nextId: TaskId, closed: bool, idx: nat)
    requires Inv(workers, tasks, senders, slots, inFlight, results, nextId, closed)
    requires idx < |slots| && slots[idx].state.Idle?
    ensures Inv(workers, tasks, senders, slots[idx := Slot(Exited, slots[idx].session)], inFlight, results, nextId, closed)
  {
    var s := Slot(Exited, slots[idx].session);
    RunningIdsUpdate(slots, idx, s);
    assert SlotTask(s) == multiset{} && SlotTask(slots[idx]) == multiset{};
    var u := slots[idx := s];
    assert RunningIds(u) + SlotTask(slots[idx]) == RunningIds(u);
    assert RunningIds(slots) + SlotTask(s) == RunningIds(slots);
    assert RunningIds(u) == RunningIds(slots);
    assert PendingOf(tasks, senders, slots[idx := s]) == PendingOf(tasks, senders, slots);
  }

  lemma FinishKeepsInv<V>(workers: nat, tasks: seq<TaskId>, senders: seq<TaskId>, slots: seq<Slot>,
                          inFlight: nat, results: map<TaskId, Outcome<V>>, nextId: TaskId, closed: bool,
                          idx: nat, s: Slot, o: Outcome<V>)
    requires Inv(workers, tasks, senders, slots, inFlight, results, nextId, closed)
    requires idx < |slots| && slots[idx].state.Running? && s.state.Idle?
    ensures slots[idx].state.task !in results
    ensures slots[idx].state.task !in PendingOf(tasks, senders, slots[idx := s])
    ensures inFlight >= 1
    ensures Inv(workers, tasks, senders, slots[idx := s], inFlight - 1, results[slots[idx].state.task := o], nextId, closed)
  {
    var id := slots[idx].state.task;
    var p := PendingOf(tasks, senders, slots[idx := s]);
    FinishPending(tasks, senders, slots, idx, s);
    TrackedFinish(p, id, nextId, results, o);
    RunningIdsUpdate(slots, idx, s);
    assert id in RunningIds(slots);
  }

  lemma ReceiveKeepsInv<V>(workers: nat, tasks: seq<TaskId>, senders: seq<TaskId>, slots: seq<Slot>,
                           inFlight: nat, results: map<TaskId, Outcome<V>>, nextId: TaskId, closed: bool, id: TaskId)
    requires Inv(workers, tasks, senders, slots, inFlight, results, nextId, closed)
    ensures Inv(workers, tasks, senders, slots, inFlight, results - {id}, nextId, closed)
  {
    TrackedReceive(PendingOf(tasks, senders, slots), nextId, results, id);
  }

  lemma CloseKeepsInv<V>(workers: nat, tasks: seq<TaskId>, senders: seq<TaskId>, slots: seq<Slot>,
                         results: map<TaskId, Outcome<V>>, nextId: TaskId)
    requires Inv(workers, tasks, senders, slots, 0, results, nextId, false)
    ensures tasks == [] && senders == []
    ensures Inv(workers, tasks, senders, slots, 0, results, nextId, true)
  {
    assert |multiset(tasks)| == |tasks|;
    assert |multiset(senders)| == |senders|;
  }

  class Scraper<V> {
    const workers: nat
    const blockResources: Option<set<ResourceType>>
    const allocator: Allocator
    var allocCancelled: bool
    /** The contents of the buffered task channel, oldest first. */
    var tasks: seq<TaskId>
    /** Callers of `Execute` blocked on a full channel, in arrival order. */
    var senders: seq<TaskId>
    var slots: seq<Slot>
    /** The WaitGroup counter. */
    var inFlight: nat
    /** Results sent on each task's result channel and not yet received. */
    var results: map<TaskId, Outcome<V>>
    var closeSignalled: bool
    var tasksClosed: bool
    /** Tasks are numbered in submission order. */
    var nextId: TaskId

    /** Submitted tasks no worker has taken yet, in channel order. */
    ghost function Queue(): seq<TaskId>
      reads this
    {
      tasks + senders
    }

    /** Tasks submitted and not yet finished. */
    ghost function Pending(): multiset<TaskId>
      reads this
    {
      PendingOf(tasks, senders, slots)
    }

    ghost predicate Valid()
      reads this
    {
      && Inv(workers, tasks, senders, slots, inFlight, results, nextId, tasksClosed)
      && (closeSignalled <==> tasksClosed)
      && (allocCancelled <==> tasksClosed)
    }

    /** `New` followed by `startWorkers`. */
    constructor (config: Config)
      ensures Valid()
      ensures workers == EffectiveWorkers(config.workers)
      ensures blockResources == BlockSet(config.blockResources)
      ensures allocator == AllocatorFor(config)
      ensures slots == seq(workers, _ => Slot(Idle, {}))
      ensures tasks == [] && senders == [] && inFlight == 0 && results == map[]
      ensures !closeSignalled && !tasksClosed && !allocCancelled
    {
      workers := EffectiveWorkers(config.workers);
      blockResources := BlockSet(config.blockResources);
      allocator := AllocatorFor(config);
      allocCancelled := false;
      tasks := [];
      senders := [];
      slots := seq(EffectiveWorkers(config.workers), _ => Slot(Idle, {}));
      inFlight := 0;
      results := map[];
      closeSignalled := false;
      tasksClosed := false;
      nextId := 0;
      new;
      RunningIdsIdle(workers);
    }

    /**
     * The first half of `Execute`: count it in, then send it. The send
     * lands in the buffer when there is room, else the caller blocks behind
     * the earlier blocked callers. Sending on the closed channel panics.
     */
    method Submit() returns (r: Result<TaskId, string>)
      requires Valid()
      modifies this
      ensures Valid()
      ensures old(tasksClosed) ==> r == Failure("send on closed channel") && unchanged(this)
      ensures !old(tasksClosed) ==> && r == Success(old(nextId))
                                    && Queue() == old(Queue()) + [old(nextId)]
                                    && inFlight == old(inFlight) + 1
                                    && slots == old(slots) && results == old(results)
                                    && !tasksClosed
      ensures !old(tasksClosed) && |old(tasks)| < workers ==> tasks == old(tasks) + [old(nextId)] && senders == []
      ensures !old(tasksClosed) && |old(tasks)| == workers ==> tasks == old(tasks) && senders == old(senders) + [old(nextId)]
    {
      if tasksClosed {
        return Failure("send on closed channel");
      }
      r := Success(nextId);
      if |tasks| < workers {
        BufferStep();
      } else {
        BlockStep();
      }
    }

    /** The send finds room in the channel's buffer. */
    method BufferStep()
      requires Valid() && !tasksClosed && |tasks| < workers
      modifies this
      ensures Valid()
      ensures tasks == old(tasks) + [old(nextId)] && senders == [] && Queue() == old(Queue()) + [old(nextId)]
      ensures inFlight == old(inFlight) + 1 && nextId == old(nextId) + 1
      ensures slots == old(slots) && results == old(results)
      ensures closeSignalled == old(closeSignalled) && tasksClosed == old(tasksClosed)
    {
      var id := nextId;
      SubmitKeepsInv(workers, tasks, senders, slots, inFlight, results, nextId);
      assert (tasks + [id]) + senders == (tasks + senders) + [id];
      tasks, inFlight, nextId := tasks + [id], inFlight + 1, nextId + 1;
    }

    /** The buffer is full: the caller blocks behind the earlier blocked callers. */
    method BlockStep()
      requires Valid() && !tasksClosed && |tasks| == workers
      modifies this
      ensures Valid()
      ensures tasks == old(tasks) && senders == old(senders) + [old(nextId)] && Queue() == old(Queue()) + [old(nextId)]
      ensures inFlight == old(inFlight) + 1 && nextId == old(nextId) + 1
      ensures slots == old(slots) && results == old(results)
      ensures closeSignalled == old(closeSignalled) && tasksClosed == old(tasksClosed)
    {
      var id := nextId;
      SubmitKeepsInv(workers, tasks, senders, slots, inFlight, results, nextId);
      assert tasks + (senders + [id]) == (tasks + senders) + [id];
      senders, inFlight, nextId := senders + [id], inFlight + 1, nextId + 1;
    }

    /**
     * One pass of worker `idx`'s `select` (the corrected one). Taking a task
     * pops the head of the buffer, and the first blocked caller's task moves
     * into the freed place, so tasks start in submission order.
     */
    method WorkerSelect(idx: nat, coin: bool) returns (c: Choice)
      requires Valid() && idx < |slots| && slots[idx].state.Idle?
      modifies this
      ensures Valid()
      ensures c == SelectCorrected(old(tasks) != [], old(tasksClosed), old(closeSignalled), coin)
      ensures c == TakeTask ==> && slots == old(slots)[idx := Slot(Running(old(Queue())[0]), old(slots[idx].session))]
                                && Queue() == old(Queue())[1..]
                                && inFlight == old(inFlight)
      ensures c == Shutdown ==> slots == old(slots)[idx := Slot(Exited, old(slots[idx].session))] && Queue() == old(Queue())
      ensures c != TakeTask && c != Shutdown ==> slots == old(slots)
      ensures c != TakeTask ==> tasks == old(tasks) && senders == old(senders)
      ensures results == old(results) && inFlight == old(inFlight) && nextId == old(nextId)
      ensures closeSignalled == old(closeSignalled) && tasksClosed == old(tasksClosed)
    {
      c := SelectCorrected(tasks != [], tasksClosed, closeSignalled, coin);
      if c == TakeTask {
        TakeStep(idx);
      } else if c == Shutdown {
        ShutdownStep(idx);
      }
    }

    /** The receive-a-task case of the `select`: worker `idx` starts the oldest queued task. */
    method TakeStep(idx: nat)
      requires Valid() && idx < |slots| && slots[idx].state.Idle? && tasks != []
      modifies this
      ensures Valid()
      ensures slots == old(slots)[idx := Slot(Running(old(Queue())[0]), old(slots[idx].session))]
      ensures Queue() == old(Queue())[1..]
      ensures results == old(results) && inFlight == old(inFlight) && nextId == old(nextId)
      ensures closeSignalled == old(closeSignalled) && tasksClosed == old(tasksClosed)
    {
      var slot' := Slot(Running(tasks[0]), slots[idx].session);
      var tasks' := if senders != [] then tasks[1..] + [senders[0]] else tasks[1..];
      var senders' := if senders != [] then senders[1..] else senders;
      assert Inv(workers, tasks', senders', slots[idx := slot'], inFlight, results, nextId, tasksClosed) by {
        TakeKeepsInv(workers, tasks, senders, slots, inFlight, results, nextId, tasksClosed, idx);
      }
      assert tasks' + senders' == (tasks + senders)[1..] by {
        QueueAdvance(tasks, senders);
      }
      slots, tasks, senders := slots[idx := slot'], tasks', senders';
    }

    /** The shutdown case of the `select`: worker `idx` cancels its session and exits. */
    method ShutdownStep(idx: nat)
      requires Valid() && idx < |slots| && slots[idx].state.Idle?
      modifies this
      ensures Valid()
      ensures slots == old(slots)[idx := Slot(Exited, old(slots[idx].session))]
      ensures tasks == old(tasks) && senders == old(senders)
      ensures results == old(results) && inFlight == old(inFlight) && nextId == old(nextId)
      ensures closeSignalled == old(closeSignalled) && tasksClosed == old(tasksClosed)
    {
      ShutdownKeepsInv(workers, tasks, senders, slots, inFlight, results, nextId, tasksClosed, idx);
      slots := slots[idx := Slot(Exited, slots[idx].session)];
    }

    /**
     * Worker `idx` finishes its task with `value` and `err`; it wrote
     * `written` into the session. Cookies and cache are cleared only when the
     * task succeeded; the result goes to its own result channel; the counter
     * drops by one and the slot waits again.
     */
    method WorkerFinish(idx: nat, value: V, err: Option<Err>, written: set<string>)
      requires Valid() && idx < |slots| && slots[idx].state.Running?
      modifies this
      ensures Valid()
      ensures old(slots[idx].state.task) !in old(results)
      ensures results == old(results)[old(slots[idx].state.task) := Outcome(value, err)]
      ensures old(slots[idx].state.task) !in Pending()
      ensures slots == old(slots)[idx := Slot(Idle, if err.None? then {} else old(slots[idx].session) + written)]
      ensures inFlight == old(inFlight) - 1
      ensures tasks == old(tasks) && senders == old(senders) && nextId == old(nextId)
      ensures closeSignalled == old(closeSignalled) && tasksClosed == old(tasksClosed)
    {
      var id := slots[idx].state.task;
      var session := if err.None? then {} else slots[idx].session + written;
      var newSlot := Slot(Idle, session);
      FinishKeepsInv(workers, tasks, senders, slots, inFlight, results, nextId, tasksClosed, idx, newSlot, Outcome(value, err));
      slots := slots[idx := newSlot];
      results := results[id := Outcome(value, err)];
      inFlight := inFlight - 1;
    }

    /** The second half of `Execute`: receive a task's result once it is there. */
    method Receive(id: TaskId) returns (o: Option<Outcome<V>>)
      requires Valid()
      modifies this
      ensures Valid()
      ensures o.Some? <==> id in old(results)
      ensures o.Some? ==> o.value == old(results)[id] && results == old(results) - {id}
      ensures o.None? ==> results == old(results)
      ensures tasks == old(tasks) && senders == old(senders) && slots == old(slots) && inFlight == old(inFlight)
      ensures closeSignalled == old(closeSignalled) && tasksClosed == old(tasksClosed)
    {
      if id in results {
        ReceiveKeepsInv(workers, tasks, senders, slots, inFlight, results, nextId, tasksClosed, id);
        o := Some(results[id]);
        results := results - {id};
      } else {
        o := None;
      }
    }

    /**
     * `Close`: wait for the counter to reach zero, then close the shutdown
     * channel, the `tasks` channel and the allocator, in that order.
     */
    method Close() returns (s: CloseStatus)
      requires Valid()
      modifies this
      ensures Valid()
      ensures old(inFlight) > 0 ==> s == StillWaiting && unchanged(this)
      ensures old(inFlight) == 0 && old(closeSignalled) ==> s == DoubleClosePanic && unchanged(this)
      ensures old(inFlight) == 0 && !old(closeSignalled) ==> && s == Closed
                                                             && closeSignalled && tasksClosed && allocCancelled
                                                             && tasks == [] && senders == []
                                                             && slots == old(slots) && results == old(results)
    {
      if inFlight > 0 {
        return StillWaiting;
      }
      if closeSignalled {
        return DoubleClosePanic;
      }
      CloseKeepsInv(workers, tasks, senders, slots, results, nextId);
      closeSignalled := true;
      tasksClosed := true;
      allocCancelled := true;
      s := Closed;
    }
  }
}

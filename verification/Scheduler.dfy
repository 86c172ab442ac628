// Serialized model access with a bounded queue (crates/arky-codex/src/scheduler.rs).
//
// The scheduler keeps two numbers, free permits and queued requests. What they should say
// is read off the tasks themselves: below, a run is a list of what tasks do, and the
// scheduler's methods are proved to decide exactly as counting the tasks would.

module SchedulerRuns {

  /** Where a task stands inside `acquire`. `Leaked` tasks were cancelled between taking a
      queue slot and giving it back. */
  datatype Stage = TurnedAway | Waiting | Granted | Expired | Holding | Gone | Leaked

  datatype Event =
    | Arrive
    | Reserve(task: nat)
    | Grant(task: nat)
    | Expire(task: nat)
    | Release(task: nat)
    | DropPermit(task: nat)
    | Cancel(task: nat)

  function Permits(stage: Stage): nat {
    if stage.Granted? || stage.Holding? then 1 else 0
  }

  function Slots(stage: Stage): nat {
    if stage.Waiting? || stage.Granted? || stage.Expired? || stage.Leaked? then 1 else 0
  }

  function Leaks(stage: Stage): nat {
    if stage.Leaked? then 1 else 0
  }

  function Total(tasks: seq<Stage>, weight: Stage -> nat): nat {
    if tasks == [] then 0 else Total(tasks[..|tasks| - 1], weight) + weight(tasks[|tasks| - 1])
  }

  function Held(tasks: seq<Stage>): nat {
    Total(tasks, Permits)
  }

  function Queued(tasks: seq<Stage>): nat {
    Total(tasks, Slots)
  }

  function LeakedSlots(tasks: seq<Stage>): nat {
    Total(tasks, Leaks)
  }

  predicate CancelsFrom(stage: Stage) {
    stage.TurnedAway? || stage.Waiting? || stage.Granted? || stage.Expired?
  }

  predicate Possible(tasks: seq<Stage>, limit: nat, event: Event) {
    match event
    case Arrive => true
    case Reserve(t) => t < |tasks| && tasks[t].TurnedAway?
    case Grant(t) => t < |tasks| && tasks[t].Waiting? && Held(tasks) < limit
    case Expire(t) => t < |tasks| && tasks[t].Waiting?
    case Release(t) => t < |tasks| && (tasks[t].Granted? || tasks[t].Expired?)
    case DropPermit(t) => t < |tasks| && tasks[t].Holding?
    case Cancel(t) => t < |tasks| && CancelsFrom(tasks[t])
  }

  /** Where a task goes; decisions are made by counting tasks. */
  function Next(tasks: seq<Stage>, limit: nat, max: nat, event: Event): (next: Stage)
    requires Possible(tasks, limit, event)
  {
    match event
    case Arrive => if Held(tasks) < limit then Holding else TurnedAway
    case Reserve(_) => if Queued(tasks) < max then Waiting else Gone
    case Grant(_) => Granted
    case Expire(_) => Expired
    case Release(t) => if tasks[t].Granted? then Holding else Gone
    case DropPermit(_) => Gone
    case Cancel(t) => if tasks[t].TurnedAway? then Gone else Leaked
  }

  function After(tasks: seq<Stage>, limit: nat, max: nat, event: Event): seq<Stage>
    requires Possible(tasks, limit, event)
  {
    var next := Next(tasks, limit, max, event);
    if event.Arrive? then tasks + [next] else tasks[event.task := next]
  }

  /** A run: events that are not possible where they stand change nothing. */
  function Run(start: seq<Stage>, limit: nat, max: nat, events: seq<Event>): seq<Stage> {
    if events == [] then start
    else
      var tasks, event := Run(start, limit, max, events[..|events| - 1]), events[|events| - 1];
      if Possible(tasks, limit, event) then After(tasks, limit, max, event) else tasks
  }

  lemma {:induction false} TotalUpdate(tasks: seq<Stage>, weight: Stage -> nat, t: nat, stage: Stage)
    requires t < |tasks|
    ensures Total(tasks[t := stage], weight) + weight(tasks[t]) == Total(tasks, weight) + weight(stage)
  {
    var n := |tasks| - 1;
    if t == n {
      assert tasks[t := stage][..n] == tasks[..n];
    } else {
      TotalUpdate(tasks[..n], weight, t, stage);
      assert tasks[t := stage][..n] == tasks[..n][t := stage];
    }
  }

  /** How one event moves a count. */
  lemma {:induction false} TotalAfter(tasks: seq<Stage>, limit: nat, max: nat, event: Event, weight: Stage -> nat)
    requires Possible(tasks, limit, event)
    ensures Total(After(tasks, limit, max, event), weight)
         == Total(tasks, weight) + weight(Next(tasks, limit, max, event))
            - if event.Arrive? then 0 else weight(tasks[event.task])
  {
    var next := Next(tasks, limit, max, event);
    if event.Arrive? {
      assert (tasks + [next])[..|tasks|] == tasks;
    } else {
      TotalUpdate(tasks, weight, event.task, next);
    }
  }

  predicate WithinLimits(tasks: seq<Stage>, limit: nat, max: nat) {
    Held(tasks) <= limit && Queued(tasks) <= max
  }

  lemma {:induction false} StepStaysWithinLimits(tasks: seq<Stage>, limit: nat, max: nat, event: Event)
    requires WithinLimits(tasks, limit, max) && Possible(tasks, limit, event)
    ensures WithinLimits(After(tasks, limit, max, event), limit, max)
  {
    TotalAfter(tasks, limit, max, event, Permits);
    TotalAfter(tasks, limit, max, event, Slots);
  }

  /** In every run at most `limit` tasks hold permits and at most `max` slots are taken. */
  lemma {:induction false} RunStaysWithinLimits(start: seq<Stage>, limit: nat, max: nat, events: seq<Event>)
    requires WithinLimits(start, limit, max)
    ensures WithinLimits(Run(start, limit, max, events), limit, max)
  {
    if events != [] {
      var front := events[..|events| - 1];
      RunStaysWithinLimits(start, limit, max, front);
      if Possible(Run(start, limit, max, front), limit, events[|events| - 1]) {
        StepStaysWithinLimits(Run(start, limit, max, front), limit, max, events[|events| - 1]);
      }
    }
  }

  // ------------------------------------------------ lost slots

  /** A task between taking a queue slot and giving it back. */
  predicate BetweenReserveAndRelease(stage: Stage) {
    stage.Waiting? || stage.Granted? || stage.Expired?
  }

  function Between(stage: Stage): nat {
    if BetweenReserveAndRelease(stage) then 1 else 0
  }

  /** Whether an event cancels a task that has a queue slot. */
  predicate LosesSlot(tasks: seq<Stage>, limit: nat, event: Event) {
    Possible(tasks, limit, event) && event.Cancel? && BetweenReserveAndRelease(tasks[event.task])
  }

  /** How many events of a run do. */
  function SlotsLost(start: seq<Stage>, limit: nat, max: nat, events: seq<Event>): nat {
    if events == [] then 0
    else
      var front, last := events[..|events| - 1], events[|events| - 1];
      SlotsLost(start, limit, max, front) + if LosesSlot(Run(start, limit, max, front), limit, last) then 1 else 0
  }

  /** The slots lost in a run are exactly the cancellations between reserve and release, and
      none is ever given back. */
  lemma {:induction false} LeaksAreTheCancellations(start: seq<Stage>, limit: nat, max: nat, events: seq<Event>)
    ensures LeakedSlots(Run(start, limit, max, events)) == LeakedSlots(start) + SlotsLost(start, limit, max, events)
  {
    if events != [] {
      var front, last := events[..|events| - 1], events[|events| - 1];
      var tasks := Run(start, limit, max, front);
      LeaksAreTheCancellations(start, limit, max, front);
      if Possible(tasks, limit, last) {
        TotalAfter(tasks, limit, max, last, Leaks);
      }
    }
  }

  /** Every taken slot is a lost one, or belongs to a task that will give it back. */
  lemma {:induction false} SlotsAreLostOrHeld(tasks: seq<Stage>)
    ensures Queued(tasks) == LeakedSlots(tasks) + Total(tasks, Between)
  {
    if tasks != [] {
      SlotsAreLostOrHeld(tasks[..|tasks| - 1]);
    }
  }

  lemma {:induction false} NobodyBetween(tasks: seq<Stage>)
    ensures Total(tasks, Between) == 0 <==> forall t | 0 <= t < |tasks| :: !BetweenReserveAndRelease(tasks[t])
  {
    if tasks != [] {
      NobodyBetween(tasks[..|tasks| - 1]);
      assert forall t | 0 <= t < |tasks| - 1 :: tasks[..|tasks| - 1][t] == tasks[t];
    }
  }

  /** Once nobody is between reserve and release, the counter stands at the cancellations
      there have been: it is back at zero exactly if there was none. */
  lemma {:induction false} IdleCounterIsTheCancellations(limit: nat, max: nat, events: seq<Event>)
    requires var tasks := Run([], limit, max, events);
             forall t | 0 <= t < |tasks| :: !BetweenReserveAndRelease(tasks[t])
    ensures Queued(Run([], limit, max, events)) == SlotsLost([], limit, max, events)
  {
    LeaksAreTheCancellations([], limit, max, events);
    SlotsAreLostOrHeld(Run([], limit, max, events));
    NobodyBetween(Run([], limit, max, events));
  }

  lemma {:induction false} RunConcat(start: seq<Stage>, limit: nat, max: nat, a: seq<Event>, b: seq<Event>)
    ensures Run(start, limit, max, a + b) == Run(Run(start, limit, max, a), limit, max, b)
    decreases |b|
  {
    if b == [] {
      assert a + b == a;
    } else {
      RunConcat(start, limit, max, a, b[..|b| - 1]);
      assert (a + b)[..|a + b| - 1] == a + b[..|b| - 1];
    }
  }

  lemma {:induction false} RunOne(tasks: seq<Stage>, limit: nat, max: nat, event: Event)
    requires Possible(tasks, limit, event)
    ensures Run(tasks, limit, max, [event]) == After(tasks, limit, max, event)
  {
    assert [event][..0] == [];
  }

  /** The events that take one task out of the queue without cancelling it. */
  function WayOut(stage: Stage, task: nat): seq<Event> {
    if stage.Waiting? then [Expire(task), Release(task)] else [Release(task)]
  }

  lemma {:induction false} OneLeavesTheQueue(tasks: seq<Stage>, limit: nat, max: nat, task: nat)
    requires task < |tasks| && BetweenReserveAndRelease(tasks[task])
    ensures var now := Run(tasks, limit, max, WayOut(tasks[task], task));
            LeakedSlots(now) == LeakedSlots(tasks) && Total(now, Between) + 1 == Total(tasks, Between)
  {
    if tasks[task].Waiting? {
      var expired := After(tasks, limit, max, Expire(task));
      RunOne(tasks, limit, max, Expire(task));
      RunOne(expired, limit, max, Release(task));
      assert WayOut(tasks[task], task) == [Expire(task)] + [Release(task)];
      RunConcat(tasks, limit, max, [Expire(task)], [Release(task)]);
      TotalAfter(tasks, limit, max, Expire(task), Leaks);
      TotalAfter(tasks, limit, max, Expire(task), Between);
      TotalAfter(expired, limit, max, Release(task), Leaks);
      TotalAfter(expired, limit, max, Release(task), Between);
    } else {
      RunOne(tasks, limit, max, Release(task));
      TotalAfter(tasks, limit, max, Release(task), Leaks);
      TotalAfter(tasks, limit, max, Release(task), Between);
    }
  }

  /** Everyone in the queue can leave it without losing a slot. */
  lemma {:induction false} QueueCanEmpty(tasks: seq<Stage>, limit: nat, max: nat) returns (events: seq<Event>)
    ensures var now := Run(tasks, limit, max, events);
            LeakedSlots(now) == LeakedSlots(tasks) && Total(now, Between) == 0
    decreases Total(tasks, Between)
  {
    events := [];
    NobodyBetween(tasks);
    if Total(tasks, Between) > 0 {
      var task :| 0 <= task < |tasks| && BetweenReserveAndRelease(tasks[task]);
      var first := WayOut(tasks[task], task);
      OneLeavesTheQueue(tasks, limit, max, task);
      var rest := QueueCanEmpty(Run(tasks, limit, max, first), limit, max);
      RunConcat(tasks, limit, max, first, rest);
      events := first + rest;
    }
  }

  /** With every permit handed out, the next task is turned away and goes on to the queue. */
  lemma {:induction false} SomeoneIsTurnedAway(tasks: seq<Stage>, limit: nat, max: nat) returns (events: seq<Event>)
    ensures var now := Run(tasks, limit, max, events);
            && |now| > 0 && now[|now| - 1].TurnedAway?
            && LeakedSlots(now) == LeakedSlots(tasks) && Total(now, Between) == Total(tasks, Between)
    decreases limit - Held(tasks)
  {
    var next := After(tasks, limit, max, Arrive);
    RunOne(tasks, limit, max, Arrive);
    TotalAfter(tasks, limit, max, Arrive, Leaks);
    TotalAfter(tasks, limit, max, Arrive, Between);
    TotalAfter(tasks, limit, max, Arrive, Permits);
    events := [Arrive];
    if Held(tasks) < limit {
      var rest := SomeoneIsTurnedAway(next, limit, max);
      RunConcat(tasks, limit, max, [Arrive], rest);
      events := [Arrive] + rest;
    }
  }

  /** No task is ever queued again, whatever happens. */
  ghost predicate RefusesForEver(tasks: seq<Stage>, limit: nat, max: nat) {
    forall events: seq<Event>, task: nat ::
      RefusedAfter(tasks, limit, max, events, task)
  }

  predicate RefusedAfter(tasks: seq<Stage>, limit: nat, max: nat, events: seq<Event>, task: nat) {
    var now := Run(tasks, limit, max, events);
    task < |now| && now[task].TurnedAway? ==> Next(now, limit, max, Reserve(task)).Gone?
  }

  /** The queue refuses for ever exactly once lost slots have used it up. */
  lemma {:induction false} RefusesForEverExactly(tasks: seq<Stage>, limit: nat, max: nat)
    ensures RefusesForEver(tasks, limit, max) <==> LeakedSlots(tasks) >= max
  {
    if LeakedSlots(tasks) >= max {
      forall events: seq<Event>, task: nat ensures RefusedAfter(tasks, limit, max, events, task) {
        LeaksAreTheCancellations(tasks, limit, max, events);
        SlotsAreLostOrHeld(Run(tasks, limit, max, events));
      }
    } else {
      var first := QueueCanEmpty(tasks, limit, max);
      var emptied := Run(tasks, limit, max, first);
      var then_ := SomeoneIsTurnedAway(emptied, limit, max);
      RunConcat(tasks, limit, max, first, then_);
      var now := Run(tasks, limit, max, first + then_);
      SlotsAreLostOrHeld(now);
      assert !RefusedAfter(tasks, limit, max, first + then_, |now| - 1);
    }
  }

  lemma {:induction false} RunOneMore(limit: nat, max: nat, events: seq<Event>, event: Event)
    requires Possible(Run([], limit, max, events), limit, event)
    ensures Run([], limit, max, events + [event]) == After(Run([], limit, max, events), limit, max, event)
  {
    assert (events + [event])[..|events|] == events;
  }

  lemma {:induction false} TotalOfTwo(a: Stage, b: Stage, weight: Stage -> nat)
    ensures Total([a], weight) == weight(a) && Total([a, b], weight) == weight(a) + weight(b)
  {
    assert [a][..0] == [] && [a, b][..1] == [a];
  }

  /** One permit and one slot: the one who waits in the queue is cancelled, and the queue
      refuses for ever with nobody in it. */
  lemma {:induction false} CancelledWaiterFillsTheQueue()
    ensures var tasks := Run([], 1, 1, [Arrive] + [Arrive] + [Reserve(1)] + [Cancel(1)]);
            tasks == [Holding, Leaked] && Queued(tasks) == 1 && RefusesForEver(tasks, 1, 1)
  {
    assert Run([], 1, 1, []) == [] && Held([]) == 0;
    RunOneMore(1, 1, [], Arrive);
    assert [] + [Arrive] == [Arrive];
    TotalOfTwo(Holding, TurnedAway, Permits);
    RunOneMore(1, 1, [Arrive], Arrive);
    TotalOfTwo(Holding, TurnedAway, Slots);
    RunOneMore(1, 1, [Arrive] + [Arrive], Reserve(1));
    RunOneMore(1, 1, [Arrive] + [Arrive] + [Reserve(1)], Cancel(1));
    TotalOfTwo(Holding, Leaked, Slots);
    TotalOfTwo(Holding, Leaked, Leaks);
    RefusesForEverExactly([Holding, Leaked], 1, 1);
  }
}

module Scheduling {
  import opened SchedulerRuns

  function SaturatingSub(a: nat, b: nat): nat {
    if a < b then 0 else a - b
  }

  class Scheduler {
    const limit: nat
    const maxQueuedRequests: nat
    /** Free permits of the semaphore. */
    var free: nat
    var queuedRequests: nat
    /** Everyone who ever called `acquire`. */
    ghost var tasks: seq<Stage>

    ghost predicate Valid()
      reads this
    {
      && limit >= 1 && maxQueuedRequests >= 1
      && WithinLimits(tasks, limit, maxQueuedRequests)
      && free + Held(tasks) == limit
      && queuedRequests == Queued(tasks)
    }

    /** `with_limits`: both limits are at least one. */
    constructor (permits: nat, maxQueued: nat)
      ensures Valid() && tasks == []
      ensures limit == (if permits == 0 then 1 else permits)
      ensures maxQueuedRequests == (if maxQueued == 0 then 1 else maxQueued)
    {
      limit := if permits == 0 then 1 else permits;
      maxQueuedRequests := if maxQueued == 0 then 1 else maxQueued;
      free := if permits == 0 then 1 else permits;
      queuedRequests := 0;
      tasks := [];
    }

    /** Replays an event on the tasks the counters stand for. */
    ghost method Note(event: Event)
      requires Possible(tasks, limit, event) && WithinLimits(tasks, limit, maxQueuedRequests)
      modifies this`tasks
      ensures tasks == After(old(tasks), limit, maxQueuedRequests, event)
      ensures WithinLimits(tasks, limit, maxQueuedRequests)
      ensures var next := Next(old(tasks), limit, maxQueuedRequests, event);
              var left := if event.Arrive? then Gone else old(tasks)[event.task];
              && Held(tasks) == Held(old(tasks)) + Permits(next) - Permits(left)
              && Queued(tasks) == Queued(old(tasks)) + Slots(next) - Slots(left)
    {
      TotalAfter(tasks, limit, maxQueuedRequests, event, Permits);
      TotalAfter(tasks, limit, maxQueuedRequests, event, Slots);
      StepStaysWithinLimits(tasks, limit, maxQueuedRequests, event);
      tasks := After(tasks, limit, maxQueuedRequests, event);
    }

    /** `try_acquire_owned`: a new task takes a free permit if there is one. */
    method TryAcquire() returns (got: bool)
      requires Valid()
      modifies this
      ensures Valid() && tasks == After(old(tasks), limit, maxQueuedRequests, Arrive)
      ensures got == (Held(old(tasks)) < limit)
    {
      Note(Arrive);
      got := free > 0;
      if got {
        free := free - 1;
      }
    }

    /** `reserve_queue_slot`: refused when the queue is full. */
    method ReserveQueueSlot(ghost task: nat) returns (ok: bool)
      requires Valid() && task < |tasks| && tasks[task].TurnedAway?
      modifies this
      ensures Valid() && tasks == After(old(tasks), limit, maxQueuedRequests, Reserve(task))
      ensures ok == (Queued(old(tasks)) < maxQueuedRequests)
    {
      Note(Reserve(task));
      ok := true;
      if queuedRequests >= maxQueuedRequests {
        return false;
      }
      queuedRequests := queuedRequests + 1;
    }

    /** The semaphore hands a free permit to a waiting task. */
    method GrantPermit(ghost task: nat)
      requires Valid() && task < |tasks| && tasks[task].Waiting? && free > 0
      modifies this
      ensures Valid() && tasks == After(old(tasks), limit, maxQueuedRequests, Grant(task))
    {
      Note(Grant(task));
      free := free - 1;
    }

    /** The wait of a task ends without a permit. */
    method ExpireWait(ghost task: nat)
      requires Valid() && task < |tasks| && tasks[task].Waiting?
      modifies this
      ensures Valid() && tasks == After(old(tasks), limit, maxQueuedRequests, Expire(task))
    {
      Note(Expire(task));
    }

    /** `release_queue_slot`: the saturating subtraction never saturates. */
    method ReleaseQueueSlot(ghost task: nat)
      requires Valid() && task < |tasks| && (tasks[task].Granted? || tasks[task].Expired?)
      modifies this
      ensures Valid() && tasks == After(old(tasks), limit, maxQueuedRequests, Release(task))
      ensures queuedRequests + 1 == old(queuedRequests)
    {
      Note(Release(task));
      queuedRequests := SaturatingSub(queuedRequests, 1);
    }

    method ReleasePermit(ghost task: nat)
      requires Valid() && task < |tasks| && tasks[task].Holding?
      modifies this
      ensures Valid() && tasks == After(old(tasks), limit, maxQueuedRequests, DropPermit(task))
    {
      Note(DropPermit(task));
      free := free + 1;
    }

    /** Dropping the future: `owned` says whether it already owned a permit, which then
        returns to the semaphore. Nothing gives the queue slot back. */
    method CancelTask(ghost task: nat, owned: bool)
      requires Valid() && task < |tasks| && CancelsFrom(tasks[task])
      requires owned == tasks[task].Granted?
      modifies this
      ensures Valid() && tasks == After(old(tasks), limit, maxQueuedRequests, Cancel(task))
      ensures queuedRequests == old(queuedRequests)
    {
      Note(Cancel(task));
      if owned {
        free := free + 1;
      }
    }
  }
}

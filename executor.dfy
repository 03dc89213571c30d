/**
  The bounded executor of services/parallelExecutor.ts as a state machine.

  A task is submitted with `Execute` (push at the back of the queue, then one
  dispatch attempt) and a running task settles with `Finish` (the counter goes
  down, then one dispatch attempt). Both happen synchronously before the first
  `await` of the source, so each event is atomic here. The tasks whose
  `processQueue` frame is suspended at `await task()` are kept in `inFlight`;
  the source keeps them only in those frames, and `running` counts them.
*/
module Executor {

  class ParallelExecutor<T(==)> {
    var queue: seq<T>
    var running: int
    const maxConcurrency: int
    var inFlight: multiset<T>

    /** Every task ever submitted, every task ever started, and every task that settled. */
    ghost var submitted: seq<T>
    ghost var started: seq<T>
    ghost var finished: multiset<T>

    /** The bookkeeping that holds between and within events. */
    ghost predicate Core()
      reads this
    {
      && running == |inFlight|
      && submitted == started + queue
      && multiset(started) == inFlight + finished
      && (running <= maxConcurrency || running == 0)
    }

    /**
      The invariant after every event: the concurrency cap (for a non-negative
      limit), conservation and FIFO start order (what was submitted is what was
      started followed by what waits), and a queue that is non-empty only while
      the executor is saturated.
    */
    ghost predicate Valid()
      reads this
    {
      Core() && (queue != [] ==> running >= maxConcurrency)
    }

    /** `new ParallelExecutor(maxConcurrency)`. */
    constructor (maxConcurrency: int)
      ensures Valid()
      ensures this.maxConcurrency == maxConcurrency
      ensures queue == [] && running == 0 && inFlight == multiset{}
      ensures submitted == [] && started == [] && finished == multiset{}
    {
      this.maxConcurrency := maxConcurrency;
      queue := [];
      running := 0;
      inFlight := multiset{};
      submitted := [];
      started := [];
      finished := multiset{};
    }

    /** `new ParallelExecutor()`: the limit defaults to 16. */
    constructor Default()
      ensures Valid()
      ensures maxConcurrency == 16
      ensures queue == [] && running == 0 && inFlight == multiset{}
      ensures submitted == [] && started == [] && finished == multiset{}
    {
      maxConcurrency := 16;
      queue := [];
      running := 0;
      inFlight := multiset{};
      submitted := [];
      started := [];
      finished := multiset{};
    }

    /**
      `processQueue` up to its `await`: starts the front task of the
      queue when the executor is below its limit, and otherwise does nothing.
      It is called when saturation may be off by one (a slot was just freed, or
      the one waiting task was just pushed), and restores it.
    */
    method ProcessQueue()
      requires Core()
      requires |queue| <= 1 || running >= maxConcurrency - 1
      modifies this
      ensures Valid()
      ensures submitted == old(submitted) && finished == old(finished)
      ensures old(running) >= maxConcurrency || old(queue) == [] ==>
                queue == old(queue) && running == old(running) &&
                inFlight == old(inFlight) && started == old(started)
      ensures old(running) < maxConcurrency && old(queue) != [] ==>
                queue == old(queue)[1..] && running == old(running) + 1 &&
                inFlight == old(inFlight) + multiset{old(queue)[0]} &&
                started == old(started) + [old(queue)[0]]
    {
      if running >= maxConcurrency || |queue| == 0 {
        return;
      }
      var task := queue[0];
      queue := queue[1..];
      running := running + 1;
      inFlight := inFlight + multiset{task};
      started := started + [task];
    }

    /** `execute(task)`: the Submit event. */
    method Execute(task: T)
      requires Valid()
      modifies this
      ensures Valid()
      ensures submitted == old(submitted) + [task] && finished == old(finished)
      ensures old(running) < maxConcurrency && old(queue) == [] ==>
                queue == [] && running == old(running) + 1 &&
                inFlight == old(inFlight) + multiset{task} && started == old(started) + [task]
      ensures old(running) >= maxConcurrency || old(queue) != [] ==>
                queue == old(queue) + [task] && running == old(running) &&
                inFlight == old(inFlight) && started == old(started)
    {
      queue := queue + [task];
      submitted := submitted + [task];
      ProcessQueue();
    }

    /**
      The `finally` block of a running task's frame: the Finish event. The
      counter goes down by one whether that task resolved or rejected, and the
      task at the front of the queue, if any, takes the freed slot.
    */
    method Finish(task: T)
      requires Valid() && task in inFlight
      modifies this
      ensures Valid()
      ensures submitted == old(submitted) && finished == old(finished) + multiset{task}
      ensures old(queue) == [] ==>
                queue == [] && running == old(running) - 1 &&
                inFlight == old(inFlight) - multiset{task} && started == old(started)
      ensures old(queue) != [] ==>
                queue == old(queue)[1..] && running == old(running) &&
                inFlight == old(inFlight) - multiset{task} + multiset{old(queue)[0]} &&
                started == old(started) + [old(queue)[0]]
    {
      running := running - 1;
      inFlight := inFlight - multiset{task};
      finished := finished + multiset{task};
      ProcessQueue();
    }

    /** `getActiveCount()`: the number of tasks started and not yet settled. */
    function GetActiveCount(): (n: int)
      reads this
      ensures Valid() ==> n == |inFlight| && n == |multiset(started)| - |finished|
    {
      running
    }

    /** `getQueueSize()`: the number of submitted tasks not yet started. */
    function GetQueueSize(): (n: int)
      reads this
      ensures Valid() ==> n == |submitted| - |started|
    {
      |queue|
    }

    /** With a limit of at least one, a waiting task means every slot is taken. */
    lemma Saturated()
      requires Valid() && maxConcurrency >= 1 && queue != []
      ensures running == maxConcurrency
    {
    }
  }
}

/** The worker pool, run sequentially: a bounded queue of tasks, workers
    that take one task at a time and mark it done whether or not it raised,
    and `wait_completion`, which returns once no task is left unfinished.
    A task is run against a shared `world` and either yields the next world
    or raises with a message. */
module Pool {
  import opened Results

  /** A task a worker took off the queue, and the error it raised, if any. */
  datatype TaskRecord<T> = TaskRecord(task: T, error: Option<string>)

  /** The queue's pending tasks, its count of tasks put but not yet marked
      done, the world the tasks act on, and what the workers ran so far. */
  datatype PoolState<S, T> = PoolState(queue: seq<T>, unfinished: nat, world: S, log: seq<TaskRecord<T>>)

  /** No task is in a worker's hands: every unfinished task is still queued. */
  predicate Idle<S, T>(p: PoolState<S, T>) {
    p.unfinished == |p.queue|
  }

  /** A fresh pool and `map`: each task is put on the queue in order, and
      every put adds one unfinished task. */
  function Submit<S, T>(world: S, tasks: seq<T>): (p: PoolState<S, T>)
    ensures Idle(p)
    ensures p.queue == tasks && p.world == world && p.log == []
  {
    PoolState(tasks, |tasks|, world, [])
  }

  /** One pass of a worker's loop: take the first task, run it, and mark it
      done in both the success and the error case; an error leaves the world
      as it was and is recorded. */
  function WorkerStep<S, T>(p: PoolState<S, T>, run: (S, T) -> Result<S, string>): (r: PoolState<S, T>)
    requires |p.queue| > 0 && p.unfinished > 0
    ensures r.queue == p.queue[1..]
    ensures r.unfinished == p.unfinished - 1
    ensures |r.log| == |p.log| + 1 && r.log[..|p.log|] == p.log
    ensures r.log[|p.log|].task == p.queue[0]
    ensures r.log[|p.log|].error.None? <==> run(p.world, p.queue[0]).Success?
    ensures run(p.world, p.queue[0]).Failure? ==>
      r.world == p.world && r.log[|p.log|].error == Some(run(p.world, p.queue[0]).error)
    ensures run(p.world, p.queue[0]).Success? ==> r.world == run(p.world, p.queue[0]).value
  {
    var task := p.queue[0];
    match run(p.world, task)
    case Success(w) => PoolState(p.queue[1..], p.unfinished - 1, w, p.log + [TaskRecord(task, None)])
    case Failure(e) => PoolState(p.queue[1..], p.unfinished - 1, p.world, p.log + [TaskRecord(task, Some(e))])
  }

  /** A worker step keeps an idle pool idle. */
  lemma WorkerStepKeepsIdle<S, T>(p: PoolState<S, T>, run: (S, T) -> Result<S, string>)
    requires Idle(p) && |p.queue| > 0
    ensures Idle(WorkerStep(p, run))
  {
  }

  /** The world after one task: the task's result if it succeeded, the
      world as it was if it raised. */
  function Next<S, T>(world: S, task: T, run: (S, T) -> Result<S, string>): S {
    match run(world, task)
    case Success(w) => w
    case Failure(_) => world
  }

  /** The error a task's outcome is logged with. */
  function ErrorOf<S>(outcome: Result<S, string>): Option<string> {
    match outcome
    case Success(_) => None
    case Failure(e) => Some(e)
  }

  /** Tasks run in order, each on the world its predecessors left, with
      raising ones skipped: the last task applied to the world after all
      the others. */
  function Apply<S, T>(world: S, tasks: seq<T>, run: (S, T) -> Result<S, string>): S
    decreases |tasks|
  {
    if |tasks| == 0 then world
    else Next(Apply(world, tasks[..|tasks| - 1], run), tasks[|tasks| - 1], run)
  }

  /** Applying tasks is applying the first one and then the rest. */
  lemma {:induction false} ApplyCons<S, T>(world: S, tasks: seq<T>, run: (S, T) -> Result<S, string>)
    requires |tasks| > 0
    ensures Apply(world, tasks, run) == Apply(Next(world, tasks[0], run), tasks[1..], run)
    decreases |tasks|
  {
    if |tasks| > 1 {
      var init := tasks[..|tasks| - 1];
      ApplyCons(world, init, run);
      assert init[1..] == tasks[1..][..|tasks[1..]| - 1];
      assert init[0] == tasks[0];
    }
  }

  /** Running two task lists one after the other is running their
      concatenation. */
  lemma {:induction false} ApplyAppend<S, T>(world: S, a: seq<T>, b: seq<T>, run: (S, T) -> Result<S, string>)
    ensures Apply(world, a + b, run) == Apply(Apply(world, a, run), b, run)
    decreases |b|
  {
    if |b| == 0 {
      assert a + b == a;
    } else {
      var b' := b[..|b| - 1];
      assert (a + b)[..|a + b| - 1] == a + b';
      assert (a + b)[|a + b| - 1] == b[|b| - 1];
      ApplyAppend(world, a, b', run);
    }
  }

  /** What running tasks in order logs: task i, with the error it raises
      on the world the tasks before it left. */
  function Trace<S, T>(world: S, tasks: seq<T>, run: (S, T) -> Result<S, string>): (log: seq<TaskRecord<T>>)
    ensures |log| == |tasks|
  {
    seq(|tasks|, i requires 0 <= i < |tasks| =>
      TaskRecord(tasks[i], ErrorOf(run(Apply(world, tasks[..i], run), tasks[i]))))
  }

  /** The trace of a non-empty run is the first task's record followed by
      the trace of the rest, run on the world the first task left. */
  lemma TraceCons<S, T>(world: S, tasks: seq<T>, run: (S, T) -> Result<S, string>)
    requires |tasks| > 0
    ensures Trace(world, tasks, run)
         == [TaskRecord(tasks[0], ErrorOf(run(world, tasks[0])))] + Trace(Next(world, tasks[0], run), tasks[1..], run)
  {
    var t, rest := Trace(world, tasks, run), Trace(Next(world, tasks[0], run), tasks[1..], run);
    var head := TaskRecord(tasks[0], ErrorOf(run(world, tasks[0])));
    assert tasks[..0] == [];
    assert Apply(world, tasks[..0], run) == world;
    forall i | 1 <= i < |tasks| ensures t[i] == rest[i - 1] {
      ApplyCons(world, tasks[..i], run);
      assert tasks[..i][1..] == tasks[1..][..i - 1];
    }
    assert t == [head] + rest;
  }

  /** The trace of a concatenation is the trace of its first part followed
      by the trace of the second part on the world the first part left. */
  lemma TraceAppend<S, T>(world: S, a: seq<T>, b: seq<T>, run: (S, T) -> Result<S, string>)
    ensures Trace(world, a + b, run) == Trace(world, a, run) + Trace(Apply(world, a, run), b, run)
  {
    var t, ta, tb := Trace(world, a + b, run), Trace(world, a, run), Trace(Apply(world, a, run), b, run);
    forall i | 0 <= i < |a + b| ensures t[i] == (ta + tb)[i] {
      if i < |a| {
        assert (a + b)[..i] == a[..i];
      } else {
        var k := i - |a|;
        assert (a + b)[..i] == a + b[..k];
        ApplyAppend(world, a, b[..k], run);
      }
    }
    assert t == ta + tb;
  }

  /** Workers take tasks until the queue is empty. Every queued task is run
      exactly once and in queue order, a raising task included, so one that
      raises never keeps a later one from running, and the unfinished count
      drops by exactly the number of tasks that were queued. Task i runs on
      the world the tasks before it left and is logged with the error it
      raised, if any, and the final world is that of all tasks in order. */
  function RunToCompletion<S, T>(p: PoolState<S, T>, run: (S, T) -> Result<S, string>): (r: PoolState<S, T>)
    requires p.unfinished >= |p.queue|
    ensures r.queue == []
    ensures r.unfinished == p.unfinished - |p.queue|
    ensures r.log == p.log + Trace(p.world, p.queue, run)
    ensures r.world == Apply(p.world, p.queue, run)
    decreases |p.queue|
  {
    if |p.queue| == 0 then p
    else
      var q := WorkerStep(p, run);
      ApplyCons(p.world, p.queue, run);
      TraceCons(p.world, p.queue, run);
      assert q.log == p.log + [TaskRecord(p.queue[0], ErrorOf(run(p.world, p.queue[0])))];
      RunToCompletion(q, run)
  }

  /** The tasks of a log, in the order they were run. */
  function Tasks<T>(log: seq<TaskRecord<T>>): (ts: seq<T>)
    ensures |ts| == |log|
    ensures forall i :: 0 <= i < |log| ==> ts[i] == log[i].task
  {
    seq(|log|, i requires 0 <= i < |log| => log[i].task)
  }

  /** `wait_completion` on a freshly submitted batch returns: once the
      workers have drained the queue nothing is unfinished, and the log holds
      each submitted task exactly once, in submission order. */
  lemma BarrierReleases<S, T>(world: S, tasks: seq<T>, run: (S, T) -> Result<S, string>)
    ensures RunToCompletion(Submit(world, tasks), run).unfinished == 0
    ensures Tasks(RunToCompletion(Submit(world, tasks), run).log) == tasks
  {
  }
}

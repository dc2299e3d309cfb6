/** The queue of tasks shared by the server thread, which puts tasks and waits for
    them, and Blender's main thread, whose timer drains it. */
module Tasks {
  import opened Values
  import opened HostModel
  import opened Execution
  import opened Assets

  /** What a task asks for: its `type`, and the `code` or `asset_data` it carries. */
  datatype Job = Job(kind: string, code: string, assetData: Json)

  function CodeJob(code: string): Job { Job("code", code, Null) }

  function AssetJob(assetData: Json): Job { Job("download_asset", "", assetData) }

  /** Running one task in the host: a code task runs its code, an asset task its
      import; a task of any other type is taken off the queue and ignored. */
  function RunJob(host: Host, log: Log, job: Job): (r: Option<Step>)
    ensures r.None? <==> job.kind != "code" && job.kind != "download_asset"
    ensures r.Some? ==> log <= r.value.log
  {
    if job.kind == "code" then Some(ExecuteCode(host, log, job.code))
    else if job.kind == "download_asset" then Some(ImportAsset(host, log, job.assetData))
    else None
  }

  /** The result a run writes into its task, if it writes one. */
  function Written(s: Option<Step>): Option<Json>
  {
    if s.Some? && s.value.Completed? then Some(s.value.response) else None
  }

  /** A drain: the result written into each task taken off the queue (`None` where
      none was written), the history afterwards, and the exception that escaped it,
      if one did. */
  datatype Drained = Drained(results: seq<Option<Json>>, log: Log, escape: Option<string>)

  /** Draining `jobs` in order, `results` being the results of the tasks already
      taken. The drain stops at an exception that escapes a task. */
  function DrainFrom(host: Host, log: Log, jobs: seq<Job>, results: seq<Option<Json>>): (r: Drained)
    ensures results <= r.results && |r.results| <= |results| + |jobs| && log <= r.log
    ensures r.escape.None? ==> |r.results| == |results| + |jobs|
    ensures r.escape.Some? ==> |results| < |r.results|
    decreases |jobs|
  {
    if jobs == [] then Drained(results, log, None)
    else
      var s := RunJob(host, log, jobs[0]);
      if s.Some? && s.value.Escaped? then Drained(results + [None], s.value.log, Some(s.value.error))
      else DrainFrom(host, if s.Some? then s.value.log else log, jobs[1..], results + [Written(s)])
  }

  function Drain(host: Host, log: Log, jobs: seq<Job>): Drained
  {
    DrainFrom(host, log, jobs, [])
  }

  /** Draining `a + b` drains `a`, then, unless an exception escaped, drains `b` from
      where `a` left the host. */
  lemma {:induction false} DrainAppend(host: Host, log: Log, a: seq<Job>, b: seq<Job>, results: seq<Option<Json>>)
    ensures DrainFrom(host, log, a + b, results)
            == var d := DrainFrom(host, log, a, results);
               if d.escape.Some? then d else DrainFrom(host, d.log, b, d.results)
    decreases |a|
  {
    if a == [] {
      assert a + b == b;
    } else {
      assert (a + b)[0] == a[0] && (a + b)[1..] == a[1..] + b;
      var s := RunJob(host, log, a[0]);
      if !(s.Some? && s.value.Escaped?) {
        DrainAppend(host, if s.Some? then s.value.log else log, a[1..], b, results + [Written(s)]);
      }
    }
  }

  /** One step of the drain: the first job runs, then the drain goes on from where it
      left the host unless an exception escaped it. */
  lemma DrainStep(host: Host, log: Log, jobs: seq<Job>, results: seq<Option<Json>>)
    requires jobs != []
    ensures var s := RunJob(host, log, jobs[0]);
            DrainFrom(host, log, jobs, results)
              == if s.Some? && s.value.Escaped? then Drained(results + [None], s.value.log, Some(s.value.error))
                 else DrainFrom(host, if s.Some? then s.value.log else log, jobs[1..], results + [Written(s)])
  {
  }

  /** The drain is first in, first out: the i-th task taken is run on the host as the
      tasks before it left it, and no exception escaped those; if one escapes the
      i-th task, the drain stops there. */
  lemma DrainInOrder(host: Host, log: Log, jobs: seq<Job>, i: nat)
    requires i < |Drain(host, log, jobs).results|
    ensures Drain(host, log, jobs[..i]).escape.None?
    ensures Drain(host, log, jobs).results[i] == Written(RunJob(host, Drain(host, log, jobs[..i]).log, jobs[i]))
    ensures var s := RunJob(host, Drain(host, log, jobs[..i]).log, jobs[i]);
            s.Some? && s.value.Escaped? ==>
              Drain(host, log, jobs).escape == Some(s.value.error) && |Drain(host, log, jobs).results| == i + 1
  {
    assert jobs == jobs[..i] + jobs[i..];
    DrainAppend(host, log, jobs[..i], jobs[i..], []);
    var before := Drain(host, log, jobs[..i]);
    assert jobs[i..][0] == jobs[i];
  }

  /** Tasks whose type is neither `code` nor `download_asset` are taken off the queue
      and get no result; the others get one, unless an exception escapes them. */
  lemma DrainWritesKnownKinds(host: Host, log: Log, jobs: seq<Job>, i: nat)
    requires i < |Drain(host, log, jobs).results|
    requires Drain(host, log, jobs).escape.None? || i + 1 < |Drain(host, log, jobs).results|
    ensures Drain(host, log, jobs).results[i].Some? <==> jobs[i].kind == "code" || jobs[i].kind == "download_asset"
  {
    DrainInOrder(host, log, jobs, i);
  }

  /** One pass of the drain's loop body on a task taken off the queue: run it and,
      unless an exception escaped, write its result and mark it completed. */
  method RunTask(task: Task, host: Host, log: Log) returns (s: Option<Step>)
    modifies task
    ensures s == RunJob(host, log, task.job)
    ensures Written(s).Some? ==> task.completed && task.result == Written(s).value
    ensures Written(s).None? ==> unchanged(task)
  {
    if task.job.kind == "code" {
      var step := ExecuteCode(host, log, task.job.code);
      if step.Completed? {
        task.result := step.response;
        task.completed := true;
      }
      s := Some(step);
    } else if task.job.kind == "download_asset" {
      var r := DownloadAndImportAsset(host, log, task.job.assetData);
      task.result := Report(r.outcome);
      task.completed := true;
      s := Some(Completed(Report(r.outcome), r.log));
    } else {
      s := None;
    }
  }

  /** The loop of the drain over the tasks taken off the queue, in order: run each and
      write its result, and stop after the last one or at an exception that escapes a
      task. `taken` is how many were taken; the ones after them are left untouched. */
  method RunTasks(tasks: seq<Task>, host: Host, log: Log) returns (taken: nat, history: Log, escape: Option<string>)
    requires forall i, j :: 0 <= i < j < |tasks| ==> tasks[i] != tasks[j]
    requires forall i :: 0 <= i < |tasks| ==> !tasks[i].completed
    modifies tasks
    ensures var d := Drain(host, log, Jobs(tasks));
            taken == |d.results| && history == d.log && escape == d.escape &&
            (forall i :: 0 <= i < taken ==>
               tasks[i].completed == d.results[i].Some? &&
               (d.results[i].Some? ==> tasks[i].result == d.results[i].value))
    ensures forall i :: taken <= i < |tasks| ==> unchanged(tasks[i])
  {
    ghost var jobs := Jobs(tasks);
    ghost var done: seq<Option<Json>> := [];
    history := log;
    taken := 0;
    escape := None;
    while taken < |tasks| && escape.None?
      invariant taken <= |tasks| && |done| == taken
      invariant escape.None? ==> Drain(host, log, jobs) == DrainFrom(host, history, jobs[taken..], done)
      invariant escape.Some? ==> Drain(host, log, jobs) == Drained(done, history, escape)
      invariant forall i :: 0 <= i < taken ==>
                  tasks[i].completed == done[i].Some? && (done[i].Some? ==> tasks[i].result == done[i].value)
      invariant forall i :: taken <= i < |tasks| ==> unchanged(tasks[i])
    {
      var task := tasks[taken];
      assert jobs[taken..][0] == task.job && jobs[taken..][1..] == jobs[taken + 1..];
      DrainStep(host, history, jobs[taken..], done);
      assert forall i :: 0 <= i < |tasks| && i != taken ==> tasks[i] != task;
      var s := RunTask(task, host, history);
      forall i | 0 <= i <= taken
        ensures tasks[i].completed == (done + [Written(s)])[i].Some?
        ensures (done + [Written(s)])[i].Some? ==> tasks[i].result == (done + [Written(s)])[i].value
      {
        if i < taken {
          assert (done + [Written(s)])[i] == done[i];
        }
      }
      done := done + [Written(s)];
      taken := taken + 1;
      if s.Some? {
        history := s.value.log;
        if s.value.Escaped? {
          escape := Some(s.value.error);
        }
      }
    }
  }

  /** A task record: its job, and the `completed` flag and `result` the drain writes. */
  class Task {
    const job: Job
    var completed: bool
    var result: Json

    constructor (job: Job)
      ensures this.job == job && !completed && result == Null
    {
      this.job := job;
      completed := false;
      result := Null;
    }
  }

  function Jobs(tasks: seq<Task>): (r: seq<Job>)
    ensures |r| == |tasks| && forall i :: 0 <= i < |tasks| ==> r[i] == tasks[i].job
  {
    seq(|tasks|, i requires 0 <= i < |tasks| => tasks[i].job)
  }

  /** The drain's answer to Blender's timer: run again after `interval` seconds, or
      the exception that escaped it. */
  datatype TimerOutcome = Rearm(interval: real) | Stopped(error: string)

  /** `code_execution_queue`: the tasks put and not yet taken, oldest first. */
  class TaskQueue {
    var pending: seq<Task>

    /** Each task is put once, and a task is completed only once it is taken. */
    ghost predicate Valid()
      reads this, pending
    {
      (forall i, j :: 0 <= i < j < |pending| ==> pending[i] != pending[j]) &&
      (forall i :: 0 <= i < |pending| ==> !pending[i].completed)
    }

    constructor ()
      ensures pending == [] && Valid()
    {
      pending := [];
    }

    /** `code_execution_queue.put(task)` */
    method Put(task: Task)
      requires Valid() && task !in pending && !task.completed
      modifies this
      ensures pending == old(pending) + [task] && Valid()
    {
      pending := pending + [task];
    }

    /** `process_queue_timer()`: take tasks off the queue in order, running each and
        writing its result, until the queue is empty; then ask to run again in 0.1 s.
        An exception that escapes a task escapes the drain, and the tasks behind it
        stay queued. */
    method ProcessQueueTimer(host: Host, log: Log) returns (outcome: TimerOutcome, history: Log)
      requires Valid()
      modifies this, pending
      ensures var d := Drain(host, log, Jobs(old(pending)));
              history == d.log &&
              outcome == (if d.escape.None? then Rearm(0.1) else Stopped(d.escape.value)) &&
              pending == old(pending)[|d.results|..] &&
              (forall i :: 0 <= i < |d.results| ==>
                 old(pending)[i].completed == d.results[i].Some? &&
                 (d.results[i].Some? ==> old(pending)[i].result == d.results[i].value))
      ensures forall i :: |old(pending)| - |pending| <= i < |old(pending)| ==> unchanged(old(pending)[i])
      ensures outcome.Rearm? ==> outcome.interval == 0.1 && pending == []
      ensures Valid()
    {
      var queued := pending;
      var taken, escape;
      taken, history, escape := RunTasks(queued, host, log);
      pending := queued[taken..];
      outcome := if escape.None? then Rearm(0.1) else Stopped(escape.value);
    }
  }
}

/** How the master recovers from lost workers: what a request is answered, when a task is given again,
    and that a job can always still be finished. */
module MapReduceProgress {
  import opened MapReducePlan
  import opened MapReduceMaster
  import opened MapReduceRun

  // ---- What a request is answered ----

  /** The task may be handed out: nobody has it, or somebody has had it for more than ten seconds. */
  predicate Available(task: Task, now: int) {
    task.status == Idle || (task.status == InProgress && now - task.start > 10)
  }

  predicate FirstAvailable(tasks: seq<Task>, i: nat, now: int) {
    i < |tasks| && Available(tasks[i], now) && forall k: nat :: k < i ==> !Available(tasks[k], now)
  }

  predicate NoneAvailable(tasks: seq<Task>, now: int) {
    forall k: nat :: k < |tasks| ==> !Available(tasks[k], now)
  }

  /** Map is over, as this request finds it. */
  predicate MapOver(m: MasterState) {
    m.mapFinished || AllCompleted(m.mapTasks)
  }

  /** Exit when all reduce tasks are completed; else the first task of the current phase that may be handed
      out; else wait. */
  lemma AnswerExactly(m: MasterState, now: int)
    ensures var r := OnGetTask(m, now).1;
      && (r == ExitTask <==> AllCompleted(m.reduceTasks))
      && (r.MapTask? <==> !AllCompleted(m.reduceTasks) && !MapOver(m) && !NoneAvailable(m.mapTasks, now))
      && (r.ReduceTask? <==> !AllCompleted(m.reduceTasks) && MapOver(m) && !NoneAvailable(m.reduceTasks, now))
  {
    hide FirstIdle;
    var c := OnCheckTimeOut(m, now);
    forall k: nat | k < |m.mapTasks| && !MapOver(m)
      ensures c.mapTasks[k].status == Idle <==> Available(m.mapTasks[k], now) {}
    forall k: nat | k < |m.reduceTasks|
      ensures c.reduceTasks[k].status == Idle <==> Available(m.reduceTasks[k], now) {}
    var i, r := FirstIdle(c.mapTasks, 0), FirstIdle(c.reduceTasks, 0);
    if i < |c.mapTasks| && !MapOver(m) { assert Available(m.mapTasks[i], now); }
    if r < |c.reduceTasks| { assert Available(m.reduceTasks[r], now); }
  }

  /** Nothing is taken from a worker that has had it for ten seconds or less. */
  predicate Recovered(tasks: seq<Task>, tasks': seq<Task>, now: int) {
    |tasks'| == |tasks| && forall k: nat :: k < |tasks| ==>
      tasks'[k] == if Available(tasks[k], now) then tasks[k].(status := Idle) else tasks[k]
  }

  /** A map task that is handed out is the first that may be, and is in progress from now on. */
  lemma MapHandedOut(m: MasterState, now: int)
    requires OnGetTask(m, now).1.MapTask?
    ensures exists i: nat :: FirstAvailable(m.mapTasks, i, now) && MapGiven(m, i, now)
  {
    hide FirstIdle;
    var c := OnCheckTimeOut(m, now);
    forall k: nat | k < |m.mapTasks| ensures c.mapTasks[k].status == Idle <==> Available(m.mapTasks[k], now) {}
    var i := FirstIdle(c.mapTasks, 0);
    assert FirstAvailable(m.mapTasks, i, now);
    assert MapGiven(m, i, now);
  }

  predicate MapGiven(m: MasterState, i: nat, now: int) {
    var (m', r) := OnGetTask(m, now);
    && i < |m.mapTasks| == |m'.mapTasks|
    && r == MapTask(m.mapTasks[i].fileName, m.mapTasks[i].taskID, m.nReduce)
    && m'.mapTasks[i] == m.mapTasks[i].(status := InProgress, start := now)
    && Recovered(m.mapTasks, m'.mapTasks[i := m.mapTasks[i].(status := Idle)], now)
  }

  lemma ReduceHandedOut(m: MasterState, now: int)
    requires OnGetTask(m, now).1.ReduceTask?
    ensures exists i: nat :: FirstAvailable(m.reduceTasks, i, now) && ReduceGiven(m, i, now)
  {
    hide FirstIdle;
    var c := OnCheckTimeOut(m, now);
    forall k: nat | k < |m.reduceTasks| ensures c.reduceTasks[k].status == Idle <==> Available(m.reduceTasks[k], now) {}
    var i := FirstIdle(c.reduceTasks, 0);
    assert FirstAvailable(m.reduceTasks, i, now);
    assert ReduceGiven(m, i, now);
  }

  predicate ReduceGiven(m: MasterState, i: nat, now: int) {
    var (m', r) := OnGetTask(m, now);
    && i < |m.reduceTasks| == |m'.reduceTasks|
    && r == ReduceTask(m.reduceTasks[i].taskID, i, |m.mapTasks|)
    && m'.reduceTasks[i] == m.reduceTasks[i].(status := InProgress, start := now)
    && Recovered(m.reduceTasks, m'.reduceTasks[i := m.reduceTasks[i].(status := Idle)], now)
  }

  /** The tasks of the phase that this request finds. */
  function Phase(m: MasterState): seq<Task> {
    if MapOver(m) then m.reduceTasks else m.mapTasks
  }

  /** Waiting means that somebody has every task of the phase that is not completed, for at most ten seconds. */
  lemma WaitExactly(m: MasterState, now: int)
    ensures OnGetTask(m, now).1 == WaitTask <==>
              && !AllCompleted(m.reduceTasks)
              && forall k: nat :: k < |Phase(m)| ==>
                   Phase(m)[k].status == Completed
                   || (Phase(m)[k].status == InProgress && now - Phase(m)[k].start <= 10)
  {
    hide OnGetTask;
    AnswerExactly(m, now);
    forall k: nat | k < |Phase(m)|
      ensures !Available(Phase(m)[k], now) <==>
                Phase(m)[k].status == Completed
                || (Phase(m)[k].status == InProgress && now - Phase(m)[k].start <= 10) {}
    var r := OnGetTask(m, now).1;
    assert r == WaitTask <==> r != ExitTask && !r.MapTask? && !r.ReduceTask?;
    assert NoneAvailable(Phase(m), now) <==> forall k: nat :: k < |Phase(m)| ==> !Available(Phase(m)[k], now);
  }

  // ---- What a report does ----

  /** A report completes the task it names if somebody has it, and changes nothing else. */
  lemma ReportCompletes(m: MasterState, id: nat)
    requires forall i: nat :: i < |m.mapTasks| ==> m.mapTasks[i].taskID == i
    requires forall i: nat :: i < |m.reduceTasks| ==> m.reduceTasks[i].taskID == i
    ensures var (m', ok) := OnReportTask(m, MapKind, id);
      && (ok <==> id < |m.mapTasks| && m.mapTasks[id].status == InProgress)
      && (!ok ==> m' == m)
      && (ok ==> m'.mapTasks == m.mapTasks[id := m.mapTasks[id].(status := Completed)]
                 && m' == m.(mapTasks := m'.mapTasks, mapFinished := m'.mapFinished)
                 && (m'.mapFinished <==> forall i: nat :: i < |m'.mapTasks| ==> m'.mapTasks[i].status == Completed))
    ensures var (m', ok) := OnReportTask(m, ReduceKind, id);
      && (ok <==> id < |m.reduceTasks| && m.reduceTasks[id].status == InProgress)
      && (!ok ==> m' == m)
      && (ok ==> m'.reduceTasks == m.reduceTasks[id := m.reduceTasks[id].(status := Completed)]
                 && m' == m.(reduceTasks := m'.reduceTasks, allFinished := m'.allFinished)
                 && (m'.allFinished <==>
                       forall i: nat :: i < |m'.reduceTasks| ==> m'.reduceTasks[i].status == Completed))
  {
    hide FirstReported;
  }

  // ---- In runs: a task is given again ----

  /** Some request at that time was answered with this task. */
  ghost predicate GivenAt(j: Job, run: seq<World>, k: nat, task: GetTaskReply, time: int)
    requires Sane(j)
  {
    exists i: nat :: i < k && IsAsk(j, run, i, task, time)
  }

  ghost predicate IsAsk(j: Job, run: seq<World>, i: nat, task: GetTaskReply, time: int)
    requires Sane(j)
  {
    i + 1 < |run| && run[i + 1] == Next(j, run[i], Ask(time)) && OnGetTask(run[i].master, time).1 == task
  }

  function MapTaskFor(j: Job, i: nat): GetTaskReply
    requires i < |j.files|
  {
    MapTask(j.files[i], i, j.nReduce)
  }

  function ReduceTaskFor(j: Job, i: nat): GetTaskReply {
    ReduceTask(i, i, |j.maps|)
  }

  /** Every task in progress was handed out at the time the master has noted. */
  ghost predicate Noted(j: Job, run: seq<World>, k: nat)
    requires Sane(j) && k < |run|
  {
    var m := run[k].master;
    && |m.mapTasks| == |j.files|
    && (forall i: nat :: i < |m.mapTasks| && m.mapTasks[i].status == InProgress ==>
          GivenAt(j, run, k, MapTaskFor(j, i), m.mapTasks[i].start))
    && (forall i: nat :: i < |m.reduceTasks| && m.reduceTasks[i].status == InProgress ==>
          GivenAt(j, run, k, ReduceTaskFor(j, i), m.reduceTasks[i].start))
  }

  lemma LaterGiven(j: Job, run: seq<World>, k: nat, task: GetTaskReply, time: int)
    requires Sane(j) && k > 0 && GivenAt(j, run, k - 1, task, time)
    ensures GivenAt(j, run, k, task, time)
  {
    var i: nat :| i < k - 1 && IsAsk(j, run, i, task, time);
    assert IsAsk(j, run, i, task, time);
  }

  /** What a step leaves in progress was so before, or was handed out by it. */
  lemma StepStarts(j: Job, w: World, step: Step)
    requires Sane(j) && Inv(j, w) && Enabled(j, w, step)
    ensures var m, m' := w.master, Next(j, w, step).master;
      && |m'.mapTasks| == |m.mapTasks| == |j.files| && |m'.reduceTasks| == |m.reduceTasks|
      && (forall i: nat :: i < |m'.mapTasks| && m'.mapTasks[i].status == InProgress ==>
            m'.mapTasks[i] == m.mapTasks[i]
            || (step.Ask? && m'.mapTasks[i].start == step.now && OnGetTask(m, step.now).1 == MapTaskFor(j, i)))
      && (forall i: nat :: i < |m'.reduceTasks| && m'.reduceTasks[i].status == InProgress ==>
            m'.reduceTasks[i] == m.reduceTasks[i]
            || (step.Ask? && m'.reduceTasks[i].start == step.now && OnGetTask(m, step.now).1 == ReduceTaskFor(j, i)))
  {
    hide FilesOk, OutsOk, GivenOk, ReportsOk, Written, ExecOk, OnGetTask, OnReportTask, Bucket, Correct;
    if step.Ask? {
      AskStarts(w.master, step.now);
      if OnGetTask(w.master, step.now).1.MapTask? { MapHandedOut(w.master, step.now); }
      if OnGetTask(w.master, step.now).1.ReduceTask? { ReduceHandedOut(w.master, step.now); }
    } else if step.Receive? {
      ReportCompletes(w.master, step.report.id);
      assert step.report.kind == MapKind || step.report.kind == ReduceKind;
    }
  }

  /** A request starts nothing but what it hands out. */
  lemma AskStarts(m: MasterState, now: int)
    ensures var (m', r) := OnGetTask(m, now);
      && |m'.mapTasks| == |m.mapTasks| && |m'.reduceTasks| == |m.reduceTasks|
      && (forall i: nat :: i < |m'.mapTasks| && m'.mapTasks[i].status == InProgress ==>
            m'.mapTasks[i] == m.mapTasks[i] || (r.MapTask? && MapGiven(m, i, now)))
      && (forall i: nat :: i < |m'.reduceTasks| && m'.reduceTasks[i].status == InProgress ==>
            m'.reduceTasks[i] == m.reduceTasks[i] || (r.ReduceTask? && ReduceGiven(m, i, now)))
  {
    hide FirstIdle;
  }

  lemma {:induction false} RunNoted(j: Job, run: seq<World>, k: nat)
    requires Sane(j) && IsRun(j, run) && k < |run|
    ensures Noted(j, run, k)
  {
    hide Inv, Next, Enabled, Sane, OnGetTask, GivenAt;
    RunInv(j, run, k);
    if k == 0 {
      NoneStarted(j, run);
    } else {
      RunInv(j, run, k - 1);
      RunNoted(j, run, k - 1);
      assert Steps(j, run[k - 1], run[k - 1 + 1]);
      var step: Step :| Enabled(j, run[k - 1], step) && run[k] == Next(j, run[k - 1], step);
      StepStarts(j, run[k - 1], step);
      var m, m' := run[k - 1].master, run[k].master;
      forall i: nat | i < |m'.mapTasks| && m'.mapTasks[i].status == InProgress
        ensures GivenAt(j, run, k, MapTaskFor(j, i), m'.mapTasks[i].start)
      {
        NotedStep(j, run, k, step, MapTaskFor(j, i), m'.mapTasks[i].start);
      }
      forall i: nat | i < |m'.reduceTasks| && m'.reduceTasks[i].status == InProgress
        ensures GivenAt(j, run, k, ReduceTaskFor(j, i), m'.reduceTasks[i].start)
      {
        NotedStep(j, run, k, step, ReduceTaskFor(j, i), m'.reduceTasks[i].start);
      }
    }
  }

  lemma NotedStep(j: Job, run: seq<World>, k: nat, step: Step, task: GetTaskReply, time: int)
    requires Sane(j) && 0 < k < |run| && Enabled(j, run[k - 1], step) && run[k] == Next(j, run[k - 1], step)
    requires GivenAt(j, run, k - 1, task, time)
          || (step.Ask? && time == step.now && OnGetTask(run[k - 1].master, step.now).1 == task)
    ensures GivenAt(j, run, k, task, time)
  {
    hide Next, OnGetTask, Sane;
    if GivenAt(j, run, k - 1, task, time) {
      LaterGiven(j, run, k, task, time);
    } else {
      assert IsAsk(j, run, k - 1, task, time);
    }
  }

  lemma NoneStarted(j: Job, run: seq<World>)
    requires Sane(j) && |run| > 0 && run[0] == InitWorld(j)
    ensures Noted(j, run, 0)
  {
  }

  /** A map task that was handed out and not reported is handed out again by the first request more than ten
      seconds later that finds no task before it to hand out; and not by any earlier one. */
  lemma MapGivenAgain(j: Job, run: seq<World>, k: nat, i: nat, now: int)
    requires Sane(j) && IsRun(j, run) && k < |run| && i < |j.files|
    requires |run[k].master.mapTasks| == |j.files| && run[k].master.mapTasks[i].status == InProgress
    requires !AllCompleted(run[k].master.reduceTasks) && !MapOver(run[k].master)
    requires forall h: nat :: h < i ==> !Available(run[k].master.mapTasks[h], now)
    ensures GivenAt(j, run, k, MapTaskFor(j, i), run[k].master.mapTasks[i].start)
    ensures OnGetTask(run[k].master, now).1 == MapTaskFor(j, i) <==> now - run[k].master.mapTasks[i].start > 10
  {
    hide IsRun, Sane, OnGetTask, FilesOk, OutsOk, GivenOk, ReportsOk, ExecOk, Written, GivenAt;
    RunInv(j, run, k);
    RunNoted(j, run, k);
    var m := run[k].master;
    AnswerExactly(m, now);
    if OnGetTask(m, now).1.MapTask? {
      MapHandedOut(m, now);
      var a: nat :| FirstAvailable(m.mapTasks, a, now) && MapGiven(m, a, now);
      assert m.mapTasks[a].taskID == a;
    }
    if now - m.mapTasks[i].start > 10 { assert Available(m.mapTasks[i], now); }
  }

  lemma ReduceGivenAgain(j: Job, run: seq<World>, k: nat, i: nat, now: int)
    requires Sane(j) && IsRun(j, run) && k < |run|
    requires i < |run[k].master.reduceTasks| && run[k].master.reduceTasks[i].status == InProgress
    requires MapOver(run[k].master)
    requires forall h: nat :: h < i ==> !Available(run[k].master.reduceTasks[h], now)
    ensures GivenAt(j, run, k, ReduceTaskFor(j, i), run[k].master.reduceTasks[i].start)
    ensures OnGetTask(run[k].master, now).1 == ReduceTaskFor(j, i) <==> now - run[k].master.reduceTasks[i].start > 10
  {
    hide IsRun, Sane, OnGetTask, FilesOk, OutsOk, GivenOk, ReportsOk, ExecOk, Written, GivenAt;
    RunInv(j, run, k);
    RunNoted(j, run, k);
    var m := run[k].master;
    AnswerExactly(m, now);
    if OnGetTask(m, now).1.ReduceTask? {
      ReduceHandedOut(m, now);
      var a: nat :| FirstAvailable(m.reduceTasks, a, now) && ReduceGiven(m, a, now);
      assert m.reduceTasks[a].taskID == a;
    }
    if now - m.reduceTasks[i].start > 10 { assert Available(m.reduceTasks[i], now); }
  }
}

/** A job can always still be finished: whatever workers have crashed, and whatever replies and reports
    were lost, every run goes on to one that reaches allFinished. */
module MapReduceFinish {
  import opened MapReducePlan
  import opened MapReduceMaster
  import opened MapReduceRun
  import opened MapReduceProgress

  function Final(run: seq<World>): World
    requires |run| > 0
  {
    run[|run| - 1]
  }

  ghost predicate Extends(j: Job, run: seq<World>, run': seq<World>)
    requires Sane(j)
  {
    |run| > 0 && |run'| > 0 && IsRun(j, run') && run <= run' && Inv(j, Final(run'))
  }

  lemma Do(j: Job, run: seq<World>, step: Step) returns (run': seq<World>)
    requires Sane(j) && |run| > 0 && IsRun(j, run) && Inv(j, Final(run)) && Enabled(j, Final(run), step)
    ensures Extends(j, run, run') && Final(run') == Next(j, Final(run), step)
  {
    hide Inv, Sane, Next, Enabled;
    run' := run + [Next(j, Final(run), step)];
    forall k: nat | k + 1 < |run'| ensures Steps(j, run'[k], run'[k + 1]) {
      if k + 1 < |run| { assert Steps(j, run[k], run[k + 1]); } else { assert run'[k] == Final(run); }
    }
    StepInv(j, Final(run), step);
  }

  // ---- One map task ----

  /** The last execution is of this map task, the first b files are written, and the master is unchanged. */
  predicate Mapping(w: World, m: MasterState, kva: seq<KeyValue>, i: nat, b: nat) {
    w.master == m && |w.execs| > 0 && w.execs[|w.execs| - 1] == MapExec(i, kva, b)
  }

  lemma WorkMap(j: Job, run: seq<World>, i: nat) returns (run': seq<World>)
    requires Sane(j) && |run| > 0 && IsRun(j, run) && Inv(j, Final(run)) && i < |j.files|
    requires MapTaskFor(j, i) in Final(run).given
    ensures Extends(j, run, run')
    ensures Final(run').master == OnReportTask(Final(run).master, MapKind, i).0
  {
    hide IsRun, Inv, Sane, OnReportTask;
    var m := Final(run).master;
    SameCount(j);
    run' := Do(j, run, StartMap(MapTaskFor(j, i), j.maps[i]));
    var b := 0;
    while b < j.nReduce
      invariant b <= j.nReduce && Extends(j, run, run') && Mapping(Final(run'), m, j.maps[i], i, b)
    {
      run' := Do(j, run', WriteNext(|Final(run').execs| - 1));
      b := b + 1;
    }
    run' := Do(j, run', ReportMap(|Final(run').execs| - 1));
    run' := Do(j, run', Receive(Report(MapKind, i)));
  }

  lemma SameCount(j: Job)
    requires Sane(j)
    ensures |j.maps| == |j.files| && j.nReduce > 0
  {
  }

  // ---- One reduce task ----

  predicate Reducing(w: World, m: MasterState, r: nat, n: nat, k: nat) {
    w.master == m && |w.execs| > 0 && w.execs[|w.execs| - 1].ReduceExec?
    && w.execs[|w.execs| - 1].r == r && w.execs[|w.execs| - 1].mapTaskNum == n && |w.execs[|w.execs| - 1].read| == k
  }

  lemma ReadOne(j: Job, run: seq<World>, m: MasterState, r: nat, k: nat) returns (run': seq<World>)
    requires Sane(j) && |run| > 0 && IsRun(j, run) && Inv(j, Final(run))
    requires Reducing(Final(run), m, r, |j.maps|, k) && k < |j.maps|
    ensures Extends(j, run, run') && Reducing(Final(run'), m, r, |j.maps|, k + 1)
  {
    hide IsRun, Inv, Sane;
    var step := ReadNext(|Final(run).execs| - 1);
    ReadNextInv(j, Final(run), step);
    run' := Do(j, run, step);
  }

  lemma WorkReduce(j: Job, run: seq<World>, r: nat) returns (run': seq<World>)
    requires Sane(j) && |run| > 0 && IsRun(j, run) && Inv(j, Final(run))
    requires ReduceTaskFor(j, r) in Final(run).given
    ensures Extends(j, run, run')
    ensures Final(run').master == OnReportTask(Final(run).master, ReduceKind, r).0
  {
    hide IsRun, Inv, Sane, OnReportTask, Correct, Concat;
    var m := Final(run).master;
    run' := Do(j, run, StartReduce(ReduceTaskFor(j, r)));
    var k := 0;
    while k < |j.maps|
      invariant k <= |j.maps| && Extends(j, run, run') && Reducing(Final(run'), m, r, |j.maps|, k)
    {
      run' := ReadOne(j, run', m, r, k);
      k := k + 1;
    }
    var e := |Final(run').execs| - 1;
    var lines := SomeCorrect(j.reducef, Concat(Final(run').execs[e].read));
    run' := Do(j, run', WriteOut(e, lines));
    run' := Do(j, run', ReportReduce(e));
    run' := Do(j, run', Receive(Report(ReduceKind, r)));
  }

  /** What one more pair changes: the values and the output of its key. */
  ghost predicate OneMore(reducef: (string, seq<string>) -> string, s: seq<KeyValue>, t: seq<KeyValue>, key: string) {
    && Values(t, key) != []
    && forall k: string :: k != key ==> Values(t, k) == Values(s, k) && Output(reducef, t, k) == Output(reducef, s, k)
  }

  lemma OneMorePair(reducef: (string, seq<string>) -> string, s: seq<KeyValue>)
    requires s != []
    ensures OneMore(reducef, s[..|s| - 1], s, s[|s| - 1].key)
  {
  }

  /** The key has a line already. */
  lemma ReplaceLine(reducef: (string, seq<string>) -> string, s: seq<KeyValue>, t: seq<KeyValue>, lines: seq<Line>,
      i: nat)
    requires Correct(reducef, s, lines) && i < |lines| && OneMore(reducef, s, t, lines[i].key)
    ensures Correct(reducef, t, lines[i := Line(lines[i].key, Output(reducef, t, lines[i].key))])
  {
    hide Values, Output;
    var more := lines[i := Line(lines[i].key, Output(reducef, t, lines[i].key))];
    assert forall k: nat :: k < |lines| ==> more[k].key == lines[k].key;
    forall line | line in more ensures IsLine(reducef, t, line) {
      var k: nat :| k < |more| && more[k] == line;
      if k != i { assert lines[k] in lines; }
    }
  }

  lemma AddLine(reducef: (string, seq<string>) -> string, s: seq<KeyValue>, t: seq<KeyValue>, lines: seq<Line>,
      key: string)
    requires Correct(reducef, s, lines) && Values(s, key) == [] && OneMore(reducef, s, t, key)
    ensures Correct(reducef, t, lines + [Line(key, Output(reducef, t, key))])
  {
    hide Values, Output;
    var more := lines + [Line(key, Output(reducef, t, key))];
    forall k: nat | k < |lines| ensures lines[k].key != key && more[k] == lines[k] { assert lines[k] in lines; }
    assert more[|lines|].key == key;
    assert forall line :: line in more <==> line in lines || line == more[|lines|];
  }

  /** There is a correct output for any pairs. */
  lemma {:induction false} SomeCorrect(reducef: (string, seq<string>) -> string, s: seq<KeyValue>)
      returns (lines: seq<Line>)
    ensures Correct(reducef, s, lines)
  {
    hide Output, Values, Correct;
    if s == [] {
      lines := [];
      NoLine(reducef);
    } else {
      var front, key := s[..|s| - 1], s[|s| - 1].key;
      var before := SomeCorrect(reducef, front);
      OneMorePair(reducef, s);
      if Values(front, key) != [] {
        var i := LineOf(reducef, front, before, key);
        ReplaceLine(reducef, front, s, before, i);
        lines := before[i := Line(key, Output(reducef, s, key))];
      } else {
        AddLine(reducef, front, s, before, key);
        lines := before + [Line(key, Output(reducef, s, key))];
      }
    }
  }

  lemma LineOf(reducef: (string, seq<string>) -> string, s: seq<KeyValue>, lines: seq<Line>, key: string)
      returns (i: nat)
    requires Correct(reducef, s, lines) && Values(s, key) != []
    ensures i < |lines| && lines[i].key == key
  {
    hide Values, Output;
    i :| i < |lines| && lines[i].key == key;
  }

  lemma NoLine(reducef: (string, seq<string>) -> string)
    ensures Correct(reducef, [], [])
  {
  }

  // ---- The whole job ----

  /** How many tasks of the list are not completed. */
  function Open(tasks: seq<Task>): nat {
    if tasks == [] then 0
    else Open(tasks[..|tasks| - 1]) + if tasks[|tasks| - 1].status == Completed then 0 else 1
  }

  lemma {:induction false} OpenSame(a: seq<Task>, b: seq<Task>)
    requires |a| == |b| && forall i: nat :: i < |a| ==> (a[i].status == Completed <==> b[i].status == Completed)
    ensures Open(a) == Open(b)
  {
    if a != [] { OpenSame(a[..|a| - 1], b[..|b| - 1]); }
  }

  lemma {:induction false} OpenLess(tasks: seq<Task>, i: nat)
    requires i < |tasks| && tasks[i].status != Completed
    ensures Open(tasks[i := tasks[i].(status := Completed)]) == Open(tasks) - 1
  {
    var tasks' := tasks[i := tasks[i].(status := Completed)];
    if i < |tasks| - 1 {
      OpenLess(tasks[..|tasks| - 1], i);
      assert tasks'[..|tasks| - 1] == tasks[..|tasks| - 1][i := tasks[i].(status := Completed)];
    } else {
      assert tasks'[..|tasks| - 1] == tasks[..|tasks| - 1];
    }
  }

  /** A time at which every task that is not completed may be handed out. */
  lemma {:induction false} LateEnough(tasks: seq<Task>) returns (now: int)
    ensures forall i: nat, t: int :: i < |tasks| && t >= now && tasks[i].status != Completed ==> Available(tasks[i], t)
  {
    if tasks == [] {
      now := 0;
    } else {
      var rest := LateEnough(tasks[..|tasks| - 1]);
      var own := tasks[|tasks| - 1].start + 11;
      now := if own > rest then own else rest;
      assert forall i: nat :: i < |tasks| - 1 ==> tasks[..|tasks| - 1][i] == tasks[i];
    }
  }

  /** Map is not over: a late request hands out a task, and a worker completes it. */
  lemma MapRound(j: Job, run: seq<World>) returns (run': seq<World>)
    requires Sane(j) && |run| > 0 && IsRun(j, run) && Inv(j, Final(run))
    requires !MapOver(Final(run).master) && !AllCompleted(Final(run).master.reduceTasks)
    ensures Extends(j, run, run')
    ensures Open(Final(run').master.mapTasks) < Open(Final(run).master.mapTasks)
    ensures Open(Final(run').master.reduceTasks) == Open(Final(run).master.reduceTasks)
  {
    hide IsRun, Inv, Sane, OnGetTask, OnReportTask, Open;
    var m := Final(run).master;
    var now := LateEnough(m.mapTasks);
    AnswerExactly(m, now);
    GetTaskKeeps(m, now);
    var open: nat :| open < |m.mapTasks| && m.mapTasks[open].status != Completed;
    assert Available(m.mapTasks[open], now);
    MapHandedOut(m, now);
    var i: nat :| FirstAvailable(m.mapTasks, i, now) && MapGiven(m, i, now);
    Named(j, Final(run));
    assert OnGetTask(m, now).1 == MapTaskFor(j, i);
    run' := Do(j, run, Ask(now));
    var c := Final(run').master;
    OpenSame(m.mapTasks, c.mapTasks);
    OpenSame(m.reduceTasks, c.reduceTasks);
    Named(j, Final(run'));
    ReportCompletes(c, i);
    OpenLess(c.mapTasks, i);
    run' := WorkMap(j, run', i);
  }

  /** What the tasks are called. */
  lemma Named(j: Job, w: World)
    requires Sane(j) && Inv(j, w)
    ensures |w.master.mapTasks| == |j.files| == |j.maps| && w.master.nReduce == j.nReduce == |w.master.reduceTasks|
    ensures forall i: nat :: i < |j.files| ==>
              w.master.mapTasks[i].taskID == i && w.master.mapTasks[i].fileName == j.files[i]
    ensures forall r: nat :: r < |w.master.reduceTasks| ==> w.master.reduceTasks[r].taskID == r
  {
    hide FilesOk, OutsOk, GivenOk, ReportsOk, ExecOk, Written;
  }

  lemma ReduceRound(j: Job, run: seq<World>) returns (run': seq<World>)
    requires Sane(j) && |run| > 0 && IsRun(j, run) && Inv(j, Final(run))
    requires MapOver(Final(run).master) && !AllCompleted(Final(run).master.reduceTasks)
    ensures Extends(j, run, run') && MapOver(Final(run').master)
    ensures Open(Final(run').master.reduceTasks) < Open(Final(run).master.reduceTasks)
  {
    hide IsRun, Inv, Sane, OnGetTask, OnReportTask, Open;
    var m := Final(run).master;
    var now := LateEnough(m.reduceTasks);
    AnswerExactly(m, now);
    GetTaskKeeps(m, now);
    var open: nat :| open < |m.reduceTasks| && m.reduceTasks[open].status != Completed;
    assert Available(m.reduceTasks[open], now);
    ReduceHandedOut(m, now);
    var i: nat :| FirstAvailable(m.reduceTasks, i, now) && ReduceGiven(m, i, now);
    Named(j, Final(run));
    assert OnGetTask(m, now).1 == ReduceTaskFor(j, i);
    run' := Do(j, run, Ask(now));
    var c := Final(run').master;
    OpenSame(m.reduceTasks, c.reduceTasks);
    Named(j, Final(run'));
    ReportCompletes(c, i);
    OpenLess(c.reduceTasks, i);
    run' := WorkReduce(j, run', i);
  }

  /** The job can always still be finished. */
  lemma {:induction false} JobCanFinish(j: Job, run: seq<World>) returns (run': seq<World>)
    requires Sane(j) && |run| > 0 && IsRun(j, run)
    ensures |run'| > 0 && IsRun(j, run') && run <= run' && Final(run').master.allFinished
    decreases Open(Final(run).master.mapTasks) + Open(Final(run).master.reduceTasks)
  {
    hide IsRun, Inv, Sane, OnGetTask, OnReportTask, Open;
    RunInv(j, run, |run| - 1);
    var m := Final(run).master;
    if AllCompleted(m.reduceTasks) {
      run' := Do(j, run, Ask(0));
      LastAsk(m);
    } else if MapOver(m) {
      var more := ReduceRound(j, run);
      run' := FinishReduce(j, more);
    } else {
      var more := MapRound(j, run);
      run' := JobCanFinish(j, more);
    }
  }

  lemma {:induction false} FinishReduce(j: Job, run: seq<World>) returns (run': seq<World>)
    requires Sane(j) && |run| > 0 && IsRun(j, run) && MapOver(Final(run).master)
    ensures |run'| > 0 && IsRun(j, run') && run <= run' && Final(run').master.allFinished
    decreases Open(Final(run).master.reduceTasks)
  {
    hide IsRun, Inv, Sane, OnGetTask, OnReportTask, Open;
    RunInv(j, run, |run| - 1);
    var m := Final(run).master;
    if AllCompleted(m.reduceTasks) {
      run' := Do(j, run, Ask(0));
      LastAsk(m);
    } else {
      var more := ReduceRound(j, run);
      run' := FinishReduce(j, more);
    }
  }

  lemma LastAsk(m: MasterState)
    requires AllCompleted(m.reduceTasks)
    ensures OnGetTask(m, 0).0.allFinished
  {
  }
}

/** Runs of a MapReduce job: one master, any number of workers that may be slow, repeat each other
    or stop at any point. */
module MapReduceRun {
  import opened MapReducePlan
  import opened MapReduceMaster

  /** maps[i] is what map makes of file i, in some order; every execution may give another order. */
  datatype Job = Job(files: seq<string>, maps: seq<seq<KeyValue>>, nReduce: nat, hash: string -> nat,
                     reducef: (string, seq<string>) -> string)

  ghost predicate Sane(j: Job) {
    |j.maps| == |j.files| && j.nReduce > 0 && Insensitive(j.reducef)
  }

  /** The file mr-<map>-<reduce>. */
  datatype FileName = FileName(mapTask: nat, reduceTask: nat)

  /** One execution of a task by a worker. A reduce that misses a file is Failed. */
  datatype Exec =
    | MapExec(task: nat, kva: seq<KeyValue>, written: nat)
    | ReduceExec(r: nat, mapTaskNum: nat, read: seq<seq<KeyValue>>)
    | ReduceDone(r: nat)
    | Failed

  datatype Report = Report(kind: TaskType, id: nat)

  /** given and reports hold everything ever sent, so a reply may be lost and a report may come late
      or twice; an execution that takes no more steps has crashed. */
  datatype World = World(master: MasterState, files: map<FileName, seq<KeyValue>>, outs: map<nat, seq<Line>>,
                         execs: seq<Exec>, given: set<GetTaskReply>, reports: set<Report>)

  ghost function InitWorld(j: Job): World {
    World(InitMaster(j.files, j.nReduce), map[], map[], [], {}, {})
  }

  datatype Step =
    | Ask(now: int)
    | StartMap(task: GetTaskReply, kva: seq<KeyValue>)
    | WriteNext(e: nat)
    | ReportMap(e: nat)
    | StartReduce(task: GetTaskReply)
    | ReadNext(e: nat)
    | WriteOut(e: nat, lines: seq<Line>)
    | ReportReduce(e: nat)
    | Receive(report: Report)

  ghost predicate Enabled(j: Job, w: World, step: Step)
    requires Sane(j)
  {
    match step
    case Ask(_) => true
    case StartMap(task, kva) =>
      task in w.given && task.MapTask? && task.taskID < |j.maps| && multiset(kva) == multiset(j.maps[task.taskID])
    case WriteNext(e) => e < |w.execs| && w.execs[e].MapExec? && w.execs[e].written < j.nReduce
    case ReportMap(e) => e < |w.execs| && w.execs[e].MapExec? && w.execs[e].written == j.nReduce
    case StartReduce(task) => task in w.given && task.ReduceTask?
    case ReadNext(e) => e < |w.execs| && w.execs[e].ReduceExec? && |w.execs[e].read| < w.execs[e].mapTaskNum
    case WriteOut(e, lines) =>
      && e < |w.execs| && w.execs[e].ReduceExec? && |w.execs[e].read| == w.execs[e].mapTaskNum
      && Correct(j.reducef, Concat(w.execs[e].read), lines)
    case ReportReduce(e) => e < |w.execs| && w.execs[e].ReduceDone?
    case Receive(report) => report in w.reports
  }

  ghost function WithExec(w: World, e: nat, exec: Exec): World
    requires e < |w.execs|
  {
    w.(execs := w.execs[e := exec])
  }

  ghost function Next(j: Job, w: World, step: Step): World
    requires Sane(j) && Enabled(j, w, step)
  {
    match step
    case Ask(now) =>
      var (master, reply) := OnGetTask(w.master, now);
      w.(master := master, given := w.given + {reply})
    case StartMap(task, kva) => w.(execs := w.execs + [MapExec(task.taskID, kva, 0)])
    case WriteNext(e) =>
      var exec := w.execs[e];
      var name := FileName(exec.task, exec.written);
      WithExec(w, e, exec.(written := exec.written + 1)).(
        files := w.files[name := Bucket(j.hash, exec.kva, j.nReduce, exec.written)])
    case ReportMap(e) => w.(reports := w.reports + {Report(MapKind, w.execs[e].task)})
    case StartReduce(task) => w.(execs := w.execs + [ReduceExec(task.reduceTaskNum, task.mapTaskNum, [])])
    case ReadNext(e) =>
      var exec := w.execs[e];
      var name := FileName(|exec.read|, exec.r);
      WithExec(w, e, if name in w.files then exec.(read := exec.read + [w.files[name]]) else Failed)
    case WriteOut(e, lines) => WithExec(w, e, ReduceDone(w.execs[e].r)).(outs := w.outs[w.execs[e].r := lines])
    case ReportReduce(e) => w.(reports := w.reports + {Report(ReduceKind, w.execs[e].r)})
    case Receive(report) => w.(master := OnReportTask(w.master, report.kind, report.id).0)
  }

  ghost predicate Steps(j: Job, w: World, w': World)
    requires Sane(j)
  {
    exists step: Step :: Enabled(j, w, step) && w' == Next(j, w, step)
  }

  ghost predicate IsRun(j: Job, run: seq<World>)
    requires Sane(j)
  {
    |run| > 0 && run[0] == InitWorld(j) && forall k: nat :: k + 1 < |run| ==> Steps(j, run[k], run[k + 1])
  }

  // ---- The invariant ----

  ghost predicate Written(j: Job, w: World, i: nat) {
    forall b: nat :: b < j.nReduce ==> FileName(i, b) in w.files
  }

  ghost predicate AllWritten(j: Job, w: World) {
    forall i: nat :: i < |j.maps| ==> Written(j, w, i)
  }

  ghost predicate FilesOk(j: Job, w: World)
    requires Sane(j)
  {
    forall name :: name in w.files ==>
      && name.mapTask < |j.maps| && name.reduceTask < j.nReduce
      && multiset(w.files[name]) == multiset(Bucket(j.hash, j.maps[name.mapTask], j.nReduce, name.reduceTask))
  }

  ghost predicate OutsOk(j: Job, w: World)
    requires Sane(j)
  {
    forall r :: r in w.outs ==>
          r < j.nReduce && Correct(j.reducef, BucketInput(j.hash, j.maps, j.nReduce, r), w.outs[r])
  }

  ghost predicate MasterOk(j: Job, w: World) {
    var m := w.master;
    && |m.mapTasks| == |j.maps| == |j.files| && |m.reduceTasks| == m.nReduce == j.nReduce
    && (forall i: nat :: i < |m.mapTasks| ==>
          m.mapTasks[i].taskID == i && m.mapTasks[i].fileName == j.files[i]
          && (m.mapTasks[i].status == Completed ==> Written(j, w, i)))
    && (forall r: nat :: r < |m.reduceTasks| ==>
          m.reduceTasks[r].taskID == r && (m.reduceTasks[r].status == Completed ==> r in w.outs))
    && (m.mapFinished ==> AllCompleted(m.mapTasks)) && (m.allFinished ==> AllCompleted(m.reduceTasks))
  }

  ghost predicate GivenOk(j: Job, w: World) {
    forall t :: t in w.given ==>
      && (t.MapTask? ==>
            t.taskID < |j.maps| == |j.files| && t.fileName == j.files[t.taskID] && t.nReduce == j.nReduce)
      && (t.ReduceTask? ==>
            t.taskID == t.reduceTaskNum < j.nReduce && t.mapTaskNum == |j.maps| && w.master.mapFinished)
  }

  ghost predicate ExecOk(j: Job, w: World, exec: Exec)
    requires Sane(j)
  {
    match exec
    case MapExec(i, kva, written) =>
      && i < |j.maps| && multiset(kva) == multiset(j.maps[i]) && written <= j.nReduce
      && (forall b: nat :: b < written ==> FileName(i, b) in w.files)
    case ReduceExec(r, mapTaskNum, read) =>
      && r < j.nReduce && mapTaskNum == |j.maps| && |read| <= |j.maps| && w.master.mapFinished
      && (forall i: nat :: i < |read| ==> multiset(read[i]) == multiset(Bucket(j.hash, j.maps[i], j.nReduce, r)))
    case ReduceDone(r) => r in w.outs
    case Failed => false
  }

  ghost predicate ReportsOk(j: Job, w: World) {
    forall report :: report in w.reports ==>
      match report.kind
      case MapKind => report.id < |j.maps| && Written(j, w, report.id)
      case ReduceKind => report.id in w.outs
  }

  ghost predicate Inv(j: Job, w: World)
    requires Sane(j)
  {
    && FilesOk(j, w) && OutsOk(j, w) && MasterOk(j, w) && GivenOk(j, w) && ReportsOk(j, w)
    && (forall e: nat :: e < |w.execs| ==> ExecOk(j, w, w.execs[e]))
  }

  lemma InitInv(j: Job)
    requires Sane(j)
    ensures Inv(j, InitWorld(j))
  {
  }

  /** Files and outputs are only added, and map, once finished, stays finished. */
  ghost predicate Grows(w: World, w': World) {
    w.files.Keys <= w'.files.Keys && w.outs.Keys <= w'.outs.Keys && (w.master.mapFinished ==> w'.master.mapFinished)
  }

  lemma GrowsKeeps(j: Job, w: World, w': World)
    requires Sane(j) && Grows(w, w')
    ensures forall i: nat :: Written(j, w, i) ==> Written(j, w', i)
    ensures forall exec :: ExecOk(j, w, exec) ==> ExecOk(j, w', exec)
    ensures ReportsOk(j, w) && w'.reports == w.reports ==> ReportsOk(j, w')
    ensures GivenOk(j, w) && w'.given == w.given ==> GivenOk(j, w')
    ensures MasterOk(j, w) && w'.master == w.master ==> MasterOk(j, w')
  {
    hide Bucket;
  }

  // ---- What the master does ----

  /** Every task of the list keeps its id and file, and is completed after if and only if it was before. */
  ghost predicate KeepsCompleted(tasks: seq<Task>, tasks': seq<Task>) {
    |tasks'| == |tasks| && forall i: nat :: i < |tasks| ==>
      tasks'[i].taskID == tasks[i].taskID && tasks'[i].fileName == tasks[i].fileName
      && (tasks'[i].status == Completed <==> tasks[i].status == Completed)
  }

  lemma GetTaskKeeps(m: MasterState, now: int)
    ensures var (m', reply) := OnGetTask(m, now);
      && KeepsCompleted(m.mapTasks, m'.mapTasks) && KeepsCompleted(m.reduceTasks, m'.reduceTasks)
      && m'.nReduce == m.nReduce
      && (m.mapFinished ==> m'.mapFinished) && (m'.mapFinished ==> m.mapFinished || AllCompleted(m.mapTasks))
      && (m'.allFinished ==> AllCompleted(m.reduceTasks))
      && (reply.MapTask? ==>
            reply.nReduce == m.nReduce
            && exists i: nat :: i < |m.mapTasks| && reply.taskID == m.mapTasks[i].taskID
                                && reply.fileName == m.mapTasks[i].fileName)
      && (reply.ReduceTask? ==>
            m'.mapFinished && reply.reduceTaskNum < |m.reduceTasks| && reply.mapTaskNum == |m.mapTasks|
            && reply.taskID == m.reduceTasks[reply.reduceTaskNum].taskID)
  {
    CheckKeeps(m, now);
    hide OnCheckTimeOut;
    var c := OnCheckTimeOut(m, now);
    if !c.allFinished && !c.mapFinished && FirstIdle(c.mapTasks, 0) < |c.mapTasks| {
      assert c.mapTasks[FirstIdle(c.mapTasks, 0)].taskID == m.mapTasks[FirstIdle(c.mapTasks, 0)].taskID;
    }
  }

  lemma CheckKeeps(m: MasterState, now: int)
    ensures var c := OnCheckTimeOut(m, now);
      && KeepsCompleted(m.mapTasks, c.mapTasks) && KeepsCompleted(m.reduceTasks, c.reduceTasks)
      && c.nReduce == m.nReduce
      && (m.mapFinished ==> c.mapFinished) && (c.mapFinished ==> m.mapFinished || AllCompleted(m.mapTasks))
      && (c.allFinished ==> AllCompleted(m.reduceTasks))
  {
  }

  lemma AskInv(j: Job, w: World, step: Step)
    requires Sane(j) && Inv(j, w) && step.Ask?
    ensures Inv(j, Next(j, w, step))
  {
    hide OnGetTask, OutsOk, FilesOk, ExecOk, Written;
    var w' := Next(j, w, step);
    GetTaskKeeps(w.master, step.now);
    GrowsKeeps(j, w, w');
    SameOuts(j, w, w');
    SameFiles(j, w, w');
  }

  lemma ReportKeeps(m: MasterState, kind: TaskType, id: nat)
    requires forall i: nat :: i < |m.mapTasks| ==> m.mapTasks[i].taskID == i
    requires forall i: nat :: i < |m.reduceTasks| ==> m.reduceTasks[i].taskID == i
    requires m.mapFinished ==> AllCompleted(m.mapTasks)
    ensures var m' := OnReportTask(m, kind, id).0;
      && m'.nReduce == m.nReduce && |m'.mapTasks| == |m.mapTasks| && |m'.reduceTasks| == |m.reduceTasks|
      && (forall i: nat :: i < |m.mapTasks| ==>
            m'.mapTasks[i].taskID == i && m'.mapTasks[i].fileName == m.mapTasks[i].fileName
            && (m'.mapTasks[i].status == Completed ==>
                  m.mapTasks[i].status == Completed || (kind == MapKind && i == id)))
      && (forall i: nat :: i < |m.reduceTasks| ==>
            m'.reduceTasks[i].taskID == i
            && (m'.reduceTasks[i].status == Completed ==>
                  m.reduceTasks[i].status == Completed || (kind == ReduceKind && i == id)))
      && (m.mapFinished ==> m'.mapFinished) && (m'.mapFinished ==> AllCompleted(m'.mapTasks))
      && (m'.allFinished ==> m.allFinished || AllCompleted(m'.reduceTasks))
      && (AllCompleted(m.reduceTasks) ==> AllCompleted(m'.reduceTasks))
  {
  }

  lemma ReceiveInv(j: Job, w: World, step: Step)
    requires Sane(j) && Inv(j, w) && step.Receive? && Enabled(j, w, step)
    ensures Inv(j, Next(j, w, step))
  {
    hide OnReportTask, OutsOk, FilesOk, ExecOk, Written;
    var w', report := Next(j, w, step), step.report;
    ReportKeeps(w.master, report.kind, report.id);
    GrowsKeeps(j, w, w');
    SameOuts(j, w, w');
    SameFiles(j, w, w');
  }

  // ---- What workers do ----

  lemma StartInv(j: Job, w: World, step: Step)
    requires Sane(j) && Inv(j, w) && (step.StartMap? || step.StartReduce?) && Enabled(j, w, step)
    ensures Inv(j, Next(j, w, step))
  {
    hide OutsOk, FilesOk, Written, MasterOk, ReportsOk, Bucket;
    var w' := Next(j, w, step);
    GrowsKeeps(j, w, w');
    SameOuts(j, w, w');
    SameFiles(j, w, w');
    var exec := w'.execs[|w.execs|];
    assert ExecOk(j, w', exec);
  }

  lemma WriteNextInv(j: Job, w: World, step: Step)
    requires Sane(j) && Inv(j, w) && step.WriteNext? && Enabled(j, w, step)
    ensures Inv(j, Next(j, w, step))
  {
    hide OutsOk, Written, MasterOk, ReportsOk, GivenOk, Bucket;
    var w', exec := Next(j, w, step), w.execs[step.e];
    assert ExecOk(j, w, exec);
    BucketPermutes(j.hash, exec.kva, j.maps[exec.task], j.nReduce, exec.written);
    GrowsKeeps(j, w, w');
    SameOuts(j, w, w');
  }

  lemma SameOuts(j: Job, w: World, w': World)
    requires Sane(j) && w'.outs == w.outs && OutsOk(j, w)
    ensures OutsOk(j, w')
  {
    hide Correct, BucketInput;
  }

  lemma ReportMapInv(j: Job, w: World, step: Step)
    requires Sane(j) && Inv(j, w) && (step.ReportMap? || step.ReportReduce?) && Enabled(j, w, step)
    ensures Inv(j, Next(j, w, step))
  {
    hide OutsOk, FilesOk, MasterOk, GivenOk, Bucket;
    var w' := Next(j, w, step);
    assert ExecOk(j, w, w.execs[step.e]);
    GrowsKeeps(j, w, w');
    SameOuts(j, w, w');
    SameFiles(j, w, w');
  }

  lemma SameFiles(j: Job, w: World, w': World)
    requires Sane(j) && w'.files == w.files && FilesOk(j, w)
    ensures FilesOk(j, w')
  {
    hide Bucket;
  }

  /** A reduce finds every file it opens. */
  lemma ReadNextInv(j: Job, w: World, step: Step)
    requires Sane(j) && Inv(j, w) && step.ReadNext? && Enabled(j, w, step)
    ensures FileName(|w.execs[step.e].read|, w.execs[step.e].r) in w.files
    ensures Inv(j, Next(j, w, step))
  {
    hide OutsOk, GivenOk, ReportsOk, Bucket;
    var w', exec := Next(j, w, step), w.execs[step.e];
    assert ExecOk(j, w, exec);
    assert w.master.mapTasks[|exec.read|].status == Completed;
    assert Written(j, w, |exec.read|);
    GrowsKeeps(j, w, w');
    SameOuts(j, w, w');
    SameFiles(j, w, w');
    assert ExecOk(j, w', w'.execs[step.e]);
  }

  lemma WriteOutInv(j: Job, w: World, step: Step)
    requires Sane(j) && Inv(j, w) && step.WriteOut? && Enabled(j, w, step)
    ensures Inv(j, Next(j, w, step))
  {
    hide GivenOk, ReportsOk, MasterOk, FilesOk, Bucket, Correct, Insensitive, BucketInput, Concat;
    var w', exec := Next(j, w, step), w.execs[step.e];
    assert ExecOk(j, w, exec);
    ReadIsInput(j, w, exec, step.lines);
    GrowsKeeps(j, w, w');
    SameFiles(j, w, w');
  }

  /** What a reduce has read when it has read all its files is its whole input, in some order. */
  lemma ReadIsInput(j: Job, w: World, exec: Exec, lines: seq<Line>)
    requires Sane(j) && exec.ReduceExec? && ExecOk(j, w, exec) && |exec.read| == exec.mapTaskNum
    requires Correct(j.reducef, Concat(exec.read), lines)
    ensures exec.r < j.nReduce && Correct(j.reducef, BucketInput(j.hash, j.maps, j.nReduce, exec.r), lines)
  {
    hide Bucket, Correct, Insensitive, Concat;
    ConcatPermutes(exec.read, BucketParts(j.hash, j.maps, j.nReduce, exec.r));
    CorrectPermutes(j.reducef, Concat(exec.read), BucketInput(j.hash, j.maps, j.nReduce, exec.r), lines);
  }

  lemma StepInv(j: Job, w: World, step: Step)
    requires Sane(j) && Inv(j, w) && Enabled(j, w, step)
    ensures Inv(j, Next(j, w, step))
  {
    hide Inv, Next, Enabled;
    match step {
      case Ask(_) => AskInv(j, w, step);
      case StartMap(_, _) => StartInv(j, w, step);
      case WriteNext(_) => WriteNextInv(j, w, step);
      case ReportMap(_) => ReportMapInv(j, w, step);
      case StartReduce(_) => StartInv(j, w, step);
      case ReadNext(_) => ReadNextInv(j, w, step);
      case WriteOut(_, _) => WriteOutInv(j, w, step);
      case ReportReduce(_) => ReportMapInv(j, w, step);
      case Receive(_) => ReceiveInv(j, w, step);
    }
  }

  lemma {:induction false} RunInv(j: Job, run: seq<World>, k: nat)
    requires Sane(j) && IsRun(j, run) && k < |run|
    ensures Inv(j, run[k])
  {
    hide Inv, Next, Enabled, Sane;
    if k == 0 {
      InitInv(j);
    } else {
      RunInv(j, run, k - 1);
      assert Steps(j, run[k - 1], run[k - 1 + 1]);
      var step: Step :| Enabled(j, run[k - 1], step) && run[k] == Next(j, run[k - 1], step);
      StepInv(j, run[k - 1], step);
    }
  }

  // ---- What every run gives ----

  /** No reduce task is handed out before all files of all map tasks are complete, and no reduce ever
      misses one. */
  lemma ReduceAfterAllMaps(j: Job, run: seq<World>, k: nat)
    requires Sane(j) && IsRun(j, run) && k < |run|
    ensures (exists t :: t in run[k].given && t.ReduceTask?) ==> AllWritten(j, run[k])
    ensures forall e: nat :: e < |run[k].execs| ==> run[k].execs[e] != Failed
  {
    hide IsRun, Sane, Bucket, OutsOk, FilesOk, Written;
    RunInv(j, run, k);
    forall e: nat | e < |run[k].execs| ensures run[k].execs[e] != Failed {
      assert ExecOk(j, run[k], run[k].execs[e]);
    }
  }

  /** A map task that is handed out names the file it is for. */
  lemma MapTaskNamesFile(j: Job, run: seq<World>, k: nat, task: GetTaskReply)
    requires Sane(j) && IsRun(j, run) && k < |run| && task in run[k].given && task.MapTask?
    ensures task.taskID < |j.files| && task.fileName == j.files[task.taskID] && task.nReduce == j.nReduce
  {
    hide IsRun, Sane, Bucket, OutsOk, FilesOk, Written, MasterOk, ReportsOk, ExecOk;
    RunInv(j, run, k);
  }

  /** The outputs in the order of the reduce tasks. */
  ghost function Outputs(j: Job, w: World): seq<seq<Line>>
    requires forall r: nat :: r < j.nReduce ==> r in w.outs
  {
    seq(j.nReduce, r requires 0 <= r < j.nReduce => w.outs[r])
  }

  /** When the master says that all is finished, the outputs together are the lines the sequential
      program writes, whatever crashed, was late or was done twice. */
  lemma FinishedEqualsSequential(j: Job, run: seq<World>, k: nat, whole: seq<Line>)
    requires Sane(j) && IsRun(j, run) && k < |run| && run[k].master.allFinished
    requires Correct(j.reducef, Concat(j.maps), whole)
    ensures forall r: nat :: r < j.nReduce ==> r in run[k].outs
    ensures multiset(Concat(Outputs(j, run[k]))) == multiset(whole)
  {
    hide IsRun, Correct, BucketInput, Concat, ExecOk, GivenOk, ReportsOk, FilesOk, Written;
    RunInv(j, run, k);
    var w := run[k];
    forall r: nat | r < j.nReduce ensures r in w.outs {
      assert w.master.reduceTasks[r].status == Completed;
    }
    BucketsGiveWhole(j.hash, j.reducef, j.maps, Outputs(j, w), whole);
  }

  /** A new master tells the first worker to exit exactly when there is no reduce task at all, even
      with files that were never mapped. */
  lemma ExitAtOnce(files: seq<string>, nReduce: nat, now: int)
    ensures OnGetTask(InitMaster(files, nReduce), now).1 == ExitTask <==> nReduce == 0
  {
    var m := InitMaster(files, nReduce);
    if nReduce > 0 { assert m.reduceTasks[0].status == Idle; }
  }
}

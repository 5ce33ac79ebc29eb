/** The master of a MapReduce job: which tasks are idle, in progress and completed. */
module MapReduceMaster {

  /** Seconds after which a task in progress is given to somebody else. */
  const TIMEOUT: int := 10

  datatype Status = Idle | InProgress | Completed

  datatype Task = Task(fileName: string, status: Status, start: int, taskID: nat)

  datatype GetTaskReply =
    | MapTask(fileName: string, taskID: nat, nReduce: nat)
    | ReduceTask(taskID: nat, reduceTaskNum: nat, mapTaskNum: nat)
    | WaitTask
    | ExitTask

  datatype TaskType = MapKind | ReduceKind

  datatype MasterState = MasterState(
    mapTasks: seq<Task>, reduceTasks: seq<Task>, nReduce: nat, mapFinished: bool, allFinished: bool)

  // ---- The handlers, as functions ----

  predicate AllCompleted(tasks: seq<Task>) {
    forall i: nat :: i < |tasks| ==> tasks[i].status == Completed
  }

  function Expire(task: Task, now: int): Task {
    if task.status == InProgress && now - task.start > TIMEOUT then task.(status := Idle) else task
  }

  function ExpireAll(tasks: seq<Task>, now: int): (r: seq<Task>)
    ensures |r| == |tasks|
  {
    seq(|tasks|, i requires 0 <= i < |tasks| => Expire(tasks[i], now))
  }

  function OnCheckTimeOut(m: MasterState, now: int): MasterState {
    m.(mapTasks := if m.mapFinished then m.mapTasks else ExpireAll(m.mapTasks, now),
       mapFinished := m.mapFinished || AllCompleted(m.mapTasks),
       reduceTasks := ExpireAll(m.reduceTasks, now),
       allFinished := AllCompleted(m.reduceTasks))
  }

  /** The first task from i on that is idle. */
  function FirstIdle(tasks: seq<Task>, i: nat): (r: nat)
    requires i <= |tasks|
    ensures i <= r <= |tasks| && (r < |tasks| ==> tasks[r].status == Idle)
    ensures forall k: nat :: i <= k < r ==> tasks[k].status != Idle
    decreases |tasks| - i
  {
    if i == |tasks| || tasks[i].status == Idle then i else FirstIdle(tasks, i + 1)
  }

  function Begin(tasks: seq<Task>, i: nat, now: int): seq<Task>
    requires i < |tasks|
  {
    tasks[i := tasks[i].(status := InProgress, start := now)]
  }

  function OnGetTask(m: MasterState, now: int): (MasterState, GetTaskReply) {
    var c := OnCheckTimeOut(m, now);
    if c.allFinished then (c, ExitTask)
    else if !c.mapFinished then
      var i := FirstIdle(c.mapTasks, 0);
      if i < |c.mapTasks| then
        (c.(mapTasks := Begin(c.mapTasks, i, now)), MapTask(c.mapTasks[i].fileName, c.mapTasks[i].taskID, c.nReduce))
      else (c, WaitTask)
    else
      var i := FirstIdle(c.reduceTasks, 0);
      if i < |c.reduceTasks| then
        (c.(reduceTasks := Begin(c.reduceTasks, i, now)), ReduceTask(c.reduceTasks[i].taskID, i, |c.mapTasks|))
      else (c, WaitTask)
  }

  /** The first task from i on that has this id and is in progress. */
  function FirstReported(tasks: seq<Task>, id: nat, i: nat): (r: nat)
    requires i <= |tasks|
    ensures i <= r <= |tasks| && (r < |tasks| ==> tasks[r].taskID == id && tasks[r].status == InProgress)
    ensures forall k: nat :: i <= k < r ==> !(tasks[k].taskID == id && tasks[k].status == InProgress)
    decreases |tasks| - i
  {
    if i == |tasks| || (tasks[i].taskID == id && tasks[i].status == InProgress) then i
    else FirstReported(tasks, id, i + 1)
  }

  function Finish(tasks: seq<Task>, i: nat): seq<Task>
    requires i < |tasks|
  {
    tasks[i := tasks[i].(status := Completed)]
  }

  function OnReportTask(m: MasterState, kind: TaskType, id: nat): (MasterState, bool) {
    match kind
    case MapKind =>
      var i := FirstReported(m.mapTasks, id, 0);
      if i < |m.mapTasks| then
        var tasks := Finish(m.mapTasks, i);
        (m.(mapTasks := tasks, mapFinished := AllCompleted(tasks)), true)
      else (m, false)
    case ReduceKind =>
      var i := FirstReported(m.reduceTasks, id, 0);
      if i < |m.reduceTasks| then
        var tasks := Finish(m.reduceTasks, i);
        (m.(reduceTasks := tasks, allFinished := AllCompleted(tasks)), true)
      else (m, false)
  }

  function InitMaster(files: seq<string>, nReduce: nat): MasterState {
    MasterState(seq(|files|, i requires 0 <= i < |files| => Task(files[i], Idle, 0, i)),
                seq(nReduce, i requires 0 <= i < nReduce => Task("", Idle, 0, i)), nReduce, false, false)
  }

  // ---- The master itself ----

  class Master {
    const mapTasks: array<Task>
    const reduceTasks: array<Task>
    const nReduce: nat
    var mapFinished: bool
    var allFinished: bool

    ghost predicate Valid()
      reads this
    {
      mapTasks != reduceTasks
    }

    ghost function Abs(): MasterState
      reads this, mapTasks, reduceTasks
    {
      MasterState(mapTasks[..], reduceTasks[..], nReduce, mapFinished, allFinished)
    }

    constructor (files: seq<string>, nReduce: nat)
      ensures Valid() && fresh(mapTasks) && fresh(reduceTasks) && Abs() == InitMaster(files, nReduce)
    {
      mapTasks := new Task[|files|](i requires 0 <= i < |files| => Task(files[i], Idle, 0, i));
      reduceTasks := new Task[nReduce](i requires 0 <= i < nReduce => Task("", Idle, 0, i));
      this.nReduce := nReduce;
      mapFinished, allFinished := false, false;
    }

    /** One loop of checkTimeOut: tasks that took too long are idle again. */
    static method ExpireTasks(tasks: array<Task>, now: int) returns (allCompleted: bool)
      modifies tasks
      ensures tasks[..] == ExpireAll(old(tasks[..]), now) && allCompleted == AllCompleted(old(tasks[..]))
    {
      allCompleted := true;
      var i := 0;
      while i < tasks.Length
        invariant 0 <= i <= tasks.Length
        invariant forall k: nat :: k < tasks.Length ==>
          tasks[k] == if k < i then Expire(old(tasks[..])[k], now) else old(tasks[..])[k]
        invariant allCompleted <==> forall k: nat :: k < i ==> old(tasks[..])[k].status == Completed
      {
        var task := tasks[i];
        if task.status == InProgress && now - task.start > TIMEOUT {
          tasks[i] := tasks[i].(status := Idle);
        }
        if task.status != Completed {
          allCompleted := false;
        }
        i := i + 1;
      }
    }

    method CheckTimeOut(now: int)
      requires Valid()
      modifies this, mapTasks, reduceTasks
      ensures Valid() && Abs() == OnCheckTimeOut(old(Abs()), now)
    {
      hide ExpireAll;
      if !mapFinished {
        var mapsCompleted := ExpireTasks(mapTasks, now);
        mapFinished := mapsCompleted;
      }
      var allCompleted := ExpireTasks(reduceTasks, now);
      allFinished := allCompleted;
    }

    /** Starts the first idle task of the list. */
    static method BeginFirstIdle(tasks: array<Task>, now: int) returns (i: nat)
      modifies tasks
      ensures i == FirstIdle(old(tasks[..]), 0)
      ensures tasks[..] == if i < tasks.Length then Begin(old(tasks[..]), i, now) else old(tasks[..])
    {
      i := 0;
      while i < tasks.Length
        invariant 0 <= i <= tasks.Length && FirstIdle(tasks[..], 0) == FirstIdle(tasks[..], i)
        invariant tasks[..] == old(tasks[..])
      {
        if tasks[i].status == Idle {
          tasks[i] := tasks[i].(status := InProgress, start := now);
          return;
        }
        i := i + 1;
      }
    }

    method GetTask(now: int) returns (reply: GetTaskReply)
      requires Valid()
      modifies this, mapTasks, reduceTasks
      ensures Valid() && (Abs(), reply) == OnGetTask(old(Abs()), now)
    {
      hide OnCheckTimeOut;
      CheckTimeOut(now);
      ghost var c := Abs();
      if allFinished {
        return ExitTask;
      }
      if !mapFinished {
        var i := BeginFirstIdle(mapTasks, now);
        if i < mapTasks.Length {
          assert mapTasks[i].fileName == c.mapTasks[i].fileName && mapTasks[i].taskID == c.mapTasks[i].taskID;
          return MapTask(mapTasks[i].fileName, mapTasks[i].taskID, nReduce);
        }
        return WaitTask;
      }
      var i := BeginFirstIdle(reduceTasks, now);
      if i < reduceTasks.Length {
        assert reduceTasks[i].taskID == c.reduceTasks[i].taskID;
        return ReduceTask(reduceTasks[i].taskID, i, mapTasks.Length);
      }
      reply := WaitTask;
    }

    /** Marks the reported task as completed, and says whether all are. */
    static method FinishReported(tasks: array<Task>, id: nat) returns (found: bool, allCompleted: bool)
      modifies tasks
      ensures var i := FirstReported(old(tasks[..]), id, 0);
        && (found <==> i < tasks.Length)
        && tasks[..] == (if found then Finish(old(tasks[..]), i) else old(tasks[..]))
        && (found ==> allCompleted == AllCompleted(tasks[..]))
    {
      found, allCompleted := false, false;
      var i := 0;
      while i < tasks.Length
        invariant 0 <= i <= tasks.Length && FirstReported(tasks[..], id, 0) == FirstReported(tasks[..], id, i)
        invariant tasks[..] == old(tasks[..])
      {
        if tasks[i].taskID == id && tasks[i].status == InProgress {
          tasks[i] := tasks[i].(status := Completed);
          found := true;
          allCompleted := true;
          var k := 0;
          while k < tasks.Length
            invariant 0 <= k <= tasks.Length && allCompleted
            invariant forall x: nat :: x < k ==> tasks[x].status == Completed
          {
            if tasks[k].status != Completed {
              allCompleted := false;
              assert tasks[..][k].status != Completed;
              break;
            }
            k := k + 1;
          }
          return;
        }
        i := i + 1;
      }
    }

    method ReportTask(kind: TaskType, id: nat) returns (ok: bool)
      requires Valid()
      modifies this, mapTasks, reduceTasks
      ensures Valid() && (Abs(), ok) == OnReportTask(old(Abs()), kind, id)
    {
      if kind == MapKind {
        var found, allCompleted := FinishReported(mapTasks, id);
        if found {
          mapFinished := allCompleted;
          return true;
        }
      } else {
        var found, allCompleted := FinishReported(reduceTasks, id);
        if found {
          allFinished := allCompleted;
          return true;
        }
      }
      ok := false;
    }

    method Done() returns (ret: bool)
      ensures ret == allFinished
    {
      ret := false;
      if allFinished {
        ret := true;
      }
    }
  }
}

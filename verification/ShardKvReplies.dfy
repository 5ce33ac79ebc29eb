/** What clients are answered: the reply to a write is the one its only execution gave, through
    repeats, lagging replicas and migration, and it decides whether the client ever moves on. */
module ShardKvReplies {
  import opened Options
  import opened ShardKvServer
  import opened ShardKvCluster
  import opened ShardKvInvariant
  import opened ShardKvProof
  import opened ShardKvApply
  import opened ShardKvKeeps
  import opened ShardKvSafety

  /** What executing the i-th of these writes answered. */
  ghost function ReplyAt(e: Setting, cmds: seq<Cmd>, i: nat): Reply
    requires Sane(e) && i < |cmds|
  {
    var op := e.script(cmds[i]);
    Execute(Replay(e, cmds[..i]), op.opType, op.key, op.value).1
  }

  ghost predicate RepliedAt(e: Setting, cmds: seq<Cmd>, i: nat, cmd: Cmd, reply: Reply)
    requires Sane(e)
  {
    i < |cmds| && cmds[i] == cmd && reply == ReplyAt(e, cmds, i)
  }

  /** The write was executed, and this is what it answered. */
  ghost predicate TrueReply(e: Setting, w: World, cmd: Cmd, reply: Reply)
    requires Sane(e) && ShapeOk(e, w)
  {
    exists i: nat :: RepliedAt(e, w.exec[ShardOf(e, cmd)], i, cmd, reply)
  }

  ghost predicate SessionsTrue(e: Setting, w: World, sess: Sessions)
    requires Sane(e) && ShapeOk(e, w)
  {
    forall c: nat :: c in sess ==> TrueReply(e, w, Cmd(c, sess[c].lastCmdNum), sess[c].response)
  }

  /** An answer is true unless its client has moved past it: a repeat of an older command is answered
      with the reply to the client's latest. */
  ghost predicate MessageTrue(e: Setting, w: World, m: Message)
    requires Sane(e) && ShapeOk(e, w)
  {
    match m
    case MigrateRep(_, _, _, _, sess) => SessionsTrue(e, w, sess)
    case Answer(c, n, reply) => IsWrite(e, Cmd(c, n)) && n >= Num(w, c) ==> TrueReply(e, w, Cmd(c, n), reply)
    case _ => true
  }

  ghost predicate OpTrue(e: Setting, w: World, op: Op)
    requires Sane(e) && ShapeOk(e, w)
  {
    op.GetShard? ==> SessionsTrue(e, w, op.sessionData)
  }

  /** A client moved past a write only if that was answered with OK. */
  ghost predicate FinishedOk(e: Setting, w: World, s: nat)
    requires Sane(e) && ShapeOk(e, w) && s < NSHARDS
  {
    forall i: nat :: i < |w.exec[s]| && w.exec[s][i].num < Num(w, w.exec[s][i].client)
      ==> ReplyAt(e, w.exec[s], i).err == OK
  }

  ghost predicate RepliesOk(e: Setting, w: World)
    requires Sane(e) && ShapeOk(e, w)
  {
    && (forall g, i: nat :: g in e.gids && i < |w.groups[g]| ==> SessionsTrue(e, w, w.groups[g][i].sessions))
    && (forall g, op :: g in e.gids && op in w.proposed[g] ==> OpTrue(e, w, op))
    && (forall m :: m in w.net ==> MessageTrue(e, w, m))
    && (forall s: nat :: s < NSHARDS ==> FinishedOk(e, w, s))
  }

  // ---- What more writes and answers leave true ----

  ghost predicate Longer(e: Setting, w: World, w': World) {
    && ShapeOk(e, w) && ShapeOk(e, w')
    && (forall s: nat :: s < NSHARDS ==> w.exec[s] <= w'.exec[s])
    && (forall c: nat :: Num(w, c) <= Num(w', c))
  }

  lemma LongerReplyAt(e: Setting, cmds: seq<Cmd>, cmds': seq<Cmd>, i: nat)
    requires Sane(e) && i < |cmds| && cmds <= cmds'
    ensures ReplyAt(e, cmds', i) == ReplyAt(e, cmds, i)
  {
    hide Replay, Execute;
    assert cmds'[..i] == cmds[..i];
  }

  lemma LongerReply(e: Setting, w: World, w': World, cmd: Cmd, reply: Reply)
    requires Sane(e) && Longer(e, w, w') && TrueReply(e, w, cmd, reply)
    ensures TrueReply(e, w', cmd, reply)
  {
    hide ReplyAt, Sane;
    var s := ShardOf(e, cmd);
    var i: nat :| RepliedAt(e, w.exec[s], i, cmd, reply);
    LongerReplyAt(e, w.exec[s], w'.exec[s], i);
    assert RepliedAt(e, w'.exec[s], i, cmd, reply);
  }

  lemma LongerSessions(e: Setting, w: World, w': World, sess: Sessions)
    requires Sane(e) && Longer(e, w, w') && SessionsTrue(e, w, sess)
    ensures SessionsTrue(e, w', sess)
  {
    hide TrueReply, Sane;
    forall c: nat | c in sess ensures TrueReply(e, w', Cmd(c, sess[c].lastCmdNum), sess[c].response) {
      LongerReply(e, w, w', Cmd(c, sess[c].lastCmdNum), sess[c].response);
    }
  }

  lemma LongerMessage(e: Setting, w: World, w': World, m: Message)
    requires Sane(e) && Longer(e, w, w') && MessageTrue(e, w, m)
    ensures MessageTrue(e, w', m)
  {
    hide TrueReply, SessionsTrue, Sane;
    if m.MigrateRep? { LongerSessions(e, w, w', m.sess); }
    if m.Answer? && TrueReply(e, w, Cmd(m.client, m.num), m.reply) {
      LongerReply(e, w, w', Cmd(m.client, m.num), m.reply);
    }
  }

  // ---- Steps that execute nothing ----

  lemma QuietReplies(e: Setting, w: World, w': World)
    requires Sane(e) && ShapeOk(e, w) && RepliesOk(e, w) && ShapeOk(e, w')
    requires w'.groups == w.groups && w'.exec == w.exec && w'.nums == w.nums
    requires forall g, op :: g in e.gids && op in w'.proposed[g] ==> op in w.proposed[g] || OpTrue(e, w, op)
    requires forall m :: m in w'.net ==> m in w.net || MessageTrue(e, w, m)
    ensures RepliesOk(e, w')
  {
    hide SessionsTrue, ReplyAt, Sane;
    assert Longer(e, w, w');
    forall g, i: nat | g in e.gids && i < |w'.groups[g]| ensures SessionsTrue(e, w', w'.groups[g][i].sessions) {
      LongerSessions(e, w, w', w.groups[g][i].sessions);
    }
    forall g, op | g in e.gids && op in w'.proposed[g] ensures OpTrue(e, w', op) {
      assert OpTrue(e, w, op);
      if op.GetShard? { LongerSessions(e, w, w', op.sessionData); }
    }
    forall m | m in w'.net ensures MessageTrue(e, w', m) {
      LongerMessage(e, w, w', m);
    }
    forall s: nat | s < NSHARDS ensures FinishedOk(e, w', s) {
      assert FinishedOk(e, w, s);
    }
  }

  lemma TalkReplies(e: Setting, w: World, step: Step)
    requires Sane(e) && ShapeOk(e, w) && RepliesOk(e, w) && Enabled(e, w, step)
    requires !step.ApplyOp? && !step.Finish? && ShapeOk(e, Next(e, w, step))
    ensures RepliesOk(e, Next(e, w, step))
  {
    hide SessionsTrue, TrueReply, FinishedOk;
    if step.AnswerSession? {
      SessionTrue(e, w, w.groups[step.g][step.i].sessions, step.client);
    }
    if step.TakeShard? { assert MessageTrue(e, w, step.rep); }
    QuietReplies(e, w, Next(e, w, step));
  }

  lemma SessionTrue(e: Setting, w: World, sess: Sessions, c: nat)
    requires Sane(e) && ShapeOk(e, w) && SessionsTrue(e, w, sess) && c in sess
    ensures TrueReply(e, w, Cmd(c, sess[c].lastCmdNum), sess[c].response)
  {
  }

  // ---- The client goes on ----

  lemma OneReply(e: Setting, w: World, s: nat, i: nat, reply: Reply)
    requires Sane(e) && ShapeOk(e, w) && s < NSHARDS && ExecOk(e, w, s) && i < |w.exec[s]|
    requires TrueReply(e, w, w.exec[s][i], reply)
    ensures reply == ReplyAt(e, w.exec[s], i)
  {
    hide ReplyAt, Sane;
    var j: nat :| RepliedAt(e, w.exec[s], j, w.exec[s][i], reply);
    assert i == j;
  }

  lemma FinishReplies(e: Setting, w: World, step: Step)
    requires Sane(e) && ShapeOk(e, w) && Inv(e, w) && RepliesOk(e, w) && step.Finish? && Enabled(e, w, step)
    ensures ShapeOk(e, Next(e, w, step)) && RepliesOk(e, Next(e, w, step))
  {
    hide Inv, SessionsTrue, TrueReply, ReplyAt, Sane;
    var c, w' := step.client, Next(e, w, step);
    InvShape(e, w);
    forall g, i: nat | g in e.gids && i < |w'.groups[g]| ensures SessionsTrue(e, w', w'.groups[g][i].sessions) {
      LongerSessions(e, w, w', w.groups[g][i].sessions);
    }
    forall g, op | g in e.gids && op in w'.proposed[g] ensures OpTrue(e, w', op) {
      assert OpTrue(e, w, op);
      if op.GetShard? { LongerSessions(e, w, w', op.sessionData); }
    }
    forall m | m in w'.net ensures MessageTrue(e, w', m) {
      LongerMessage(e, w, w', m);
    }
    forall s: nat | s < NSHARDS ensures FinishedOk(e, w', s) {
      FinishedMore(e, w, step, s);
    }
  }

  lemma FinishedMore(e: Setting, w: World, step: Step, s: nat)
    requires Sane(e) && ShapeOk(e, w) && RepliesOk(e, w) && step.Finish? && Enabled(e, w, step)
    requires s < NSHARDS && ExecOk(e, w, s) && ShapeOk(e, Next(e, w, step))
    ensures FinishedOk(e, Next(e, w, step), s)
  {
    hide SessionsTrue, TrueReply, ReplyAt, Sane, Increasing;
    var c, w' := step.client, Next(e, w, step);
    var cmds := w.exec[s];
    forall i: nat | i < |cmds| && cmds[i].num < Num(w', cmds[i].client) ensures ReplyAt(e, cmds, i).err == OK {
      if cmds[i] == Cmd(c, Num(w, c)) {
        assert MessageTrue(e, w, Answer(c, Num(w, c), step.reply));
        OneReply(e, w, s, i, step.reply);
      } else {
        assert FinishedOk(e, w, s);
      }
    }
  }

  // ---- A log entry is applied ----

  /** Executing a write answers what its place in the order of writes says. */
  lemma WriteReply(e: Setting, w: World, g: nat, op: Op)
    requires Sane(e) && ShapeOk(e, w) && GroupsOk(e, w) && g in e.gids && OpOk(e, w, g, op) && WellShaped(op)
    requires Executes(Last(e, w, g), op) && ShapeOk(e, Applied(e, w, g, op))
    ensures var st, cmd := Last(e, w, g), Cmd(op.clientId, op.cmdNum);
      && Shaped(st) && OnClientCmd(st, op).1.Some?
      && TrueReply(e, Applied(e, w, g, op), cmd, OnClientCmd(st, op).1.value)
      && OnClientCmd(st, op).0.sessions
         == st.sessions[op.clientId := Session(op.cmdNum, op.opType, OnClientCmd(st, op).1.value)]
  {
    hide GroupsOk, Execute, Covers, Applied, Replay;
    var st, s, cmd := Last(e, w, g), Key2Shard(op.key), Cmd(op.clientId, op.cmdNum);
    AppliedParts(e, w, g, op);
    ExistOwner(e, w, g, s);
    OpCmd(e, w, g, op);
    var cmds := w.exec[s] + [cmd];
    assert cmds[..|w.exec[s]|] == w.exec[s];
    assert Applied(e, w, g, op).exec[ShardOf(e, cmd)] == cmds;
    assert RepliedAt(e, cmds, |w.exec[s]|, cmd, OnClientCmd(st, op).1.value);
  }

  /** A write that is executed is its client's current command. */
  lemma WriteIsCurrent(e: Setting, w: World, g: nat, op: Op)
    requires Sane(e) && ShapeOk(e, w) && GroupsOk(e, w) && ClientsOk(e, w) && g in e.gids && OpOk(e, w, g, op)
    requires Executes(Last(e, w, g), op)
    ensures op.cmdNum == Num(w, op.clientId)
  {
    hide GroupsOk, Replay;
    var s, cmd := Key2Shard(op.key), Cmd(op.clientId, op.cmdNum);
    ExistOwner(e, w, g, s);
    OpCmd(e, w, g, op);
    if cmd.num < Num(w, cmd.client) { assert false; }
  }

  lemma AppliedSessions(e: Setting, w: World, g: nat, op: Op)
    requires Sane(e) && ShapeOk(e, w) && GroupsOk(e, w) && g in e.gids && OpOk(e, w, g, op) && WellShaped(op)
    requires Longer(e, w, Applied(e, w, g, op)) && OpTrue(e, w, op) && SessionsTrue(e, w, Last(e, w, g).sessions)
    ensures Shaped(RunOp(g, Last(e, w, g), op))
    ensures SessionsTrue(e, Applied(e, w, g, op), RunOp(g, Last(e, w, g), op).sessions)
  {
    hide GroupsOk, Execute, Applied, TrueReply, OpOk, Newer, Sane;
    var st, w' := Last(e, w, g), Applied(e, w, g, op);
    RunShaped(g, st, op);
    LongerSessions(e, w, w', st.sessions);
    if Executes(st, op) {
      WriteReply(e, w, g, op);
    } else if op.GetShard? {
      LongerSessions(e, w, w', op.sessionData);
      forall c: nat | c in Newer(st.sessions, op.sessionData)
        ensures var sess := Newer(st.sessions, op.sessionData);
          TrueReply(e, w', Cmd(c, sess[c].lastCmdNum), sess[c].response)
      {
        NewerCovers(st.sessions, op.sessionData, c);
      }
    }
  }

  /** A repeat is answered from the record; if the client still waits, that is the record of this command. */
  lemma RepeatReply(e: Setting, w: World, g: nat, op: Op)
    requires Sane(e) && ShapeOk(e, w) && Inv(e, w) && g in e.gids && OpOk(e, w, g, op) && op.ClientCmd?
    requires op.clientId in Last(e, w, g).sessions && op.cmdNum <= Last(e, w, g).sessions[op.clientId].lastCmdNum
    requires op.cmdNum >= Num(w, op.clientId) && SessionsTrue(e, w, Last(e, w, g).sessions)
    ensures TrueReply(e, w, Cmd(op.clientId, op.cmdNum), Last(e, w, g).sessions[op.clientId].response)
  {
    hide Inv, GroupsOk, ShardOk, PassedOk, PastOk, CurrentOk, Increasing, TrueReply, ReplyAt;
    InvShape(e, w);
    LastOk(e, w, g);
    var last := Cmd(op.clientId, Last(e, w, g).sessions[op.clientId].lastCmdNum);
    assert Done(e, w, last) && ExecOk(e, w, ShardOf(e, last));
  }

  lemma AppliedAnswer(e: Setting, w: World, g: nat, op: Op, m: Message)
    requires Sane(e) && ShapeOk(e, w) && Inv(e, w) && GroupsOk(e, w) && g in e.gids && OpOk(e, w, g, op)
      && WellShaped(op)
    requires Longer(e, w, Applied(e, w, g, op)) && SessionsTrue(e, w, Last(e, w, g).sessions)
    requires m in Answers(Last(e, w, g), op)
    ensures MessageTrue(e, Applied(e, w, g, op), m)
  {
    hide Inv, GroupsOk, Execute, Applied, TrueReply, SessionsTrue, OpOk, Sane;
    var st, w', cmd := Last(e, w, g), Applied(e, w, g, op), Cmd(op.clientId, op.cmdNum);
    OpCmd(e, w, g, op);
    if Executes(st, op) {
      WriteReply(e, w, g, op);
    } else if IsWrite(e, cmd) && m.num >= Num(w', m.client) {
      RepeatReply(e, w, g, op);
      LongerReply(e, w, w', cmd, m.reply);
    }
  }

  lemma AppliedFinished(e: Setting, w: World, g: nat, op: Op, s: nat)
    requires Sane(e) && ShapeOk(e, w) && GroupsOk(e, w) && ClientsOk(e, w) && g in e.gids && OpOk(e, w, g, op)
      && WellShaped(op)
    requires s < NSHARDS && FinishedOk(e, w, s) && ShapeOk(e, Applied(e, w, g, op))
    ensures FinishedOk(e, Applied(e, w, g, op), s)
  {
    hide GroupsOk, ClientsOk, Applied, ReplyAt, OpOk, Sane, RunOp, NewExec, NewLevel, Answers, Executes;
    var st, w' := Last(e, w, g), Applied(e, w, g, op);
    AppliedParts(e, w, g, op);
    ApplyExec(w, g, st, op, s);
    if Executes(st, op) { WriteIsCurrent(e, w, g, op); }
    forall i: nat | i < |w'.exec[s]| && w'.exec[s][i].num < Num(w', w'.exec[s][i].client)
      ensures ReplyAt(e, w'.exec[s], i).err == OK
    {
      assert i < |w.exec[s]|;
      LongerReplyAt(e, w.exec[s], w'.exec[s], i);
    }
  }

  lemma ApplyReplies(e: Setting, w: World, g: nat, op: Op)
    requires Sane(e) && ShapeOk(e, w) && Inv(e, w) && RepliesOk(e, w)
    requires g in e.gids && op in w.proposed[g] && WellShaped(op)
    ensures ShapeOk(e, Applied(e, w, g, op)) && RepliesOk(e, Applied(e, w, g, op))
  {
    hide Inv, GroupsOk, ClientsOk, OpOk, Applied, SessionsTrue, MessageTrue, FinishedOk, Sane, RunOp, NewExec,
         NewLevel, Answers;
    var st, w' := Last(e, w, g), Applied(e, w, g, op);
    InvParts(e, w, g, op);
    AppliedParts(e, w, g, op);
    forall s: nat | s < NSHARDS ensures w.exec[s] <= w'.exec[s] && FinishedOk(e, w', s) {
      ApplyExec(w, g, st, op, s);
      AppliedFinished(e, w, g, op, s);
    }
    assert Longer(e, w, w');
    AppliedSessions(e, w, g, op);
    forall h, i: nat | h in e.gids && i < |w'.groups[h]| ensures SessionsTrue(e, w', w'.groups[h][i].sessions) {
      if h != g || i < |w.groups[g]| {
        assert w'.groups[h][i] == w.groups[h][i];
        LongerSessions(e, w, w', w.groups[h][i].sessions);
      }
    }
    forall h, o | h in e.gids && o in w'.proposed[h] ensures OpTrue(e, w', o) {
      assert OpTrue(e, w, o);
      if o.GetShard? { LongerSessions(e, w, w', o.sessionData); }
    }
    forall m | m in w'.net ensures MessageTrue(e, w', m) {
      if m in w.net { LongerMessage(e, w, w', m); } else { AppliedAnswer(e, w, g, op, m); }
    }
  }

  // ---- Runs ----

  lemma InitReplies(e: Setting)
    requires Sane(e) && ShapeOk(e, InitWorld(e))
    ensures RepliesOk(e, InitWorld(e))
  {
  }

  lemma RepliesStep(e: Setting, w: World, step: Step)
    requires Sane(e) && ShapeOk(e, w) && Inv(e, w) && RepliesOk(e, w) && Enabled(e, w, step)
    requires ShapeOk(e, Next(e, w, step))
    ensures RepliesOk(e, Next(e, w, step))
  {
    hide Inv, RepliesOk, Applied;
    if step.ApplyOp? {
      ApplyReplies(e, w, step.g, step.op);
    } else if step.Finish? {
      FinishReplies(e, w, step);
    } else {
      TalkReplies(e, w, step);
    }
  }

  lemma {:induction false} RunReplies(e: Setting, run: seq<World>, k: nat)
    requires Sane(e) && IsRun(e, run) && k < |run|
    ensures ShapeOk(e, run[k]) && RepliesOk(e, run[k])
  {
    hide Sane, Inv, Next, Enabled, RepliesOk;
    RunInv(e, run, k);
    if k == 0 {
      InitReplies(e);
    } else {
      RunReplies(e, run, k - 1);
      RunInv(e, run, k - 1);
      assert Steps(e, run[k - 1], run[k - 1 + 1]);
      var step: Step :| Enabled(e, run[k - 1], step) && run[k] == Next(e, run[k - 1], step);
      RepliesStep(e, run[k - 1], step);
    }
  }

  /** However often a write was repeated and wherever its record has travelled, any answer its waiting
      client can receive is the reply that the execution of the write gave. */
  lemma AnswerIsOfTheExecution(e: Setting, run: seq<World>, k: nat, s: nat, i: nat, reply: Reply)
    requires Sane(e) && IsRun(e, run) && k < |run| && s < NSHARDS
    requires |run[k].exec| == NSHARDS && i < |run[k].exec[s]|
    requires var cmd := run[k].exec[s][i];
      cmd.num == Num(run[k], cmd.client) && Answer(cmd.client, cmd.num, reply) in run[k].net
    ensures reply == ReplyAt(e, run[k].exec[s], i)
  {
    hide Sane, Inv, IsRun, GroupsOk, LevelOk, TrafficOk, TrueReply, ReplyAt, SessionsTrue, FinishedOk;
    RunInv(e, run, k);
    RunReplies(e, run, k);
    InvShape(e, run[k]);
    var cmd := run[k].exec[s][i];
    assert ExecOk(e, run[k], s) && MessageTrue(e, run[k], Answer(cmd.client, cmd.num, reply));
    OneReply(e, run[k], s, i, reply);
  }

  /** The write was an append to a key that was not there. */
  ghost predicate AppendsToAbsent(e: Setting, cmds: seq<Cmd>, i: nat)
    requires Sane(e) && i < |cmds|
  {
    e.script(cmds[i]).opType == Append && e.script(cmds[i]).key !in Replay(e, cmds[..i])
  }

  /** The client accepts the answer to its write exactly when that was not an append to an absent key. */
  lemma AcceptedUnlessAbsent(e: Setting, run: seq<World>, k: nat, s: nat, i: nat, reply: Reply)
    requires Sane(e) && IsRun(e, run) && k < |run| && s < NSHARDS
    requires |run[k].exec| == NSHARDS && i < |run[k].exec[s]|
    requires var cmd := run[k].exec[s][i];
      cmd.num == Num(run[k], cmd.client) && Answer(cmd.client, cmd.num, reply) in run[k].net
    ensures ShapeOk(e, run[k])
    ensures Enabled(e, run[k], Finish(run[k].exec[s][i].client, reply)) <==> !AppendsToAbsent(e, run[k].exec[s], i)
  {
    hide Sane, Inv, IsRun, GroupsOk, LevelOk, TrafficOk, Replay, Increasing;
    RunInv(e, run, k);
    InvShape(e, run[k]);
    AnswerIsOfTheExecution(e, run, k, s, i, reply);
    assert ExecOk(e, run[k], s);
  }

  /** So the client of an append to an absent key is still at that command in every later state. */
  lemma AbsentAppendWaits(e: Setting, run: seq<World>, k: nat, s: nat, i: nat)
    requires Sane(e) && IsRun(e, run) && k < |run| && s < NSHARDS
    requires |run[k].exec| == NSHARDS && i < |run[k].exec[s]| && AppendsToAbsent(e, run[k].exec[s], i)
    ensures run[k].exec[s][i].num == Num(run[k], run[k].exec[s][i].client)
  {
    hide Sane, Inv, IsRun, GroupsOk, LevelOk, TrafficOk, Replay, Increasing, MessageTrue, SessionsTrue;
    RunInv(e, run, k);
    RunReplies(e, run, k);
    InvShape(e, run[k]);
    assert ExecOk(e, run[k], s) && FinishedOk(e, run[k], s);
  }
}

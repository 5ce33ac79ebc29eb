/** Linearizability of the service: every answered command takes effect at one step between the moment
    its client issued it and the moment it was answered. */
module ShardKvLinear {
  import opened Options
  import opened ShardKvServer
  import opened ShardKvCluster
  import opened ShardKvInvariant
  import opened ShardKvProof
  import opened ShardKvApply
  import opened ShardKvKeeps
  import opened ShardKvSafety
  import opened ShardKvReplies

  /** What a shard holds after the writes executed on it so far. */
  ghost function Content(e: Setting, w: World, s: nat): Shard
    requires Sane(e) && ShapeOk(e, w) && s < NSHARDS
  {
    Replay(e, w.exec[s])
  }

  /** Between these two states the command takes effect on its shard, already issued, and this is its reply. */
  ghost predicate TakesEffect(e: Setting, w: World, w': World, cmd: Cmd, reply: Reply)
    requires Sane(e)
  {
    && ShapeOk(e, w) && ShapeOk(e, w') && 1 <= cmd.num <= Num(w, cmd.client)
    && var s, op := ShardOf(e, cmd), e.script(cmd);
    && (Content(e, w', s), reply) == Execute(Content(e, w, s), op.opType, op.key, op.value)
    && w'.exec[s] == w.exec[s] + if IsWrite(e, cmd) then [cmd] else []
  }

  ghost predicate EffectAt(e: Setting, run: seq<World>, j: nat, cmd: Cmd, reply: Reply)
    requires Sane(e)
  {
    j + 1 < |run| && TakesEffect(e, run[j], run[j + 1], cmd, reply)
  }

  // ---- One step ----

  /** What is executed on a shard grows only where a write takes effect, with its reply. */
  ghost predicate Changes(e: Setting, w: World, w': World, s: nat)
    requires Sane(e) && ShapeOk(e, w) && ShapeOk(e, w') && s < NSHARDS
  {
    w'.exec[s] != w.exec[s] ==>
      exists cmd :: && ShardOf(e, cmd) == s && IsWrite(e, cmd) && w'.exec[s] == w.exec[s] + [cmd]
                    && TakesEffect(e, w, w', cmd, ReplyAt(e, w'.exec[s], |w.exec[s]|))
  }

  lemma WriteEffect(e: Setting, w: World, w': World, s: nat, cmd: Cmd)
    requires Sane(e) && ShapeOk(e, w) && ShapeOk(e, w') && s < NSHARDS && ShardOf(e, cmd) == s && IsWrite(e, cmd)
    requires w'.exec[s] == w.exec[s] + [cmd] && 1 <= cmd.num <= Num(w, cmd.client)
    ensures TakesEffect(e, w, w', cmd, ReplyAt(e, w'.exec[s], |w.exec[s]|))
  {
    hide Execute;
    assert w'.exec[s][..|w.exec[s]|] == w.exec[s];
  }

  lemma StepChanges(e: Setting, w: World, step: Step, s: nat)
    requires Sane(e) && ShapeOk(e, w) && Inv(e, w) && Enabled(e, w, step) && s < NSHARDS
    ensures ShapeOk(e, Next(e, w, step)) && Changes(e, w, Next(e, w, step), s)
  {
    hide Inv, Applied, TakesEffect, ReplyAt, GroupsOk, OpOk, LevelOk, ExecOk, NewExec, Executes, RunOp;
    StepInv(e, w, step);
    InvShape(e, Next(e, w, step));
    if step.ApplyOp? {
      var g, op := step.g, step.op;
      InvParts(e, w, g, op);
      AppliedParts(e, w, g, op);
      ApplyExec(w, g, Last(e, w, g), op, s);
      if Next(e, w, step).exec[s] != w.exec[s] {
        ExecutesIsWrite(Last(e, w, g), op);
        OpCmd(e, w, g, op);
        WriteEffect(e, w, Next(e, w, step), s, Cmd(op.clientId, op.cmdNum));
      }
    }
  }

  lemma ExecutesIsWrite(st: KvState, op: Op)
    requires Shaped(st) && Executes(st, op)
    ensures op.ClientCmd? && op.opType != Get
  {
  }

  /** A get that is applied where its shard is answers what the shard holds. */
  lemma GetEffect(e: Setting, w: World, g: nat, op: Op, m: Message)
    requires Sane(e) && ShapeOk(e, w) && Inv(e, w) && g in e.gids && op in w.proposed[g] && WellShaped(op)
    requires m in Answers(Last(e, w, g), op) && !IsWrite(e, Cmd(m.client, m.num))
    ensures ShapeOk(e, Applied(e, w, g, op)) && m.Answer?
    ensures TakesEffect(e, w, Applied(e, w, g, op), Cmd(m.client, m.num), m.reply)
  {
    hide Inv, GroupsOk, LevelOk, ExecOk, Replay, Covers, Applied, OpOk, NewLevel;
    InvParts(e, w, g, op);
    AppliedParts(e, w, g, op);
    OpCmd(e, w, g, op);
    ExistOwner(e, w, g, Key2Shard(op.key));
  }

  /** Only writes are on record, so an answer to a get comes from applying it. */
  lemma AnswerToGet(e: Setting, w: World, step: Step, m: Message)
    requires Sane(e) && ShapeOk(e, w) && Inv(e, w) && Enabled(e, w, step)
    requires m in Next(e, w, step).net && m !in w.net && m.Answer? && !IsWrite(e, Cmd(m.client, m.num))
    ensures TakesEffect(e, w, Next(e, w, step), Cmd(m.client, m.num), m.reply)
  {
    hide Inv, Applied, TakesEffect, GroupsOk, OpOk, Answers, Sane;
    if step.ApplyOp? {
      InvParts(e, w, step.g, step.op);
      AppliedParts(e, w, step.g, step.op);
      GetEffect(e, w, step.g, step.op, m);
    } else if step.AnswerSession? {
      RecordIsWrite(e, w, step.g, step.i, step.client);
      assert false;
    } else {
      assert false;
    }
  }

  lemma RecordIsWrite(e: Setting, w: World, g: nat, i: nat, c: nat)
    requires Sane(e) && Inv(e, w) && IsState(e, w, g, i) && c in w.groups[g][i].sessions
    ensures IsWrite(e, Cmd(c, w.groups[g][i].sessions[c].lastCmdNum))
  {
    hide Inv, GroupsOk, LevelOk, TrafficOk, ShardOk, PassedOk, PastOk, CurrentOk, Increasing;
    InvState(e, w, g, i);
    InvShape(e, w);
    var last := Cmd(c, w.groups[g][i].sessions[c].lastCmdNum);
    assert Done(e, w, last) && ExecOk(e, w, ShardOf(e, last));
  }

  // ---- Runs ----

  lemma RunStep(e: Setting, run: seq<World>, j: nat) returns (step: Step)
    requires Sane(e) && IsRun(e, run) && j + 1 < |run|
    ensures ShapeOk(e, run[j]) && Inv(e, run[j]) && Enabled(e, run[j], step) && run[j + 1] == Next(e, run[j], step)
    ensures ShapeOk(e, run[j + 1]) && forall c: nat :: Num(run[j], c) <= Num(run[j + 1], c)
  {
    hide Inv, Sane, Applied, Enabled;
    RunInv(e, run, j);
    RunInv(e, run, j + 1);
    assert Steps(e, run[j], run[j + 1]);
    step :| Enabled(e, run[j], step) && run[j + 1] == Next(e, run[j], step);
    if step.ApplyOp? { NumsStay(e, run[j], step); }
  }

  lemma NumsStay(e: Setting, w: World, step: Step)
    requires Sane(e) && ShapeOk(e, w) && Enabled(e, w, step) && step.ApplyOp?
    ensures Next(e, w, step).nums == w.nums
  {
  }

  lemma {:induction false} WriteTakesEffect(e: Setting, run: seq<World>, k: nat, s: nat, i: nat) returns (j: nat)
    requires Sane(e) && IsRun(e, run) && k < |run| && s < NSHARDS && |run[k].exec| == NSHARDS && i < |run[k].exec[s]|
    ensures j < k && EffectAt(e, run, j, run[k].exec[s][i], ReplyAt(e, run[k].exec[s], i))
  {
    hide Inv, IsRun, Enabled, Next, TakesEffect, Sane, ReplyAt;
    if k == 0 {
      NothingExecuted(e, run, s);
    } else {
      var step := RunStep(e, run, k - 1);
      StepChanges(e, run[k - 1], step, s);
      var before, after := run[k - 1].exec[s], run[k].exec[s];
      if i < |before| {
        j := WriteTakesEffect(e, run, k - 1, s, i);
        assert before <= after;
        LongerReplyAt(e, before, after, i);
      } else {
        j := k - 1;
      }
    }
  }

  lemma NothingExecuted(e: Setting, run: seq<World>, s: nat)
    requires Sane(e) && IsRun(e, run) && s < NSHARDS
    ensures |run| > 0 && |run[0].exec| == NSHARDS && run[0].exec[s] == [] && run[0].net == {}
  {
  }

  lemma {:induction false} GetTakesEffect(e: Setting, run: seq<World>, k: nat, m: Message) returns (j: nat)
    requires Sane(e) && IsRun(e, run) && k < |run|
    requires m in run[k].net && m.Answer? && !IsWrite(e, Cmd(m.client, m.num))
    ensures j < k && EffectAt(e, run, j, Cmd(m.client, m.num), m.reply)
  {
    hide Inv, IsRun, Enabled, Next, TakesEffect, Sane;
    if k == 0 {
      NothingExecuted(e, run, 0);
    } else {
      var step := RunStep(e, run, k - 1);
      if m in run[k - 1].net {
        j := GetTakesEffect(e, run, k - 1, m);
      } else {
        AnswerToGet(e, run[k - 1], step, m);
        j := k - 1;
      }
    }
  }

  /** Every answer that a client waiting for it can receive is that of one step at which its command
      took effect on the shard, after it was issued and before it was answered. */
  lemma AnsweredAtAPoint(e: Setting, run: seq<World>, k: nat, cmd: Cmd, reply: Reply)
    requires Sane(e) && IsRun(e, run) && k < |run|
    requires Answer(cmd.client, cmd.num, reply) in run[k].net && cmd.num == Num(run[k], cmd.client)
    ensures exists j: nat :: j < k && EffectAt(e, run, j, cmd, reply)
  {
    hide Inv, IsRun, TakesEffect, Sane, ReplyAt, GroupsOk, LevelOk, TrafficOk;
    if IsWrite(e, cmd) {
      RunInv(e, run, k);
      InvShape(e, run[k]);
      InvMessage(e, run[k], Answer(cmd.client, cmd.num, reply));
      var s := ShardOf(e, cmd);
      var i: nat :| i < |run[k].exec[s]| && run[k].exec[s][i] == cmd;
      AnswerIsOfTheExecution(e, run, k, s, i, reply);
      var j := WriteTakesEffect(e, run, k, s, i);
    } else {
      var j := GetTakesEffect(e, run, k, Answer(cmd.client, cmd.num, reply));
    }
  }

  lemma {:induction false} NumsGrow(e: Setting, run: seq<World>, i: nat, j: nat, c: nat)
    requires Sane(e) && IsRun(e, run) && i <= j < |run|
    ensures Num(run[i], c) <= Num(run[j], c)
  {
    hide Inv, IsRun, Enabled, Next, Sane, Num;
    if i < j {
      var step := RunStep(e, run, j - 1);
      NumsGrow(e, run, i, j - 1, c);
    }
  }

  lemma EffectIssued(e: Setting, run: seq<World>, j: nat, cmd: Cmd, reply: Reply)
    requires Sane(e) && EffectAt(e, run, j, cmd, reply)
    ensures j + 1 < |run| && 1 <= cmd.num <= Num(run[j], cmd.client)
  {
  }

  /** Real time is respected: a command that is not issued yet when another was answered takes effect later. */
  lemma PointsKeepRealTime(e: Setting, run: seq<World>, k: nat, a: Cmd, ra: Reply, b: Cmd, rb: Reply, jb: nat)
    requires Sane(e) && IsRun(e, run) && k < |run|
    requires Answer(a.client, a.num, ra) in run[k].net && a.num == Num(run[k], a.client)
    requires b.num > Num(run[k], b.client) && EffectAt(e, run, jb, b, rb)
    ensures exists ja: nat :: ja < jb && EffectAt(e, run, ja, a, ra)
  {
    hide IsRun, Sane, EffectAt;
    AnsweredAtAPoint(e, run, k, a, ra);
    var ja: nat :| ja < k && EffectAt(e, run, ja, a, ra);
    EffectIssued(e, run, jb, b, rb);
    if jb < k { NumsGrow(e, run, jb, k, b.client); }
    assert ja < jb && EffectAt(e, run, ja, a, ra);
  }

  /** A shard's content changes only at a point at which a write takes effect. */
  lemma OnlyPointsChange(e: Setting, run: seq<World>, j: nat, s: nat)
    requires Sane(e) && IsRun(e, run) && j + 1 < |run| && s < NSHARDS
    ensures ShapeOk(e, run[j]) && ShapeOk(e, run[j + 1])
    ensures Content(e, run[j], s) != Content(e, run[j + 1], s) ==>
              exists cmd, reply :: ShardOf(e, cmd) == s && IsWrite(e, cmd) && EffectAt(e, run, j, cmd, reply)
  {
    hide Inv, IsRun, Enabled, Next, TakesEffect, Sane, ReplyAt, Replay;
    var step := RunStep(e, run, j);
    StepChanges(e, run[j], step, s);
    var before, after := run[j].exec[s], run[j + 1].exec[s];
    if after != before {
      var cmd :| ShardOf(e, cmd) == s && IsWrite(e, cmd)
              && TakesEffect(e, run[j], run[j + 1], cmd, ReplyAt(e, after, |before|));
      assert EffectAt(e, run, j, cmd, ReplyAt(e, after, |before|));
    }
  }
}

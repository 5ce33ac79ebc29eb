/** Every step keeps the invariant. */
module ShardKvProof {
  import opened Options
  import opened ShardKvServer
  import opened ShardKvCluster
  import opened ShardKvInvariant

  // ---- Steps that change no group ----

  ghost predicate Quiet(e: Setting, w: World, w': World)
    requires Sane(e)
  {
    && ShapeOk(e, w) && ShapeOk(e, w')
    && w'.groups == w.groups && w'.level == w.level && w'.exec == w.exec
    && (forall c: nat :: Num(w, c) <= Num(w', c))
  }

  lemma QuietGrows(e: Setting, w: World, w': World)
    requires Sane(e) && Quiet(e, w, w')
    ensures Grows(e, w, w')
  {
  }

  lemma QuietInv(e: Setting, w: World, w': World)
    requires Sane(e) && Inv(e, w) && Quiet(e, w, w') && ClientsOk(e, w')
    requires forall g, op :: g in e.gids && op in w'.proposed[g] ==> op in w.proposed[g] || OpOk(e, w, g, op)
    requires forall m :: m in w'.net ==> m in w.net || MessageOk(e, w, m)
    ensures Inv(e, w')
  {
    hide Quiet, Grows, GroupsOk, ClientsOk, LevelOk, OpOk, MessageOk, ExecOk;
    QuietGrows(e, w, w');
    QuietGroups(e, w, w');
    forall s: nat | s < NSHARDS ensures LevelOk(e, w', s) && ExecOk(e, w', s) {
      QuietHistory(e, w, w', s);
    }
    QuietTraffic(e, w, w');
  }

  lemma QuietGroups(e: Setting, w: World, w': World)
    requires Sane(e) && Quiet(e, w, w') && GroupsOk(e, w)
    ensures GroupsOk(e, w')
  {
    hide Grows, StateOk, Replay, Covers, KeepsStable;
    QuietGrows(e, w, w');
    forall g, i: nat | g in e.gids && i < |w'.groups[g]| ensures StateOk(e, w', g, w'.groups[g][i]) {
      GrowsState(e, w, w', g, w.groups[g][i]);
    }
    forall g, s: nat | g in e.gids && s < NSHARDS ensures CurrentOk(e, w', g, s) {
      assert CurrentOk(e, w, g, s);
    }
    forall g | g in e.gids ensures PastOk(e, w', g) {
      assert PastOk(e, w, g);
    }
  }

  lemma QuietHistory(e: Setting, w: World, w': World, s: nat)
    requires Sane(e) && Quiet(e, w, w') && s < NSHARDS && LevelOk(e, w, s) && ExecOk(e, w, s)
    ensures LevelOk(e, w', s) && ExecOk(e, w', s)
  {
    hide Increasing;
  }

  lemma QuietTraffic(e: Setting, w: World, w': World)
    requires Sane(e) && Quiet(e, w, w') && TrafficOk(e, w)
    requires forall g, op :: g in e.gids && op in w'.proposed[g] ==> op in w.proposed[g] || OpOk(e, w, g, op)
    requires forall m :: m in w'.net ==> m in w.net || MessageOk(e, w, m)
    ensures TrafficOk(e, w')
  {
    hide Grows, OpOk, MessageOk, Ready;
    QuietGrows(e, w, w');
    forall g, op | g in e.gids && op in w'.proposed[g] ensures OpOk(e, w', g, op) {
      GrowsOp(e, w, w', g, op);
    }
    forall m | m in w'.net ensures MessageOk(e, w', m) {
      GrowsMessage(e, w, w', m);
    }
  }

  lemma ProposeInv(e: Setting, w: World, g: nat, op: Op)
    requires Sane(e) && Inv(e, w) && g in e.gids && OpOk(e, w, g, op)
    ensures Inv(e, Propose(w, g, op))
  {
    hide OpOk, MessageOk, GroupsOk, LevelOk, ExecOk;
    QuietInv(e, w, Propose(w, g, op));
  }

  lemma SendInv(e: Setting, w: World, m: Message)
    requires Sane(e) && Inv(e, w) && MessageOk(e, w, m)
    ensures Inv(e, Send(w, m))
  {
    hide OpOk, MessageOk, GroupsOk, LevelOk, ExecOk;
    QuietInv(e, w, Send(w, m));
  }

  lemma InvState(e: Setting, w: World, g: nat, i: nat)
    requires Sane(e) && Inv(e, w) && IsState(e, w, g, i)
    ensures Shaped(w.groups[g][i]) && StateOk(e, w, g, w.groups[g][i])
    ensures Shaped(Last(e, w, g)) && StateOk(e, w, g, Last(e, w, g)) && PastOk(e, w, g)
    ensures w.groups[g][i].cur.num <= Cur(e, w, g)
    ensures w.groups[g][i].cur.num == Cur(e, w, g) ==> KeepsStable(w.groups[g][i], Last(e, w, g))
    ensures forall s: nat :: s < NSHARDS ==> CurrentOk(e, w, g, s)
  {
    hide StateOk, CurrentOk, KeepsStable, ExecOk, LevelOk, TrafficOk, ClientsOk;
  }

  /** A leader that finds its state ready asks for the next configuration. */
  lemma PollInv(e: Setting, w: World, step: Step)
    requires Sane(e) && ShapeOk(e, w) && Inv(e, w) && step.Poll? && Enabled(e, w, step)
    ensures Inv(e, Next(e, w, step))
  {
    hide Inv, StateOk, PastOk, CurrentOk;
    var g, st := step.g, w.groups[step.g][step.i];
    InvState(e, w, g, step.i);
    var k := st.cur.num + 1;
    ProposeInv(e, w, g, UpdateConfig(ConfigAt(e, k), k));
  }

  lemma AskShardInv(e: Setting, w: World, step: Step)
    requires Sane(e) && ShapeOk(e, w) && Inv(e, w) && step.AskShard? && Enabled(e, w, step)
    ensures Inv(e, Next(e, w, step))
  {
    hide Inv, PastOk, CurrentOk, PassedOk, SessionsReal, KeepsStable;
    var g, st := step.g, w.groups[step.g][step.i];
    InvState(e, w, g, step.i);
    assert ShardOk(e, w, g, st, step.s);
    SendInv(e, w, MigrateAsk(g, st.pre.shards[step.s], st.cur.num, step.s));
  }

  lemma InvMessage(e: Setting, w: World, m: Message)
    requires Sane(e) && Inv(e, w) && m in w.net
    ensures MessageOk(e, w, m)
  {
    hide MessageOk, GroupsOk, ExecOk, LevelOk, OpOk, ClientsOk;
  }

  /** Whatever state the answering replica is in, the copy it sends is frozen. */
  lemma AnswerMigrateInv(e: Setting, w: World, step: Step)
    requires Sane(e) && ShapeOk(e, w) && Inv(e, w) && step.AnswerMigrate? && Enabled(e, w, step)
    ensures Inv(e, Next(e, w, step))
  {
    hide Inv, PastOk, CurrentOk, PassedOk, SessionsReal, KeepsStable, UpToDate;
    var g, st, ask := step.g, w.groups[step.g][step.i], step.ask;
    InvState(e, w, g, step.i);
    InvMessage(e, w, ask);
    assert ShardOk(e, w, g, st, ask.shard);
    SendInv(e, w, MigrateRep(ask.from, ask.cfg, ask.shard, st.kvDB[ask.shard], st.sessions));
  }

  lemma TakeShardInv(e: Setting, w: World, step: Step)
    requires Sane(e) && ShapeOk(e, w) && Inv(e, w) && step.TakeShard? && Enabled(e, w, step)
    ensures Inv(e, Next(e, w, step))
  {
    hide Inv, Frozen, SessionsReal;
    var rep := step.rep;
    InvMessage(e, w, rep);
    ProposeInv(e, w, step.g, GetShard(rep.cfg, rep.shard, rep.data, rep.sess));
  }

  lemma AskAckInv(e: Setting, w: World, step: Step)
    requires Sane(e) && ShapeOk(e, w) && Inv(e, w) && step.AskAck? && Enabled(e, w, step)
    ensures Inv(e, Next(e, w, step))
  {
    hide Inv, PastOk, CurrentOk, PassedOk, SessionsReal, KeepsStable, Frozen;
    var g, st := step.g, w.groups[step.g][step.i];
    InvState(e, w, g, step.i);
    assert ShardOk(e, w, g, st, step.s);
    SendInv(e, w, AckAsk(g, st.cur.shards[step.s], st.cur.num, step.s));
  }

  lemma AnswerAckInv(e: Setting, w: World, step: Step)
    requires Sane(e) && ShapeOk(e, w) && Inv(e, w) && step.AnswerAck? && Enabled(e, w, step)
    ensures Inv(e, Next(e, w, step))
  {
    hide Inv, PastOk, CurrentOk, SessionsReal, KeepsStable, Frozen;
    var g, st, ask := step.g, w.groups[step.g][step.i], step.ask;
    InvState(e, w, g, step.i);
    InvMessage(e, w, ask);
    assert ShardOk(e, w, g, st, ask.shard) && PassedOk(e, w, g, st.cur.num, ask.shard);
    SendInv(e, w, AckRep(ask.from, ask.cfg, ask.shard));
  }

  lemma TakeAckInv(e: Setting, w: World, step: Step)
    requires Sane(e) && ShapeOk(e, w) && Inv(e, w) && step.TakeAck? && Enabled(e, w, step)
    ensures Inv(e, Next(e, w, step))
  {
    hide Inv;
    InvMessage(e, w, step.rep);
    ProposeInv(e, w, step.g, GiveShard(step.rep.cfg, step.rep.shard));
  }

  lemma SubmitInv(e: Setting, w: World, step: Step)
    requires Sane(e) && ShapeOk(e, w) && Inv(e, w) && step.Submit? && Enabled(e, w, step)
    ensures Inv(e, Next(e, w, step))
  {
    hide Inv;
    ProposeInv(e, w, step.g, e.script(Cmd(step.client, step.num)));
  }

  lemma AnswerSessionInv(e: Setting, w: World, step: Step)
    requires Sane(e) && ShapeOk(e, w) && Inv(e, w) && step.AnswerSession? && Enabled(e, w, step)
    ensures Inv(e, Next(e, w, step))
  {
    hide Inv, PastOk, CurrentOk, KeepsStable, ShardOk, PassedOk;
    var st := w.groups[step.g][step.i];
    InvState(e, w, step.g, step.i);
    SendInv(e, w, Answer(step.client, step.num, st.sessions[step.client].response));
  }

  /** A client that has its answer goes on to its next command. */
  lemma FinishInv(e: Setting, w: World, step: Step)
    requires Sane(e) && ShapeOk(e, w) && Inv(e, w) && step.Finish? && Enabled(e, w, step)
    ensures Inv(e, Next(e, w, step))
  {
    hide Inv, Sane, Done, OpOk, MessageOk, ClientsOk;
    InvMessage(e, w, Answer(step.client, Num(w, step.client), step.reply));
    FinishClients(e, w, step);
    QuietInv(e, w, Next(e, w, step));
  }

  lemma FinishClients(e: Setting, w: World, step: Step)
    requires Sane(e) && ShapeOk(e, w) && Inv(e, w) && step.Finish? && Enabled(e, w, step)
    requires MessageOk(e, w, Answer(step.client, Num(w, step.client), step.reply))
    ensures ShapeOk(e, Next(e, w, step)) && ClientsOk(e, Next(e, w, step))
  {
    hide GroupsOk, LevelOk, ExecOk, TrafficOk, Done, Sane;
    var w' := Next(e, w, step);
    forall cmd: Cmd | 1 <= cmd.num < Num(w', cmd.client) && IsWrite(e, cmd) ensures Done(e, w', cmd) {
      assert Done(e, w, cmd);
      FinishDone(e, w, w', cmd);
    }
  }

  lemma FinishDone(e: Setting, w: World, w': World, cmd: Cmd)
    requires Sane(e) && ShapeOk(e, w) && ShapeOk(e, w') && w'.exec == w.exec && Done(e, w, cmd)
    ensures Done(e, w', cmd)
  {
  }
}

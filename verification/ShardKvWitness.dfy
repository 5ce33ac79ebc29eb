/** A run in which a client waits for ever. */
module ShardKvWitness {
  import opened Options
  import opened ShardKvServer
  import opened ShardKvCluster
  import opened ShardKvInvariant
  import opened ShardKvApply
  import opened ShardKvSafety
  import opened ShardKvReplies

  function Final(run: seq<World>): World
    requires |run| > 0
  {
    run[|run| - 1]
  }

  lemma Do(e: Setting, run: seq<World>, step: Step) returns (run': seq<World>)
    requires Sane(e) && |run| > 0 && IsRun(e, run) && ShapeOk(e, Final(run)) && Enabled(e, Final(run), step)
    ensures |run'| > 0 && IsRun(e, run') && Final(run') == Next(e, Final(run), step) && ShapeOk(e, Final(run'))
    ensures run <= run'
  {
    hide Inv, Sane, Next, Enabled;
    run' := run + [Next(e, Final(run), step)];
    forall k: nat | k + 1 < |run'| ensures Steps(e, run'[k], run'[k + 1]) {
      if k + 1 < |run| { assert Steps(e, run[k], run[k + 1]); } else { assert run'[k] == Final(run); }
    }
    RunInv(e, run', |run'| - 1);
  }

  /** One group that has every shard from configuration 1 on; every command appends to one key. */
  ghost function OneGroup(): Setting {
    Setting({1}, k => seq(NSHARDS, _ => if k == 0 then 0 else 1),
            (cmd: Cmd) => ClientCmd(cmd.client, cmd.num, Append, "a", "b"))
  }

  lemma OneGroupSane()
    ensures Sane(OneGroup())
  {
    assert OneGroup().configs(0) == seq(NSHARDS, _ => 0);
  }

  const FIRST := Config(1, seq(NSHARDS, _ => 1))

  function Configured(): KvState {
    InitState().(owned := seq(NSHARDS, _ => Exist), cur := FIRST)
  }

  lemma TakesConfig()
    ensures Shaped(InitState()) && WellShaped(UpdateConfig(FIRST, 1))
    ensures RunOp(1, InitState(), UpdateConfig(FIRST, 1)) == Configured()
    ensures Ready(InitState()) && ConfigAt(OneGroup(), 1) == FIRST
  {
    InitShaped();
  }

  /** The group is in this state, and nothing was executed or finished yet. */
  ghost predicate Stands(run: seq<World>, st: KvState) {
    && Sane(OneGroup()) && |run| > 0 && IsRun(OneGroup(), run) && ShapeOk(OneGroup(), Final(run))
    && Last(OneGroup(), Final(run), 1) == st && Final(run).nums == map[] && Final(run).exec[Key2Shard("a")] == []
  }

  lemma Begin() returns (run: seq<World>)
    ensures Stands(run, InitState()) && Final(run).groups[1] == [InitState()]
  {
    hide Sane, InitState;
    OneGroupSane();
    InitShaped();
    run := [InitWorld(OneGroup())];
  }

  lemma Configure() returns (run: seq<World>)
    ensures Stands(run, Configured())
  {
    hide Sane, IsRun, Applied, InitState, RunOp, Ready, ConfigAt, Configured, OneGroup, Shaped, NewLevel, Answers,
         Key2Shard;
    var e, op := OneGroup(), UpdateConfig(FIRST, 1);
    TakesConfig();
    OneGroupIs();
    run := Begin();
    InitNumber();
    run := Do(e, run, Poll(1, 0));
    AppliedParts(e, Final(run), 1, op);
    run := Do(e, run, ApplyOp(1, op));
  }

  lemma InitNumber()
    ensures InitState().cur.num == 0
  {
  }

  const APPEND := ClientCmd(0, 1, Append, "a", "b")

  lemma FirstAppend()
    ensures Shaped(Configured()) && Executes(Configured(), APPEND)
    ensures OnClientCmd(Configured(), APPEND).1 == Some(Reply(ErrNoKey, ""))
  {
    InitShaped();
  }

  /** The append of client 0 was executed and answered, it was to an absent key, and no answer lets the
      client go on. */
  ghost predicate Waits(run: seq<World>) {
    && Sane(OneGroup()) && |run| > 0 && IsRun(OneGroup(), run) && ShapeOk(OneGroup(), Final(run))
    && var e, w, cmds := OneGroup(), Final(run), Final(run).exec[Key2Shard("a")];
    && cmds == [Cmd(0, 1)] && AppendsToAbsent(e, cmds, 0) && Answer(0, 1, Reply(ErrNoKey, "")) in w.net
    && forall reply :: !Enabled(e, w, Finish(0, reply))
  }

  lemma Submitted() returns (run: seq<World>)
    ensures Stands(run, Configured()) && APPEND in Final(run).proposed[1]
  {
    hide Sane, IsRun, Configured, OneGroup, Key2Shard, Shaped, Applied;
    run := Configure();
    OneGroupIs();
    run := Do(OneGroup(), run, Submit(1, 0, 1));
  }

  lemma OneGroupIs()
    ensures 1 in OneGroup().gids && OneGroup().script(Cmd(0, 1)) == APPEND
  {
  }

  lemma AppendApplied(w: World)
    requires Sane(OneGroup()) && ShapeOk(OneGroup(), w) && Last(OneGroup(), w, 1) == Configured()
    requires w.nums == map[] && w.exec[Key2Shard("a")] == []
    ensures var w' := Applied(OneGroup(), w, 1, APPEND);
      && w'.nums == map[] && |w'.exec| == NSHARDS && w'.exec[Key2Shard("a")] == [Cmd(0, 1)]
      && Answer(0, 1, Reply(ErrNoKey, "")) in w'.net
  {
    hide Sane, Applied, RunOp, NewLevel, Configured, OnClientCmd, Executes, Key2Shard, OneGroup, Shaped;
    OneGroupIs();
    FirstAppend();
    AppliedParts(OneGroup(), w, 1, APPEND);
  }

  lemma Appended() returns (run: seq<World>)
    ensures |run| > 0 && Sane(OneGroup()) && IsRun(OneGroup(), run) && ShapeOk(OneGroup(), Final(run))
    ensures Final(run).nums == map[] && Final(run).exec[Key2Shard("a")] == [Cmd(0, 1)]
    ensures Answer(0, 1, Reply(ErrNoKey, "")) in Final(run).net
  {
    hide Sane, IsRun, Applied, Configured, Key2Shard;
    run := Submitted();
    AppendApplied(Final(run));
    run := Do(OneGroup(), run, ApplyOp(1, APPEND));
  }

  /** The failing input is real: a client's append to an empty shard is executed and leaves it waiting. */
  lemma ClientStuck()
    ensures exists run :: Waits(run)
  {
    hide Sane, IsRun, AppendsToAbsent;
    var e := OneGroup();
    var run := Appended();
    var cmds := [Cmd(0, 1)];
    AbsentAtFirst();
    forall reply ensures !Enabled(e, Final(run), Finish(0, reply)) {
      if Answer(0, 1, reply) in Final(run).net {
        AcceptedUnlessAbsent(e, run, |run| - 1, Key2Shard("a"), 0, reply);
      }
    }
    assert Waits(run);
  }

  lemma AbsentAtFirst()
    requires Sane(OneGroup())
    ensures AppendsToAbsent(OneGroup(), [Cmd(0, 1)], 0)
  {
    assert [Cmd(0, 1)][..0] == [];
  }
}

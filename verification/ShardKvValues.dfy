/** What the sharded service stores and answers, in terms of what was written. */
module ShardKvValues {
  import opened Options
  import opened KvWrites
  import opened ShardKvServer
  import opened ShardKvCluster
  import opened ShardKvInvariant
  import opened ShardKvApply
  import opened ShardKvSafety

  /** The writes on the key among these commands. */
  ghost function WritesTo(e: Setting, cmds: seq<Cmd>, key: string): seq<Write> {
    if cmds == [] then []
    else
      var op := e.script(cmds[|cmds| - 1]);
      WritesTo(e, cmds[..|cmds| - 1], key)
      + if !op.ClientCmd? || op.key != key || op.opType == Get then []
        else if op.opType == Put then [Putting(op.value)] else [Appending(op.value)]
  }

  /** After any commands a key is there exactly when one of them wrote it, and then it has the value of the
      last put, followed by those of the appends after it; or of all the appends, if there was no put. */
  lemma {:induction false} ReplayHolds(e: Setting, cmds: seq<Cmd>, key: string)
    requires Sane(e)
    ensures key in Replay(e, cmds) <==> WritesTo(e, cmds, key) != []
    ensures key in Replay(e, cmds) ==> Replay(e, cmds)[key] == Text(WritesTo(e, cmds, key))
  {
    hide Text;
    if cmds != [] {
      var front, op := cmds[..|cmds| - 1], e.script(cmds[|cmds| - 1]);
      ReplayHolds(e, front, key);
      var ws := WritesTo(e, front, key);
      TextPush(ws, Putting(op.value));
      TextPush(ws, Appending(op.value));
      NoText();
      assert ws + [] == ws;
    }
  }

  lemma NoText()
    ensures Text([]) == ""
  {
  }

  /** Some command wrote the key, exactly when there are writes on it. */
  lemma {:induction false} WrittenExactly(e: Setting, cmds: seq<Cmd>, key: string)
    requires Sane(e)
    ensures WritesTo(e, cmds, key) != [] <==>
              exists i: nat :: i < |cmds| && e.script(cmds[i]).key == key && e.script(cmds[i]).opType != Get
  {
    if cmds != [] {
      var front := cmds[..|cmds| - 1];
      WrittenExactly(e, front, key);
      assert forall i: nat :: i < |front| ==> front[i] == cmds[i];
      if WritesTo(e, front, key) != [] {
        var i: nat :| i < |front| && e.script(front[i]).key == key && e.script(front[i]).opType != Get;
        assert e.script(cmds[i]).key == key;
      }
    }
  }

  lemma WritesPush(e: Setting, cmds: seq<Cmd>, cmd: Cmd, key: string)
    requires Sane(e) && e.script(cmd).key != key
    ensures WritesTo(e, cmds + [cmd], key) == WritesTo(e, cmds, key)
  {
    var more := cmds + [cmd];
    assert more[..|more| - 1] == cmds && more[|more| - 1] == cmd;
    assert WritesTo(e, more, key) == WritesTo(e, more[..|more| - 1], key) + [];
  }

  /** A command leaves the other keys alone. */
  lemma OtherKeys(e: Setting, cmds: seq<Cmd>, cmd: Cmd, key: string)
    requires Sane(e) && e.script(cmd).key != key
    ensures key in Replay(e, cmds + [cmd]) <==> key in Replay(e, cmds)
    ensures key in Replay(e, cmds) ==> Replay(e, cmds + [cmd])[key] == Replay(e, cmds)[key]
  {
    hide Replay, Text, WritesTo;
    WritesPush(e, cmds, cmd, key);
    ReplayHolds(e, cmds, key);
    ReplayHolds(e, cmds + [cmd], key);
  }

  /** A get is answered exactly where its shard is served, with what the writes executed so far have left
      under its key, and with no such key exactly when none of them wrote it. */
  lemma GetReturnsWritten(e: Setting, run: seq<World>, k: nat, g: nat, op: Op)
    requires Sane(e) && IsRun(e, run) && k < |run| && g in e.gids && op.ClientCmd? && op.opType == Get
    ensures ShapeOk(e, run[k]) && Shaped(Last(e, run[k], g))
    ensures var s := Key2Shard(op.key);
      var answer, ws := OnClientCmd(Last(e, run[k], g), op).1, WritesTo(e, run[k].exec[s], op.key);
      && (answer.Some? <==> Last(e, run[k], g).owned[s] == Exist)
      && (answer.Some? ==> answer.value == if ws == [] then Reply(ErrNoKey, "") else Reply(OK, Text(ws)))
  {
    hide Sane, IsRun, Replay, WritesTo, Text;
    GetSeesAll(e, run, k, g, op);
    ReplayHolds(e, run[k].exec[Key2Shard(op.key)], op.key);
  }

  /** A write is answered exactly where its shard is served; a put with OK. */
  lemma WriteAnswered(st: KvState, op: Op)
    requires Shaped(st) && op.ClientCmd?
    ensures OnClientCmd(st, op).1.Some? <==> st.owned[Key2Shard(op.key)] == Exist
    ensures Executes(st, op) && op.opType == Put ==> OnClientCmd(st, op).1 == Some(Reply(OK, ""))
    ensures Executes(st, op) && op.opType == Append ==>
      OnClientCmd(st, op).1 == Some(Reply(if op.key in st.kvDB[Key2Shard(op.key)] then OK else ErrNoKey, ""))
  {
  }
}

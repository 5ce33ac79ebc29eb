/** The shard server itself, its fields changed step by step, against the state machine. */
module ShardKvNode {
  import opened Options
  import opened ShardKvServer

  class ShardKV {
    const gid: nat
    var kvDB: map<nat, Shard>
    var sessions: Sessions
    var logLastApplied: nat
    const ownedShards: array<ShardState>
    var preConfig: Config
    var curConfig: Config

    ghost predicate Valid()
      reads this, ownedShards
    {
      ownedShards.Length == NSHARDS && Shaped(Abs())
    }

    ghost function Abs(): KvState
      reads this, ownedShards
    {
      KvState(kvDB, sessions, ownedShards[..], preConfig, curConfig)
    }

    constructor (gid: nat)
      ensures Valid() && this.gid == gid && logLastApplied == 0 && fresh(ownedShards)
      ensures Abs() == InitState()
    {
      this.gid := gid;
      kvDB := EmptyShards(NSHARDS);
      sessions := map[];
      logLastApplied := 0;
      ownedShards := new ShardState[NSHARDS](_ => NoExist);
      preConfig := Config(0, seq(NSHARDS, _ => 0));
      curConfig := Config(0, seq(NSHARDS, _ => 0));
    }

    method CheckKeyInGroup(key: string) returns (r: bool)
      requires Valid()
      ensures r <==> ownedShards[Key2Shard(key)] == Exist
    {
      var shard := Key2Shard(key);
      if ownedShards[shard] != Exist {
        return false;
      }
      r := true;
    }

    /** Applies a client's command. A command for a shard the group does not have leaves even
        logLastApplied alone. */
    method ExecuteClientCmd(op: Op, commandIndex: nat) returns (answer: Option<Reply>)
      requires Valid() && op.ClientCmd?
      modifies this
      ensures Valid()
      ensures ownedShards[Key2Shard(op.key)] != Exist || commandIndex <= old(logLastApplied) ==>
                answer == None && Abs() == old(Abs()) && logLastApplied == old(logLastApplied)
      ensures ownedShards[Key2Shard(op.key)] == Exist && commandIndex > old(logLastApplied) ==>
                (Abs(), answer) == OnClientCmd(old(Abs()), op) && logLastApplied == commandIndex
    {
      var inGroup := CheckKeyInGroup(op.key);
      if !inGroup {
        return None;
      }
      if commandIndex <= logLastApplied {
        return None;
      }
      logLastApplied := commandIndex;
      var reply := Reply(NoAnswer, "");
      if op.clientId in sessions && op.opType != Get && op.cmdNum <= sessions[op.clientId].lastCmdNum {
        reply := sessions[op.clientId].response;
      } else {
        var shardNum := Key2Shard(op.key);
        match op.opType {
          case Get =>
            if op.key !in kvDB[shardNum] {
              reply := Reply(ErrNoKey, "");
            } else {
              reply := Reply(OK, kvDB[shardNum][op.key]);
            }
          case Put =>
            kvDB := kvDB[shardNum := kvDB[shardNum][op.key := op.value]];
            reply := Reply(OK, "");
          case Append =>
            if op.key !in kvDB[shardNum] {
              reply := Reply(ErrNoKey, "");
              kvDB := kvDB[shardNum := kvDB[shardNum][op.key := op.value]];
            } else {
              reply := Reply(OK, "");
              kvDB := kvDB[shardNum := kvDB[shardNum][op.key := kvDB[shardNum][op.key] + op.value]];
            }
        }
        if op.opType != Get {
          var session := Session(op.cmdNum, op.opType, reply);
          sessions := sessions[op.clientId := session];
        }
      }
      answer := Some(reply);
    }

    /** Applies one of the three commands that change the configuration or move a shard. */
    method ExecuteConfigCmd(op: Op, commandIndex: nat)
      requires Valid() && (op.UpdateConfig? || op.GetShard? || op.GiveShard?)
      requires op.UpdateConfig? ==> |op.newConfig.shards| == NSHARDS
      requires op.GetShard? || op.GiveShard? ==> op.shardNum < NSHARDS
      modifies this, ownedShards
      ensures Valid()
      ensures commandIndex <= old(logLastApplied) ==> Abs() == old(Abs()) && logLastApplied == old(logLastApplied)
      ensures commandIndex > old(logLastApplied) ==> logLastApplied == commandIndex
      ensures commandIndex > old(logLastApplied) && op.UpdateConfig? ==> Abs() == OnUpdateConfig(gid, old(Abs()), op)
      ensures commandIndex > old(logLastApplied) && op.GetShard? ==> Abs() == OnGetShard(old(Abs()), op)
      ensures commandIndex > old(logLastApplied) && op.GiveShard? ==> Abs() == OnGiveShard(old(Abs()), op)
    {
      if commandIndex <= logLastApplied {
        return;
      }
      logLastApplied := commandIndex;
      if op.UpdateConfig? {
        if curConfig.num + 1 == op.cfgNum {
          UpdateShardState(op.newConfig);
        }
      } else if op.GetShard? {
        if curConfig.num == op.cfgNum && ownedShards[op.shardNum] == WaitGet {
          kvDB := kvDB[op.shardNum := op.shardData];
          ownedShards[op.shardNum] := Exist;
          MergeSessions(op.sessionData);
        }
      } else {
        if curConfig.num == op.cfgNum && ownedShards[op.shardNum] == WaitGive {
          ownedShards[op.shardNum] := NoExist;
          kvDB := kvDB[op.shardNum := map[]];
        }
      }
    }

    /** Takes over the records of the last owner that are newer, one client after the other. */
    method MergeSessions(other: Sessions)
      modifies this`sessions
      ensures sessions == Newer(old(sessions), other)
    {
      var left := other.Keys;
      while left != {}
        invariant left <= other.Keys && old(sessions).Keys <= sessions.Keys <= old(sessions).Keys + other.Keys
        invariant other.Keys - left <= sessions.Keys
        invariant forall c :: c in left ==> (c in sessions <==> c in old(sessions))
        invariant forall c :: c in sessions ==>
          sessions[c] == if c !in left then Newer(old(sessions), other)[c] else old(sessions)[c]
        decreases |left|
      {
        var clientId :| clientId in left;
        var session := other[clientId];
        if clientId !in sessions || session.lastCmdNum > sessions[clientId].lastCmdNum {
          sessions := sessions[clientId := session];
        }
        left := left - {clientId};
      }
    }

    method UpdateShardState(nextConfig: Config)
      requires Valid() && |nextConfig.shards| == NSHARDS
      modifies this`preConfig, this`curConfig, ownedShards
      ensures Valid() && Abs() == Updated(gid, old(Abs()), nextConfig)
    {
      ghost var before := ownedShards[..];
      var shard := 0;
      while shard < NSHARDS
        modifies ownedShards
        invariant 0 <= shard <= NSHARDS
        invariant forall s: nat :: s < shard ==>
          ownedShards[s] == NextState(gid, before[s], nextConfig.shards[s], nextConfig.num == 1)
        invariant forall s: nat :: shard <= s < NSHARDS ==> ownedShards[s] == before[s]
      {
        if ownedShards[shard] == Exist && nextConfig.shards[shard] != gid {
          ownedShards[shard] := WaitGive;
        }
        if ownedShards[shard] == NoExist && nextConfig.shards[shard] == gid {
          if nextConfig.num == 1 {
            ownedShards[shard] := Exist;
          } else {
            ownedShards[shard] := WaitGet;
          }
        }
        shard := shard + 1;
      }
      if preConfig.num != 0 || curConfig.num != 0 {
        preConfig := curConfig;
      }
      curConfig := nextConfig;
    }

    method UpdateConfigReady() returns (r: bool)
      requires Valid()
      ensures r <==> Ready(Abs())
    {
      var i := 0;
      while i < ownedShards.Length
        invariant 0 <= i <= ownedShards.Length
        invariant forall s: nat :: s < i ==> ownedShards[s] == NoExist || ownedShards[s] == Exist
      {
        var state := ownedShards[i];
        if state != NoExist && state != Exist {
          assert Abs().owned[i] == state;
          return false;
        }
        i := i + 1;
      }
      r := true;
    }

    /** isLeader is what the replica takes itself for. */
    method MigrateShard(isLeader: bool, configNum: nat, shardNum: nat) returns (reply: MigrateReply)
      requires Valid() && shardNum < NSHARDS
      ensures reply == if isLeader then OnMigrateShard(Abs(), configNum, shardNum)
                       else MigrateReply(map[], map[], ErrWrongLeader)
    {
      if !isLeader {
        return MigrateReply(map[], map[], ErrWrongLeader);
      }
      if curConfig.num < configNum {
        return MigrateReply(map[], map[], ErrNotReady);
      }
      if curConfig.num > configNum {
        return MigrateReply(map[], map[], NoAnswer);
      }
      reply := MigrateReply(kvDB[shardNum], sessions, OK);
    }

    method AckReceiveShard(isLeader: bool, configNum: nat, shardNum: nat) returns (reply: AckReply)
      requires Valid() && shardNum < NSHARDS
      ensures reply == if isLeader then OnAckReceive(Abs(), configNum, shardNum) else AckReply(false, ErrWrongLeader)
    {
      if !isLeader {
        return AckReply(false, ErrWrongLeader);
      }
      if curConfig.num < configNum {
        return AckReply(false, ErrNotReady);
      }
      if curConfig.num > configNum {
        return AckReply(true, OK);
      }
      if ownedShards[shardNum] == Exist {
        return AckReply(true, OK);
      }
      reply := AckReply(false, OK);
    }
  }
}

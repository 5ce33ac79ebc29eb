/** One Raft server as the code has it: a log that starts at the last snapshotted entry and
    is indexed by `index - lastIncludedIndex`, a persister, and handlers that update both in
    place. Each handler is proved to do to the full log what RaftServer says. */
module RaftNode {
  import opened Options
  import opened RaftServer

  datatype LogEntry = LogEntry(command: Command, term: int, index: int)

  datatype AppendEntriesArgs = AppendEntriesArgs(
    term: int, leaderId: nat, preLogIndex: nat, preLogTerm: int, entries: seq<LogEntry>, leaderCommit: nat)
  {
    ghost predicate Consecutive() {
      forall i :: 0 <= i < |entries| ==> entries[i].index == preLogIndex + 1 + i
    }

    ghost function Abstract(): AppendArgs {
      AppendArgs(term, leaderId, preLogIndex, preLogTerm, Strip(entries), leaderCommit)
    }
  }

  datatype ApplyMsg = ApplyMsg(command: Command, commandIndex: nat, commandTerm: int)

  /** What is encoded into the raft state. */
  datatype RaftState = RaftState(
    currentTerm: int, votedFor: int, log: seq<LogEntry>, lastIncludedIndex: nat, lastIncludedTerm: int)

  /** The entries without the indices that they carry. */
  ghost function Strip(log: seq<LogEntry>): seq<Entry> {
    seq(|log|, i requires 0 <= i < |log| => Entry(log[i].term, log[i].command))
  }

  /** What a snapshot covers; without one, only the placeholder. */
  ghost function Covered(snapshot: seq<Entry>): seq<Entry> {
    if snapshot == [] then [PLACEHOLDER] else snapshot
  }

  ghost predicate StateOk(r: RaftState, snapshot: seq<Entry>) {
    && |r.log| > 0
    && (forall k :: 0 <= k < |r.log| ==> r.log[k].index == r.lastIncludedIndex + k)
    && |Covered(snapshot)| == r.lastIncludedIndex + 1
    && r.log[0].term == r.lastIncludedTerm == Covered(snapshot)[r.lastIncludedIndex].term
  }

  ghost function FullLog(r: RaftState, snapshot: seq<Entry>): seq<Entry>
    requires StateOk(r, snapshot)
  {
    Covered(snapshot) + Strip(r.log[1..])
  }

  /** The retained log is the full log from the last snapshotted index on. */
  lemma Offset(r: RaftState, snapshot: seq<Entry>)
    requires StateOk(r, snapshot)
    ensures |FullLog(r, snapshot)| == r.lastIncludedIndex + |r.log|
    ensures forall k :: 0 <= k < |r.log| ==> FullLog(r, snapshot)[r.lastIncludedIndex + k].term == r.log[k].term
    ensures forall i :: r.lastIncludedIndex < i < r.lastIncludedIndex + |r.log| ==>
      FullLog(r, snapshot)[i] == Entry(r.log[i - r.lastIncludedIndex].term, r.log[i - r.lastIncludedIndex].command)
  {
  }

  /** What the retained log holds from an index on is what the full log does. */
  lemma Suffix(r: RaftState, snapshot: seq<Entry>, i: nat)
    requires StateOk(r, snapshot) && r.lastIncludedIndex < i <= r.lastIncludedIndex + |r.log|
    ensures |FullLog(r, snapshot)| == r.lastIncludedIndex + |r.log|
    ensures Strip(r.log[i - r.lastIncludedIndex..]) == FullLog(r, snapshot)[i..]
  {
    Offset(r, snapshot);
  }

  class Persister {
    var raftState: Option<RaftState>
    var snapshot: seq<Entry>

    constructor ()
      ensures raftState == None && snapshot == []
    {
      raftState := None;
      snapshot := [];
    }

    method SaveRaftState(state: RaftState)
      modifies this`raftState
      ensures raftState == Some(state)
    {
      raftState := Some(state);
    }

    method SaveStateAndSnapshot(state: RaftState, data: seq<Entry>)
      modifies this
      ensures raftState == Some(state) && snapshot == data
    {
      raftState := Some(state);
      snapshot := data;
    }
  }

  class Raft {
    const me: nat
    const peers: nat
    const persister: Persister

    var currentTerm: int
    var votedFor: int
    var leaderId: int
    var log: seq<LogEntry>
    var commitIndex: nat
    var lastApplied: nat
    var nextIndex: seq<nat>
    var matchIndex: seq<nat>
    var state: Role
    var votes: set<nat>
    var lastIncludedIndex: nat
    var lastIncludedTerm: int
    var passiveSnapshotting: bool
    var activeSnapshotting: bool

    ghost function Memory(): RaftState
      reads this
    {
      RaftState(currentTerm, votedFor, log, lastIncludedIndex, lastIncludedTerm)
    }

    /** The log is consistent with the snapshot, and what is persisted is what is in memory. */
    ghost predicate Valid()
      reads this, persister
    {
      && StateOk(Memory(), persister.snapshot)
      && persister.raftState == Some(Memory())
      && lastIncludedIndex <= commitIndex
    }

    ghost function Full(): seq<Entry>
      requires Valid()
      reads this, persister
    {
      FullLog(Memory(), persister.snapshot)
    }

    /** The server this object stands for. */
    ghost function Abs(): Server
      requires Valid()
      reads this, persister
    {
      Server(currentTerm, votedFor, state, votes, Full(), lastIncludedIndex, commitIndex, lastApplied,
             nextIndex, matchIndex, passiveSnapshotting, activeSnapshotting)
    }

    /** Boot, or reboot from whatever the persister holds. */
    constructor (peers: nat, me: nat, persister: Persister)
      requires persister.raftState == None ==> persister.snapshot == []
      requires persister.raftState.Some? ==> StateOk(persister.raftState.value, persister.snapshot)
      modifies persister
      ensures Valid() && persister.snapshot == old(persister.snapshot)
      ensures this.me == me && this.peers == peers && this.persister == persister
      ensures Abs() == Recovered(old(persister.raftState), old(persister.snapshot))
    {
      this.peers, this.me, this.persister := peers, me, persister;
      currentTerm, votedFor, leaderId, state, votes := 0, NOBODY, -1, Follower, {};
      log := [LogEntry("", -1, 0)];
      commitIndex, lastApplied := 0, 0;
      nextIndex, matchIndex := [], [];
      lastIncludedIndex, lastIncludedTerm := 0, -1;
      passiveSnapshotting, activeSnapshotting := false, false;
      new;
      hide FullLog, StateOk;
      FirstBoot();
      ReadPersist();
      RecoverFromSnap();
      Persist();
    }

    method ReadPersist()
      modifies this`currentTerm, this`votedFor, this`log, this`lastIncludedIndex, this`lastIncludedTerm
      ensures persister.raftState == None ==> Memory() == old(Memory())
      ensures persister.raftState.Some? ==> Memory() == persister.raftState.value
    {
      if persister.raftState.Some? {
        var saved := persister.raftState.value;
        currentTerm, votedFor, log := saved.currentTerm, saved.votedFor, saved.log;
        lastIncludedIndex, lastIncludedTerm := saved.lastIncludedIndex, saved.lastIncludedTerm;
      }
    }

    method RecoverFromSnap()
      modifies this`lastApplied, this`commitIndex
      ensures persister.snapshot == [] ==> lastApplied == old(lastApplied) && commitIndex == old(commitIndex)
      ensures persister.snapshot != [] ==> lastApplied == commitIndex == lastIncludedIndex
    {
      if |persister.snapshot| < 1 { return; }
      lastApplied, commitIndex := lastIncludedIndex, lastIncludedIndex;
    }

    method Persist()
      modifies persister`raftState
      ensures persister.raftState == Some(Memory())
    {
      persister.SaveRaftState(RaftState(currentTerm, votedFor, log, lastIncludedIndex, lastIncludedTerm));
    }

    // ---- Elections ----

    method Convert2Candidate()
      requires Valid()
      modifies this, persister`raftState
      ensures Valid() && Abs() == OnTimeout(old(Abs()), me)
    {
      state := Candidate;
      currentTerm := currentTerm + 1;
      votedFor := me;
      leaderId := -1;
      votes := {me};
      Persist();
    }

    method RequestVote(args: VoteArgs) returns (reply: VoteReply)
      requires Valid()
      modifies this, persister`raftState
      ensures Valid() && (Abs(), reply) == OnVoteRequest(old(Abs()), args)
    {
      hide FullLog, StateOk;
      FullLength(Memory(), persister.snapshot);
      FullLast(Memory(), persister.snapshot);
      ghost var was := Memory();
      if args.term < currentTerm {
        return VoteReply(currentTerm, false);
      }
      if currentTerm < args.term {
        votedFor := NOBODY;
        leaderId := -1;
        state := Follower;
        currentTerm := args.term;
        Persist();
      }
      var voterLastLog := log[|log| - 1];
      var uptodate := args.lastTerm > voterLastLog.term
        || (args.lastTerm == voterLastLog.term && args.lastIndex >= voterLastLog.index);
      var granted := false;
      if (votedFor == NOBODY || votedFor == args.candidate) && uptodate {
        votedFor := args.candidate;
        leaderId := -1;
        granted := true;
        Persist();
      }
      SameLog(was, Memory(), persister.snapshot);
      reply := VoteReply(currentTerm, granted);
    }

    method HandleVoteReply(from: nat, args: VoteArgs, reply: VoteReply)
      requires Valid()
      modifies this, persister`raftState
      ensures Valid() && Abs() == OnVoteReply(old(Abs()), from, args, reply)
    {
      if state != Candidate || currentTerm != args.term { return; }
      if currentTerm < reply.term {
        votedFor := NOBODY;
        state := Follower;
        currentTerm := reply.term;
        Persist();
        return;
      }
      if reply.granted {
        votes := votes + {from};
      }
    }

    method Convert2Leader()
      requires Valid()
      modifies this
      ensures Valid() && Abs() == OnWin(old(Abs()), peers)
    {
      hide FullLog, StateOk;
      FullLength(Memory(), persister.snapshot);
      state := Leader;
      leaderId := me;
      nextIndex := seq(peers, _ => 0);
      matchIndex := seq(peers, _ => 0);
      ghost var next: nat := |Full()|;
      var i := 0;
      while i < peers
        modifies this`nextIndex
        invariant 0 <= i <= peers == |nextIndex|
        invariant forall k :: 0 <= k < i ==> nextIndex[k] == log[|log| - 1].index + 1
      {
        nextIndex := nextIndex[i := log[|log| - 1].index + 1];
        i := i + 1;
      }
      assert nextIndex == seq(peers, _ => next);
    }

    // ---- The follower ----

    method AppendEntries(args: AppendEntriesArgs) returns (reply: AppendReply)
      requires Valid() && args.Consecutive()
      modifies this, persister`raftState
      ensures Valid() && (Abs(), reply) == OnAppend(old(Abs()), args.Abstract())
    {
      Offset(Memory(), persister.snapshot);
      if args.term < currentTerm {
        return AppendReply(currentTerm, false, 0, 0);
      }
      RecogniseLeader(args.term, args.leaderId);
      reply := CheckAndStore(args);
    }

    method RecogniseLeader(term: int, leader: nat)
      requires Valid() && term >= currentTerm
      modifies this`votedFor, this`currentTerm, this`state, this`leaderId, persister`raftState
      ensures Valid() && Abs() == Recognise(old(Abs()), term)
    {
      if term > currentTerm {
        votedFor := NOBODY;
        currentTerm := term;
        Persist();
      }
      state := Follower;
      leaderId := leader;
    }

    method CheckAndStore(args: AppendEntriesArgs) returns (reply: AppendReply)
      requires Valid() && args.Consecutive()
      modifies this`log, this`commitIndex, persister`raftState
      ensures Valid() && |old(Full())| > old(lastIncludedIndex)
      ensures (Abs(), reply) == AppendChecked(old(Abs()), args.Abstract())
    {
      hide FullLog, StateOk, FirstOfTerm, AppendMatched, Merge, FirstMismatch;
      FullLength(Memory(), persister.snapshot);
      var entries, preLogIndex, preLogTerm := args.entries, args.preLogIndex, args.preLogTerm;
      if preLogIndex < lastIncludedIndex {
        if |entries| == 0 || entries[|entries| - 1].index <= lastIncludedIndex {
          return AppendReply(currentTerm, true, 0, 0);
        }
        entries := entries[lastIncludedIndex - preLogIndex..];
        assert Strip(entries) == Strip(args.entries)[lastIncludedIndex - preLogIndex..];
        preLogIndex := lastIncludedIndex;
        preLogTerm := lastIncludedTerm;
      }
      var refusal := CheckConsistency(preLogIndex, preLogTerm);
      if refusal.Some? {
        return refusal.value;
      }
      StoreMatched(preLogIndex, entries, args.leaderCommit);
      reply := AppendReply(currentTerm, true, 0, 0);
    }

    /** None if the entry at this index has this term, and otherwise how to refuse. */
    method CheckConsistency(preLogIndex: nat, preLogTerm: int) returns (refusal: Option<AppendReply>)
      requires Valid() && lastIncludedIndex <= preLogIndex
      ensures lastIncludedIndex < |Full()| == lastIncludedIndex + |log|
      ensures preLogIndex == lastIncludedIndex && preLogTerm == lastIncludedTerm ==> refusal == None
      ensures refusal ==
        if LastIndex(Full()) < preLogIndex then Some(AppendReply(currentTerm, false, LastIndex(Full()) + 1, -1))
        else if Full()[preLogIndex].term != preLogTerm then
          Some(AppendReply(currentTerm, false, FirstOfTerm(Full(), lastIncludedIndex, preLogIndex),
              Full()[preLogIndex].term))
        else None
    {
      Offset(Memory(), persister.snapshot);
      if log[|log| - 1].index < preLogIndex {
        return Some(AppendReply(currentTerm, false, log[|log| - 1].index + 1, -1));
      }
      assert Full()[preLogIndex].term == log[preLogIndex - lastIncludedIndex].term;
      if log[preLogIndex - lastIncludedIndex].term != preLogTerm {
        var first := FirstIndexOfConflict(preLogIndex);
        return Some(AppendReply(currentTerm, false, first, log[preLogIndex - lastIncludedIndex].term));
      }
      refusal := None;
    }

    /** Where the term of the entry at this index begins in the retained log. */
    method FirstIndexOfConflict(at: nat) returns (first: nat)
      requires Valid() && lastIncludedIndex <= at < lastIncludedIndex + |log|
      ensures at < |Full()| && first == FirstOfTerm(Full(), lastIncludedIndex, at)
    {
      Offset(Memory(), persister.snapshot);
      var term := log[at - lastIncludedIndex].term;
      var i := at - 1 - lastIncludedIndex;
      while i >= 0 && log[i].term == term
        invariant -1 <= i < at - lastIncludedIndex
        invariant Full()[lastIncludedIndex + i + 1].term == term
        invariant FirstOfTerm(Full(), lastIncludedIndex, at)
           == FirstOfTerm(Full(), lastIncludedIndex, lastIncludedIndex + i + 1)
      {
        assert Full()[lastIncludedIndex + i].term == log[i].term;
        i := i - 1;
      }
      if i >= 0 { assert Full()[lastIncludedIndex + i].term == log[i].term; }
      first := i + 1 + lastIncludedIndex;
    }

    /** The index of the first new entry the log lacks or holds with another term, or -1. */
    method FindMismatch(preLogIndex: nat, entries: seq<LogEntry>) returns (misMatchIndex: int)
      requires Valid() && lastIncludedIndex <= preLogIndex < lastIncludedIndex + |log|
      ensures preLogIndex < |Full()|
      ensures var i := FirstMismatch(Full(), preLogIndex, Strip(entries));
        misMatchIndex == if i == |entries| then -1 else preLogIndex + 1 + i
    {
      hide FullLog, StateOk;
      FullLength(Memory(), persister.snapshot);
      misMatchIndex := -1;
      var i := 0;
      while i < |entries|
        invariant 0 <= i <= |entries| && preLogIndex + 1 + i <= |Full()|
        invariant FirstMismatch(Full(), preLogIndex, Strip(entries))
           == FirstMismatch(Full(), preLogIndex, Strip(entries), i)
      {
        if preLogIndex + 1 + i <= log[|log| - 1].index {
          FullTerm(Memory(), persister.snapshot, preLogIndex - lastIncludedIndex + 1 + i);
        }
        if preLogIndex + 1 + i > log[|log| - 1].index
          || log[preLogIndex - lastIncludedIndex + 1 + i].term != entries[i].term {
          return preLogIndex + 1 + i;
        }
        i := i + 1;
      }
    }

    /** Truncates at the first mismatch and appends what is new. */
    method RepairLog(preLogIndex: nat, entries: seq<LogEntry>)
      requires Valid() && lastIncludedIndex <= preLogIndex < lastIncludedIndex + |log|
      requires forall i :: 0 <= i < |entries| ==> entries[i].index == preLogIndex + 1 + i
      modifies this`log, persister`raftState
      ensures Valid() && preLogIndex < |old(Full())|
      ensures Full() == Merge(old(Full()), preLogIndex, Strip(entries))
    {
      hide FullLog, StateOk, FirstMismatch;
      FullLength(Memory(), persister.snapshot);
      var misMatchIndex := FindMismatch(preLogIndex, entries);
      if misMatchIndex != -1 {
        MergeOffset(Memory(), persister.snapshot, preLogIndex, entries, misMatchIndex - preLogIndex - 1);
        var newLog := log[..misMatchIndex - lastIncludedIndex];
        newLog := newLog + entries[misMatchIndex - preLogIndex - 1..];
        log := newLog;
      }
      Persist();
    }

    method StoreMatched(preLogIndex: nat, entries: seq<LogEntry>, leaderCommit: nat)
      requires Valid() && lastIncludedIndex <= preLogIndex < lastIncludedIndex + |log|
      requires forall i :: 0 <= i < |entries| ==> entries[i].index == preLogIndex + 1 + i
      modifies this`log, this`commitIndex, persister`raftState
      ensures Valid() && preLogIndex < |old(Full())|
      ensures Abs() == AppendMatched(old(Abs()), preLogIndex, Strip(entries), leaderCommit)
    {
      hide FullLog, StateOk, Merge, FirstMismatch;
      RepairLog(preLogIndex, entries);
      FullLength(Memory(), persister.snapshot);
      if leaderCommit > commitIndex {
        commitIndex := Min(leaderCommit, log[|log| - 1].index);
      }
    }

    /** Stores a leader's snapshot in place of what it covers. */
    method CondInstallSnap(args: SnapArgs) returns (reply: SnapReply)
      requires Valid() && |args.data| == args.lastIndex + 1 && args.data[args.lastIndex].term == args.lastTerm
      modifies this, persister
      ensures Valid() && (Abs(), reply) == OnInstall(old(Abs()), args)
    {
      hide FullLog, StateOk, SuffixAfter, GoesOn;
      FullLength(Memory(), persister.snapshot);
      if args.term < currentTerm {
        return SnapReply(currentTerm, false);
      }
      if activeSnapshotting {
        return SnapReply(currentTerm, false);
      }
      RecogniseLeader(args.term, args.leader);
      if args.lastIndex <= lastIncludedIndex {
        return SnapReply(currentTerm, false);
      }
      Install(args);
      reply := SnapReply(currentTerm, true);
    }

    method Install(args: SnapArgs)
      requires Valid() && |args.data| == args.lastIndex + 1 && args.data[args.lastIndex].term == args.lastTerm
      requires args.lastIndex > lastIncludedIndex
      modifies this`log, this`commitIndex, this`lastApplied, this`lastIncludedIndex, this`lastIncludedTerm,
               this`passiveSnapshotting, persister
      ensures Valid() && |old(Full())| > old(lastIncludedIndex)
      ensures Abs() == InstallChecked(old(Abs()), args).0
    {
      hide FullLog, StateOk, SuffixAfter, GoesOn;
      FullLength(Memory(), persister.snapshot);
      var newLog, commit := LogFromSnapshot(args.lastIndex, args.lastTerm);
      commitIndex := commit;
      ReplaceLog(args, newLog);
      lastApplied := args.lastIndex;
      passiveSnapshotting := true;
    }

    method ReplaceLog(args: SnapArgs, newLog: seq<LogEntry>)
      requires |args.data| == args.lastIndex + 1 && args.data[args.lastIndex].term == args.lastTerm
      requires |newLog| > 0 && newLog[0].term == args.lastTerm && args.lastIndex <= commitIndex
      requires forall k :: 0 <= k < |newLog| ==> newLog[k].index == args.lastIndex + k
      modifies this`log, this`lastIncludedIndex, this`lastIncludedTerm, persister
      ensures Valid() && lastIncludedIndex == args.lastIndex && persister.snapshot == args.data
      ensures Full() == args.data + Strip(newLog[1..])
    {
      lastIncludedIndex := args.lastIndex;
      lastIncludedTerm := args.lastTerm;
      log := newLog;
      Persist();
      persister.SaveStateAndSnapshot(
        RaftState(currentTerm, votedFor, log, lastIncludedIndex, lastIncludedTerm), args.data);
    }

    /** The log that starts at the snapshot, with any suffix worth keeping, and the commit index. */
    method LogFromSnapshot(snapshotIndex: nat, snapshotTerm: int) returns (newLog: seq<LogEntry>, commit: nat)
      requires Memory().lastIncludedIndex < snapshotIndex && StateOk(Memory(), persister.snapshot)
      ensures |newLog| > 0 && newLog[0].term == snapshotTerm
      ensures forall k :: 0 <= k < |newLog| ==> newLog[k].index == snapshotIndex + k
      ensures |FullLog(Memory(), persister.snapshot)| > 0
      ensures Strip(newLog[1..]) == SuffixAfter(FullLog(Memory(), persister.snapshot), snapshotIndex, snapshotTerm)
      ensures commit == if GoesOn(FullLog(Memory(), persister.snapshot), snapshotIndex, snapshotTerm)
                        then Max(commitIndex, snapshotIndex) else snapshotIndex
    {
      hide FullLog;
      Offset(Memory(), persister.snapshot);
      newLog := [LogEntry("", snapshotTerm, snapshotIndex)];
      assert newLog[1..] == [] && Strip(newLog[1..]) == [];
      commit := snapshotIndex;
      if snapshotIndex < log[|log| - 1].index {
        assert FullLog(Memory(), persister.snapshot)[snapshotIndex].term == log[snapshotIndex - lastIncludedIndex].term;
        if log[snapshotIndex - lastIncludedIndex].term == snapshotTerm {
          CutOffset(Memory(), persister.snapshot, snapshotIndex);
          newLog := newLog + log[snapshotIndex - lastIncludedIndex + 1..];
          assert newLog[1..] == log[snapshotIndex - lastIncludedIndex + 1..];
          commit := Max(commitIndex, snapshotIndex);
        }
      }
    }

    // ---- The leader ----

    method Start(command: Command) returns (index: int, term: int, isLeader: bool)
      requires Valid()
      modifies this`log, persister`raftState
      ensures Valid() && Abs() == OnStart(old(Abs()), command)
      ensures isLeader == (state == Leader) && term == currentTerm
      ensures index == |old(Full())|
      ensures isLeader ==> index == LastIndex(Full()) && Full()[index] == Entry(term, command)
    {
      FullLength(Memory(), persister.snapshot);
      term, isLeader := currentTerm, state == Leader;
      index := log[|log| - 1].index + 1;
      if !isLeader {
        return;
      }
      log := log + [LogEntry(command, term, index)];
      assert Strip(log[1..]) == Strip(old(log)[1..]) + [Entry(term, command)];
      Persist();
    }

    /** The first section of a round of appends: the leader's own entries count as replicated. */
    method UpdateOwnMatch()
      requires Valid() && me < |nextIndex| && me < |matchIndex|
      modifies this`nextIndex, this`matchIndex
      ensures Valid() && |Full()| > 0 && Abs() == OnBroadcast(old(Abs()), me)
    {
      hide FullLog, StateOk;
      FullLength(Memory(), persister.snapshot);
      matchIndex := matchIndex[me := log[|log| - 1].index];
      nextIndex := nextIndex[me := matchIndex[me] + 1];
    }

    /** What to send to a peer: entries from its next index on, or None if they are compacted away. */
    method PrepareAppend(idx: nat) returns (args: Option<AppendEntriesArgs>)
      requires Valid() && idx < |nextIndex| && 0 < nextIndex[idx] <= |Full()|
      ensures args == None <==> nextIndex[idx] <= lastIncludedIndex
      ensures args.Some? ==> args.value.Consecutive() && args.value.Abstract() == AppendArgsFor(Abs(), me, idx)
    {
      hide FullLog;
      Offset(Memory(), persister.snapshot);
      var appendLogs := [];
      var nextIdx := nextIndex[idx];
      if nextIdx <= lastIncludedIndex {
        return None;
      }
      Suffix(Memory(), persister.snapshot, nextIdx);
      if log[|log| - 1].index >= nextIdx {
        appendLogs := log[nextIdx - lastIncludedIndex..];
      }
      assert Strip(appendLogs) == Full()[nextIdx..];
      var preLog := log[nextIdx - lastIncludedIndex - 1];
      args := Some(AppendEntriesArgs(currentTerm, me, preLog.index, preLog.term, appendLogs, commitIndex));
    }

    method PrepareSnapshot() returns (args: SnapArgs)
      requires Valid() && lastIncludedIndex > 0
      ensures lastIncludedIndex < |Full()| && args == SnapArgsFor(Abs(), me)
      ensures |args.data| == args.lastIndex + 1 && args.data[args.lastIndex].term == args.lastTerm
    {
      Offset(Memory(), persister.snapshot);
      args := SnapArgs(currentTerm, me, lastIncludedIndex, lastIncludedTerm, persister.snapshot);
      assert Full()[..lastIncludedIndex + 1] == persister.snapshot;
    }

    method HandleAppendReply(idx: nat, args: AppendEntriesArgs, reply: AppendReply)
      requires Valid() && |Full()| > 0 && AppendReplyInBounds(Abs(), idx, args.Abstract(), reply)
      modifies this`currentTerm, this`votedFor, this`state, this`nextIndex, this`matchIndex, this`commitIndex,
          persister`raftState
      ensures Valid() && Abs() == OnAppendReply(old(Abs()), idx, args.Abstract(), reply)
    {
      hide FullLog, StateOk, Sorted, LastWithTerm;
      FullLength(Memory(), persister.snapshot);
      if state != Leader || currentTerm != args.term {
        return;
      }
      if currentTerm < reply.term {
        GiveWay(reply.term);
        return;
      }
      if !reply.success {
        var possibleNextIdx := reply.conflictIndex;
        if reply.conflictTerm != -1 {
          possibleNextIdx := NextAfterConflict(reply);
        }
        if possibleNextIdx < nextIndex[idx] && possibleNextIdx > matchIndex[idx] {
          nextIndex := nextIndex[idx := possibleNextIdx];
        }
      } else {
        var possibleMatchIdx := args.preLogIndex + |args.entries|;
        matchIndex := matchIndex[idx := Max(possibleMatchIdx, matchIndex[idx])];
        nextIndex := nextIndex[idx := matchIndex[idx] + 1];
        AdvanceCommit();
      }
    }

    method GiveWay(term: int)
      requires Valid()
      modifies this`currentTerm, this`votedFor, this`state, persister`raftState
      ensures Valid() && Abs() == StepDown(old(Abs()), term)
    {
      votedFor := NOBODY;
      state := Follower;
      currentTerm := term;
      Persist();
    }

    /** Just past the leader's last entry of the conflicting term, or the follower's hint. */
    method NextAfterConflict(reply: AppendReply) returns (next: nat)
      requires Valid() && lastIncludedIndex < |Full()|
      requires var k := LastWithTerm(Full(), lastIncludedIndex, |Full()|, reply.conflictTerm);
        k + 1 < |Full()| || k == lastIncludedIndex
      ensures var k := LastWithTerm(Full(), lastIncludedIndex, |Full()|, reply.conflictTerm);
        next == if k == lastIncludedIndex then reply.conflictIndex else k + 1
    {
      hide FullLog, StateOk;
      FullLength(Memory(), persister.snapshot);
      var foundConflictTerm := false;
      var k := |log| - 1;
      while k > 0
        invariant 0 <= k < |log| && !foundConflictTerm
        invariant LastWithTerm(Full(), lastIncludedIndex, |Full()|, reply.conflictTerm)
               == LastWithTerm(Full(), lastIncludedIndex, lastIncludedIndex + k + 1, reply.conflictTerm)
      {
        FullTerm(Memory(), persister.snapshot, k);
        if log[k].term == reply.conflictTerm {
          foundConflictTerm := true;
          FullTerm(Memory(), persister.snapshot, k + 1);
          break;
        }
        k := k - 1;
      }
      next := if foundConflictTerm then log[k + 1].index else reply.conflictIndex;
    }

    /** Commits the last entry of the current term that a strict majority holds. */
    method AdvanceCommit()
      requires Valid() && |matchIndex| > 0 && MajorityIndex(matchIndex) < |Full()|
      modifies this`commitIndex
      ensures Valid()
      ensures Abs() == old(Abs()).(commit :=
        LastWithTerm(old(Full()), old(commitIndex), MajorityIndex(matchIndex) + 1, currentTerm))
    {
      hide FullLog, Sorted;
      Offset(Memory(), persister.snapshot);
      var sortMatchIndex := Sorted(matchIndex);
      var maxN := sortMatchIndex[(|sortMatchIndex| - 1) / 2];
      var n := maxN;
      while n > commitIndex
        invariant n <= maxN && commitIndex == old(commitIndex) && Valid() && Abs() == old(Abs())
        invariant n >= commitIndex || n == maxN
        invariant LastWithTerm(Full(), commitIndex, maxN + 1, currentTerm)
           == LastWithTerm(Full(), commitIndex, n + 1, currentTerm)
      {
        assert Full()[n].term == log[n - lastIncludedIndex].term;
        if log[n - lastIncludedIndex].term == currentTerm {
          commitIndex := n;
          break;
        }
        n := n - 1;
      }
    }

    method HandleSnapshotReply(idx: nat, args: SnapArgs, reply: SnapReply)
      requires Valid() && (state == Leader && currentTerm == args.term ==> idx < |nextIndex| && idx < |matchIndex|)
      modifies this`currentTerm, this`votedFor, this`state, this`nextIndex, this`matchIndex, persister`raftState
      ensures Valid() && Abs() == OnInstallReply(old(Abs()), idx, args, reply)
    {
      if state != Leader || currentTerm != args.term {
        return;
      }
      if currentTerm < reply.term {
        GiveWay(reply.term);
        return;
      }
      if reply.accept {
        matchIndex := matchIndex[idx := Max(args.lastIndex, matchIndex[idx])];
        nextIndex := nextIndex[idx := matchIndex[idx] + 1];
      }
    }

    // ---- Compaction and the service ----

    /** The service hands over its state at an index it has executed, to replace the log up to there. */
    method Snapshot(index: nat, data: seq<Entry>)
      requires Valid() && index <= commitIndex && index < |Full()| && data == Full()[..index + 1]
      modifies this`log, this`lastIncludedIndex, this`lastIncludedTerm, persister
      ensures Valid() && Abs() == OnSnapshot(old(Abs()), index)
      ensures index > old(lastIncludedIndex) ==> persister.snapshot == data
    {
      hide FullLog, StateOk;
      if index <= lastIncludedIndex {
        return;
      }
      FullLength(Memory(), persister.snapshot);
      TrimKeeps(Memory(), persister.snapshot, index, data);
      var newLog := [LogEntry("", log[index - lastIncludedIndex].term, index)];
      newLog := newLog + log[index - lastIncludedIndex + 1..];
      log := newLog;
      lastIncludedIndex := newLog[0].index;
      lastIncludedTerm := newLog[0].term;
      Persist();
      persister.SaveStateAndSnapshot(
        RaftState(currentTerm, votedFor, log, lastIncludedIndex, lastIncludedTerm), data);
    }

    /** One round of the apply loop. */
    method ApplyNext() returns (msg: Option<ApplyMsg>)
      requires Valid()
      requires lastApplied < commitIndex && lastApplied + 1 > lastIncludedIndex ==> lastApplied + 1 < |Full()|
      modifies this`lastApplied
      ensures Valid() && Abs() == OnApply(old(Abs())).0
      ensures msg.None? <==> OnApply(old(Abs())).1.None?
      ensures msg.Some? ==> msg.value.commandIndex == lastApplied
      ensures msg.Some? ==> OnApply(old(Abs())).1 == Some(Entry(msg.value.commandTerm, msg.value.command))
    {
      Offset(Memory(), persister.snapshot);
      msg := None;
      if lastApplied < commitIndex {
        lastApplied := lastApplied + 1;
        if lastApplied <= lastIncludedIndex {
          lastApplied := lastIncludedIndex;
          return;
        }
        var entry := log[lastApplied - lastIncludedIndex];
        msg := Some(ApplyMsg(entry.command, lastApplied, entry.term));
      }
    }
  }

  /** Dropping the retained log up to an index drops the full log up to there. */
  lemma CutOffset(r: RaftState, snapshot: seq<Entry>, index: nat)
    requires StateOk(r, snapshot) && r.lastIncludedIndex < index < r.lastIncludedIndex + |r.log|
    ensures index < |FullLog(r, snapshot)|
    ensures Strip(r.log[index - r.lastIncludedIndex + 1..]) == FullLog(r, snapshot)[index + 1..]
  {
  }

  /** A log trimmed at an index, with the entries up to there as snapshot, is the same full log. */
  lemma TrimKeeps(r: RaftState, snapshot: seq<Entry>, index: nat, data: seq<Entry>)
    requires StateOk(r, snapshot) && r.lastIncludedIndex < index < r.lastIncludedIndex + |r.log|
    requires index < |FullLog(r, snapshot)| && data == FullLog(r, snapshot)[..index + 1]
    ensures var term := r.log[index - r.lastIncludedIndex].term;
      var r' := r.(log := [LogEntry("", term, index)] + r.log[index - r.lastIncludedIndex + 1..],
                   lastIncludedIndex := index, lastIncludedTerm := term);
      StateOk(r', data) && FullLog(r', data) == FullLog(r, snapshot)
  {
    Offset(r, snapshot);
    CutOffset(r, snapshot, index);
    var term := r.log[index - r.lastIncludedIndex].term;
    assert FullLog(r, snapshot)[index].term == term;
    var kept := r.log[index - r.lastIncludedIndex + 1..];
    assert ([LogEntry("", term, index)] + kept)[1..] == kept;
  }

  lemma TakeBeyond(a: seq<Entry>, b: seq<Entry>, n: nat)
    requires |a| <= n <= |a| + |b|
    ensures (a + b)[..n] == a + b[..n - |a|]
  {
  }

  lemma FullLength(r: RaftState, snapshot: seq<Entry>)
    requires StateOk(r, snapshot)
    ensures |FullLog(r, snapshot)| == r.lastIncludedIndex + |r.log| && |r.log| > 0
    ensures r.log[|r.log| - 1].index == |FullLog(r, snapshot)| - 1
  {
  }

  lemma FullLast(r: RaftState, snapshot: seq<Entry>)
    requires StateOk(r, snapshot)
    ensures |FullLog(r, snapshot)| > 0 && LastTerm(FullLog(r, snapshot)) == r.log[|r.log| - 1].term
  {
    Offset(r, snapshot);
  }

  lemma FullTerm(r: RaftState, snapshot: seq<Entry>, k: nat)
    requires StateOk(r, snapshot) && k < |r.log|
    ensures r.lastIncludedIndex + k < |FullLog(r, snapshot)|
    ensures FullLog(r, snapshot)[r.lastIncludedIndex + k].term == r.log[k].term
    ensures r.log[k].index == r.lastIncludedIndex + k
  {
    Offset(r, snapshot);
  }

  /** Term and vote are no part of what the log stands for. */
  lemma SameLog(r: RaftState, r': RaftState, snapshot: seq<Entry>)
    requires StateOk(r, snapshot) && r' == r.(currentTerm := r'.currentTerm, votedFor := r'.votedFor)
    ensures StateOk(r', snapshot) && FullLog(r', snapshot) == FullLog(r, snapshot)
  {
  }

  /** A server that never persisted anything, and one without a snapshot. */
  lemma FirstBoot()
    ensures var r := RaftState(0, NOBODY, [LogEntry("", -1, 0)], 0, -1);
      StateOk(r, []) && FullLog(r, []) == [PLACEHOLDER]
    ensures forall r: RaftState :: StateOk(r, []) ==> r.lastIncludedIndex == 0
  {
  }

  /** The retained log, cut at an index and continued by new entries, is still consecutive. */
  lemma SplicedState(r: RaftState, snapshot: seq<Entry>, at: nat, entries: seq<LogEntry>, i: nat)
    requires StateOk(r, snapshot) && 0 < at <= |r.log| && i <= |entries|
    requires forall k :: i <= k < |entries| ==> entries[k].index == r.lastIncludedIndex + at + k - i
    ensures StateOk(r.(log := r.log[..at] + entries[i..]), snapshot)
  {
    hide Covered;
  }

  /** It stands for the full log, cut and continued the same way. */
  lemma SplicedFull(r: RaftState, snapshot: seq<Entry>, at: nat, entries: seq<LogEntry>, i: nat)
    requires StateOk(r, snapshot) && 0 < at <= |r.log| && i <= |entries|
    requires StateOk(r.(log := r.log[..at] + entries[i..]), snapshot)
    requires r.lastIncludedIndex + at <= |FullLog(r, snapshot)|
    ensures FullLog(r.(log := r.log[..at] + entries[i..]), snapshot)
         == FullLog(r, snapshot)[..r.lastIncludedIndex + at] + Strip(entries)[i..]
  {
    hide Strip, Covered;
    CoveredLength(r, snapshot);
    StripLength(r.log[1..]);
    StripLength(entries);
    Splice(r.log, at, entries, i);
    TakeBeyond(Covered(snapshot), Strip(r.log[1..]), r.lastIncludedIndex + at);
  }

  lemma CoveredLength(r: RaftState, snapshot: seq<Entry>)
    requires StateOk(r, snapshot)
    ensures |Covered(snapshot)| == r.lastIncludedIndex + 1
  {
  }

  lemma StripLength(log: seq<LogEntry>)
    ensures |Strip(log)| == |log|
  {
  }

  /** Splicing the retained log at the first mismatch is merging into the full one. */
  lemma MergeOffset(r: RaftState, snapshot: seq<Entry>, prev: nat, entries: seq<LogEntry>, i: nat)
    requires StateOk(r, snapshot) && r.lastIncludedIndex <= prev < r.lastIncludedIndex + |r.log|
    requires forall k :: 0 <= k < |entries| ==> entries[k].index == prev + 1 + k
    requires prev < |FullLog(r, snapshot)| && i < |entries|
    requires i == FirstMismatch(FullLog(r, snapshot), prev, Strip(entries))
    ensures prev + 1 + i - r.lastIncludedIndex <= |r.log|
    ensures var r' := r.(log := r.log[..prev + 1 + i - r.lastIncludedIndex] + entries[i..]);
      StateOk(r', snapshot) && FullLog(r', snapshot) == Merge(FullLog(r, snapshot), prev, Strip(entries))
  {
    hide FirstMismatch, FullLog, StateOk, Strip;
    FullLength(r, snapshot);
    StripLength(entries);
    SplicedState(r, snapshot, prev + 1 + i - r.lastIncludedIndex, entries, i);
    SplicedFull(r, snapshot, prev + 1 + i - r.lastIncludedIndex, entries, i);
  }

  lemma Splice(log: seq<LogEntry>, at: nat, entries: seq<LogEntry>, i: nat)
    requires 0 < at <= |log| && i <= |entries|
    ensures Strip((log[..at] + entries[i..])[1..]) == Strip(log[1..])[..at - 1] + Strip(entries)[i..]
  {
  }

  /** What a reboot makes of the persisted raft state and snapshot. */
  ghost function Recovered(saved: Option<RaftState>, snapshot: seq<Entry>): Server
    requires saved.Some? ==> StateOk(saved.value, snapshot)
  {
    if saved == None then InitServer()
    else
      var r := saved.value;
      InitServer().(term := r.currentTerm, vote := r.votedFor, log := FullLog(r, snapshot),
                    snap := r.lastIncludedIndex, commit := r.lastIncludedIndex, lastApplied := r.lastIncludedIndex)
  }

  /** Nothing that matters is lost in a crash: rebooting from what any handler left behind gives
      the same server, less its volatile state. */
  lemma RebootLosesOnlyVolatile(r: Raft)
    requires r.Valid()
    ensures Recovered(r.persister.raftState, r.persister.snapshot) == OnRestart(r.Abs())
  {
  }
}

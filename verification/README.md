# Verified models of the distributed-systems labs

This project models the parts of the repository whose correctness is hard to see from any one
function, and proves what they promise over all inputs and all runs. `dafny verify dfyconfig.toml`
checks it. It falls into five independent parts.

**Raft with log compaction** (`Raft*.dfy`, for `src/raft/raft.go`). `RaftServer` has one function for
each handler, on the whole log of a server; `RaftNode` has the server itself, a class whose methods
change the offset-based log, the volatile state and the persister step by step, each proved to do what
the function says on the log it stands for (the entries covered by the snapshot followed by the retained
ones). `RaftRefinement` puts such objects into a cluster. `RaftCluster` puts any number of servers into a
network that loses, delays, repeats and reorders messages, with crashes and restarts at any point; a step
that touched an index out of bounds could lead anywhere, so that the invariant has to exclude it.
`RaftInvariant`, `RaftMajority`, `RaftProof`, `RaftVoting`, `RaftLeading` and `RaftFollowing` hold the
invariant and its preservation, `RaftSafety` the theorems about whole runs, `RaftCompaction` what
compacting a log changes, and `RaftWitness` runs that show that the exceptions are real and that clusters
do commit. `RaftElection` and `RaftExchange` say what the handlers have to answer and change, without
naming them; on that rest the theorems that something good can still happen: `RaftElection` that every run
goes on to one that elects a leader, `RaftProgress` that a leader can bring its followers up to date and
have a command carried out everywhere, and `RaftStuck` exactly when compaction prevents it.

**The linearizability checker** (`Porcupine*.dfy`, for `src/porcupine` and `src/models/kv.go`).
`PorcupineBitset` has the words changed in place, `PorcupineLinks` the doubly linked list and its lift and
unlift, `PorcupineChecker` the search with its stack, cache and list, all on the heap; `PorcupineSearch`
what the search keeps true. The specification in `PorcupineHistory` and `PorcupineEntries` is the plain
definition: some order of all operations respects real time and is accepted. `PorcupineKv` proves that
checking key by key loses nothing. `PorcupineStore` has the whole check, and what its verdict means for a
key-value store in terms of the writes alone: `KvWrites` has the text a list of puts and appends leaves.

**Shard migration** (`ShardKv*.dfy`, for `src/shardkv`). Each group is one replicated state machine
(`ShardKvServer` as functions, `ShardKvNode` as the class they specify). `ShardKvCluster` has many groups,
each at its own configuration, that exchange migration and acknowledgement messages which may be late,
lost or repeated. A group keeps all states it has been in, and whoever reads a state to answer a message
or to poll may be reading an old one, as a lagging replica or a deposed leader does. `ShardKvSafety` has the
theorems about ownership and execution, `ShardKvValues` what is stored and read, `ShardKvReplies` what
clients are answered, `ShardKvLinear` linearizability, `ShardKvWitness` a run in which a client waits for
ever, and `ShardKvProgress` the handshakes and when the groups can go on to a later configuration.

**Rebalancing** (`Rebalance*.dfy` and `ShardMaster*.dfy`, for `src/shardmaster`), for any number of shards:
the bubble sort, the release pass and the assign pass on arrays, against a function of the set of groups
alone, and what that function achieves, with or without a group numbered 0. `ShardMasterLog` says what a
log of commands comes to, by the commands in it.

**MapReduce** (`MapReduce*.dfy`, for `src/mr` and `src/main/mrsequential.go`): the master as a class, the
loops of a worker, and runs with timeouts, crashed workers and repeated executions, against the sequential
program. `MapReduceProgress` says which task the master gives out when, and `MapReduceFinish` that every
run can still finish.

## Assumptions

- Raft: `Start` (reading the term and appending), winning an election (counting, checking again and
  converting), building the arguments of an append from the captured term, and reading snapshot bytes and
  last included index are one atomic step each; `persist` followed by `SaveStateAndSnapshot` is one write;
  an entry is handed to the service in the step that moves `lastApplied`; a snapshot's data are the
  entries it covers; a service snapshots only what was applied.
- Checker: the state and step function are given as a total function with `==` on states. Histories have
  ids 0 to n-1, each with one call before one return, and distinct timestamps, `sort.Sort` not being stable.
- Shards: testing readiness and reading the current configuration is one atomic step. Configuration 1
  gives every shard to a real group, and configuration numbers name the same configuration everywhere. A
  client's n-th command is the same however often it is sent, and a client goes on only when it has its
  answer.
- Rebalancing: a query number is -1 or more.
- MapReduce: the map function gives the same pairs every time, in any order; the reduce function does not
  depend on the order of the values; renaming a file is atomic; there is at least one reduce task.

## What the proofs showed about the code

- `GetTask` of a fresh master with no reduce task answers with exit at once, whatever files there are;
  `MapReduceRun.ExitAtOnce` states that this happens exactly when `nReduce` is 0.
- A follower commits up to its own last index, not the last new entry as in Figure 2 of the Raft paper.
  `RaftSafety.FollowerCommitJustified` shows that in every reachable state the weaker bound makes no
  difference.
- Compacting a log shows in two places, and only there. A follower that refuses an append for a term that
  begins before the last entry of its snapshot hints at that entry in place of the term's first
  (`RaftCompaction.CompactionInvisible`). A leader that has the conflicting term only under its snapshot
  goes back to the hint in place of just past the term's last entry, unless the follower has confirmed
  something already (`RaftCompaction.BackupAfterCompaction`). Both conditions are exact, and
  `RaftWitness` has a run that comes to both.
- A cluster can commit exactly when it has two servers or more, since the commit rule runs only on a reply
  (`RaftWitness.CommitsUnlessAlone`).
- `Append` to an absent key stores the value but answers `ErrNoKey`, which the clerk does not accept, and
  every repeat gets the same answer: the command is executed once and the client waits for ever.
  `ShardKvReplies.AcceptedUnlessAbsent` states that these are exactly the writes a clerk does not accept,
  and `ShardKvWitness.ClientStuck` has a run with one.
- `Move` is not checked against the groups; `ShardMaster.HomedUnlessStray` states exactly when a
  configuration names a group it does not have, and `ShardMaster.StrayMove` has a log after which one does.
- A check of an empty history without a timeout never answers (`PorcupineStore.CheckHistory`).
- A follower that is compacted to the same entry as its leader, and goes on with that entry's term where the
  leader does not, is never brought up to date by it: the leader's next index goes back to the snapshot, and
  the follower refuses a snapshot that is no longer than its own. `RaftStuck.CatchesUnlessStuck` states that
  this is the only obstacle, and `RaftStuck.StuckHappens` has a run that comes to it.
- A configuration that gives a shard to no group, as after the last one left, stops the shard's owner for
  good, since it waits for somebody to take the shard. `ShardKvProgress.GoesOnUnlessUnassigned` states that
  the groups can go on to a configuration exactly when none up to it does that.
- `Join` accepts a group 0, which the code also uses to mark a free shard. The result is balanced and stable
  all the same, but may move more shards than it has to: `RebalanceZero.MinimalExactly` states that it always
  moves as few as it can exactly when 0 is no group, or the only one, or there is at most one shard, and
  `ShardMaster.ZeroLogMovesMore` has a log that comes to such an input.

## Model

| member | source | states |
|---|---|---|
| RaftSafety.StateMachineSafety | src/raft/raft.go:1180-1215 | at any two moments of any run, no two servers commit different entries at one index, and of what two services were handed one is a prefix of the other, snapshots counted as the entries they cover |
| RaftSafety.LeaderCompleteness | src/raft/raft.go:674-690 | whatever any server has committed at any moment is in the log of every leader of a later term, elected before or after that moment |
| RaftSafety.ElectionSafety | src/raft/raft.go:771-826 | over whole runs with crashes and restarts, two leaders of one term are the same server |
| RaftSafety.LogMatching | src/raft/raft.go:874-934 | at any two moments, logs that have the same term at an index are equal up to it |
| RaftSafety.LeaderAppendOnly | src/raft/raft.go:1147-1175 | while a server leads a term its log is only extended |
| RaftSafety.FollowerCommitJustified | src/raft/raft.go:941-944 | every append says as committed no more than it covers, and the follower's commit index becomes that or stays |
| RaftCompaction.CompactionInvisible | src/raft/raft.go:876-934 | in every reachable state a follower with a compacted log ends an append with the log, commit index and reply it would have with the whole log, except that its hint is never below the last entry of the snapshot; the replies differ exactly when the conflicting term begins before that entry |
| RaftCompaction.BackupAfterCompaction | src/raft/raft.go:638-664 | in every reachable state a leader with a compacted log handles a reply as it would with the whole log, except exactly when the conflicting term ends under its snapshot, nothing is confirmed by the follower and the hint is below the next index; then it goes on at the hint and not just past the term's last entry |
| RaftCompaction.HintBelow | src/raft/raft.go:638-656 | in that case the hint is at or before the term's last entry in the leader's log, and is an entry of that term there |
| RaftWitness.FollowerHintDiffers | src/raft/raft.go:880-910 | a run comes to a follower whose hint differs by compaction |
| RaftWitness.LeaderBackupDiffers | src/raft/raft.go:638-664 | a run comes to a leader whose next index differs by compaction |
| RaftWitness.CommitsUnlessAlone | src/raft/raft.go:668-690 | some run of n servers commits a command exactly when n is at least 2 |
| RaftRefinement.HandlersMayBeCalled | src/raft/raft.go:771-1036 | in every reachable state, an object that stands for a server meets the precondition of every handler, for every message there is for it |
| RaftRefinement.Handle | src/raft/raft.go:771-1036 | whichever message it handles, the object then stands for the server after that step of the cluster |
| RaftRefinement.BeginRound | src/raft/raft.go:546-554 | a round of appends begins as the cluster's step does |
| RaftRefinement.SendTo | src/raft/raft.go:575-606 | what an object sends to a peer is the message of the cluster's step, entries or snapshot |
| RaftSafety.InstallKeepsCommit | src/raft/raft.go:1003-1024 | an installed snapshot never lowers the commit index nor changes a committed entry, also where the terms differ and the rest of the log is dropped |
| RaftSafety.NextIndexBounds | src/raft/raft.go:668-676 | for every peer of every reachable leader, match index is below next index, which is at most one past the last entry, and the peer has confirmed what is recorded as matching |
| RaftSafety.RefusalLowersNext | src/raft/raft.go:633-664 | in every reachable state a refusal at a position neither confirmed already nor above what is sent next lowers the next index of that peer to that position or below, above its match index; it changes nothing else |
| RaftSafety.NoPanic | src/raft/raft.go:546-697 | no step of any run touches an index out of bounds, the entry after the conflict term included |
| RaftSafety.RunInv | src/raft/raft.go:831-949 | the invariant holds in every state of every run |
| RaftSafety.RunGrows | src/raft/raft.go:155-180 | terms, recorded votes, leaders' logs and confirmations are never taken back in a run |
| RaftSafety.LoneServerNeverCommits | src/raft/raft.go:668-690 | a cluster of one server commits nothing in any run |
| RaftElection.EitherGives | src/raft/raft.go:800-823 | of two servers at least one gets the other's vote at a new term, and both do exactly when their logs end with the same index and term |
| RaftElection.NewerGiven | src/raft/raft.go:800-814 | a newer last term gets the vote however long the voter's log is, and so does a log that extends the voter's |
| RaftElection.VoteExactly | src/raft/raft.go:771-826 | at its own term a server votes as at a new one unless it voted for another; an old term is refused; a vote given is given again; a refusal changes nothing but for a newer term |
| RaftElection.CandidacyExactly | src/raft/raft.go:307-336 | standing moves on by one term with one's own vote, every voter is counted once and only for this term, and a winner starts with nothing known of its peers |
| RaftElection.SomePreferred | src/raft/raft.go:800-823 | in every reachable state there is a server to which every other would give its vote at any new term |
| RaftElection.AlwaysElects | src/raft/raft.go:411-516 | every run goes on to one in which a server has just been elected at a term above all others, followed by all, with every log as it was |
| RaftExchange.AppendExactly | src/raft/raft.go:831-949 | an append of the server's or a newer term is accepted exactly when the previous entry is there; a refusal names the end of the log, or the conflicting term and where it begins |
| RaftExchange.InstallExactly | src/raft/raft.go:952-1000 | a snapshot is accepted exactly when it is not of an old term, reaches further than what is compacted, and the service is not installing one |
| RaftExchange.UnheededExactly | src/raft/raft.go:620-632 | replies to old requests are dropped, and one of a newer term ends the office |
| RaftExchange.SuccessExactly | src/raft/raft.go:668-692 | after a success the peer matches what was sent, or more if it did, and the commit index is the highest a majority matches in the leader's term, unless it was higher |
| RaftExchange.RefusalExactly | src/raft/raft.go:633-664 | the leader goes back to just after its last uncompacted entry of the conflicting term, or to the follower's hint if it has none, provided that lies between match and next index |
| RaftExchange.SnapshotConfirmed | src/raft/raft.go:759-764 | an accepted snapshot moves that peer's match index up to its last entry, or leaves it higher, and the next index just past it; a refused one changes nothing |
| RaftExchange.AloneExactly | src/raft/raft.go:1045-1215 | only a leader takes a command, as its last entry; compaction never goes back; entries go to the service one by one in order, or by a jump to the snapshot |
| RaftProgress.BroughtUpToDate | src/raft/raft.go:575-606 | in every reachable state an accepted append leaves the follower with the whole of the leader's log, and all it knows committed |
| RaftProgress.CatchUp | src/raft/raft.go:575-766 | unless the two are stuck, appends, refusals and snapshots in turn bring a follower the leader knows nothing of up to date |
| RaftProgress.CanDeliver | src/raft/raft.go:546-766 | however the logs and terms came to differ, a run goes on to one in which a new command was carried out by every service, under a preferred server with which nobody is stuck |
| RaftStuck.CatchesUnlessStuck | src/raft/raft.go:581-664 | a preferred server, once elected and without compacting further, can bring another up to date exactly when the two are not stuck |
| RaftStuck.WedgedOn | src/raft/raft.go:581-664 | while that leader is in office no message between the two is of use, over any steps of the whole cluster |
| RaftStuck.StuckHappens | src/raft/raft.go:993-997 | a run comes to a preferred server and another one that are stuck |
| RaftStuck.DeliversUncompacted | src/raft/raft.go:546-697 | in any run of two or more servers that have compacted nothing, a command can still be carried out everywhere |
| RaftMajority.MajorityIndexExact | src/raft/raft.go:680-684 | the sorted match index at (n-1)/2 is the largest index that a strict majority has reached |
| RaftProof.CommitRuleChooses | src/raft/raft.go:684-690 | an entry of the current term at or below that index is confirmed by a majority in this term |
| RaftProof.ConflictBeforeEnd | src/raft/raft.go:643-656 | the backward scan that finds the conflict term stops before the last entry, so the entry after it exists |
| RaftVoting.TermNotYetWon | src/raft/raft.go:502-516 | a term that a candidate is about to win has had no leader |
| RaftVoting.WinnerHolds | src/raft/raft.go:800-823 | the log of a candidate with a majority of votes has every entry chosen in an earlier term |
| RaftFollowing.MergeIsAdopt | src/raft/raft.go:912-934 | cutting at the first mismatch and appending leaves the log as it was where it agreed, and the leader's prefix otherwise |
| RaftFollowing.CommittedInLeader | src/raft/raft.go:831-949 | what a follower has committed is in the log of the leader it hears from |
| RaftNode.Raft.constructor | src/raft/raft.go:1288-1330 | booting gives the recovered server, with what is persisted equal to what is in memory |
| RaftNode.RebootLosesOnlyVolatile | src/raft/raft.go:188-250 | rebooting from what any handler left behind is the same server less its volatile state |
| RaftNode.Raft.Convert2Candidate | src/raft/raft.go:307-317 | new term, own vote, persisted |
| RaftNode.Raft.RequestVote | src/raft/raft.go:771-826 | on the retained log and persister, what OnVoteRequest does on the whole log, with the new vote persisted |
| RaftNode.Raft.HandleVoteReply | src/raft/raft.go:462-500 | a stale reply is dropped, a newer term makes a follower, a vote is counted once per voter |
| RaftNode.Raft.Convert2Leader | src/raft/raft.go:321-336 | next and match index start one past the last entry and at 0 |
| RaftNode.Raft.AppendEntries | src/raft/raft.go:831-949 | every branch on the offset log simulates the handler on the whole log |
| RaftNode.Raft.CheckConsistency | src/raft/raft.go:880-910 | which of the three refusals is answered, with its conflict term and first index |
| RaftNode.Raft.RepairLog | src/raft/raft.go:912-934 | the retained log stands for the merged whole log |
| RaftNode.Raft.CondInstallSnap | src/raft/raft.go:952-1036 | accepting, refusing and replacing the log, as on the whole log |
| RaftNode.Raft.Snapshot | src/raft/raft.go:1045-1090 | trimming the log changes what is retained and not what it stands for |
| RaftNode.Raft.Start | src/raft/raft.go:1147-1175 | a leader appends and persists, anybody else changes nothing |
| RaftNode.Raft.PrepareAppend | src/raft/raft.go:575-606 | the entries sent are those of the whole log from next index on, or a snapshot is due |
| RaftNode.Raft.UpdateOwnMatch | src/raft/raft.go:548-554 | the leader counts its own last entry as matching |
| RaftNode.Raft.PrepareSnapshot | src/raft/raft.go:719-725 | the snapshot sent covers the log up to the last included index |
| RaftNode.Raft.HandleAppendReply | src/raft/raft.go:620-692 | the reply handling, fast backup and commit rule on the offset log |
| RaftNode.Raft.AdvanceCommit | src/raft/raft.go:678-690 | the loop finds the highest index of the current term that the rule allows |
| RaftNode.Raft.HandleSnapshotReply | src/raft/raft.go:741-766 | an accepted snapshot moves match and next index forward only |
| RaftNode.Raft.ApplyNext | src/raft/raft.go:1180-1215 | the next committed entry, or the jump over what a snapshot covers |
| PorcupineChecker.CheckSingle | src/porcupine/checker.go:174-248 | terminates; unless killed, true exactly when the history is linearizable; every reported partial linearization is legal, and with computePartial a longest legal one through its operation |
| PorcupineChecker.TryCall | src/porcupine/checker.go:189-211 | a call is entered, or skipped because the step refuses it or its pair is cached, and the search measure goes down |
| PorcupineChecker.Backtrack | src/porcupine/checker.go:212-238 | the last call is put back and what was entered below it stays excluded |
| PorcupineChecker.CacheContains | src/porcupine/checker.go:140-147 | looking in one bucket is looking in the whole cache |
| PorcupineChecker.HoldsIffInCache | src/porcupine/checker.go:140-147 | a set and state are found exactly when that pair was cached, whatever the hash |
| PorcupineChecker.RecordLongest | src/porcupine/checker.go:216-230 | every operation on the stack keeps the longest stack it was on |
| PorcupineSearch.LegalCached | src/porcupine/checker.go:198-204 | when the search stops without a stack, the end of every legal path is cached, and none is complete |
| PorcupineSearch.StuckNotLinearizable | src/porcupine/checker.go:213-215 | stopping on a return with an empty stack is right: no order exists |
| PorcupineSearch.EmptyLinearizes | src/porcupine/checker.go:239-247 | when the list is empty the stack is a linearization |
| PorcupineSearch.LongestMaximal | src/porcupine/checker.go:216-230 | after a false verdict no legal path through an operation is longer than its recorded one |
| PorcupineSearch.PushKeeps | src/porcupine/checker.go:198-205 | entering a pair keeps the invariant of the search |
| PorcupineSearch.PopKeeps | src/porcupine/checker.go:231-237 | so does going back |
| PorcupineHistory.LinearizationIsLegal | src/porcupine/checker.go:239-247 | a linearization is exactly a legal path of full length |
| PorcupineLinks.Lift | src/porcupine/checker.go:154-162 | takes a call and its return out of the list without following nil, adjacent or not |
| PorcupineLinks.Unlift | src/porcupine/checker.go:164-172 | in stack order, restores the list that was there before the lift |
| PorcupineLinks.LinkedDetermines | src/porcupine/checker.go:154-172 | which nodes are out, in which order, fixes every link |
| PorcupineLinks.MakeLinkedEntries | src/porcupine/checker.go:116-133 | a list of one node per entry, linked both ways, every call matched with its return |
| PorcupineLinks.InsertBefore | src/porcupine/checker.go:65-76 | the links around the new node |
| PorcupineLinks.Length | src/porcupine/checker.go:78-85 | the number of nodes |
| PorcupineBitset.Set | src/porcupine/bitset.go:29-33 | adds exactly that number to the set the words stand for |
| PorcupineBitset.Clear | src/porcupine/bitset.go:35-39 | removes exactly that number |
| PorcupineBitset.Get | src/porcupine/bitset.go:41-44 | whether the number is in the set |
| PorcupineBitset.NewBitset | src/porcupine/bitset.go:10-17 | the empty set, with room for all numbers |
| PorcupineBitset.Clone | src/porcupine/bitset.go:19-23 | new words with the same content |
| PorcupineBitset.Equals | src/porcupine/bitset.go:62-72 | true exactly for equal words, which for one length is for equal sets |
| PorcupineBitset.SameMembersSameWords | src/porcupine/bitset.go:62-72 | one set has only one representation of a given length |
| PorcupineBitset.Hash | src/porcupine/bitset.go:54-60 | a function of the words, from the count of bits and all words |
| PorcupineEntries.MakeEntries | src/porcupine/checker.go:43-55 | a call and a return for every operation, in time order |
| PorcupineEntries.EntriesWellFormed | src/porcupine/checker.go:43-55 | with distinct times these entries are a history the check accepts |
| PorcupineEntries.SameVerdict | src/porcupine/checker.go:360-368 | the list of entries is linearizable exactly when the operations are |
| PorcupineEntries.Renumber | src/porcupine/checker.go:87-101 | ids become 0, 1, 2 in order of appearance, equal ids stay equal and different ones different |
| PorcupineVisualization.ReplayPartial | src/porcupine/visualization.go:60-76 | the replay loop panics exactly on a sequence that is not accepted |
| PorcupineVisualization.ReplayLongest | src/porcupine/visualization.go:60-76 | it never panics on what a check reports |
| PorcupineKv.Locality | src/porcupine/model.go:28-31 | a history is linearizable as one store exactly when every key's list is linearizable as one value |
| PorcupineKv.OrdersMerge | src/models/kv.go:18-36 | orders of the single keys always merge into one that respects real time |
| PorcupineKv.NextToMerge | src/models/kv.go:18-36 | the key of the operation that returns first has a next operation that nothing left precedes |
| PorcupineKv.OrderSplits | src/models/kv.go:18-36 | an order of the whole history gives an order for every key |
| PorcupineKv.StoreFollowsKeys | src/models/kv.go:42-54 | after any path the store has under a key what that key's operations alone leave |
| PorcupineKv.Partition | src/models/kv.go:18-36 | one list for every key in the history, of its operations in order, in the order of the keys |
| PorcupineStore.AcceptedExactly | src/models/kv.go:42-54 | the store accepts an order of operations exactly when every get in it returns the last put's value followed by those of the later appends to its key, or the empty string when nothing was written |
| PorcupineStore.LinearizableExactly | src/models/kv.go:38-54 | so a history is linearizable exactly when some order of all operations respects real time and explains every get that way |
| PorcupineStore.CheckHistory | src/porcupine/checker.go:360-368 | splitting, making entries and searching answers yes exactly for histories that can be so explained, and, as without a timeout, never answers for the empty one |
| PorcupineStore.StaleReadRejected | src/models/kv.go:44-46 | a get that begins after a put was completed, all other writes on the key having ended before that put began, and returns another value makes the history not linearizable |
| ShardKvSafety.OneOwner | src/shardkv/server.go:388-427 | in every run at most one group has a shard in Exist |
| ShardKvSafety.ServedCopy | src/shardkv/server.go:310-354 | the copy served is the writes executed so far, each once and in order, and its records turn away all of them |
| ShardKvSafety.ExactlyOnce | src/shardkv/client.go:124-127 | a write that was answered, or that its client has moved past, was executed exactly once, on the shard of its key and on no other |
| ShardKvSafety.AtMostOnce | src/shardkv/server.go:308-313 | no write is executed twice, however often it is submitted, applied or migrated |
| ShardKvSafety.NoShardLost | src/shardkv/server.go:416-425 | once handed out, a shard always has an up-to-date copy that is served or kept for the next owner |
| ShardKvSafety.TakenCopyFresh | src/shardkv/server.go:703-730 | a migrated copy that would still be taken over is up to date, even if made late or by a replica that lags |
| ShardKvSafety.OneConfigAtATime | src/shardkv/server.go:572-588 | a group takes only the next configuration, and only when none of its shards is on the way |
| ShardKvSafety.GetSeesAll | src/shardkv/server.go:318-326 | a get that is answered returns the value after all writes executed so far |
| ShardKvSafety.StepInv | src/shardkv/server.go:367-431 | every step of every group, message and client keeps the invariant |
| ShardKvValues.ReplayHolds | src/shardkv/server.go:318-343 | after any commands a key is there exactly when one wrote it, with the last put's value followed by those of the later appends, or all appends if there was no put |
| ShardKvValues.WrittenExactly | src/shardkv/server.go:318-343 | there are such writes exactly when some command on that key is not a get |
| ShardKvValues.OtherKeys | src/shardkv/server.go:318-343 | a command leaves every other key alone |
| ShardKvValues.GetReturnsWritten | src/shardkv/server.go:318-326 | in every run a get is answered exactly where the shard is served, and with that text of the writes executed so far |
| ShardKvProgress.AckExactly | src/shardkv/server.go:825-856 | asked whether it has come to hold a shard, its owner in a configuration answers not ready before it gets there, and from then on exactly whether it has |
| ShardKvProgress.WaitingServed | src/shardkv/server.go:689-734 | the owner before of a shard that a group waits for is not past that configuration, and in it answers with an up-to-date copy |
| ShardKvProgress.MovesExactly | src/shardkv/server.go:399-426 | a shard is taken over, or cleared once given, exactly when the group waits for that in that configuration; other shards stay as they are |
| ShardKvProgress.GoesOnUnlessUnassigned | src/shardkv/server.go:562-676 | from any state of any run, all groups can go on to a configuration with all migrations up to it done, exactly when no configuration up to it leaves a shard to nobody |
| ShardKvProgress.NobodyTakes | src/shardkv/server.go:755-822 | the owner of a shard that the next configuration gives to nobody never gets past it |
| ShardKvProgress.CanBeAnswered | src/shardkv/server.go:284-363 | whatever has become of it so far, a client's current command can still be answered, if no configuration up to one that no group has passed leaves a shard to nobody |
| ShardKvApply.OnlyOwner | src/shardkv/server.go:96-102 | the invariant leaves room for one owner |
| ShardKvApply.GetLevel | src/shardkv/server.go:399-415 | when a shard is taken over its last owner is the one before, nobody serves it, and the copy is up to date |
| ShardKvApply.ConfigLevel | src/shardkv/server.go:452-484 | a new configuration moves a shard's holder only to the next owner, while nobody else has it |
| ShardKvKeeps.ConfiguredShard | src/shardkv/server.go:452-484 | each of the six cases of a shard under a new configuration is sound |
| ShardKvKeeps.GivenShard | src/shardkv/server.go:421-426 | data are cleared only after the next owner came to hold the shard |
| ShardKvKeeps.RepeatDone | src/shardkv/server.go:308-313 | a write turned away by a record was executed before |
| ShardKvProof.AnswerMigrateInv | src/shardkv/server.go:689-734 | whatever state the answering replica is in, the reply carries a frozen copy |
| ShardKvProof.AnswerAckInv | src/shardkv/server.go:825-856 | an acknowledgement is true of the receiver now and later |
| ShardKvProof.PollInv | src/shardkv/server.go:562-594 | a configuration proposed from a ready state finds the group ready when applied |
| ShardKvServer.NewerCovers | src/shardkv/server.go:411-415 | merging records never lowers a client's number and invents none |
| ShardKvReplies.AnswerIsOfTheExecution | src/shardkv/server.go:308-350 | any answer that a waiting client can receive to a write is the reply its one execution gave, through repeats, lagging replicas and migrated records |
| ShardKvReplies.AcceptedUnlessAbsent | src/shardkv/client.go:124-127 | the clerk accepts the answer to an executed write exactly when that was not an append to an absent key |
| ShardKvReplies.AbsentAppendWaits | src/shardkv/server.go:334-342 | the client of such an append is at that command in every later state |
| ShardKvReplies.RepeatReply | src/shardkv/server.go:308-313 | a repeat is answered from the client's latest record, which is that of the repeated command if the client still waits for it |
| ShardKvWitness.ClientStuck | src/shardkv/server.go:334-342 | a run in which an append to an absent key is executed and answered, and no answer lets its client go on |
| ShardKvLinear.AnsweredAtAPoint | src/shardkv/server.go:284-363 | whatever a waiting client is answered, its command took effect at one step after it was issued and before the answer, with that reply |
| ShardKvLinear.PointsKeepRealTime | src/shardkv/server.go:284-363 | a command that is issued after another was answered takes effect after it |
| ShardKvLinear.OnlyPointsChange | src/shardkv/server.go:284-363 | the content of a shard changes only at a step at which a write takes effect |
| ShardKvNode.ShardKV.ExecuteClientCmd | src/shardkv/server.go:284-363 | does what OnClientCmd says; on a shard not owned nothing changes, logLastApplied included |
| ShardKvNode.ShardKV.ExecuteConfigCmd | src/shardkv/server.go:367-431 | each of the three commands, applied once per log index |
| ShardKvNode.ShardKV.UpdateShardState | src/shardkv/server.go:452-484 | the loop gives every shard its next state, and moves the configurations on |
| ShardKvNode.ShardKV.MergeSessions | src/shardkv/server.go:411-415 | the loop takes over exactly the newer records |
| ShardKvNode.ShardKV.UpdateConfigReady | src/shardkv/server.go:599-608 | true exactly when every shard is stable |
| ShardKvNode.ShardKV.MigrateShard | src/shardkv/server.go:689-734 | wrong leader, not ready, no answer, or the copy and records, by comparing configuration numbers |
| ShardKvNode.ShardKV.AckReceiveShard | src/shardkv/server.go:825-856 | wrong leader, not ready, received, or not yet received |
| RebalanceProof.RebalancedIsBalanced | src/shardmaster/server.go:446-549 | every shard ends in a group, and every group with the floor or ceiling of its share |
| RebalanceProof.RebalancedKeepsMost | src/shardmaster/server.go:446-549 | no balanced assignment leaves more shards with surviving groups, unless a group 0 among others does harm |
| RebalanceProof.BalancedStays | src/shardmaster/server.go:493-548 | a balanced assignment over the same groups is returned unchanged |
| RebalanceProof.FilledCount | src/shardmaster/server.go:524-547 | in the assign pass the groups served so far have their targets, and the free shards are what the others lack, plus what a group 0 keeps |
| RebalanceProof.FilledTargets | src/shardmaster/server.go:524-547 | in the end every group has its target, a group 0 too |
| RebalanceProof.ReleasedCount | src/shardmaster/server.go:493-521 | after the release pass every group other than 0 has the lesser of its count and its target |
| RebalanceProof.TargetsKeep | src/shardmaster/server.go:479-489 | in sorted order the groups that get one more are those that had most |
| RebalanceProof.RebalancedHomes | src/shardmaster/server.go:446-549 | whatever the groups are numbered, a shard ends free or in one of them |
| RebalanceZero.GroupZeroMovesMore | src/shardmaster/server.go:493-547 | the least input at which a group 0 makes the result move a shard it need not |
| RebalanceZero.MinimalExactly | src/shardmaster/server.go:446-549 | for n shards over these groups the result always keeps as many shards as any balanced assignment exactly when 0 is no group, or the only one, or n is at most 1 |
| RebalanceZero.LoneZeroFails | src/shardmaster/server.go:493-547 | otherwise it fails where shard 0 alone was with group 0 and the rest with a group that left |
| RebalancePlan.OrderUnique | src/shardmaster/server.go:469-489 | there is one sorted order of the groups |
| ShardMaster.ShardLoadBalance | src/shardmaster/server.go:446-549 | the result is a function of the groups and the last assignment, whatever order the map is ranged over in |
| ShardMaster.SortGids | src/shardmaster/server.go:479-489 | the bubble sort gives that order |
| ShardMaster.ChangeShards | src/shardmaster/server.go:509-519 | exactly the first delta shards of the group are changed |
| ShardMaster.TwoPasses | src/shardmaster/server.go:493-547 | the release pass, then the assign pass |
| ShardMaster.ShardMasterServer.ApplyConfigChange | src/shardmaster/server.go:291-340 | one log entry: repeated commands are answered from the session, others executed and recorded |
| ShardMaster.ShardMasterServer.ExecuteJoin | src/shardmaster/server.go:356-375 | a new configuration over the old and the joining groups, rebalanced |
| ShardMaster.ShardMasterServer.ExecuteLeave | src/shardmaster/server.go:377-399 | a new configuration without the leaving groups, rebalanced, or all free |
| ShardMaster.ShardMasterServer.ExecuteMove | src/shardmaster/server.go:401-416 | a new configuration that differs in one shard |
| ShardMaster.ShardMasterServer.ExecuteQuery | src/shardmaster/server.go:418-426 | the configuration of that number, or the newest |
| ShardMaster.RepeatHasNoEffect | src/shardmaster/server.go:305-340 | a command that is in the log twice takes effect once |
| ShardMasterLog.EffectExactly | src/shardmaster/server.go:305-340 | a command is turned away exactly when its client gave one with that number or a later one before, and is answered alike |
| ShardMasterLog.ConfigsCount | src/shardmaster/server.go:356-416 | there is one configuration for every change that took effect, and the first |
| ShardMasterLog.QueryExactly | src/shardmaster/server.go:418-426 | a query for a number that exists gets the configuration that was the newest once that many changes had taken effect, which has that number, and any other query the newest |
| ShardMasterLog.SameAnswer | src/shardmaster/server.go:418-426 | two queries for the same existing number get the same answer wherever they are in the log |
| ShardMasterLog.GroupsAre | src/shardmaster/server.go:356-399 | a group is there exactly when the last command about it that took effect was a join, with the servers that join gave |
| ShardMasterLog.MovesOne | src/shardmaster/server.go:401-416 | a move changes the group of its shard alone; a query and a repeated command change nothing |
| ShardMaster.ConfigsOnlyGrow | src/shardmaster/server.go:356-416 | configurations are never changed or taken back |
| ShardMaster.NewestIsBalanced | src/shardmaster/server.go:356-399 | after a join or leave the newest configuration is balanced, and minimal unless a group 0 among others does harm, or all free |
| ShardMaster.HomedUnlessStray | src/shardmaster/server.go:401-416 | after any log, configurations name only their own groups or 0 exactly when no move that took effect named anything else |
| ShardMaster.ZeroLogMovesMore | src/shardmaster/server.go:356-416 | a log of a join, two moves and a leave that moves both shards, one of which could have stayed |
| ShardMaster.StrayMove | src/shardmaster/server.go:401-416 | a join and a move to an unknown group leave a configuration that names it |
| MapReduceRun.FinishedEqualsSequential | src/main/mrsequential.go:41-87 | in every run that reaches allFinished, the reduce outputs together are the lines of the sequential output |
| MapReduceRun.ReduceAfterAllMaps | src/mr/master.go:58-89 | no reduce task is handed out before all map files are complete, and no reduce misses a file |
| MapReduceRun.MapTaskNamesFile | src/mr/master.go:58-75 | a map task that is handed out names the file of its number |
| MapReduceRun.RunInv | src/mr/worker.go:64-175 | the invariant of the job holds in every state of every run |
| MapReduceRun.ExitAtOnce | src/mr/master.go:108-119 | a new master says exit to the first worker exactly when there is no reduce task |
| MapReduceRun.ReportKeeps | src/mr/master.go:123-168 | a report completes at most the task it names, and map stays finished |
| MapReduceProgress.AnswerExactly | src/mr/master.go:45-121 | exit, the first map task, the first reduce task or wait: which one is answered, by the tasks that are idle or were begun more than 10 seconds ago |
| MapReduceProgress.MapHandedOut | src/mr/master.go:58-75 | a map task in progress is handed out only if it was begun more than 10 seconds before, and no lower one is idle or overdue |
| MapReduceProgress.ReduceHandedOut | src/mr/master.go:76-90 | the same for reduce tasks |
| MapReduceProgress.WaitExactly | src/mr/master.go:71-90 | wait is answered exactly when not all reduce tasks are completed and every task of the current phase is completed or was begun at most 10 seconds ago |
| MapReduceProgress.ReportCompletes | src/mr/master.go:123-168 | a report completes the task it names if that is in progress, and no other |
| MapReduceProgress.MapGivenAgain | src/mr/master.go:92-121 | in every run a map task in progress was given out when its record says, and where no lower one is idle or overdue an ask is given it again exactly if that was more than 10 seconds ago |
| MapReduceProgress.ReduceGivenAgain | src/mr/master.go:92-121 | the same for reduce tasks |
| MapReduceFinish.JobCanFinish | src/mr/worker.go:64-175 | whichever workers crashed, every run goes on to one that reaches allFinished |
| MapReducePlan.BucketsGiveWhole | src/mr/worker.go:82-90 | outputs bucket by bucket are together the output for everything |
| MapReducePlan.CorrectPermutes | src/mr/worker.go:144-145 | the order of the pairs makes no difference to what is a correct output |
| MapReduceWorker.SplitIntoBuckets | src/mr/worker.go:82-90 | every pair goes to the bucket of its key, in order |
| MapReduceWorker.ReduceSorted | src/mr/worker.go:151-165 | one reduce call and one line for every distinct key, with all its values |
| MapReduceWorker.SortByKey | src/mr/worker.go:26-28 | a permutation in key order |
| MapReduceWorker.RunSequential | src/main/mrsequential.go:41-87 | the sequential program's output is correct |
| MapReduceMaster.Master.GetTask | src/mr/master.go:45-90 | expiry first, then exit, the first idle task of the current phase, or wait |
| MapReduceMaster.Master.CheckTimeOut | src/mr/master.go:92-121 | overdue tasks become idle, and the two flags say whether all are completed |
| MapReduceMaster.Master.ReportTask | src/mr/master.go:123-168 | the first task in progress with this id is completed |
| MapReduceMaster.Master.constructor | src/mr/master.go:200-231 | all tasks idle |

## Left out

- RaftSafety.RefusalLowersNext: states progress of one reply; that a follower is reached in the end also needs that messages arrive, which is not part of this model.
- Raft timers, heartbeats, `GetState`, `CheckCurrentTermLog` and the leader id: they choose when a step happens and what a client is told, which the model leaves open.
- Liveness of elections, replication, migration and client calls: that the right steps are taken and messages arrive in the end. What is proved is that they can still be taken, from every state.
- RaftProgress.CanDeliver: states one way to have a command carried out, by electing a preferred server with which nobody is stuck; whether another way helps where somebody is stuck is not stated.
- `checkParallel`: its goroutines, timeout and kill flag; `PorcupineStore.CheckHistory` runs the searches one after the other, and `PorcupineChecker.CheckSingle` takes what each look at the kill flag sees as a parameter.
- PorcupineStore.CheckHistory: has no timeout, and so no verdict Unknown, and no kill flag between the searches.
- PorcupineEntries.SortByTime: stands for the library sort and fixes no algorithm in its contract.
- The HTML and JavaScript of `src/porcupine/visualization.go`, apart from the replay loop.
- ShardKvNode.ShardKV.ExecuteClientCmd: has no passive snapshots, and so no contiguity test, and no notify channel.
- ShardKvNode.ShardKV.ExecuteConfigCmd: has no passive snapshots, and so no contiguity test, and no notify channel.
- Passive snapshots of the shard server, notify channels, and the polling loops' timing and retries over the servers of a group.
- ShardKvSafety.ExactlyOnce: a get is repeated freely and is not recorded, so it is not part of it.
- Server names and network ends in the configurations of the shard server: a message reaches the group a configuration names.
- MapReduceRun.FinishedEqualsSequential: compares lines, not the formatting of the files, and takes map, reduce and hash as functions.
- File and JSON encoding, RPC plumbing, plugins and the FNV hash.
- `src/kvraft`, `src/raft-Lab2ABC` and `src/raft-Lab2D`: earlier stages of the same designs.

# Verified models of a Raft-based key/value stack

A Dafny model of the course repository MIT 6.824 in Go: the Raft library, the
replicated and the sharded key/value servers, the shard controller, MapReduce,
and the Porcupine linearizability checker that the repository uses to judge its
own histories. `dafny verify dfyconfig.toml` checks everything.

## What is modelled, and the main results

**The linearizability checker** (`Linearizability`, `HistoryEntries`,
`LinkedEntries`, `SearchSpace`, `EntryList`, `Checker`, `SearchLoop`, `Bitset`).
The specification is the definition of Herlihy and Wing: some order of all
operations is accepted by the model from its initial state and never puts an
operation before one that returned before it was called. The search runs on
heap nodes whose links are rewired in place, with the hash-bucketed cache, the
bitset and the undo stack of the original. `SearchLoop.CheckSingle` is exact,
terminates, records only partial linearizations and, when it fails, records for
every operation one that cannot be longer. `KvLocality` and `KvPartition` show
that checking key by key is the same as checking the store, which makes
`CheckOperations.CheckKvOperations` exact for whole key/value histories.
`Visualization` follows what a check recorded to the picture drawn of it.

**Shard migration** (`ShardGroup`, `ShardSystem`, `ShardInvariant`, `ShardSteps`,
`ShardProof`, `ShardCommits`, `ShardOperations`, `ShardSafety`; the server object
is in `ShardServer`, a complete run in `ShardExample`). Each group is one state
machine fed by its log; everything ever sent stays available, so that it can be
late, repeated or reordered, and a stale leader is one that acts late. A shard's
copy travels along its owners; the invariant says which group holds the current
copy. Over every run: one server per shard, answers as from one map, each write
at most once, configurations wait for migrations, nothing is lost. All this
needs one thing of the configurations: a shard that nobody has goes back to the
group that had it last. `ShardExact` shows that this is exactly the condition,
and `ShardConfigs` what it means for the commands of the controller, Move
included. `StoreModel` ties commands and answers to the sequential store of
`src/models/kv.go`, and `ShardLinear` concludes that the groups together are
linearizable, which is what the repository's own tests check of single runs.
`ShardClients` adds what clients may rely on. `ShardStranded` and
`ShardProgress` are about getting on: the early OK of `DeleteShardsData` can
leave a shard waiting at its old group for ever, and the groups can settle at a
configuration exactly when that has not happened.

**Raft** (`RaftTypes` to `RaftSafety`, `RaftHandlers`, `RaftStepDown`,
`RaftBacktrack`, `RaftProgress`, and the server object in `RaftNode`). Every
handler is an atomic step; messages are lost, reordered and repeated at will;
servers crash and restart from disk. The proof keeps a history of reigns, votes
and confirmations beside the run. The vote-reply callback at
`src/raft/election.go:32-35` steps down to its own request's term. The results
about runs are for the intended step-down, which adopts the reply's term;
`RaftStepDown` shows exactly when the code as written differs and gives a run of
it with two leaders of one term. `RaftHandlers` says in numbers what each
handler decides. `RaftProgress` shows that safety is not bought with standstill:
however a run has gone, in a cluster of more than one server any majority can,
by steps of its own, elect a leader and commit a new command.

**The shard controller** (`CtrlerBalance`, `CtrlerSpec`, `CtrlerTheorems`,
`CtrlerRuns`, `CtrlerMachine`), with the number of shards as a parameter.

**The apply path** (`ApplyPath`, `ApplyServer`): the raft applier, snapshots,
restarts and the key/value applier of one server, given that the entries it
commits are the agreed ones. `ApplyRaft` derives this from the Raft results for
servers that do not compact their logs. `ApplyStore` shows that the store is the
sequential one on the commands that are not repeated, that it is linearizable,
and that everything committed can come to be applied.

**MapReduce** (`MapReduce`): the path of the data through files and buckets
against the sequential program.

Objects and loops of the original are classes, arrays and loops here. Their
contracts tie the new state to functions on values (`RaftServer`, `ShardGroup`,
`ApplyPath`, `CtrlerSpec`), and the theorems are about those functions.

## Assumptions

- Checker: every operation is called no later than it returns, `Step` is a
  function, states are compared with equality, and there is at least one
  partition (without one the original waits for ever).
- Shard migration: configurations are the controller's, in order, and a shard
  that nobody has goes back to the group that had it last, or on to nobody. The
  controller breaks this when its last group leaves or a Move names 0, and a
  later command gives the shard to another group; the store is then unsafe, and
  otherwise safe (`ShardConfigs.ControllerSafeExactly`). The pair of client and
  command id determines a request.
- Raft: an RPC's reply is counted at most once, as a call returns once. In the
  runs the log is not compacted, so that the tail kept by `CondInstallSnapshot`
  without comparing terms does not arise.
- Shard controller: results about live owners are for Joins that leave some
  group and name no group 0, and Moves that name a live group; those about
  balance are for runs without Moves. The rest holds of every run.
- MapReduce: that the two programs agree needs a reduce function that does not
  depend on the order of its values, and pairs that a line can carry.

## Model

| member | source | states |
|---|---|---|
| `HistoryEntries.CollectEntries` | src/porcupine/checker.go:48-58 | the entries before the sort are a call and a return per operation, in recording order, ids counting up |
| `CheckOperations.SortEntries` | src/porcupine/checker.go:29-46 | stands for sort.Sort(byTime): a rearrangement in which no entry comes after one it should precede; calls come before returns of the same time |
| `HistoryEntries.SortedEntriesFaithful` | src/porcupine/checker.go:39-60 | however ties are broken, entry positions and recorded times order every two operations alike, so the laid-out history is linearizable exactly when the recorded one is |
| `CheckOperations.MakeEntries` | src/porcupine/checker.go:48-60 | sorted, with the call and the return of every operation; it lays the history out, linearizable exactly when the recorded one is |
| `LinkedEntries.InsertBefore` | src/porcupine/checker.go:70-81 | the new node stands between the mark and what was before it, whose link is moved to it; without a mark nothing is linked |
| `LinkedEntries.MakeLinkedEntries` | src/porcupine/checker.go:121-138 | a well-linked list with one node per entry in order, each call pointing to the node of its own return |
| `LinkedEntries.Length` | src/porcupine/checker.go:83-90 | the number of nodes |
| `LinkedEntries.Unlink` | src/porcupine/checker.go:160-166 | the neighbours of a node are joined and the node keeps its own links |
| `LinkedEntries.Lift` | src/porcupine/checker.go:159-167 | the list without the call and its return is well linked, and both nodes still remember their neighbours |
| `LinkedEntries.Unlift` | src/porcupine/checker.go:169-177 | restores exactly the list a lift started from |
| `EntryList.SpotsOk` | src/porcupine/checker.go:159-177 | taking an operation out of the original list removes exactly its two nodes, whatever else is out |
| `EntryList.LiftOp` | src/porcupine/checker.go:159-167 | the list stays the original minus the operations on the stack, and every lifted pair can still be put back in stack order |
| `EntryList.UnliftOp` | src/porcupine/checker.go:169-177 | undoes the last lift: the list is the original minus the rest of the stack |
| `EntryList.NextNode` | src/porcupine/checker.go:190-243 | the next pointer of a listed node is the first later node whose operation is not on the stack |
| `Checker.CacheContains` | src/porcupine/checker.go:145-152 | found exactly when the bucket of the hash holds an equal bitset with an equal state |
| `Checker.CacheExact` | src/porcupine/checker.go:145-152 | with the hash of the bitset as bucket key, collisions included, the lookup answers exactly whether this set of operations has been met in this state |
| `Checker.RememberOk` | src/porcupine/checker.go:200-203 | adding to the bucket adds that configuration and no other |
| `SearchSpace.SkipOk` | src/porcupine/checker.go:208-213 | passing over a refused or already met call keeps what the search knows |
| `SearchSpace.PushOk` | src/porcupine/checker.go:197-207 | a linearized call is ready: nothing that remains had returned before it was called; what the search knows is kept |
| `SearchSpace.ReturnSettles` | src/porcupine/checker.go:214-217 | at a return every ready operation has been tried and something remains, so the configuration is finished with |
| `SearchSpace.PopOk` | src/porcupine/checker.go:235-241 | backtracking keeps what the search knows; the configuration left is settled and, if asked for, on record |
| `SearchSpace.AllLinearized` | src/porcupine/checker.go:190-252 | an empty list means the stack is a linearization |
| `SearchSpace.GiveUp` | src/porcupine/checker.go:215-217 | giving up means that no linearization exists, memo pruning included, and that every partial linearization is matched in length by what is on record |
| `SearchSpace.PathInUniverse` | src/porcupine/checker.go:190-243 | every configuration pushed comes from one finite set, which bounds the search |
| `Checker.LiftMove` | src/porcupine/checker.go:200-207 | the push step on the heap and on what the search knows together; the cursor restarts at the head |
| `Checker.UnliftMove` | src/porcupine/checker.go:235-241 | the backtrack step on both; the cursor goes on after the popped call and never falls off the list |
| `Checker.RecordLongest` | src/porcupine/checker.go:219-234 | each operation on the stack gets the stack as its sequence unless its own is as long; all others keep theirs |
| `SearchLoop.TryCall` | src/porcupine/checker.go:194-213 | one round at a call node: either the cursor advances or the set of unmet configurations shrinks |
| `SearchLoop.Backtrack` | src/porcupine/checker.go:235-241 | one round at a return node: the stack loses its last call, the state is the one saved with it, the operation is out of the bitset and back in the list, and the cursor is at the first node after it |
| `SearchLoop.CheckSingle` | src/porcupine/checker.go:179-253 | exact: true only if the history is linearizable, false without kill only if it is not; everything recorded is a partial linearization containing its operation; on true all are complete; on false without kill none can be longer; it terminates by (unmet configurations, stack depth, list left) |
| `CheckOperations.Await` | src/porcupine/checker.go:291-310 | whatever order results arrive in and before whichever of them the timer fires: without a timeout and unless it stops at a failure, the loop ends with every search settled; ok without a timeout means that all partitions are linearizable, not ok that one is not |
| `CheckOperations.CheckParallel` | src/porcupine/checker.go:274-353 | Ok means every partition is linearizable and no timeout, Illegal that one is not, Unknown that the timer fired before some result; every sequence recorded, also by a search that was stopped, is a partial linearization; without a timeout they cover all: each operation of any partial linearization is in a recorded one no shorter, and what is linearizable has only whole linearizations on record |
| `CheckOperations.CheckKvOperations` | src/porcupine/checker.go:365-373 | for a key/value history: Ok exactly when linearizable against the whole store, if no timeout; with one, a definite verdict is still right; and the recorded sequences of all partitions as above |
| `CheckOperations.CollectPartials` | src/porcupine/checker.go:318-341 | the recorded sequences, each once, all of them partial linearizations |
| `Visualization.CollectValues` | src/porcupine/visualization.go:36-52 | client, times and description of every operation, and its call and return value |
| `Visualization.ReplaySteps` | src/porcupine/visualization.go:62-79 | replaying a recorded sequence shows the state of the model after each operation; the panic is unreachable |
| `Visualization.SortByLength` | src/porcupine/visualization.go:59-61 | stands for sort.Slice: the same sequences, longest first |
| `Visualization.ComputePartition` | src/porcupine/visualization.go:36-84 | the history of the partition; its sequences, longest first, all replayed; and for each operation the index of one of the longest sequences that hold it |
| `Visualization.ComputeVisualizationData` | src/porcupine/visualization.go:32-87 | so for every partition of whatever a check recorded |
| `Visualization.CheckAndDraw` | src/kvraft/test_test.go:369-385 | the end of a test: the verdict is right, and a history found illegal is always drawn completely, stopped searches included |
| `Bitset.NewBitset` | src/porcupine/bitset.go:10-17 | enough words for all positions, none of them in the set |
| `Bitset.Clone` | src/porcupine/bitset.go:19-23 | an equal bitset in fresh memory |
| `Bitset.Set` | src/porcupine/bitset.go:29-33 | adds exactly this position to the set the words stand for |
| `Bitset.Clear` | src/porcupine/bitset.go:35-39 | removes exactly this position |
| `Bitset.MembersWith` | src/porcupine/bitset.go:25-44 | setting and clearing a bit are adding and removing an element, for every word and position |
| `Bitset.SameMembers` | src/porcupine/bitset.go:62-72 | bitsets of one size that stand for the same set are equal |
| `Bitset.HashOf` | src/porcupine/bitset.go:46-60 | the xor of the words and of the number of bits, which depends on nothing but the words |
| `Bitset.Equals` | src/porcupine/bitset.go:62-72 | equal words; for one size, exactly equal sets |
| `KvLocality.StepIsLocal` | src/models/kv.go:40-54 | a step of the whole store is a step of the one key it names and leaves all other keys alone |
| `KvLocality.StoreToKey` | src/models/kv.go:18-54 | from a linearization of the store, an order of each key that respects real time and replays |
| `KvLocality.Merge` | src/models/kv.go:18-54 | per-key orders merge into one order of everything that respects real time across keys and replays on the store |
| `KvLocality.Locality` | src/models/kv.go:18-54 | the store is linearizable exactly when every key is |
| `KvPartition.Group` | src/models/kv.go:19-23 | each key maps to its operations in recorded order, and nothing else is a key |
| `KvPartition.SortedKeys` | src/models/kv.go:24-28 | the keys in ascending order, however the map was walked |
| `Strings.BeforeIs` | src/models/kv.go:24-28 | the order of keys: a proper prefix first, else the smaller character where two strings first differ |
| `KvPartition.AscendingUnique` | src/models/kv.go:24-28 | ascending lists of the same keys are equal, so map order does not show in the result |
| `KvPartition.Partition` | src/models/kv.go:18-34 | one part per key, ascending by key, each exactly the operations on that key; no key is missing |
| `KvPartition.SubIsKey` | src/models/kv.go:18-54 | a part is linearizable on its own exactly when its operations can be ordered within the whole history |
| `KvPartition.PartitionExact` | src/models/kv.go:18-54 | the whole history is linearizable against the store exactly when every part is against the one-key model |
| `ShardServer.ShardKV.constructor` | src/shardkv/server.go:92-133 | a server started with a snapshot is the group the snapshot holds; without one it has no configuration and all shards empty and SERVING |
| `ShardServer.ShardKV.RestoreSnapshot` | src/shardkv/snapshot.go:10-27 | shards, table and both configurations become those of the snapshot; without one missing shards are created |
| `ShardServer.ShardKV.TakeSnapshot` | src/shardkv/snapshot.go:33-41 | what a server restored from the snapshot has is what this one had |
| `ShardServer.ShardKV.InitStateMachines` | src/shardkv/common.go:65-71 | missing shards are created, existing ones kept |
| `ShardServer.ShardKV.ApplyLog` | src/shardkv/common.go:254-269 | Put, Append and Get on one shard, and their replies |
| `ShardServer.ShardKV.ApplyOperation` | src/shardkv/common.go:271-292 | the new server state and the reply are those of the group state machine: refused, repeated or carried out |
| `ShardServer.ShardKV.UpdateShardStatus` | src/shardkv/common.go:294-311 | every shard gets the status its old and new owner call for; contents stay |
| `ShardServer.ShardKV.ApplyConfiguration` | src/shardkv/common.go:313-327 | only the next configuration takes effect; the current one becomes the last |
| `ShardServer.ShardKV.ApplyInsertShards` | src/shardkv/common.go:329-353 | the loop with its break, in whatever order the map is walked, and the merge of the operation table |
| `ShardServer.ShardKV.ApplyDeleteShards` | src/shardkv/common.go:355-370 | the loop with its break: GC becomes SERVING, BEPULLING becomes an empty shard |
| `ShardServer.ShardKV.CanGetNextConfig` | src/shardkv/common.go:118-130 | true exactly when every shard is SERVING |
| `ShardServer.ShardKV.GetShardIdsByStatus` | src/shardkv/common.go:139-153 | for each group exactly the shards in this status that the last configuration gave to it, each once |
| `ShardServer.ShardKV.GetShardsData` | src/shardkv/common.go:182-204 | refused by a server that does not lead and before the configuration is reached; otherwise copies of the shards and of the whole operation table |
| `ShardServer.CopyInto` | src/shardkv/shard.go:39-45 | all pairs of one map laid over another |
| `ShardServer.Merge` | src/shardkv/common.go:342-346 | for every client the entry with the larger command id |
| `ShardGroup.InsertAll` | src/shardkv/common.go:331-341 | when all given shards are PULLING the loop inserts every one of them, in any order |
| `ShardGroup.DeleteAll` | src/shardkv/common.go:357-366 | when all given shards share GC or BEPULLING the loop handles every one of them |
| `ShardGroup.ThroughNobody` | src/shardkv/common.go:294-327 | over two configurations, the first giving a shard to nobody, no group changes its copy or its status; it serves then exactly if the shard is its own and was not in transit |
| `ShardGroup.HeirServes` | src/shardkv/common.go:294-327 | a group given a shard that nobody has serves, at once and without asking anybody, the copy it had itself |
| `ShardInvariant.OneServer` | src/shardkv/common.go:89-91 | in a state of the system at most one group serves a shard, however far apart the configurations are |
| `ShardSteps.MovedTogether` | src/shardkv/common.go:139-153 | in every group the shards that move between the same two groups share one status |
| `ShardSteps.InsertOutcome` | src/shardkv/common.go:329-353 | the insert loop takes all shards or none |
| `ShardSteps.DeleteOutcome` | src/shardkv/common.go:355-370 | the delete loop does to each shard what its status calls for; the break skips nothing |
| `ShardProof.CollectsAll` | src/shardkv/common.go:139-176 | a pull or delete task always names all shards that move between its two groups |
| `ShardProof.AnswerOk` | src/shardkv/common.go:182-204 | what a source sends is current as long as the puller has not taken the shard over |
| `ShardCommits.InsertKeeps` | src/shardkv/common.go:329-353 | inserting pulled shards, however late or often, keeps the invariant |
| `ShardCommits.ConfigKeeps` | src/shardkv/common.go:313-327 | so does the next configuration |
| `ShardCommits.DeleteKeeps` | src/shardkv/common.go:206-370 | so does deleting at either side, also after an early OK |
| `ShardOperations.OperationKeeps` | src/shardkv/common.go:271-292 | so does every client operation |
| `ShardSafety.Always` | src/shardkv/common.go:118-370 | the invariant holds in every state of every run |
| `ShardSafety.AtMostOneServer` | src/shardkv/common.go:89-91 | over every run at most one group serves a shard at a time |
| `ShardSafety.AnswersFromStore` | src/shardkv/common.go:254-292 | every operation on a served shard, a repeated write answered from the table included, is answered as one map holding all keys would answer it |
| `ShardSafety.StepOfStore` | src/shardkv/common.go:182-370 | every step leaves that map unchanged, as all migration steps do, or applies to it one write never applied before |
| `ShardSafety.WriteOnce` | src/shardkv/common.go:271-292 | a write retried at any groups takes effect at most once in a run |
| `StoreModel.ExecuteIsStep` | src/models/kv.go:40-54 | carrying out a command and answering it is a step of the sequential store, which accepts the answer and ends in the same map |
| `StoreModel.ReplyExactly` | src/kvraft/kv.go:17-32 | the sequential store accepts no other answer to a Get; the error is ErrNoKey exactly if the key is absent |
| `StoreModel.ReadBack` | src/shardkv/shard.go:22-37 | a Get after a Put reads its value, after an Append the old value followed by the new one, and other keys as before |
| `StoreModel.ReplayedIsLinearizable` | src/models/kv.go:18-54 | operations that replay in the order they took effect are linearizable for all times of call and answer around those moments |
| `ShardLinear.ServedReplays` | src/shardkv/common.go:254-292 | over every run, the operations served by all groups, in commit order and with the answers given, are a run of the sequential store, which ends in the same map |
| `ShardLinear.ShardsLinearizable` | src/shardkv/test_test.go:713-730 | so every history of the sharded store in which operations are committed between call and answer is linearizable, migrations included |
| `ShardSafety.ConfigsWait` | src/shardkv/common.go:118-327 | a configuration that takes effect finds every shard SERVING although nothing checks this when it is applied |
| `ShardSafety.InsertOrderFree` | src/shardkv/common.go:329-353 | replicas that walk the pulled shards in different orders reach the same state, and no shard is skipped |
| `ShardSafety.NothingLost` | src/shardkv/common.go:182-370 | once its first owner knows of it, the current contents of a shard are always held by some group |
| `ShardStranded.StrandedStays` | src/shardkv/common.go:206-245 | a shard waiting at its old group whose new group has finished with it, no delete request being under way, stays so over every step, and its old group takes no further configuration |
| `ShardStranded.OnlyLossStrands` | src/shardkv/common.go:206-245 | nothing but the loss of a delete request brings a shard into that state |
| `ShardProgress.EarlyOkStrands` | src/shardkv/common.go:206-245 | and that does: from every state in reach in which the new group still has a shard in GC, an early OK to its request leaves the shard stranded |
| `ShardProgress.ReleasedExactly` | src/shardkv/common.go:206-245 | once its new group has got to the configuration, a waiting shard can still be released exactly when it is not stranded: the new group has it in hand or a request is under way |
| `ShardProgress.SettleFrom` | src/shardkv/common.go:118-370 | from every state in reach with no shard stranded there are steps, losing nothing, that bring all groups to any configuration none has passed, with every shard SERVING |
| `ShardProgress.SettlesExactly` | src/shardkv/common.go:118-370 | some steps at all do so exactly when no shard is stranded |
| `ShardExact.SafeExactly` | src/shardkv/common.go:294-327 | the store is safe (one server per shard, every answer that of one map, in every state of every run) exactly when every shard that nobody has goes back to the group that had it last, or on to nobody |
| `ShardConfigs.ControllerSafeExactly` | src/shardctrler/stateMachine.go:22-103 | for every run of Joins, Leaves and Moves with any arguments, the sharded store is safe with its configurations exactly when every shard that one command takes from a group and a later one gives out again goes back to that group |
| `ShardConfigs.KeepingOwnersIsSafe` | src/shardctrler/stateMachine.go:22-103 | so it is safe with every controller run in which no shard is taken away: no Leave removes the last group while shards have owners, no Move of an owned shard names 0 |
| `ShardConfigs.KeepingGroupsIsSafe` | src/shardctrler/stateMachine.go:22-103 | in particular if Joins leave a group and name no 0, Moves name live groups and the last group never leaves; then every owner is a live group |
| `ShardConfigs.LeaveAllThenJoin` | src/shardctrler/stateMachine.go:56-91 | when the last group leaves and a Join follows, a shard meets the condition exactly when the Join gives it to the very group that had it |
| `ShardConfigs.MoveAwayAndOn` | src/shardctrler/stateMachine.go:93-103 | when a Move gives a shard to nobody and another one gives it on, exactly when that one names the group that had it |
| `ShardServer.ShardKV.Command` | src/shardkv/server.go:135-152 | what is answered before turning to the log: a repeated write from the table, a key not served with a refusal, nothing else |
| `ShardClients.EarlyAnswer` | src/shardkv/server.go:135-152 | an early answer to a repeated write is the one every serving group gives through its log, then or at any other moment of the run |
| `ShardClients.RefusesExactly` | src/shardkv/server.go:135-152 | a command that is not a repeated write is refused at once exactly if its shard, the first character of the key modulo the number of shards, is not assigned to the group or still on its way, and then the log would refuse it too |
| `ShardClients.AckedExactly` | src/shardkv/common.go:271-292 | a write answered through the log has been carried out exactly if it was before or the group did not take it for a repeated one; a write overtaken by a later one of its client is answered OK and not carried out |
| `ShardClients.AcknowledgedIsDone` | src/shardkv/common.go:271-292 | every write acknowledged to a client that sends one at a time, early or through the log, has been carried out |
| `ShardExample.Handover` | src/shardkv/common.go:118-353 | a run that exists: a write at one group, a handover by two configurations, and the new owner serving what was written |
| `RaftNode.Raft.constructor` | src/raft/raft.go:446-478 | a server starts from what it had persisted |
| `RaftNode.Raft.Persist` | src/raft/raft.go:139-151 | term, vote and log reach the disk |
| `RaftNode.Raft.SetNewTerm` | src/raft/appendEntries.go:259-264 | a follower of the new term without a vote, persisted |
| `RaftNode.Raft.RequestVote` | src/raft/raft.go:270-305 | state and reply of the vote handler: at most one candidate per term, and only an up-to-date one |
| `RaftNode.Raft.StartElection` | src/raft/election.go:5-24 | a vote for oneself, and the ballot that goes to every peer |
| `RaftNode.Raft.OnVoteReply` | src/raft/election.go:25-59 | counting a vote and, on the majority, becoming leader with fresh index arrays and sending a heartbeat to every peer; the step-down is the one of the code, to the term of the request |
| `RaftNode.Raft.TakeEntries` | src/raft/appendEntries.go:85-100 | the entry loop: truncate at the first conflict, append what is new, keep the rest |
| `RaftNode.Raft.SkipTerm` | src/raft/appendEntries.go:74-79 | the last index before the conflicting term, or one below the first |
| `RaftNode.Raft.AppendEntries` | src/raft/appendEntries.go:28-109 | state and reply of the whole handler, conflict hints and commit index included |
| `RaftNode.Raft.InstallSnapshot` | src/raft/logCompaction.go:35-65 | term handling and the answer; exactly a snapshot that is not outdated is handed over to the service, unchanged |
| `RaftNode.Raft.SendEntries` | src/raft/appendEntries.go:111-156 | one message for every peer that is behind, or for all on a heartbeat; a snapshot where the log no longer reaches |
| `RaftNode.Raft.Start` | src/raft/raft.go:355-375 | the leader appends one entry of its term, persists it and sends what its peers lack; any other server changes and sends nothing |
| `RaftNode.Raft.FindLastLogInXTerm` | src/raft/appendEntries.go:242-252 | the last entry of a term, its absence, or a panic exactly when every retained term is newer |
| `RaftNode.Raft.HeldByMost` | src/raft/appendEntries.go:225-233 | whether a majority is known to hold an index |
| `RaftNode.Raft.LeaderCommitLog` | src/raft/appendEntries.go:217-240 | the commit index moves to the largest index of the current term that a majority is known to hold, if there is one beyond it |
| `RaftServer.CommitScan` | src/raft/appendEntries.go:224-239 | no index beyond it is committable, and it is itself committable or the old commit index |
| `RaftNode.Raft.OnAppendReply` | src/raft/appendEntries.go:174-215 | success advances the match and next index; conflict picks the next probe, or panics exactly when its scan leaves the log; a newer term steps down |
| `RaftNode.Raft.OnSnapshotReply` | src/raft/appendEntries.go:158-172 | the answer to a snapshot sets the indexes of the peer to it, whatever the answer says; a newer term steps down |
| `RaftHandlers.VoteExactly` | src/raft/raft.go:270-305 | in numbers: a vote is granted exactly if the ballot is not older, the vote of that term is free or the candidate's, and its last (term, index) is not smaller; and what term, role and vote are then, and on disk |
| `RaftHandlers.StandExactly` | src/raft/election.go:5-24 | the next term, the own vote, and a ballot that shows the end of the own log to every peer |
| `RaftHandlers.WinExactly` | src/raft/election.go:25-59 | an answer makes the candidate leader exactly if it is a vote of its term and, with it, more than half have voted while it still stands; every peer is then expected at the end of the log |
| `RaftHandlers.AppendExactly` | src/raft/appendEntries.go:28-109 | an append request succeeds exactly if it is of the server's term and fits; then its entries are on the log, nothing that agrees is gone, and a commit index below the leader's becomes the leader's or the end of the log; else log and commit index stay |
| `RaftHandlers.CommitIsLarger` | src/raft/appendEntries.go:102-108 | when that is within the new log, the commit index becomes the larger of the old one and the smaller of the leader's and the end |
| `RaftHandlers.SnapshotExactly` | src/raft/logCompaction.go:35-65 | a snapshot is handed over exactly if its sender's term is not older and it reaches beyond the commit index |
| `RaftHandlers.SendsExactly` | src/raft/appendEntries.go:111-156 | a message goes to exactly the peers that are behind, or to all, and it carries the whole log from the peer's next index on, or says that the log begins later |
| `RaftHandlers.ScanExactly` | src/raft/appendEntries.go:217-240 | nothing of the leader's term beyond the new commit index is held by most, and a new commit index is that of such an entry |
| `RaftHandlers.CommitExactly` | src/raft/appendEntries.go:174-240 | after an answer in its term a leader has committed every entry of its term that most, counting the answer and itself, are known to hold, and nothing else |
| `RaftHandlers.OtherTermsExactly` | src/raft/appendEntries.go:174-215 | an answer of a newer term makes a follower of that term without a vote; one to a request of another term does nothing |
| `RaftHandlers.SnapshotAnswered` | src/raft/appendEntries.go:158-172 | the peer is taken to have the snapshot and gets the log after it next |
| `RaftCore.UpToDateHas` | src/raft/raft.go:290-304 | an up-to-date candidate holds everything its voter confirmed that may be committed |
| `RaftCore.CommittedAgree` | src/raft/appendEntries.go:217-240 | two committed prefixes of one history agree |
| `RaftSafety.History` | src/raft/raft.go:270-375 | every run has a history of elections, votes, logs and confirmations that is consistent throughout |
| `RaftSafety.ElectionSafety` | src/raft/election.go:32-55 | over every run with loss, reordering, duplication and crashes, one server at most ever leads a term |
| `RaftSafety.OneVotePerTerm` | src/raft/raft.go:270-305 | no server votes for two candidates of one term, crashes or not |
| `RaftSafety.PromisesKept` | src/raft/raft.go:270-305 | terms never go back and a cast vote is kept until the term changes |
| `RaftSafety.LogMatching` | src/raft/appendEntries.go:54-100 | two logs, at any two moments, that hold the same term at an index agree on everything up to it |
| `RaftSafety.LeaderCompleteness` | src/raft/appendEntries.go:217-240 | what any server counts as committed was committed by the leader of some term and is in the log of every leader of any later term, whenever that one led |
| `RaftSafety.StateMachineSafety` | src/raft/appendEntries.go:217-240 | no two servers, at any two moments, commit different entries at an index |
| `RaftSafety.AlwaysInBounds` | src/raft/appendEntries.go:28-252 | in every run the indexes the handlers use are in bounds and the disk is never behind |
| `RaftSafety.StaleAppendKeeps` | src/raft/appendEntries.go:85-100 | an append request, however stale, removes nothing that agrees with the leader of its term, as that one was at any moment of the run |
| `RaftStepDown.AsWrittenKeepsPromise` | src/raft/election.go:32-35 | as written, a candidate that has kept its word so far keeps its term and vote over a reply exactly when the reply is not of a newer term than the request |
| `RaftStepDown.NextKeepsPromise` | src/raft/election.go:25-59 | after any run of the code as written without such a reply, whatever step comes next, the acting server keeps its term and vote exactly when that step is not such a reply |
| `RaftStepDown.AsIntendedKeepsPromise` | src/raft/election.go:32-35 | adopting the reply's term, as the append callback does, always keeps them |
| `RaftStepDown.QuietRunIsSafe` | src/raft/election.go:32-35 | a run of the code as written in which no newer-term reply reaches a candidate is a run as intended, so all results hold of it |
| `RaftStepDown.TwoLeaders` | src/raft/election.go:32-35 | a concrete run of three servers as written in which two servers lead term 2 |
| `RaftBacktrack.ProbeDescends` | src/raft/appendEntries.go:61-212 | a refused probe changes nothing at the follower and the next one is strictly lower |
| `RaftBacktrack.ProbeNotTooLow` | src/raft/appendEntries.go:61-212 | nor does it overshoot: the next probe is at most one entry below the last one the two logs share |
| `RaftBacktrack.ExchangeProgress` | src/raft/appendEntries.go:174-215 | each exchange lowers the next index or brings the follower into agreement |
| `RaftBacktrack.BacktrackingConverges` | src/raft/appendEntries.go:61-252 | in every state of every run, at most log length plus two exchanges bring a follower of the leader's term into agreement |
| `RaftBacktrack.ScanLeavesSlice` | src/raft/appendEntries.go:242-252 | the scan leaves the slice exactly when the log is compacted and every retained term is newer than the one sought |
| `RaftProgress.Electable` | src/raft/election.go:5-59 | however a run has gone, a server whose last (term, index) no member of some majority exceeds can be elected: steps of that majority alone make it leader, with all of them in its term and all logs as they were |
| `RaftProgress.BringIntoStep` | src/raft/appendEntries.go:28-252 | a leader brings any server of its term to hold its log and to commit what it had committed, and has then itself committed all of its term that most hold |
| `RaftProgress.Committing` | src/raft/appendEntries.go:174-240 | from every state of a run with a leader whose last entry is of its term and a majority in that term, steps of that majority bring its commit index to the end of its log |
| `RaftProgress.Following` | src/raft/appendEntries.go:102-108 | what a leader has committed, any server of its term can come to commit, the same entries, by steps of these two |
| `RaftProgress.Available` | src/raft/raft.go:355-375 | however a run has gone, any majority, by its own steps, can commit any new command: all of it hold one log up to the command, committed, at an index beyond all that any of them had committed |
| `RaftProgress.AloneNeverCommits` | src/raft/election.go:17-59 | a cluster of one never elects a leader and never commits, because votes are only counted in a peer's answer; so the result before needs, and says, more than one server |
| `CtrlerMachine.MemoryConfigStateMachine.constructor` | src/shardctrler/stateMachine.go:16-20 | configuration 0: no groups, all shards with group 0 |
| `CtrlerMachine.MemoryConfigStateMachine.Join` | src/shardctrler/stateMachine.go:22-54 | one configuration is appended, earlier ones stay; its assignment is what the rebalancing of the enlarged group set spells |
| `CtrlerMachine.MemoryConfigStateMachine.Spread` | src/shardctrler/stateMachine.go:37-44 | the loop ends, and with the rebalanced lists |
| `CtrlerMachine.MemoryConfigStateMachine.Leave` | src/shardctrler/stateMachine.go:56-91 | one configuration is appended; orphans are adopted one by one, or all shards go to 0 with the last group |
| `CtrlerMachine.MemoryConfigStateMachine.Move` | src/shardctrler/stateMachine.go:93-103 | one shard is reassigned in a new configuration, nothing else changes |
| `CtrlerMachine.MemoryConfigStateMachine.Query` | src/shardctrler/stateMachine.go:105-110 | the numbered configuration, or the latest for a number out of range |
| `CtrlerMachine.GroupToShards` | src/shardctrler/stateMachine.go:112-121 | for each group, and each owner, its shards in ascending order |
| `CtrlerMachine.GetGidWithMaxShards` | src/shardctrler/stateMachine.go:123-139 | 0 while it has shards, else the smallest gid of largest load |
| `CtrlerMachine.GetGidWithMinShards` | src/shardctrler/stateMachine.go:141-154 | the smallest non-zero gid of smallest load, -1 when there is none |
| `CtrlerMachine.AddGroups` | src/shardctrler/stateMachine.go:29-35 | new groups are added, known gids keep their servers |
| `CtrlerMachine.RemoveGroups` | src/shardctrler/stateMachine.go:64-73 | the groups that leave are gone from both maps and their shards are listed as orphans |
| `CtrlerMachine.WriteShards` | src/shardctrler/stateMachine.go:45-51 | the lists written back as an assignment, in any map order |
| `CtrlerSpec.MoveSane` | src/shardctrler/stateMachine.go:37-44 | each round has a shard to move and lowers (shards at 0, largest load, groups at that load) |
| `CtrlerSpec.ExtremesUnique` | src/shardctrler/stateMachine.go:123-154 | source and target do not depend on map order |
| `CtrlerSpec.RebalanceEvens` | src/shardctrler/stateMachine.go:36-51 | from any configuration at all, Join leaves no shard at 0 and all loads within one |
| `CtrlerTheorems.JoinStep` | src/shardctrler/stateMachine.go:37-44 | from a balanced configuration every move is from an old group, or from none, to a new one, and levels are kept |
| `CtrlerTheorems.JoinKeeps` | src/shardctrler/stateMachine.go:22-54 | a good configuration becomes a good one; only shards that go to new groups move; no balanced assignment moves fewer |
| `CtrlerTheorems.JoinTakesLowest` | src/shardctrler/stateMachine.go:37-44 | the shards it takes from a group are that group's lowest ones |
| `CtrlerTheorems.JoinExactly` | src/shardctrler/stateMachine.go:22-54 | a Join keeps a good configuration good exactly when it leaves at least one group and names no group 0, the gid that stands for none and that good configurations therefore do not have |
| `CtrlerTheorems.JoinWithoutGroups` | src/shardctrler/stateMachine.go:37-44 | with no groups every shard goes to the sentinel gid -1 |
| `CtrlerTheorems.LeaveKeeps` | src/shardctrler/stateMachine.go:56-91 | a good configuration becomes a good one; only shards of leaving groups move, which is as few as possible |
| `CtrlerTheorems.JoinGivesAll` | src/shardctrler/stateMachine.go:36-51 | whatever configuration it finds, Join leaves no shard with group 0 |
| `CtrlerTheorems.LeaveMoves` | src/shardctrler/stateMachine.go:56-91 | whatever configuration it finds, a Leave that keeps a group moves exactly the shards of the gids it names, and gives none to 0; one that keeps none gives all to 0 |
| `CtrlerTheorems.OrphansInOrder` | src/shardctrler/stateMachine.go:64-73 | orphans are listed in the order the leaving groups are named, those of one group from the lowest shard up |
| `CtrlerRuns.Numbered` | src/shardctrler/stateMachine.go:22-103 | over every run of Joins, Leaves and Moves configuration i has number i |
| `CtrlerRuns.AlwaysLive` | src/shardctrler/stateMachine.go:22-103 | if Joins and Moves are sound, every shard is with a live group, or with 0 when there is none |
| `CtrlerRuns.AlwaysOk` | src/shardctrler/stateMachine.go:22-91 | without Moves loads are also within one |
| `CtrlerRuns.TakenOrGiven` | src/shardctrler/stateMachine.go:22-103 | from any configuration, a command takes a shard from its group exactly if it is a Leave that keeps no group or a Move of it to 0, and gives out one that nobody has exactly if it is a Join, a Leave that names 0 and keeps a group, or a Move of it to another gid |
| `CtrlerRuns.NextUnique` | src/shardctrler/stateMachine.go:22-103 | the next configuration is determined by the last one and the command, whatever order maps are walked in |
| `CtrlerBalance.MovesAreFewest` | src/shardctrler/stateMachine.go:36-44 | if only shards that went to new groups moved and no new group is above an old one, nothing balanced moves fewer |
| `ApplyServer.RaftLog.constructor` | src/raft/raft.go:158-189 | commit and applied index start at the first retained entry |
| `ApplyServer.RaftLog.CopyCommitted` | src/raft/apply.go:15-18 | the slice is in bounds and holds exactly the entries after the applied index up to the commit index |
| `ApplyServer.RaftLog.FinishBatch` | src/raft/apply.go:28-30 | the applied index never goes back |
| `ApplyServer.RaftLog.Snapshot` | src/raft/raft.go:229-243 | the log is cut at the snapshot, its head keeping the term of the entry there, and saved with it; an old one changes nothing |
| `ApplyServer.RaftLog.CondInstallSnapshot` | src/raft/raft.go:195-223 | only a snapshot beyond the commit index is taken; then indexes and disk move to it and the head of the log has its index and term |
| `ApplyServer.KVServer.constructor` | src/kvraft/server.go:179-204 | the store is restored from disk while the applied index starts at 0 |
| `ApplyServer.KVServer.OnCommand` | src/kvraft/server.go:93-128 | an outdated message changes and answers nothing; a new one is applied once, a repeated write only answered; the waiter is notified exactly at the leader of the term the command was logged in |
| `ApplyServer.KVServer.Command` | src/kvraft/server.go:54-63 | a repeated write is answered from the table before turning to the log |
| `ApplyServer.KVServer.TaskSnapshot` | src/kvraft/common.go:107-113 | store and table are saved as of the last applied index |
| `ApplyServer.KVServer.OnSnapshot` | src/kvraft/server.go:129-135 | store, table and index move to the snapshot exactly when raft takes it |
| `ApplyPath.StepKeeps` | src/raft/apply.go:8-32 | every interleaving of batches, snapshots, installs and restarts keeps: the store is the fold of a prefix, and what is on the channel continues it |
| `ApplyPath.AlwaysFold` | src/kvraft/server.go:88-142 | in every run store and table are the fold of one gapless prefix of the agreed commands |
| `ApplyPath.AlwaysInBounds` | src/raft/apply.go:15-18 | every slice taken by the applier, by snapshots and by installs is in bounds |
| `ApplyPath.DeliveredOnce` | src/kvraft/server.go:93-113 | a delivered command is the next one or leaves the store alone: none twice, none skipped |
| `ApplyPath.SameAnswer` | src/kvraft/server.go:102-113 | every reply is the one the agreed commands before it give, so all servers have the same |
| `ApplyPath.RetryIgnored` | src/kvraft/common.go:73-76 | a write that comes up again, or is older than one already applied for its client, changes nothing |
| `ApplyPath.EarlyAnswer` | src/kvraft/server.go:54-63 | the early answer to a repeated write is the one it gets wherever it comes up in the agreed commands |
| `ApplyStore.RecognisedExactly` | src/kvraft/common.go:73-76 | the table recognises exactly the writes that are not numbered above every earlier write of their client |
| `ApplyStore.FoldReplays` | src/kvraft/server.go:88-142 | the store after n agreed commands is the sequential store after those of them that are not repeated writes, in order, and it accepts what each was answered |
| `ApplyStore.StoreIsModel` | src/kvraft/server.go:88-142 | so in every run, snapshots and restarts included |
| `ApplyStore.AnswerIsModel` | src/kvraft/server.go:102-124 | what a server answers a delivered command is what the sequential store answers at its place |
| `ApplyStore.StoreLinearizable` | src/kvraft/test_test.go:369-385 | so every history of the store in which commands are agreed between call and answer is linearizable |
| `ApplyStore.ReplicaIsModel` | src/kvraft/server.go:88-142 | every replica beside a Raft run, at any moment, is the sequential store on commands the cluster committed |
| `ApplyStore.EarlyExactly` | src/kvraft/server.go:54-63 | a command is answered at once exactly if it is a write and the server has applied one of its client numbered as high |
| `ApplyStore.TakenExactly` | src/raft/raft.go:229-243 | a snapshot keeps exactly the entries behind what has been applied |
| `ApplyStore.SnapshotSurvives` | src/kvraft/common.go:107-113 | in every run, a restart after a snapshot brings back exactly the store and table there were |
| `ApplyStore.InstalledExactly` | src/raft/raft.go:195-223 | a snapshot beyond the commit index replaces the store and leaves of the log exactly what lies behind it; any other is dropped |
| `ApplyStore.CanApplyAll` | src/raft/apply.go:8-32 | from every state of every run the appliers alone can bring the store to all that is committed |
| `ApplyRaft.CommittedStays` | src/raft/apply.go:15-18 | over every step of a Raft run that is not a crash of it, a server keeps what it has committed, and its commit index |
| `ApplyRaft.BesideIsRun` | src/raft/apply.go:8-32 | the appliers of a server beside any Raft run, at any pace and over crashes, run on commands all servers agree on: what the other results of the apply path take for granted |
| `ApplyRaft.ReplicasAgree` | src/kvraft/server.go:88-142 | so any two replicas, at any two moments of a Raft run, hold the results of prefixes of one and the same sequence of commands |
| `MapReduce.WriteToFile` | src/mr/worker.go:110-132 | one file per reduce task with the lines of its bucket in order |
| `MapReduce.ReadIntermediate` | src/mr/worker.go:197-213 | the lines of all files of a task |
| `MapReduce.ParseAll` | src/mr/worker.go:156-166 | blank lines are skipped, others split at tabs; it panics exactly on a line that is not blank and has no tab |
| `MapReduce.LineRoundTrip` | src/mr/worker.go:156-166 | a pair without newlines comes back from its line exactly when it has no tabs and is not blank as a whole |
| `MapReduce.FileRoundTrip` | src/mr/worker.go:110-213 | a file can be read and gives back what was written exactly when no pair has a tab or newline or is blank as a whole |
| `MapReduce.SortByKey` | src/mr/worker.go:145-168 | stands for sort.Sort(ByKey): a sorted permutation |
| `MapReduce.GroupReduce` | src/mr/worker.go:173-187 | each key once, reduced over all its values |
| `MapReduce.DoReduceTask` | src/mr/worker.go:153-196 | unless a line cannot be read, the output is each key reduced over all values read for it, in the order some sort by key leaves them |
| `MapReduce.Sequential` | src/main/mrsequential.go:38-85 | each key reduced over all values of all map calls, in the order some sort by key leaves them |
| `MapReduce.SortHidden` | src/mr/worker.go:168-187 | for a reduce function that does not depend on the order of its values the sort does not show |
| `MapReduce.BucketRead` | src/mr/worker.go:110-213 | what a reduce task reads is its bucket of everything the map tasks produced |
| `MapReduce.Distributed` | src/mr/worker.go:86-213 | for any pairs and any reduce function: it fails exactly when some task cannot read its files, and else each task reduces what it reads as above |
| `MapReduce.DistributedReduces` | src/mr/worker.go:86-213 | for clean pairs and an order-free reduce function no task fails, and together they reduce each key in exactly one bucket, over all its values |
| `MapReduce.Agree` | src/mr/worker.go:86-213 | for clean pairs and an order-free reduce function both programs produce the same multiset of output pairs |

## Left out

- labrpc and labgob: the network is a pool of messages and encoding is the identity.
- Timers, randomness, sleeps and liveness: timeouts are steps that may happen at any time; what is proved of progress is that steps exist, or that none do, not that they are taken.
- Notify channels of the key/value and shard servers: which reply is sent is modelled, but waiters are keyed by log index only, so none is claimed to reach the waiter's own command.
- Compaction and snapshot installation inside the Raft cluster model: `ApplyPath` covers them for one server, with agreement of committed entries as its premise, which `ApplyRaft` derives for uncompacted logs only.
- The event interface of the checker (`renumber`, `convertEntries`, `checkEvents`): the repository only checks recorded operations.
- The HTML of the visualization, and the texts: descriptions are functions handed in.
- `checkParallel`: goroutines are modelled by the order in which their results arrive and, for those stopped, by when they notice.
- Which server of a group answers an RPC, and the server lists of a configuration: a group acts as one.
- The clerks, the controller's own Raft server and when the shard servers take snapshots: retry loops, or the apply path again.
- The MapReduce coordinator, and file names and renaming: files are strings handed from map to reduce tasks.
- `ihash`: any hash function, so bucket numbers are not computed.
- `key2shard` on bytes: keys are strings of characters, and the first character decides.
- 64-bit and 32-bit overflow of ids, terms and indexes: integers are unbounded, except in the bitset.

/**
 The same steps on objects in memory: the raft side of the channel and the key/value server
 (src/raft/apply.go, src/raft/raft.go, src/kvraft/server.go).
 */
module ApplyServer {
  import opened Options
  import opened ShardGroup
  import opened ApplyPath

  class RaftLog {
    var logs: seq<LogEntry>
    var commitIndex: nat
    var lastApplied: nat
    var savedLogs: seq<LogEntry>
    var savedSnapshot: State

    ghost predicate Valid()
      reads this
    {
      Indexed(logs) && savedLogs == logs
    }

    /** Make, with what the disk holds. */
    constructor (diskLogs: seq<LogEntry>, diskSnapshot: State)
      requires Indexed(diskLogs)
      ensures Valid() && logs == diskLogs && savedSnapshot == diskSnapshot
      ensures commitIndex == diskLogs[0].index && lastApplied == diskLogs[0].index
    {
      logs, savedLogs, savedSnapshot := diskLogs, diskLogs, diskSnapshot;
      lastApplied, commitIndex := diskLogs[0].index, diskLogs[0].index;
    }

    /** The copy the applier makes under the lock. */
    method CopyCommitted() returns (entries: seq<LogEntry>, upTo: nat)
      requires Valid() && logs[0].index <= lastApplied <= commitIndex && commitIndex - logs[0].index + 1 <= |logs|
      ensures upTo == commitIndex && |entries| == commitIndex - lastApplied
      ensures forall k :: 0 <= k < |entries| ==>
                          entries[k].index == lastApplied + 1 + k
                            && entries[k] == logs[lastApplied - logs[0].index + 1 + k]
    {
      var firstLogIndex := logs[0].index;
      upTo := commitIndex;
      entries := logs[lastApplied - firstLogIndex + 1..commitIndex - firstLogIndex + 1];
    }

    method FinishBatch(upTo: nat)
      requires Valid()
      modifies this`lastApplied
      ensures Valid() && lastApplied == if old(lastApplied) > upTo then old(lastApplied) else upTo
    {
      if upTo > lastApplied {
        lastApplied := upTo;
      }
    }

    method Snapshot(index: nat, snapshot: State)
      requires Valid() && (index > logs[0].index ==> index - logs[0].index < |logs|)
      modifies this`logs, this`savedLogs, this`savedSnapshot
      ensures Valid()
      ensures if index <= old(logs[0].index) then logs == old(logs) && savedSnapshot == old(savedSnapshot)
              else logs == Compact(old(logs), index, old(logs[index - logs[0].index].term)) && savedSnapshot == snapshot
    {
      var snapshotIndex := logs[0].index;
      if index <= snapshotIndex {
        return;
      }
      logs := logs[index - snapshotIndex..];
      logs := logs[0 := Blank(logs[0].index, logs[0].term)];
      assert logs == Compact(old(logs), index, old(logs[index - logs[0].index].term));
      CompactIndexed(old(logs), index, logs[0].term);
      savedLogs, savedSnapshot := logs, snapshot;
    }

    method CondInstallSnapshot(term: nat, index: nat, snapshot: State) returns (ok: bool)
      requires Valid() && logs[0].index <= commitIndex
      modifies this
      ensures Valid() && ok == (index > old(commitIndex))
      ensures !ok ==> logs == old(logs) && savedSnapshot == old(savedSnapshot) && commitIndex == old(commitIndex)
                      && lastApplied == old(lastApplied)
      ensures ok ==> commitIndex == index && lastApplied == index && savedSnapshot == snapshot
      ensures ok ==> logs == if index > old(logs[|logs| - 1].index)
                     then [Blank(index, term)] else Compact(old(logs), index, term)
    {
      if index <= commitIndex {
        return false;
      }
      if index > logs[|logs| - 1].index {
        logs := [Blank(0, 0)];
      } else {
        logs := logs[index - logs[0].index..];
        logs := logs[0 := Blank(logs[0].index, logs[0].term)];
        CompactIndexed(old(logs), index, term);
      }
      logs := logs[0 := Blank(index, term)];
      assert index <= old(logs[|logs| - 1].index) ==> logs == Compact(old(logs), index, term);
      lastApplied, commitIndex := index, index;
      savedLogs, savedSnapshot := logs, snapshot;
      return true;
    }
  }

  class KVServer {
    const rf: RaftLog
    var lastApplied: nat
    var stateMachine: map<string, string>
    var lastOperations: Operations

    /** The server as a value; what is on the channel is not its own. */
    ghost function View(batch: Batch, snapshots: set<Snapshot>): Node
      reads this, rf
    {
      Node(rf.logs, rf.commitIndex, rf.lastApplied, batch, snapshots, rf.savedSnapshot,
           State(stateMachine, lastOperations), lastApplied)
    }

    /** StartKVServer, restoring the snapshot on disk. */
    constructor (diskLogs: seq<LogEntry>, diskSnapshot: State)
      requires Indexed(diskLogs)
      ensures rf.Valid() && fresh(rf)
      ensures forall n: Node :: n.logs == diskLogs && n.saved == diskSnapshot ==> View(NoBatch, {}) == Restarted(n)
    {
      rf := new RaftLog(diskLogs, diskSnapshot);
      lastApplied := 0;
      stateMachine, lastOperations := diskSnapshot.store, diskSnapshot.ops;
    }

    /**
     The command branch of the applier; the reply goes to a waiting client only while the term it
     was logged in lasts.
     */
    method OnCommand(msg: LogEntry, isLeader: bool, currentTerm: nat, ghost batch: Batch,
                     ghost snapshots: set<Snapshot>)
      returns (notified: Option<CommandReply>)
      requires msg.LogEntry?
      modifies this
      ensures View(batch, snapshots) == Receive(old(View(batch, snapshots)), msg)
      ensures notified == if isLeader && msg.term == currentTerm
              then AnswerFor(old(View(batch, snapshots)), msg) else None
    {
      if msg.index <= lastApplied {
        return None;
      }
      lastApplied := msg.index;
      var command := msg.command;
      var reply;
      if command.op != Get && IsDuplicate(lastOperations, command.clientId, command.commandId) {
        reply := lastOperations[command.clientId].lastReply;
      } else {
        reply := ReplyTo(stateMachine, command);
        stateMachine := Execute(stateMachine, command);
        if command.op != Get {
          lastOperations := lastOperations[command.clientId := OperationInfo(command.commandId, reply)];
        }
      }
      notified := if isLeader && msg.term == currentTerm then Some(reply) else None;
    }

    /** Command, up to where it turns to the log. */
    method Command(args: CommandArgs) returns (reply: Option<CommandReply>)
      ensures reply == EarlyReply(State(stateMachine, lastOperations), args)
    {
      if args.op != Get && IsDuplicate(lastOperations, args.clientId, args.commandId) {
        return Some(lastOperations[args.clientId].lastReply);
      }
      return None;
    }

    /** taskSnapshot after applying the command at `lastApplied`. */
    method TaskSnapshot(ghost batch: Batch, ghost snapshots: set<Snapshot>)
      requires rf.Valid() && (lastApplied > rf.logs[0].index ==> lastApplied - rf.logs[0].index < |rf.logs|)
      modifies rf
      ensures rf.Valid() && View(batch, snapshots) == Snapshotted(old(View(batch, snapshots)))
    {
      rf.Snapshot(lastApplied, State(stateMachine, lastOperations));
    }

    /** The snapshot branch of the applier. */
    method OnSnapshot(m: Snapshot, ghost batch: Batch, ghost snapshots: set<Snapshot>)
      requires rf.Valid() && rf.logs[0].index <= rf.commitIndex
      modifies this, rf
      ensures rf.Valid() && View(batch, snapshots - {m}) == Installed(old(View(batch, snapshots)), m)
    {
      var ok := rf.CondInstallSnapshot(m.term, m.index, m.data);
      if ok {
        stateMachine, lastOperations := m.data.store, m.data.ops;
        lastApplied := m.index;
      }
    }
  }
}

/**
 A Raft server in memory: the handlers of src/raft, changing fields in place
 and scanning their logs in loops, each proved to do what RaftServer says.
 */
module RaftNode {
  import opened Sets
  import opened Options
  import opened RaftTypes
  import opened RaftServer

  class Raft {
    const me: int
    const n: nat
    var role: Role
    var currentTerm: nat
    var votedFor: int
    var logs: seq<Entry>
    var commitIndex: int
    const nextIndex: array<int>
    const matchIndex: array<int>
    var persister: Disk
    var elections: map<nat, Election>

    ghost predicate Valid()
      reads this
    {
      && 0 <= me < n
      && nextIndex.Length == n
      && matchIndex.Length == n
      && nextIndex != matchIndex
      && Indexed(logs)
      && logs[0].index <= commitIndex
      && |persister.logs| > 0
    }

    ghost function View(): Server
      reads this, nextIndex, matchIndex
    {
      Server(role, currentTerm, votedFor, logs, commitIndex, nextIndex[..], matchIndex[..], persister, elections)
    }

    /** Make: start from whatever was persisted before a crash. */
    constructor (me: int, n: nat, disk: Disk)
      requires 0 <= me < n && Indexed(disk.logs)
      ensures Valid() && this.me == me && this.n == n && fresh(nextIndex) && fresh(matchIndex)
      ensures View() == Restart(Fresh(n).(disk := disk), n)
    {
      this.me, this.n := me, n;
      role := Follower;
      currentTerm, votedFor, logs := disk.currentTerm, disk.votedFor, disk.logs;
      commitIndex := disk.logs[0].index;
      nextIndex := new int[n](_ => 0);
      matchIndex := new int[n](_ => 0);
      persister := disk;
      elections := map[];
      new;
      assert nextIndex[..] == seq(n, _ => 0);
      assert matchIndex[..] == seq(n, _ => 0);
    }

    method Persist()
      requires Valid()
      modifies this`persister
      ensures Valid()
      ensures View() == RaftServer.Persist(old(View()))
    {
      persister := Disk(currentTerm, votedFor, logs);
    }

    method SetNewTerm(term: nat)
      requires Valid()
      modifies this`currentTerm, this`role, this`votedFor, this`persister
      ensures Valid()
      ensures View() == RaftServer.SetNewTerm(old(View()), term)
    {
      currentTerm := term;
      role := Follower;
      votedFor := NO_VOTE;
      Persist();
    }

    method RequestVote(args: RequestVoteArgs) returns (reply: RequestVoteReply)
      requires Valid()
      modifies this`currentTerm, this`role, this`votedFor, this`persister
      ensures Valid()
      ensures (View(), reply) == RaftServer.RequestVote(old(View()), args)
    {
      if args.term < currentTerm || (args.term == currentTerm && votedFor != NO_VOTE && votedFor != args.candidateId) {
        return RequestVoteReply(currentTerm, false);
      }
      if args.term > currentTerm {
        SetNewTerm(args.term);
      }
      var lastLog := logs[|logs| - 1];
      var upToDate := args.lastLogTerm > lastLog.term
        || (args.lastLogTerm == lastLog.term && args.lastLogIndex >= lastLog.index);
      if (votedFor == NO_VOTE || votedFor == args.candidateId) && upToDate {
        votedFor := args.candidateId;
        Persist();
        reply := RequestVoteReply(currentTerm, true);
      } else {
        reply := RequestVoteReply(currentTerm, false);
      }
    }

    /** The election timer's branch of ticker, with StartElection. */
    method StartElection() returns (args: RequestVoteArgs)
      requires Valid()
      modifies this`currentTerm, this`role, this`votedFor, this`persister, this`elections
      ensures Valid()
      ensures View() == Timeout(old(View()), me, n) && args == Ballot(View(), me)
    {
      role := Candidate;
      currentTerm := currentTerm + 1;
      votedFor := me;
      var lastLog := logs[|logs| - 1];
      args := RequestVoteArgs(currentTerm, me, lastLog.index, lastLog.term);
      elections := elections[currentTerm := Election(args, Below(n) - {me}, 1, false)];
      Persist();
    }

    /** The callback of one RequestVote call, as written; who wins sends heartbeats. */
    method OnVoteReply(peer: int, args: RequestVoteArgs, reply: RequestVoteReply)
      returns (won: bool, sent: set<Message>)
      requires Valid() && args.term in elections
      modifies this, nextIndex, matchIndex
      ensures Valid()
      ensures (View(), won) == VoteReply(old(View()), n, peer, args, reply, AsWritten)
      ensures (won ==> CanSend(View(), n)) && sent == if won then Broadcast(View(), me, n, true) else {}
    {
      won, sent := false, {};
      var e := elections[args.term];
      e := e.(awaiting := e.awaiting - {peer});
      elections := elections[args.term := e];
      if reply.term > args.term {
        SetNewTerm(args.term);
        return;
      }
      if reply.term < args.term { return; }
      if !reply.voteGranted { return; }
      e := e.(grantedVote := e.grantedVote + 1);
      if e.grantedVote > n / 2 && currentTerm == args.term && role == Candidate && !e.becomeLeader {
        e := e.(becomeLeader := true);
        role := Leader;
        var lastLogIndex := logs[|logs| - 1].index;
        for i := 0 to n
          modifies nextIndex, matchIndex
          invariant forall k :: 0 <= k < i ==> nextIndex[k] == lastLogIndex + 1 && matchIndex[k] == 0
        {
          nextIndex[i] := lastLogIndex + 1;
          matchIndex[i] := 0;
        }
        assert nextIndex[..] == seq(n, _ => lastLogIndex + 1);
        assert matchIndex[..] == seq(n, _ => 0);
        won := true;
      }
      elections := elections[args.term := e];
      if won { sent := SendEntries(true); }
    }

    /** Lays the entries of an append request on the log. */
    method TakeEntries(at: nat, entries: seq<Entry>)
      requires Valid() && 0 < at <= |logs| && Follows(logs[0].index + at - 1, entries)
      modifies this`logs, this`persister
      ensures Valid()
      ensures logs == Merge(old(logs), at, entries)
      ensures persister == if logs == old(logs) then old(persister) else Disk(currentTerm, votedFor, logs)
    {
      var first := logs[0].index;
      var index := 0;
      while index < |entries|
        invariant 0 <= index <= |entries|
        invariant logs == old(logs) && persister == old(persister)
        invariant forall j :: 0 <= j < index ==> SameTerm(logs, at, entries, j)
      {
        var entry := entries[index];
        if entry.index <= logs[|logs| - 1].index && entry.index - first >= 0
          && logs[entry.index - first].term != entry.term {
          logs := logs[..entry.index - first];
          Persist();
        }
        if entry.index > logs[|logs| - 1].index {
          AgreeLenIs(old(logs), at, entries, index);
          logs := logs + entries[index..];
          assert logs == old(logs)[..at + index] + entries[index..];
          assert Indexed(logs);
          Persist();
          return;
        }
        index := index + 1;
      }
      AgreeLenIs(logs, at, entries, index);
    }

    /** The index before the run of entries of term `xTerm` that ends at `from`. */
    method SkipTerm(from: int, xTerm: int) returns (xIndex: int)
      requires Valid() && -1 <= from - logs[0].index < |logs|
      ensures xIndex == logs[0].index + XIndex(logs, from - logs[0].index, xTerm)
    {
      var firstLogIndex := logs[0].index;
      xIndex := from;
      while xIndex >= firstLogIndex && logs[xIndex - firstLogIndex].term == xTerm
        invariant firstLogIndex - 1 <= xIndex <= from
        invariant XIndex(logs, from - firstLogIndex, xTerm) == XIndex(logs, xIndex - firstLogIndex, xTerm)
      {
        xIndex := xIndex - 1;
      }
    }

    method AppendEntries(args: AppendEntriesArgs) returns (reply: AppendEntriesReply)
      requires Valid() && Follows(args.prevLogIndex, args.entries)
      modifies this
      ensures Valid()
      ensures (View(), reply) == RaftServer.AppendEntries(old(View()), args)
    {
      hide RaftServer.Accept, AgreeLen, XIndex;
      reply := AppendEntriesReply(currentTerm, false, false, 0, 0, 0);
      if args.term < currentTerm { return; }
      if args.term > currentTerm {
        SetNewTerm(args.term);
        return;
      }
      if role == Candidate {
        role := Follower;
      }
      var firstLogIndex := logs[0].index;
      if args.prevLogIndex < firstLogIndex {
        reply := reply.(term := 0, success := false);
        return;
      }
      if logs[|logs| - 1].index < args.prevLogIndex {
        reply := reply.(conflict := true, xTerm := -1, xIndex := -1, xLen := |logs| + firstLogIndex - 1);
        return;
      }
      if logs[args.prevLogIndex - firstLogIndex].term != args.prevLogTerm {
        var xTerm := logs[args.prevLogIndex - firstLogIndex].term;
        var xIndex := SkipTerm(args.prevLogIndex - 1, xTerm);
        reply := reply.(conflict := true, xIndex := xIndex, xTerm := xTerm, xLen := |logs| + firstLogIndex - 1);
        return;
      }
      Accept(args.prevLogIndex - firstLogIndex + 1, args);
      reply := reply.(success := true);
    }

    /** The end of AppendEntries: the entries and the commit index. */
    method Accept(at: nat, args: AppendEntriesArgs)
      requires Valid() && 0 < at <= |logs| && Follows(logs[0].index + at - 1, args.entries)
      modifies this`logs, this`persister, this`commitIndex
      ensures Valid()
      ensures View() == RaftServer.Accept(old(View()), at, args)
    {
      hide Merge, AgreeLen;
      TakeEntries(at, args.entries);
      if args.leaderCommit > commitIndex {
        commitIndex := Min(args.leaderCommit, logs[|logs| - 1].index);
      }
    }

    /** `handedOver` is what goes to the apply channel; the original sends it from a goroutine of its own. */
    method InstallSnapshot(args: InstallSnapshotArgs)
      returns (reply: InstallSnapshotReply, handedOver: Option<InstallSnapshotArgs>)
      requires Valid()
      modifies this`currentTerm, this`role, this`votedFor, this`persister
      ensures Valid()
      ensures (View(), reply) == RaftServer.InstallSnapshot(old(View()), args)
      ensures handedOver == if args.term >= old(currentTerm)
              && args.lastIncludedIndex > commitIndex then Some(args) else None
    {
      handedOver := None;
      reply := InstallSnapshotReply(currentTerm, false);
      if args.term < currentTerm { return; }
      if args.term > currentTerm {
        SetNewTerm(args.term);
      }
      if args.lastIncludedIndex <= commitIndex { return; }
      handedOver := Some(args);
      reply := reply.(installed := true);
    }

    /** appendEntries: one message for every peer that is behind, or for all on a heartbeat. */
    method SendEntries(heartbeat: bool) returns (sent: set<Message>)
      requires Valid() && CanSend(View(), n)
      ensures sent == Broadcast(View(), me, n, heartbeat)
    {
      hide Broadcast;
      sent := {};
      var peer := 0;
      while peer < n
        invariant 0 <= peer <= n
        invariant sent == SentBelow(View(), me, n, heartbeat, peer)
      {
        if peer != me && (heartbeat || logs[|logs| - 1].index >= nextIndex[peer]) {
          var prevLogIndex := nextIndex[peer] - 1;
          var first := logs[0].index;
          assert View().nextIndex[peer] == nextIndex[peer];
          if prevLogIndex < first {
            sent := sent + {SnapshotRequest(peer, me, InstallSnapshotArgs(currentTerm, first, logs[0].term))};
          } else {
            var prevLog := logs[prevLogIndex - first];
            sent := sent + {AppendRequest(peer, AppendEntriesArgs(
                                            currentTerm, me, prevLog.index, prevLog.term,
                                              logs[prevLogIndex - first + 1..], commitIndex))};
          }
        }
        peer := peer + 1;
      }
      SentBelowAll(View(), me, n, heartbeat);
    }

    /** The leader's index arrays never run past its log, which keeps the sends that follow in bounds. */
    method Start(command: Command) returns (index: int, term: int, isLeader: bool, sent: set<Message>)
      requires Valid() && (role == Leader ==> CanSend(View(), n))
      modifies this`logs, this`persister
      ensures Valid()
      ensures isLeader == (role == Leader) && (isLeader ==> CanSend(View(), n))
      ensures sent == if isLeader then Broadcast(View(), me, n, false) else {}
      ensures View() == if isLeader then RaftServer.Start(old(View()), command) else old(View())
      ensures isLeader ==> index == Last(logs).index && term == currentTerm && Last(logs).command == command
    {
      if role != Leader { return -1, -1, false, {}; }
      index := logs[|logs| - 1].index + 1;
      term := currentTerm;
      logs := logs + [Entry(index, term, command)];
      Persist();
      sent := SendEntries(false);
      isLeader := true;
    }

    /** OutOfRange is where the original panics. */
    method FindLastLogInXTerm(term: int) returns (found: Found)
      requires Valid()
      ensures found == RaftServer.FindLastLogInXTerm(logs, term)
    {
      var i := logs[|logs| - 1].index;
      while i > 0
        invariant i - logs[0].index < |logs|
        invariant FindLastFrom(logs, term, i) == RaftServer.FindLastLogInXTerm(logs, term)
      {
        if i - logs[0].index < 0 {
          return OutOfRange;
        }
        var curTerm := logs[i - logs[0].index].term;
        if curTerm == term {
          return FoundAt(i);
        } else if curTerm < term {
          break;
        }
        i := i - 1;
      }
      return Absent;
    }

    /** Counts the peers known to hold index `i`, and stops as soon as they are more than half. */
    method HeldByMost(i: int) returns (most: bool)
      requires Valid()
      ensures most == (|Holders(View(), me, n, i)| > n / 2)
    {
      var cnt := 1;
      var serverId := 0;
      ghost var held := View().matchIndex;
      HoldersSize(View(), me, n, i);
      while serverId < n
        invariant 0 <= serverId <= n
        invariant cnt == 1 + HeldBelow(held, me, i, serverId)
        invariant serverId > 0 ==> cnt <= n / 2
      {
        if serverId != me && matchIndex[serverId] >= i {
          cnt := cnt + 1;
        }
        serverId := serverId + 1;
        if cnt > n / 2 {
          HeldBelowRises(held, me, i, serverId, n);
          return true;
        }
      }
      return false;
    }

    method LeaderCommitLog()
      requires Valid()
      modifies this`commitIndex
      ensures Valid()
      ensures View() == RaftServer.LeaderCommitLog(old(View()), me, n)
    {
      hide Holders;
      if role != Leader { return; }
      ghost var s := View();
      var i := commitIndex + 1;
      while i <= logs[|logs| - 1].index
        invariant s.commitIndex < i
        invariant i == s.commitIndex + 1 || i <= Last(logs).index + 1
        invariant View() == s.(commitIndex := CommitScan(s, me, n, i - 1))
      {
        if logs[i - logs[0].index].term == currentTerm {
          var most := HeldByMost(i);
          SameHolders(View(), s, me, n, i);
          if most {
            commitIndex := i;
          }
        }
        i := i + 1;
      }
      CommitScanPast(s, me, n, i - 1, Last(logs).index);
    }

    /** The reply makes the leader scan its log below the first entry it retains. */
    ghost predicate ScansBelow(args: AppendEntriesArgs, reply: AppendEntriesReply)
      requires Valid()
      reads this
    {
      && reply.term <= currentTerm && args.term == currentTerm && !reply.success && reply.conflict && reply.xTerm != -1
      && RaftServer.FindLastLogInXTerm(logs, reply.xTerm).OutOfRange?
    }

    /** The callback of one AppendEntries call; it can panic on a compacted log. */
    method OnAppendReply(peer: int, args: AppendEntriesArgs, reply: AppendEntriesReply) returns (panicked: bool)
      requires Valid() && 0 <= peer < n
      modifies this, nextIndex, matchIndex
      ensures Valid() && panicked == old(ScansBelow(args, reply))
      ensures View() == if panicked then old(View()) else AppendReply(old(View()), me, n, peer, args, reply)
    {
      hide RaftServer.LeaderCommitLog, RaftServer.FindLastLogInXTerm;
      panicked := false;
      if reply.term > currentTerm {
        SetNewTerm(reply.term);
        return;
      }
      if args.term == currentTerm {
        if reply.success {
          var got := args.prevLogIndex + |args.entries|;
          nextIndex[peer] := Max(nextIndex[peer], got + 1);
          matchIndex[peer] := Max(matchIndex[peer], got);
        } else if reply.conflict {
          if reply.xTerm == -1 {
            nextIndex[peer] := reply.xLen;
          } else {
            var lastLogInXTerm := FindLastLogInXTerm(reply.xTerm);
            if lastLogInXTerm.OutOfRange? {
              return true;
            } else if lastLogInXTerm.FoundAt? && lastLogInXTerm.index > 0 {
              nextIndex[peer] := lastLogInXTerm.index;
            } else {
              nextIndex[peer] := reply.xIndex;
            }
          }
        } else if nextIndex[peer] > 1 {
          nextIndex[peer] := nextIndex[peer] - 1;
        }
        LeaderCommitLog();
      }
    }

    method OnSnapshotReply(peer: int, args: InstallSnapshotArgs, reply: InstallSnapshotReply)
      requires Valid() && 0 <= peer < n
      modifies this, nextIndex, matchIndex
      ensures Valid()
      ensures View() == SnapshotReply(old(View()), peer, args, reply)
    {
      if reply.term > currentTerm {
        SetNewTerm(reply.term);
      }
      nextIndex[peer] := args.lastIncludedIndex + 1;
      matchIndex[peer] := args.lastIncludedIndex;
    }
  }

  lemma {:induction false} AgreeLenIs(logs: Log, at: nat, entries: seq<Entry>, m: nat, k: nat := 0)
    requires k <= m <= |entries|
    requires forall j :: k <= j < m ==> SameTerm(logs, at, entries, j)
    requires m < |entries| ==> !SameTerm(logs, at, entries, m)
    ensures AgreeLen(logs, at, entries, k) == m
    decreases m - k
  {
    if k < m { AgreeLenIs(logs, at, entries, m, k + 1); }
  }

  /** What has been sent once the peers below `k` are done. */
  ghost function SentBelow(s: Server, me: int, n: nat, heartbeat: bool, k: nat): set<Message>
    requires CanSend(s, n) && k <= n
  {
    if k == 0 then {}
    else SentBelow(s, me, n, heartbeat, k - 1)
         + if k - 1 != me && (heartbeat || Last(s.logs).index >= s.nextIndex[k - 1]) then {SendTo(s, me, k - 1)} else {}
  }

  ghost predicate SendsTo(s: Server, me: int, n: nat, heartbeat: bool, p: int)
    requires CanSend(s, n)
  {
    0 <= p < n && p != me && (heartbeat || Last(s.logs).index >= s.nextIndex[p])
  }

  lemma {:induction false} SentBelowIs(s: Server, me: int, n: nat, heartbeat: bool, k: nat, m: Message)
    requires CanSend(s, n) && k <= n
    ensures m in SentBelow(s, me, n, heartbeat, k) <==>
              exists p :: 0 <= p < k && SendsTo(s, me, n, heartbeat, p) && m == SendTo(s, me, p)
  {
    if k > 0 {
      SentBelowIs(s, me, n, heartbeat, k - 1, m);
      if SendsTo(s, me, n, heartbeat, k - 1) && m == SendTo(s, me, k - 1) {
        assert m in SentBelow(s, me, n, heartbeat, k);
      }
    }
  }

  lemma SentBelowAll(s: Server, me: int, n: nat, heartbeat: bool)
    requires CanSend(s, n)
    ensures SentBelow(s, me, n, heartbeat, n) == Broadcast(s, me, n, heartbeat)
  {
    hide SendTo;
    forall m ensures m in SentBelow(s, me, n, heartbeat, n) <==> m in Broadcast(s, me, n, heartbeat) {
      SentBelowIs(s, me, n, heartbeat, n, m);
    }
  }

  /** How many peers below `k`, other than `me`, have a match index of at least `i`. */
  function HeldBelow(held: seq<int>, me: int, i: int, k: nat): nat
    requires k <= |held|
  {
    if k == 0 then 0 else HeldBelow(held, me, i, k - 1) + if k - 1 != me && held[k - 1] >= i then 1 else 0
  }

  lemma {:induction false} HeldBelowRises(held: seq<int>, me: int, i: int, j: nat, k: nat)
    requires j <= k <= |held|
    ensures HeldBelow(held, me, i, j) <= HeldBelow(held, me, i, k)
    decreases k
  {
    if j < k { HeldBelowRises(held, me, i, j, k - 1); }
  }

  ghost function HeldSet(held: seq<int>, me: int, i: int, k: nat): set<int>
    requires k <= |held|
  {
    set p: int | 0 <= p < k && p != me && held[p] >= i
  }

  lemma {:induction false} HeldBelowSize(held: seq<int>, me: int, i: int, k: nat)
    requires k <= |held|
    ensures HeldBelow(held, me, i, k) == |HeldSet(held, me, i, k)|
  {
    if k > 0 {
      HeldBelowSize(held, me, i, k - 1);
      var below := HeldSet(held, me, i, k - 1);
      if k - 1 != me && held[k - 1] >= i {
        assert HeldSet(held, me, i, k) == below + {k - 1};
      } else {
        assert HeldSet(held, me, i, k) == below;
      }
    } else {
      assert HeldSet(held, me, i, 0) == {};
    }
  }

  lemma HoldersSize(s: Server, me: int, n: nat, i: int)
    requires |s.matchIndex| == n && 0 <= me < n
    ensures |Holders(s, me, n, i)| == 1 + HeldBelow(s.matchIndex, me, i, n)
  {
    HeldBelowSize(s.matchIndex, me, i, n);
    assert Holders(s, me, n, i) == HeldSet(s.matchIndex, me, i, n) + {me};
  }

  lemma SameHolders(s: Server, s': Server, me: int, n: nat, i: int)
    requires s.matchIndex == s'.matchIndex && |s.matchIndex| == n
    ensures Holders(s, me, n, i) == Holders(s', me, n, i)
  {
  }

  /** A scan that has passed the end of the log, or never started, stops at the commit index it has. */
  lemma CommitScanPast(s: Server, me: int, n: nat, reached: int, last: int)
    requires |s.logs| > 0 && |s.matchIndex| == n && reached >= last && (reached == last || reached == s.commitIndex)
    ensures CommitScan(s, me, n, reached) == CommitScan(s, me, n, last)
  {
  }
}

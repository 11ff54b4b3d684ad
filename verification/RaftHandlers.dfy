/** What each handler of a Raft server decides, in the numbers its caller sees. */
module RaftHandlers {
  import opened Sets
  import opened RaftTypes
  import opened RaftServer

  /** What no handler here touches, except where it says so. */
  ghost predicate Untouched(s: Server, s': Server) {
    s'.nextIndex == s.nextIndex && s'.matchIndex == s.matchIndex && s'.elections == s.elections
  }

  ghost predicate Saved(s: Server) {
    s.disk.currentTerm == s.currentTerm && s.disk.votedFor == s.votedFor && s.disk.logs == s.logs
  }

  /**
   A vote is granted exactly if the ballot is not of an older term, nobody else has the server's vote
   in that term, and the candidate's last entry is of a newer term than the server's or, in the same
   term, not before it.
   */
  lemma VoteExactly(s: Server, args: RequestVoteArgs)
    requires |s.logs| > 0
    ensures var (s', reply) := RequestVote(s, args); var last := s.logs[|s.logs| - 1];
            && (reply.voteGranted <==>
                && args.term >= s.currentTerm
                && (args.term == s.currentTerm ==> s.votedFor == -1 || s.votedFor == args.candidateId)
                && (args.lastLogTerm > last.term
                    || (args.lastLogTerm == last.term && args.lastLogIndex >= last.index)))
            && s'.currentTerm == (if args.term > s.currentTerm then args.term else s.currentTerm)
            && s'.role == (if args.term > s.currentTerm then Follower else s.role)
            && s'.votedFor == (if reply.voteGranted then args.candidateId
                               else if args.term > s.currentTerm then -1 else s.votedFor)
            && reply.term == s'.currentTerm && s'.logs == s.logs && s'.commitIndex == s.commitIndex && Untouched(s, s')
            && (Saved(s) ==> Saved(s'))
  {
  }

  /** Standing for election: the next term, the own vote, and a ballot that shows the end of the own log. */
  lemma StandExactly(s: Server, me: int, n: nat)
    requires |s.logs| > 0
    ensures var s' := Timeout(s, me, n); var last := s.logs[|s.logs| - 1];
            && s'.role == Candidate && s'.currentTerm == s.currentTerm + 1 && s'.votedFor == me
            && s'.logs == s.logs && s'.commitIndex == s.commitIndex && Saved(s')
            && Ballot(s', me) == RequestVoteArgs(s.currentTerm + 1, me, last.index, last.term)
            && s'.currentTerm in s'.elections
            && (var e := s'.elections[s'.currentTerm];
                && e.args == Ballot(s', me) && e.grantedVote == 1 && !e.becomeLeader
                && forall p :: p in e.awaiting <==> 0 <= p < n && p != me)
  {
  }

  /**
   An answered ballot makes its candidate leader exactly if it is a vote of the ballot's term, more
   than half have now voted for it, and it is still standing in that term and has not won before.
   */
  lemma WinExactly(s: Server, n: nat, peer: int, args: RequestVoteArgs, reply: RequestVoteReply, how: StepDown)
    requires |s.logs| > 0 && args.term in s.elections
    ensures var (s', won) := VoteReply(s, n, peer, args, reply, how); var e := s.elections[args.term];
            && (won <==>
                && reply.voteGranted && reply.term == args.term == s.currentTerm && s.role == Candidate
                && 2 * (e.grantedVote + 1) > n && !e.becomeLeader)
            && (won ==> && s'.role == Leader && s'.currentTerm == s.currentTerm && s'.logs == s.logs
                        && |s'.nextIndex| == n == |s'.matchIndex|
                        && forall p :: 0 <= p < n ==>
                             s'.nextIndex[p] == s.logs[|s.logs| - 1].index + 1 && s'.matchIndex[p] == 0)
  {
  }

  // ---- Followers

  /** The log has an entry of this term at the position. */
  predicate Has(logs: Log, at: nat, entry: Entry) {
    at < |logs| && logs[at].term == entry.term
  }

  /** The entries lie on the log: every one is there, by term, and nothing goes that does not contradict them. */
  ghost predicate LaidOn(logs: Log, at: nat, entries: seq<Entry>, logs': Log) {
    && 0 < at <= |logs| && at + |entries| <= |logs'| && logs'[..at] == logs[..at]
    && (forall k :: 0 <= k < |entries| ==> Has(logs', at + k, entries[k]))
    && (forall k :: 0 <= k < |entries| && !Has(logs, at + k, entries[k]) ==>
          |logs'| == at + |entries| && logs'[at + k..] == entries[k..])
    && ((forall k :: 0 <= k < |entries| ==> Has(logs, at + k, entries[k])) ==> logs' == logs)
  }

  lemma MergeLays(logs: Log, at: nat, entries: seq<Entry>)
    requires 0 < at <= |logs|
    ensures LaidOn(logs, at, entries, Merge(logs, at, entries))
  {
    var m, logs' := AgreeLen(logs, at, entries), Merge(logs, at, entries);
    forall k | 0 <= k < |entries| ensures Has(logs, at + k, entries[k]) == SameTerm(logs, at, entries, k) {}
    forall k | 0 <= k < |entries| ensures Has(logs', at + k, entries[k]) {
      assert k >= m || SameTerm(logs, at, entries, k);
    }
    forall k | 0 <= k < |entries| && !Has(logs, at + k, entries[k])
      ensures |logs'| == at + |entries| && logs'[at + k..] == entries[k..]
    {
      assert SameTerm(logs, at, entries, k) || k >= m;
    }
    assert m < |entries| ==> !Has(logs, at + m, entries[m]);
  }

  /** Whether an append request of the server's own term finds the entry it builds on. */
  ghost predicate Fits(s: Server, args: AppendEntriesArgs)
    requires |s.logs| > 0
  {
    var at := args.prevLogIndex - s.logs[0].index;
    args.term == s.currentTerm && 0 <= at < |s.logs| && s.logs[at].term == args.prevLogTerm
  }

  /**
   An append request succeeds exactly if it is of the server's term and fits; then the entries are on
   the log, and the commit index is what the leader says or the end of the log, whichever comes
   first, unless it was beyond that.
   */
  lemma AppendExactly(s: Server, args: AppendEntriesArgs)
    requires Indexed(s.logs) && Follows(args.prevLogIndex, args.entries)
    ensures var (s', reply) := AppendEntries(s, args);
            && (reply.success <==> Fits(s, args))
            && (reply.success ==>
                && LaidOn(s.logs, args.prevLogIndex - s.logs[0].index + 1, args.entries, s'.logs)
                && var end := s'.logs[|s'.logs| - 1].index;
                   var told := if args.leaderCommit < end then args.leaderCommit else end;
                   s'.commitIndex == if args.leaderCommit > s.commitIndex then told else s.commitIndex)
            && (!reply.success ==> s'.logs == s.logs && s'.commitIndex == s.commitIndex)
            && s'.currentTerm == (if args.term > s.currentTerm then args.term else s.currentTerm)
            && (args.term > s.currentTerm ==> s'.role == Follower && s'.votedFor == -1)
            && (args.term == s.currentTerm ==>
                s'.role == (if s.role == Candidate then Follower else s.role) && s'.votedFor == s.votedFor)
            && (args.term < s.currentTerm ==> s' == s && reply.term == s.currentTerm)
            && Untouched(s, s') && (Saved(s) ==> Saved(s'))
  {
    hide Merge, LaidOn, XIndex;
    if Fits(s, args) { MergeLays(s.logs, args.prevLogIndex - s.logs[0].index + 1, args.entries); }
  }

  /** When the old commit index is within the new log, that is the larger of the two. */
  lemma CommitIsLarger(s: Server, args: AppendEntriesArgs)
    requires Indexed(s.logs) && Follows(args.prevLogIndex, args.entries) && AppendEntries(s, args).1.success
    requires var logs' := AppendEntries(s, args).0.logs; |logs'| > 0 && s.commitIndex <= logs'[|logs'| - 1].index
    ensures var s' := AppendEntries(s, args).0;
            s'.commitIndex == Max(s.commitIndex, Min(args.leaderCommit, s'.logs[|s'.logs| - 1].index))
  {
    hide AppendEntries, LaidOn;
    AppendExactly(s, args);
  }

  /** A snapshot is handed over exactly if its sender's term is not older and it reaches beyond the commit index. */
  lemma SnapshotExactly(s: Server, args: InstallSnapshotArgs)
    ensures var (s', reply) := InstallSnapshot(s, args);
            && (reply.installed <==> args.term >= s.currentTerm && args.lastIncludedIndex > s.commitIndex)
            && reply.term == s.currentTerm && s'.logs == s.logs && s'.commitIndex == s.commitIndex && Untouched(s, s')
            && s'.currentTerm == (if args.term > s.currentTerm then args.term else s.currentTerm)
            && (args.term > s.currentTerm ==> s'.role == Follower && s'.votedFor == -1)
            && (args.term <= s.currentTerm ==> s' == s)
            && (Saved(s) ==> Saved(s'))
  {
  }

  // ---- Leaders

  /**
   Exactly one message goes to each peer that is behind, or to every peer on a heartbeat, and
   nobody else gets any.
   */
  lemma SendsExactly(s: Server, me: int, n: nat, heartbeat: bool, p: int)
    requires CanSend(s, n)
    ensures (exists m <- Broadcast(s, me, n, heartbeat) :: Addressee(m) == p) <==>
            0 <= p < n && p != me && (heartbeat || s.logs[|s.logs| - 1].index >= s.nextIndex[p])
    ensures forall m <- Broadcast(s, me, n, heartbeat) :: Addressee(m) == p ==>
              0 <= p < n && Carries(s, me, p, m)
  {
    if 0 <= p < n && p != me && (heartbeat || Last(s.logs).index >= s.nextIndex[p]) {
      assert p in Below(n);
      assert SendTo(s, me, p) in Broadcast(s, me, n, heartbeat);
    }
    forall m <- Broadcast(s, me, n, heartbeat) | Addressee(m) == p
      ensures Carries(s, me, p, m) { assert m == SendTo(s, me, p); }
  }

  function Addressee(m: Message): int {
    match m
    case AppendRequest(to, _) => to
    case SnapshotRequest(to, _, _) => to
    case _ => -1
  }

  /** The message has the leader's whole log from the peer's next index on, or says that it begins later. */
  ghost predicate Carries(s: Server, me: int, p: int, m: Message)
    requires |s.logs| > 0 && 0 <= p < |s.nextIndex|
  {
    var first, next := s.logs[0].index, s.nextIndex[p];
    if next - 1 < first then m == SnapshotRequest(p, me, InstallSnapshotArgs(s.currentTerm, first, s.logs[0].term))
    else
      && m.AppendRequest? && m.to == p && m.append.term == s.currentTerm && m.append.leaderId == me
      && m.append.leaderCommit == s.commitIndex
      && next - 1 - first < |s.logs| && m.append.prevLogTerm == s.logs[next - 1 - first].term
      && m.append.prevLogIndex == s.logs[next - 1 - first].index
      && s.logs == s.logs[..next - first] + m.append.entries
  }

  /** As far as the leader now knows, more than half of the servers, itself included, hold index `i`. */
  ghost predicate MostHold(match_: seq<int>, me: int, i: int) {
    2 * |set p | p in Below(|match_|) && (p == me || match_[p] >= i)| > |match_|
  }

  /** An entry of the server's own term at index `i`. */
  ghost predicate OwnEntry(s: Server, i: int)
    requires |s.logs| > 0
  {
    var at := i - s.logs[0].index;
    0 <= at < |s.logs| && s.logs[at].term == s.currentTerm
  }

  /** The commit rule finds the last entry of the leader's term that most hold, if it is beyond the commit index. */
  lemma ScanExactly(s: Server, me: int, n: nat)
    requires Indexed(s.logs) && |s.matchIndex| == n && s.role == Leader
    ensures var s' := LeaderCommitLog(s, me, n);
            && s' == s.(commitIndex := s'.commitIndex)
            && (forall i :: OwnEntry(s, i) && MostHold(s.matchIndex, me, i) ==> i <= s'.commitIndex)
            && (s'.commitIndex != s.commitIndex ==>
                && s'.commitIndex > s.commitIndex
                && OwnEntry(s, s'.commitIndex) && MostHold(s.matchIndex, me, s'.commitIndex))
  {
    var c := LeaderCommitLog(s, me, n).commitIndex;
    forall i | OwnEntry(s, i) && MostHold(s.matchIndex, me, i) ensures i <= c {
      HoldersAre(s, me, n, i);
      assert Committable(s, me, n, i) && i <= s.logs[|s.logs| - 1].index;
    }
    HoldersAre(s, me, n, c);
  }

  lemma HoldersAre(s: Server, me: int, n: nat, i: int)
    requires |s.matchIndex| == n
    ensures MostHold(s.matchIndex, me, i) <==> |Holders(s, me, n, i)| > n / 2
  {
    assert Holders(s, me, n, i) == set p | p in Below(|s.matchIndex|) && (p == me || s.matchIndex[p] >= i);
  }

  /**
   After an answer in its term a leader has committed every entry of its term that more than half
   are now known to hold, and nothing more: the new index is that of such an entry or the old one.
   */
  lemma CommitExactly(s: Server, me: int, n: nat, peer: int, args: AppendEntriesArgs, reply: AppendEntriesReply)
    requires Indexed(s.logs) && |s.matchIndex| == n && |s.nextIndex| == n && 0 <= peer < n
    requires s.role == Leader && args.term == s.currentTerm && reply.term <= s.currentTerm
    ensures var s' := AppendReply(s, me, n, peer, args, reply);
            var got := args.prevLogIndex + |args.entries|;
            && |s'.matchIndex| == n
            && (forall p :: 0 <= p < n ==>
                  s'.matchIndex[p] ==
                  if p == peer && reply.success && got > s.matchIndex[p] then got else s.matchIndex[p])
            && (forall i :: OwnEntry(s, i) && MostHold(s'.matchIndex, me, i) ==> i <= s'.commitIndex)
            && (s'.commitIndex != s.commitIndex ==>
                && s'.commitIndex > s.commitIndex
                && OwnEntry(s, s'.commitIndex) && MostHold(s'.matchIndex, me, s'.commitIndex))
            && s'.logs == s.logs && s'.role == Leader && s'.currentTerm == s.currentTerm && s'.votedFor == s.votedFor
  {
    hide NextProbe, CommitScan, MostHold;
    var s' := AppendReply(s, me, n, peer, args, reply);
    var noted := s'.(commitIndex := s.commitIndex);
    assert s' == LeaderCommitLog(noted, me, n);
    ScanExactly(noted, me, n);
  }

  /** An answer of a newer term makes the server a follower of that term; one to an earlier term does nothing. */
  lemma OtherTermsExactly(s: Server, me: int, n: nat, peer: int, args: AppendEntriesArgs, reply: AppendEntriesReply)
    requires Indexed(s.logs) && |s.matchIndex| == n && |s.nextIndex| == n && 0 <= peer < n
    requires reply.term > s.currentTerm || args.term != s.currentTerm
    ensures var s' := AppendReply(s, me, n, peer, args, reply);
            if reply.term > s.currentTerm
            then s' == s.(currentTerm := reply.term, role := Follower, votedFor := -1,
                          disk := Disk(reply.term, -1, s.logs))
            else s' == s
  {
  }

  /** The answer to a snapshot: the peer is taken to have it and gets the log after it next. */
  lemma SnapshotAnswered(s: Server, peer: int, args: InstallSnapshotArgs, reply: InstallSnapshotReply)
    requires 0 <= peer < |s.nextIndex| && peer < |s.matchIndex|
    ensures var s' := SnapshotReply(s, peer, args, reply);
            && s'.nextIndex == s.nextIndex[peer := args.lastIncludedIndex + 1]
            && s'.matchIndex == s.matchIndex[peer := args.lastIncludedIndex]
            && s'.currentTerm == (if reply.term > s.currentTerm then reply.term else s.currentTerm)
            && (reply.term > s.currentTerm ==> s'.role == Follower && s'.votedFor == -1)
            && (reply.term <= s.currentTerm ==> s'.role == s.role && s'.votedFor == s.votedFor)
            && s'.logs == s.logs && s'.commitIndex == s.commitIndex
  {
  }
}

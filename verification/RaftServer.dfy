/**
 What each handler of a Raft server computes, on values. Every handler of
 src/raft runs under the server's lock, so each is one atomic step.
 `RaftNode` runs the same handlers on an object in memory.
 */
module RaftServer {
  import opened Sets
  import opened RaftTypes

  datatype RequestVoteArgs = RequestVoteArgs(term: nat, candidateId: int, lastLogIndex: int, lastLogTerm: int)
  datatype RequestVoteReply = RequestVoteReply(term: nat, voteGranted: bool)

  datatype AppendEntriesArgs = AppendEntriesArgs(
    term: nat, leaderId: int, prevLogIndex: int, prevLogTerm: int, entries: seq<Entry>, leaderCommit: int)
  datatype AppendEntriesReply = AppendEntriesReply(
    term: nat, success: bool, conflict: bool, xTerm: int, xIndex: int, xLen: int)

  datatype InstallSnapshotArgs = InstallSnapshotArgs(term: nat, lastIncludedIndex: int, lastIncludedTerm: int)
  datatype InstallSnapshotReply = InstallSnapshotReply(term: nat, installed: bool)

  datatype Role = Follower | Candidate | Leader

  /** What `persist` writes. */
  datatype Disk = Disk(currentTerm: nat, votedFor: int, logs: Log)

  /**
   The variables one call of StartElection shares with its reply callbacks.
   Each RPC is answered at most once: `awaiting` holds the peers still to answer.
   */
  datatype Election = Election(args: RequestVoteArgs, awaiting: set<int>, grantedVote: nat, becomeLeader: bool)

  datatype Server = Server(
    role: Role,
    currentTerm: nat,
    votedFor: int,
    logs: Log,
    commitIndex: int,
    nextIndex: seq<int>,
    matchIndex: seq<int>,
    disk: Disk,
    elections: map<nat, Election>)

  const NO_VOTE := -1

  function Fresh(n: nat): Server {
    Server(Follower, 0, NO_VOTE, [SENTINEL], 0, seq(n, _ => 0), seq(n, _ => 0), Disk(0, NO_VOTE, [SENTINEL]), map[])
  }

  function Persist(s: Server): Server {
    s.(disk := Disk(s.currentTerm, s.votedFor, s.logs))
  }

  function SetNewTerm(s: Server, term: nat): Server {
    Persist(s.(currentTerm := term, role := Follower, votedFor := NO_VOTE))
  }

  /** A crash loses everything but what was persisted. */
  function Restart(s: Server, n: nat): Server
    requires |s.disk.logs| > 0
  {
    Server(Follower, s.disk.currentTerm, s.disk.votedFor, s.disk.logs, s.disk.logs[0].index,
           seq(n, _ => 0), seq(n, _ => 0), s.disk, map[])
  }

  // ---- Elections

  function RequestVote(s: Server, args: RequestVoteArgs): (Server, RequestVoteReply)
    requires |s.logs| > 0
  {
    if args.term < s.currentTerm
       || (args.term == s.currentTerm && s.votedFor != NO_VOTE && s.votedFor != args.candidateId)
    then (s, RequestVoteReply(s.currentTerm, false))
    else
      var s := if args.term > s.currentTerm then SetNewTerm(s, args.term) else s;
      if (s.votedFor == NO_VOTE || s.votedFor == args.candidateId)
         && AsUpToDate(args.lastLogTerm, args.lastLogIndex, s.logs)
      then (Persist(s.(votedFor := args.candidateId)), RequestVoteReply(s.currentTerm, true))
      else (s, RequestVoteReply(s.currentTerm, false))
  }

  function Ballot(s: Server, me: int): RequestVoteArgs
    requires |s.logs| > 0
  {
    RequestVoteArgs(s.currentTerm, me, Last(s.logs).index, Last(s.logs).term)
  }

  /** The election timer fires. */
  function Timeout(s: Server, me: int, n: nat): Server
    requires |s.logs| > 0
  {
    var s := s.(role := Candidate, currentTerm := s.currentTerm + 1, votedFor := me);
    Persist(s).(elections := s.elections[s.currentTerm := Election(Ballot(s, me), Below(n) - {me}, 1, false)])
  }

  /** How a vote reply with a newer term makes the candidate step down. */
  datatype StepDown = AsWritten | AsIntended

  predicate StepsDown(s: Server, args: RequestVoteArgs, reply: RequestVoteReply, how: StepDown) {
    match how
    case AsWritten => reply.term > args.term
    case AsIntended => reply.term > s.currentTerm
  }

  function StepDownTerm(args: RequestVoteArgs, reply: RequestVoteReply, how: StepDown): nat {
    if how.AsWritten? then args.term else reply.term
  }

  predicate Wins(s: Server, args: RequestVoteArgs, e: Election, n: nat) {
    e.grantedVote > n / 2 && s.currentTerm == args.term && s.role == Candidate && !e.becomeLeader
  }

  /** A peer answers a ballot; the flag says that the server has just become leader. */
  function VoteReply(s: Server, n: nat, peer: int, args: RequestVoteArgs, reply: RequestVoteReply,
                     how: StepDown): (Server, bool)
    requires |s.logs| > 0 && args.term in s.elections
  {
    var e := s.elections[args.term];
    var e := e.(awaiting := e.awaiting - {peer});
    var s := s.(elections := s.elections[args.term := e]);
    if StepsDown(s, args, reply, how) then (SetNewTerm(s, StepDownTerm(args, reply, how)), false)
    else if reply.term < args.term || !reply.voteGranted then (s, false)
    else
      var e := e.(grantedVote := e.grantedVote + 1);
      if Wins(s, args, e, n) then
        (s.(elections := s.elections[args.term := e.(becomeLeader := true)],
            role := Leader,
            nextIndex := seq(n, _ => Last(s.logs).index + 1),
            matchIndex := seq(n, _ => 0)), true)
      else (s.(elections := s.elections[args.term := e]), false)
  }

  // ---- Log replication: follower

  /** Consecutive indexes, as a log (possibly compacted) always has them. */
  ghost predicate Indexed(logs: Log) {
    |logs| > 0 && forall k {:trigger logs[k]} :: 0 <= k < |logs| ==> logs[k].index == logs[0].index + k
  }

  ghost predicate Follows(prev: int, entries: seq<Entry>) {
    forall k {:trigger entries[k]} :: 0 <= k < |entries| ==> entries[k].index == prev + 1 + k
  }

  predicate SameTerm(logs: Log, at: nat, entries: seq<Entry>, j: nat)
    requires j < |entries|
  {
    at + j < |logs| && logs[at + j].term == entries[j].term
  }

  /** How many of `entries`, from the `k`-th on, are already at position `at` and after, by term. */
  function AgreeLen(logs: Log, at: nat, entries: seq<Entry>, k: nat := 0): (m: nat)
    requires k <= |entries|
    ensures k <= m <= |entries|
    ensures m > k ==> at + m <= |logs|
    ensures forall j :: k <= j < m ==> SameTerm(logs, at, entries, j)
    ensures m < |entries| ==> !SameTerm(logs, at, entries, m)
    decreases |entries| - k
  {
    if k == |entries| || !SameTerm(logs, at, entries, k) then k
    else AgreeLen(logs, at, entries, k + 1)
  }

  /** The log after `entries` are laid at position `at`: what agrees stays, the first difference and its tail go. */
  function Merge(logs: Log, at: nat, entries: seq<Entry>): (merged: Log)
    requires at <= |logs|
    ensures |merged| >= at && merged[..at] == logs[..at]
  {
    var k := AgreeLen(logs, at, entries);
    if k == |entries| then logs else logs[..at + k] + entries[k..]
  }

  /** The last position before `at` whose term is not `term`, or one below the first position. */
  function XIndex(logs: Log, at: int, term: int): (x: int)
    requires -1 <= at < |logs|
    ensures -1 <= x <= at
    ensures x >= 0 ==> logs[x].term != term
    ensures forall k :: x < k <= at ==> logs[k].term == term
  {
    if at >= 0 && logs[at].term == term then XIndex(logs, at - 1, term) else at
  }

  function Min(a: int, b: int): int { if a > b then b else a }
  function Max(a: int, b: int): int { if a > b then a else b }

  function AppendEntries(s: Server, args: AppendEntriesArgs): (Server, AppendEntriesReply)
    requires Indexed(s.logs)
  {
    var reply := AppendEntriesReply(s.currentTerm, false, false, 0, 0, 0);
    if args.term < s.currentTerm then (s, reply)
    else if args.term > s.currentTerm then (SetNewTerm(s, args.term), reply)
    else
      var s := if s.role == Candidate then s.(role := Follower) else s;
      var first := s.logs[0].index;
      var at := args.prevLogIndex - first;
      if at < 0 then (s, reply.(term := 0))
      else if Last(s.logs).index < args.prevLogIndex then
        (s, reply.(conflict := true, xTerm := -1, xIndex := -1, xLen := |s.logs| + first - 1))
      else if s.logs[at].term != args.prevLogTerm then
        var xTerm := s.logs[at].term;
        (s, reply.(conflict := true, xTerm := xTerm, xIndex := first + XIndex(s.logs, at - 1, xTerm),
                   xLen := |s.logs| + first - 1))
      else
        (Accept(s, at + 1, args), reply.(success := true))
  }

  /** Entries laid on the log from position `at`, and what the leader says is committed. */
  function Accept(s: Server, at: nat, args: AppendEntriesArgs): Server
    requires 0 < at <= |s.logs|
  {
    var logs := Merge(s.logs, at, args.entries);
    var s := if logs == s.logs then s else Persist(s.(logs := logs));
    if args.leaderCommit > s.commitIndex then s.(commitIndex := Min(args.leaderCommit, Last(logs).index)) else s
  }

  function InstallSnapshot(s: Server, args: InstallSnapshotArgs): (Server, InstallSnapshotReply) {
    var reply := InstallSnapshotReply(s.currentTerm, false);
    if args.term < s.currentTerm then (s, reply)
    else
      var s := if args.term > s.currentTerm then SetNewTerm(s, args.term) else s;
      (s, if args.lastIncludedIndex <= s.commitIndex then reply else reply.(installed := true))
  }

  // ---- Log replication: leader

  datatype Message =
    | VoteRequest(to: int, ballot: RequestVoteArgs)
    | VoteAnswer(from: int, ballot: RequestVoteArgs, vote: RequestVoteReply)
    | AppendRequest(to: int, append: AppendEntriesArgs)
    | AppendAnswer(from: int, append: AppendEntriesArgs, answer: AppendEntriesReply)
    | SnapshotRequest(to: int, leader: int, snapshot: InstallSnapshotArgs)
    | SnapshotAnswer(from: int, leader: int, snapshot: InstallSnapshotArgs, installed: InstallSnapshotReply)

  /** What the leader sends to a peer: the log from nextIndex on, or a snapshot when that is compacted away. */
  function SendTo(s: Server, me: int, peer: int): Message
    requires |s.logs| > 0 && 0 <= peer < |s.nextIndex|
    requires s.nextIndex[peer] - 1 - s.logs[0].index < |s.logs|
  {
    var prev := s.nextIndex[peer] - 1;
    var at := prev - s.logs[0].index;
    if at < 0 then SnapshotRequest(peer, me, InstallSnapshotArgs(s.currentTerm, s.logs[0].index, s.logs[0].term))
    else AppendRequest(peer, AppendEntriesArgs(
                         s.currentTerm, me, s.logs[at].index, s.logs[at].term, s.logs[at + 1..], s.commitIndex))
  }

  /** No peer's next index lies beyond the end of the log, so every slice the sender takes is in bounds. */
  ghost predicate CanSend(s: Server, n: nat) {
    && |s.logs| > 0
    && |s.nextIndex| == n
    && (forall p :: 0 <= p < n ==> s.nextIndex[p] - 1 - s.logs[0].index < |s.logs|)
  }

  ghost function Broadcast(s: Server, me: int, n: nat, heartbeat: bool): set<Message>
    requires CanSend(s, n)
  {
    set p | p in Below(n) && p != me && (heartbeat || Last(s.logs).index >= s.nextIndex[p]) :: SendTo(s, me, p)
  }

  /** A client's command at the leader. */
  function Start(s: Server, command: Command): Server
    requires |s.logs| > 0
  {
    Persist(s.(logs := s.logs + [Entry(Last(s.logs).index + 1, s.currentTerm, command)]))
  }

  /** The outcome of scanning the log for a term. */
  datatype Found = FoundAt(index: int) | Absent | OutOfRange

  /** The scan of findLastLogInXTerm from index `i` down; a compacted log can make it leave the slice. */
  function FindLastFrom(logs: Log, term: int, i: int): (r: Found)
    requires |logs| > 0 && i - logs[0].index < |logs|
    decreases i
  {
    if i <= 0 then Absent
    else if i - logs[0].index < 0 then OutOfRange
    else
      var cur := logs[i - logs[0].index].term;
      if cur == term then FoundAt(i) else if cur < term then Absent else FindLastFrom(logs, term, i - 1)
  }

  function FindLastLogInXTerm(logs: Log, term: int): Found
    requires |logs| > 0 && Last(logs).index - logs[0].index < |logs|
  {
    FindLastFrom(logs, term, Last(logs).index)
  }

  /** Where the leader probes next after a conflict. */
  function NextProbe(logs: Log, reply: AppendEntriesReply): int
    requires |logs| > 0 && Last(logs).index - logs[0].index < |logs|
  {
    if reply.xTerm == -1 then reply.xLen
    else match FindLastLogInXTerm(logs, reply.xTerm)
      case FoundAt(i) => if i > 0 then i else reply.xIndex
      case _ => reply.xIndex
  }

  /** The peers that hold index `i` as far as the leader knows, itself included. */
  ghost function Holders(s: Server, me: int, n: nat, i: int): set<int>
    requires |s.matchIndex| == n
  {
    set p | p in Below(n) && (p == me || s.matchIndex[p] >= i)
  }

  /** The commit rule: own term, held by more than half. */
  ghost predicate Committable(s: Server, me: int, n: nat, i: int)
    requires |s.logs| > 0 && |s.matchIndex| == n
  {
    var at := i - s.logs[0].index;
    0 <= at < |s.logs| && s.logs[at].term == s.currentTerm && |Holders(s, me, n, i)| > n / 2
  }

  ghost function CommitScan(s: Server, me: int, n: nat, upto: int): (c: int)
    requires |s.logs| > 0 && |s.matchIndex| == n
    ensures c == s.commitIndex || (s.commitIndex < c <= upto && Committable(s, me, n, c))
    ensures forall i :: s.commitIndex < i <= upto && Committable(s, me, n, i) ==> i <= c
    decreases upto - s.commitIndex
  {
    if upto <= s.commitIndex then s.commitIndex
    else if Committable(s, me, n, upto) then upto
    else CommitScan(s, me, n, upto - 1)
  }

  ghost function LeaderCommitLog(s: Server, me: int, n: nat): Server
    requires |s.logs| > 0 && |s.matchIndex| == n
  {
    if s.role != Leader then s else s.(commitIndex := CommitScan(s, me, n, Last(s.logs).index))
  }

  ghost function AppendReply(s: Server, me: int, n: nat, peer: int, args: AppendEntriesArgs,
                             reply: AppendEntriesReply): Server
    requires |s.logs| > 0 && Last(s.logs).index - s.logs[0].index < |s.logs|
    requires |s.matchIndex| == n && |s.nextIndex| == n && 0 <= peer < n
  {
    if reply.term > s.currentTerm then SetNewTerm(s, reply.term)
    else if args.term == s.currentTerm then
      var next := s.nextIndex[peer];
      var match' := args.prevLogIndex + |args.entries|;
      var s :=
        if reply.success then
          s.(nextIndex := s.nextIndex[peer := Max(next, match' + 1)],
             matchIndex := s.matchIndex[peer := Max(s.matchIndex[peer], match')])
        else if reply.conflict then s.(nextIndex := s.nextIndex[peer := NextProbe(s.logs, reply)])
        else if next > 1 then s.(nextIndex := s.nextIndex[peer := next - 1])
        else s;
      LeaderCommitLog(s, me, n)
    else s
  }

  /** The answer to a snapshot moves the peer's indexes whatever the answer and the term say. */
  function SnapshotReply(s: Server, peer: int, args: InstallSnapshotArgs, reply: InstallSnapshotReply): Server
    requires 0 <= peer < |s.nextIndex| && peer < |s.matchIndex|
  {
    var s := if reply.term > s.currentTerm then SetNewTerm(s, reply.term) else s;
    s.(nextIndex := s.nextIndex[peer := args.lastIncludedIndex + 1],
       matchIndex := s.matchIndex[peer := args.lastIncludedIndex])
  }
}

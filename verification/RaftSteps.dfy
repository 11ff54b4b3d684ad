/** Each action of a server, as events of its history. */
module RaftSteps {
  import opened Sets
  import opened RaftTypes
  import opened RaftServer
  import opened RaftCluster
  import opened RaftCore
  import opened RaftRefinement

  /** What every step must show: the history stays in order and the server still fits it. */
  ghost predicate Good(h: Core, h': Core, i: int, s': Server, sent: set<Message>) {
    && Inv(h')
    && OnlyAt(h, h', i)
    && 0 <= i < |h'.peers|
    && ServerRel(h', i, s')
    && (forall m <- sent :: MessageRel(h', m))
  }

  ghost predicate Ready(h: Core, i: int, s: Server) {
    Inv(h) && 0 <= i < |h.peers| && ServerRel(h, i, s)
  }

  lemma ElectionsStable(h: Core, h': Core, i: int, s: Server)
    requires Extends(h, h') && 0 <= i < |h.peers| && ServerRel(h, i, s)
    ensures forall t <- s.elections :: ElectionRel(h', i, t, s.elections[t])
  {
    forall t <- s.elections ensures ElectionRel(h', i, t, s.elections[t]) {
      ElectionStable(h, h', i, t, s.elections[t]);
    }
  }

  /** Adopting a newer term forgets no vote: none was cast in it. */
  lemma AdvanceStep(h: Core, i: int, s: Server, t: nat) returns (h': Core)
    requires Ready(h, i, s) && t > s.currentTerm
    ensures Good(h, h', i, SetNewTerm(s, t), {})
    ensures Extends(h, h')
  {
    h' := Advance(h, i, t);
    AdvanceOk(h, i, t);
    assert PeerOk(h, i);
    ElectionsStable(h, h', i, s);
    CommittedStable(h, h', s.logs, s.commitIndex, s.currentTerm, t);
  }

  lemma TimeoutStep(h: Core, i: int, s: Server) returns (h': Core)
    requires Ready(h, i, s)
    requires |s.logs| > 0
    ensures var s' := Timeout(s, i, |h.peers|);
            Good(h, h', i, s', set p | p in Below(|h.peers|) && p != i :: VoteRequest(p, Ballot(s', i)))
  {
    hide Inv, Extends, Committed;
    h' := Stand(h, i);
    StandOk(h, i);
    if s.currentTerm + 1 in h.reign { InvReign(h, s.currentTerm + 1); }
    TimeoutRel(h, i, s);
    StandOnly(h, i);
  }

  lemma StandOnly(h: Core, i: int)
    requires 0 <= i < |h.peers| && Extends(h, Stand(h, i))
    ensures OnlyAt(h, Stand(h, i), i)
  {
  }

  lemma TimeoutRel(h: Core, i: int, s: Server)
    requires 0 <= i < |h.peers| && ServerRel(h, i, s) && |s.logs| > 0 && Extends(h, Stand(h, i))
    requires var t := s.currentTerm + 1; t in h.reign ==> h.reign[t].leader != i
    ensures var s' := Timeout(s, i, |h.peers|); ServerRel(Stand(h, i), i, s') && BallotRel(Stand(h, i), Ballot(s', i))
  {
    var h', s' := Stand(h, i), Timeout(s, i, |h.peers|);
    var t := s'.currentTerm;
    assert BallotRel(h', Ballot(s', i));
    ElectionsStable(h, h', i, s);
    assert ElectionRel(h', i, t, s'.elections[t]);
    CommittedStable(h, h', s.logs, s.commitIndex, s.currentTerm, t);
  }

  lemma RestartStep(h: Core, i: int, s: Server) returns (h': Core)
    requires Ready(h, i, s)
    requires |s.disk.logs| > 0
    ensures Good(h, h', i, Restart(s, |h.peers|), {})
  {
    h' := h;
    assert PeerOk(h, i);
    assert Committed(h, s.logs, 0, s.currentTerm);
    ExtendsRefl(h);
  }

  lemma ExtendsRefl(h: Core)
    ensures Extends(h, h)
  {
    forall t <- h.reign ensures PrefixOf(h.reign[t].log, h.reign[t].log) {
      assert h.reign[t].log[..|h.reign[t].log|] == h.reign[t].log;
    }
  }

  lemma VoteStep(h: Core, i: int, s: Server, b: RequestVoteArgs) returns (h': Core)
    requires Ready(h, i, s) && BallotRel(h, b)
    requires |s.logs| > 0
    ensures var (s', reply) := RequestVote(s, b); Good(h, h', i, s', {VoteAnswer(i, b, reply)})
  {
    hide Inv, ServerRel, BallotRel, AsUpToDate;
    var (s', reply) := RequestVote(s, b);
    if b.term < s.currentTerm || (b.term == s.currentTerm && s.votedFor != NO_VOTE && s.votedFor != b.candidateId) {
      h' := h;
      ExtendsRefl(h);
      SameAnswer(h, i, s, b, reply);
    } else if b.term > s.currentTerm {
      var h1 := AdvanceStep(h, i, s, b.term);
      BallotStable(h, h1, b);
      h' := VoteInTerm(h1, i, SetNewTerm(s, b.term), b);
      ExtendsTrans(h, h1, h');
      OnlyAtTrans(h, h1, h', i);
    } else {
      h' := VoteInTerm(h, i, s, b);
    }
  }

  /** A refusal says nothing. */
  lemma SameAnswer(h: Core, i: int, s: Server, b: RequestVoteArgs, reply: RequestVoteReply)
    requires Ready(h, i, s) && BallotRel(h, b) && !reply.voteGranted && Extends(h, h)
    ensures Good(h, h, i, s, {VoteAnswer(i, b, reply)})
  {
    hide Inv, ServerRel;
  }

  lemma OnlyAtTrans(a: Core, b: Core, c: Core, i: int)
    requires OnlyAt(a, b, i) && OnlyAt(b, c, i) && Extends(a, c)
    ensures OnlyAt(a, c, i)
  {
  }

  /** The vote of a server in the ballot's own term. */
  lemma VoteInTerm(h: Core, i: int, s: Server, b: RequestVoteArgs) returns (h': Core)
    requires Ready(h, i, s) && BallotRel(h, b) && b.term == s.currentTerm && |s.logs| > 0
    requires s.votedFor == NO_VOTE || s.votedFor == b.candidateId
    ensures var (s', reply) := RequestVote(s, b); Good(h, h', i, s', {VoteAnswer(i, b, reply)}) && Extends(h, h')
  {
    hide Inv, ServerRel, BallotRel;
    if AsUpToDate(b.lastLogTerm, b.lastLogIndex, s.logs) {
      h' := GrantStep(h, i, s, b);
    } else {
      h' := h;
      ExtendsRefl(h);
      SameAnswer(h, i, s, b, RequestVoteReply(s.currentTerm, false));
    }
  }

  lemma GrantStep(h: Core, i: int, s: Server, b: RequestVoteArgs) returns (h': Core)
    requires Ready(h, i, s) && BallotRel(h, b) && b.term == s.currentTerm
    requires |s.logs| > 0 && (s.votedFor == NO_VOTE || s.votedFor == b.candidateId)
    requires AsUpToDate(b.lastLogTerm, b.lastLogIndex, s.logs)
    ensures Good(h, h', i, Persist(s.(votedFor := b.candidateId)), {VoteAnswer(i, b, RequestVoteReply(b.term, true))})
  {
    h' := Grant(h, i, b.candidateId);
    GrantOk(h, i, b.candidateId);
    GrantRel(h, i, s, b);
  }

  lemma GrantRel(h: Core, i: int, s: Server, b: RequestVoteArgs)
    requires 0 <= i < |h.peers| && ServerRel(h, i, s) && BallotRel(h, b) && b.term == s.currentTerm
    requires Extends(h, Grant(h, i, b.candidateId))
    ensures ServerRel(Grant(h, i, b.candidateId), i, Persist(s.(votedFor := b.candidateId)))
    ensures MessageRel(Grant(h, i, b.candidateId), VoteAnswer(i, b, RequestVoteReply(b.term, true)))
  {
    var h' := Grant(h, i, b.candidateId);
    BallotStable(h, h', b);
    ElectionsStable(h, h', i, s);
    if s.role == Leader { LeaderStable(h, h', i, s); }
    CommittedStable(h, h', s.logs, s.commitIndex, s.currentTerm, s.currentTerm);
  }

  // ---- Becoming leader and leading

  lemma SendRel(h: Core, i: int, s: Server, p: int)
    requires 0 <= i < |h.peers| && ServerRel(h, i, s) && s.role == Leader && CanSend(s, |h.peers|) && 0 <= p < |h.peers|
    requires s.currentTerm in h.reign && ReignOk(h, s.currentTerm)
    ensures MessageRel(h, SendTo(s, i, p))
  {
    hide PeerOk, Quorum, Voted;
    var at := s.nextIndex[p] - 1;
    assert s.logs == h.reign[s.currentTerm].log;
    if at >= 0 {
      assert s.logs[at + 1..] == s.logs[at + 1..|s.logs|];
    }
  }

  lemma BroadcastRel(h: Core, i: int, s: Server, heartbeat: bool)
    requires 0 <= i < |h.peers| && ServerRel(h, i, s) && s.role == Leader && CanSend(s, |h.peers|)
    requires s.currentTerm in h.reign && ReignOk(h, s.currentTerm)
    ensures forall m <- Broadcast(s, i, |h.peers|, heartbeat) :: MessageRel(h, m)
  {
    forall m <- Broadcast(s, i, |h.peers|, heartbeat) ensures MessageRel(h, m) {
      var p :| p in Below(|h.peers|) && m == SendTo(s, i, p);
      SendRel(h, i, s, p);
    }
  }

  lemma CanSendLeader(h: Core, i: int, s: Server)
    requires 0 <= i < |h.peers| && ServerRel(h, i, s) && WfLog(s.logs) && s.role == Leader
    ensures CanSend(s, |h.peers|)
  {
  }

  lemma ElectionAnswered(h: Core, i: int, t: nat, e: Election, peer: int, granted: bool)
    requires ElectionRel(h, i, t, e) && (granted ==> Voted(h, peer, t, i)) && peer in e.awaiting
    ensures ElectionRel(h, i, t, e.(awaiting := e.awaiting - {peer},
                                    grantedVote := e.grantedVote + if granted then 1 else 0))
  {
    var old_, new_ := Granters(h, i, t, e.awaiting), Granters(h, i, t, e.awaiting - {peer});
    if granted {
      assert old_ + {peer} <= new_;
      SubsetSize(old_ + {peer}, new_);
    } else {
      SubsetSize(old_, new_);
    }
  }

  /** The server after the reply is counted, before it is acted on. */
  function Counted(s: Server, peer: int, t: nat, counts: bool): Server
    requires t in s.elections
  {
    var e := s.elections[t];
    s.(elections := s.elections[t := e.(awaiting := e.awaiting - {peer},
                                        grantedVote := e.grantedVote + if counts then 1 else 0)])
  }

  lemma CountedRel(h: Core, i: int, s: Server, peer: int, t: nat, counts: bool)
    requires 0 <= i < |h.peers| && ServerRel(h, i, s) && t in s.elections && peer in s.elections[t].awaiting
    requires counts ==> Voted(h, peer, t, i)
    ensures ServerRel(h, i, Counted(s, peer, t, counts))
  {
    ElectionAnswered(h, i, t, s.elections[t], peer, counts);
  }

  lemma VoteReplyStep(h: Core, i: int, s: Server, peer: int, b: RequestVoteArgs, r: RequestVoteReply) returns (h': Core)
    requires Ready(h, i, s) && WfLog(s.logs)
    requires MessageRel(h, VoteAnswer(peer, b, r)) && b.candidateId == i
    requires b.term in s.elections && peer in s.elections[b.term].awaiting
    ensures var (s', won) := VoteReply(s, |h.peers|, peer, b, r, AsIntended);
            && (won ==> CanSend(s', |h.peers|))
            && Good(h, h', i, s', if won then Broadcast(s', i, |h.peers|, true) else {})
  {
    hide VoteReply, Good, WfLog, Inv;
    var counts := Counts(s, b, r);
    VoteReplyShape(s, |h.peers|, peer, b, r);
    CountedRel(h, i, s, peer, b.term, counts);
    h' := CountedStep(h, i, Counted(s, peer, b.term, counts), b, r, counts);
  }

  predicate Counts(s: Server, b: RequestVoteArgs, r: RequestVoteReply) {
    !StepsDown(s, b, r, AsIntended) && r.term >= b.term && r.voteGranted
  }

  lemma VoteReplyShape(s: Server, n: nat, peer: int, b: RequestVoteArgs, r: RequestVoteReply)
    requires |s.logs| > 0 && b.term in s.elections
    ensures var counts := Counts(s, b, r);
            var s1 := Counted(s, peer, b.term, counts);
            VoteReply(s, n, peer, b, r, AsIntended) ==
            if StepsDown(s1, b, r, AsIntended) then (SetNewTerm(s1, r.term), false)
            else if counts && Wins(s1, b, s1.elections[b.term], n) then (Won(s1, b.term, n), true)
            else (s1, false)
  {
    var e := s.elections[b.term];
    var e1 := e.(awaiting := e.awaiting - {peer});
    var e2 := e1.(grantedVote := e1.grantedVote + 1);
    assert s.elections[b.term := e1][b.term := e2] == s.elections[b.term := e2];
    assert s.elections[b.term := e1][b.term := e2.(becomeLeader := true)] ==
             s.elections[b.term := e2][b.term := e2.(becomeLeader := true)];
  }

  /** Acting on a counted reply: stepping down, winning, or neither. */
  lemma CountedStep(h: Core, i: int, s1: Server, b: RequestVoteArgs, r: RequestVoteReply, counts: bool)
    returns (h': Core)
    requires Ready(h, i, s1) && WfLog(s1.logs) && b.term in s1.elections
    ensures StepsDown(s1, b, r, AsIntended) ==> Good(h, h', i, SetNewTerm(s1, r.term), {})
    ensures !StepsDown(s1, b, r, AsIntended) && counts && Wins(s1, b, s1.elections[b.term], |h.peers|) ==>
              var s' := Won(s1, b.term, |h.peers|);
              CanSend(s', |h.peers|) && Good(h, h', i, s', Broadcast(s', i, |h.peers|, true))
    ensures !StepsDown(s1, b, r, AsIntended) && !(counts && Wins(s1, b, s1.elections[b.term], |h.peers|)) ==>
              Good(h, h', i, s1, {})
  {
    hide Inv, WfLog;
    h' := h;
    ExtendsRefl(h);
    if StepsDown(s1, b, r, AsIntended) {
      h' := AdvanceStep(h, i, s1, r.term);
    } else if counts && Wins(s1, b, s1.elections[b.term], |h.peers|) {
      h' := WinStep(h, i, s1, b.term);
    }
  }

  /** The server after becomeLeader ran. */
  function Won(s: Server, t: nat, n: nat): Server
    requires |s.logs| > 0 && t in s.elections
  {
    s.(elections := s.elections[t := s.elections[t].(becomeLeader := true)],
       role := Leader,
       nextIndex := seq(n, _ => Last(s.logs).index + 1),
       matchIndex := seq(n, _ => 0))
  }

  lemma WinStep(h: Core, i: int, s: Server, t: nat) returns (h': Core)
    requires Ready(h, i, s) && WfLog(s.logs) && t in s.elections
    requires s.elections[t].grantedVote > |h.peers| / 2 && s.currentTerm == t && s.role == Candidate
    ensures CanSend(Won(s, t, |h.peers|), |h.peers|)
    ensures Good(h, h', i, Won(s, t, |h.peers|), Broadcast(Won(s, t, |h.peers|), i, |h.peers|, true))
  {
    hide Inv, Extends, Broadcast, Quorum, Voted;
    var q := Majority(h, i, t, s.elections[t]);
    if t in h.reign { OneWinner(h, t, i, q); assert false; }
    h' := Elect(h, i, q);
    ElectOk(h, i, q);
    ElectOnly(h, i, q);
    WinRel(h, h', i, s, t, q);
    CanSendLeader(h', i, Won(s, t, |h.peers|));
    InvReign(h', t);
    BroadcastRel(h', i, Won(s, t, |h.peers|), true);
  }

  lemma ElectOnly(h: Core, i: int, q: set<int>)
    requires MayElect(h, i, q) && Extends(h, Elect(h, i, q))
    ensures OnlyAt(h, Elect(h, i, q), i)
  {
  }

  lemma InvReign(h: Core, t: nat)
    requires Inv(h) && t in h.reign
    ensures ReignOk(h, t)
  {
  }

  /** A counter above half stands for a quorum of votes. */
  lemma Majority(h: Core, i: int, t: nat, e: Election) returns (q: set<int>)
    requires ElectionRel(h, i, t, e) && e.grantedVote > |h.peers| / 2
    ensures Quorum(|h.peers|, q) && forall v <- q :: Voted(h, v, t, i)
  {
    q := Granters(h, i, t, e.awaiting) + {i};
  }

  lemma WinRel(h: Core, h': Core, i: int, s: Server, t: nat, q: set<int>)
    requires 0 <= i < |h.peers| && ServerRel(h, i, s) && |s.logs| > 0 && s.currentTerm == t && t in s.elections
    requires WfLog(s.logs)
    requires h' == Elect(h, i, q) && Extends(h, h')
    ensures ServerRel(h', i, Won(s, t, |h.peers|))
  {
    ElectionsStable(h, h', i, s);
    CommittedStable(h, h', s.logs, s.commitIndex, s.currentTerm, s.currentTerm);
    var s' := Won(s, t, |h.peers|);
    assert ElectionRel(h', i, t, s'.elections[t]) by { assert ElectionRel(h', i, t, s.elections[t]); }
  }

  lemma StartStep(h: Core, i: int, s: Server, command: Command) returns (h': Core)
    requires Ready(h, i, s) && WfLog(s.logs) && s.role == Leader
    ensures CanSend(Start(s, command), |h.peers|)
    ensures Good(h, h', i, Start(s, command), Broadcast(Start(s, command), i, |h.peers|, false))
  {
    hide Inv, Extends, Broadcast;
    h' := Extend(h, i, command);
    ExtendOk(h, i, command);
    ExtendOnly(h, i, command);
    StartRel(h, h', i, s, command);
    InvPeer(h', i);
    InvReign(h', s.currentTerm);
    CanSendLeader(h', i, Start(s, command));
    BroadcastRel(h', i, Start(s, command), false);
  }

  lemma ExtendOnly(h: Core, i: int, command: Command)
    requires Leads(h, i) && Extends(h, Extend(h, i, command))
    ensures OnlyAt(h, Extend(h, i, command), i)
  {
  }

  lemma StartRel(h: Core, h': Core, i: int, s: Server, command: Command)
    requires 0 <= i < |h.peers| && ServerRel(h, i, s) && WfLog(s.logs) && s.role == Leader
    requires h' == Extend(h, i, command) && Extends(h, h')
    ensures ServerRel(h', i, Start(s, command))
  {
    var s' := Start(s, command);
    ElectionsStable(h, h', i, s);
    LeaderStable(h, h', i, s);
    CommittedStable(h, h', s.logs, s.commitIndex, s.currentTerm, s.currentTerm);
    UptoPrefix(s.logs, s.logs, s'.logs, s.commitIndex);
    CommittedShorter(h', s.logs, s'.logs, s.commitIndex, s.commitIndex, s.currentTerm);
  }

  // ---- Following

  lemma MergeShape(lead: Log, log: Log, prev: nat, entries: seq<Entry>)
    requires prev < |log| && prev + 1 + |entries| <= |lead| && entries == lead[prev + 1..prev + 1 + |entries|]
    requires Upto(lead, log, prev + AgreeLen(log, prev + 1, entries))
    ensures Merge(log, prev + 1, entries) == Followed(lead, log, prev + 1 + |entries|)
  {
    hide AgreeLen;
    var k, m := AgreeLen(log, prev + 1, entries), prev + 1 + |entries|;
    if k < |entries| {
      assert entries[k] == lead[prev + 1 + k];
      if Upto(lead, log, m - 1) { UptoShorter(lead, log, m - 1, prev + 1 + k); }
      LaidOver(lead, log, prev + 1, k, entries);
    }
  }

  lemma LaidOver(lead: Log, log: Log, at: nat, k: nat, entries: seq<Entry>)
    requires at + k <= |log| && k <= |entries| && at + |entries| <= |lead| && entries == lead[at..at + |entries|]
    requires log[..at + k] == lead[..at + k]
    ensures log[..at + k] + entries[k..] == lead[..at + |entries|]
  {
  }

  /** On logs of one history, laying entries by term is following the leader's log. */
  lemma MergeFollows(h: Core, lead: Log, log: Log, prev: nat, entries: seq<Entry>)
    requires LogOk(h, lead) && LogOk(h, log)
    requires prev < |log| && prev + 1 + |entries| <= |lead| && entries == lead[prev + 1..prev + 1 + |entries|]
    requires log[prev].term == lead[prev].term
    ensures Merge(log, prev + 1, entries) == Followed(lead, log, prev + 1 + |entries|)
  {
    hide LogOk, Merge, Followed;
    var k := AgreeLen(log, prev + 1, entries);
    if k > 0 {
      assert SameTerm(log, prev + 1, entries, k - 1);
      assert entries[k - 1] == lead[prev + k];
    }
    LogsMatch(h, lead, log, prev + k);
    MergeShape(lead, log, prev, entries);
  }

  /** A commit index never runs past what the new log keeps. */
  lemma FollowedKeepsCommit(lead: Log, log: Log, m: nat, k: int)
    requires 0 < m <= |lead| && Upto(log, lead, k)
    ensures Upto(log, Followed(lead, log, m), k)
  {
    if !Upto(lead, log, m - 1) {
      if k >= m - 1 { UptoShorter(log, lead, k, m - 1); }
      assert lead[..m][..k + 1] == lead[..k + 1];
    }
  }

  /** The server after it has taken the entries, before the commit index moves. */
  function Taken(s: Server, logs: Log): Server {
    if logs == s.logs then s else Persist(s.(logs := logs))
  }

  function MayDemote(s: Server): Server {
    if s.role == Candidate then s.(role := Follower) else s
  }

  lemma FollowStep(h: Core, i: int, s: Server, a: AppendEntriesArgs) returns (h': Core)
    requires Ready(h, i, s) && AppendRel(h, a) && a.term == s.currentTerm && s.role != Candidate
    requires a.prevLogIndex < |s.logs| && s.logs[a.prevLogIndex].term == a.prevLogTerm
    ensures var logs := Merge(s.logs, a.prevLogIndex + 1, a.entries);
            && Good(h, h', i, Taken(s, logs), {})
            && Committed(h', logs, a.leaderCommit, a.term)
            && AppendRel(h', a)
            && Acked(h', i, a.term, a.prevLogIndex + |a.entries|)
            && WfLog(logs)
  {
    hide Inv, LogOk, Merge, Followed, Committed, Quorum, Voted, OnlyAt, Extends, WfLog, TermsAtMost, PeerOk, ReignOk;
    var m := a.prevLogIndex + 1 + |a.entries|;
    h' := Follow(h, i, m);
    FollowOk(h, i, m);
    FollowOnly(h, i, m);
    InvReign(h, a.term);
    InvPeer(h, i);
    var lead := h.reign[a.term].log;
    MergeFollows(h, lead, s.logs, a.prevLogIndex, a.entries);
    CommittedInLeader(h, s.logs, s.commitIndex, a.term);
    FollowRel(h, h', i, s, m);
    AppendStable(h, h', a);
    FollowedCommit(h', lead, s.logs, m, a.leaderCommit, a.term);
    LogWf(h, lead);
    LogWf(h, s.logs);
    FollowedWf(lead, s.logs, m);
  }

  lemma LogWf(h: Core, log: Log)
    requires LogOk(h, log)
    ensures WfLog(log)
  {
  }

  lemma FollowedWf(lead: Log, log: Log, m: nat)
    requires WfLog(lead) && WfLog(log) && 0 < m <= |lead|
    ensures WfLog(Followed(lead, log, m))
  {
  }

  lemma FollowedCommit(h: Core, lead: Log, log: Log, m: nat, commit: int, t: nat)
    requires 0 < m <= |lead| && commit < m && Committed(h, lead, commit, t)
    ensures Committed(h, Followed(lead, log, m), commit, t)
  {
    var logs := Followed(lead, log, m);
    assert Upto(lead, logs, m - 1) by { assert lead[..m][..m] == lead[..m]; }
    UptoShorter(lead, logs, m - 1, commit);
    CommittedShorter(h, lead, logs, commit, commit, t);
  }

  lemma FollowOnly(h: Core, i: int, m: nat)
    requires MayFollow(h, i, m) && Extends(h, Follow(h, i, m))
    ensures OnlyAt(h, Follow(h, i, m), i)
  {
  }

  lemma InvPeer(h: Core, i: int)
    requires Inv(h) && 0 <= i < |h.peers|
    ensures PeerOk(h, i)
  {
  }

  lemma FollowRel(h: Core, h': Core, i: int, s: Server, m: nat)
    requires MayFollow(h, i, m) && ServerRel(h, i, s) && s.role != Candidate
    requires h' == Follow(h, i, m) && Extends(h, h') && ReignOk(h, s.currentTerm)
    requires Upto(s.logs, h.reign[s.currentTerm].log, s.commitIndex)
    ensures ServerRel(h', i, Taken(s, Followed(h.reign[s.currentTerm].log, s.logs, m)))
  {
    hide LogOk, Quorum;
    var lead := h.reign[s.currentTerm].log;
    var logs := Followed(lead, s.logs, m);
    ElectionsStable(h, h', i, s);
    FollowedKeepsCommit(lead, s.logs, m, s.commitIndex);
    CommittedStable(h, h', s.logs, s.commitIndex, s.currentTerm, s.currentTerm);
    CommittedShorter(h', s.logs, logs, s.commitIndex, s.commitIndex, s.currentTerm);
    if s.role == Leader {
      assert logs == s.logs;
      LeaderStable(h, h', i, s);
    }
  }

  lemma AppendStep(h: Core, i: int, s: Server, a: AppendEntriesArgs) returns (h': Core)
    requires Ready(h, i, s) && AppendRel(h, a) && WfLog(s.logs) && Indexed(s.logs)
    ensures var (s', reply) := AppendEntries(s, a); Good(h, h', i, s', {AppendAnswer(i, a, reply)})
  {
    hide Inv, Merge;
    h' := h;
    ExtendsRefl(h);
    if a.term > s.currentTerm {
      hide AppendRel, WfLog;
      h' := AdvanceStep(h, i, s, a.term);
      AppendStable(h, h', a);
    } else if a.term == s.currentTerm {
      if a.prevLogIndex < |s.logs| && s.logs[a.prevLogIndex].term == a.prevLogTerm {
        h' := AcceptStep(h, i, s, a);
      } else {
        RefuseStep(h, i, s, a);
      }
    }
  }

  lemma RefuseStep(h: Core, i: int, s: Server, a: AppendEntriesArgs)
    requires Ready(h, i, s) && AppendRel(h, a) && WfLog(s.logs) && Indexed(s.logs) && a.term == s.currentTerm
    requires !(a.prevLogIndex < |s.logs| && s.logs[a.prevLogIndex].term == a.prevLogTerm)
    ensures var (s', reply) := AppendEntries(s, a); Good(h, h, i, s', {AppendAnswer(i, a, reply)})
  {
    hide Inv, Merge;
    ExtendsRefl(h);
  }

  lemma AcceptStep(h: Core, i: int, s: Server, a: AppendEntriesArgs) returns (h': Core)
    requires Ready(h, i, s) && AppendRel(h, a) && WfLog(s.logs) && Indexed(s.logs) && a.term == s.currentTerm
    requires a.prevLogIndex < |s.logs| && s.logs[a.prevLogIndex].term == a.prevLogTerm
    ensures var (s', reply) := AppendEntries(s, a); Good(h, h', i, s', {AppendAnswer(i, a, reply)})
  {
    hide Inv, Merge, Committed, OnlyAt, WfLog;
    LogEnds(s.logs);
    var s1 := MayDemote(s);
    var logs := Merge(s.logs, a.prevLogIndex + 1, a.entries);
    h' := FollowStep(h, i, s1, a);
    CommitMoves(h', i, Taken(s1, logs), a.leaderCommit);
  }

  lemma CommitMoves(h: Core, i: int, s: Server, commit: int)
    requires 0 <= i < |h.peers| && ServerRel(h, i, s) && |s.logs| > 0 && Committed(h, s.logs, commit, s.currentTerm)
    requires WfLog(s.logs)
    ensures ServerRel(h, i, if commit > s.commitIndex then s.(commitIndex := Min(commit, Last(s.logs).index)) else s)
  {
  }

  // ---- Replies to the leader

  /** The indexes a leader learns from an answer in its term. */
  function Learned(s: Server, peer: int, a: AppendEntriesArgs, r: AppendEntriesReply): Server
    requires |s.logs| > 0 && Last(s.logs).index - s.logs[0].index < |s.logs|
    requires 0 <= peer < |s.nextIndex| && peer < |s.matchIndex|
  {
    var next := s.nextIndex[peer];
    var got := a.prevLogIndex + |a.entries|;
    if r.success then
      s.(nextIndex := s.nextIndex[peer := Max(next, got + 1)],
         matchIndex := s.matchIndex[peer := Max(s.matchIndex[peer], got)])
    else if r.conflict then s.(nextIndex := s.nextIndex[peer := NextProbe(s.logs, r)])
    else if next > 1 then s.(nextIndex := s.nextIndex[peer := next - 1])
    else s
  }

  lemma FindLastBound(logs: Log, term: int, i: int)
    requires |logs| > 0 && i - logs[0].index < |logs|
    ensures FindLastFrom(logs, term, i).FoundAt? ==> FindLastFrom(logs, term, i).index <= i
    decreases i
  {
    if i > 0 && i - logs[0].index >= 0 { FindLastBound(logs, term, i - 1); }
  }

  lemma LearnedRel(h: Core, i: int, s: Server, peer: int, a: AppendEntriesArgs, r: AppendEntriesReply)
    requires 0 <= i < |h.peers| && ServerRel(h, i, s) && WfLog(s.logs) && 0 <= peer < |h.peers|
    requires MessageRel(h, AppendAnswer(peer, a, r)) && a.term == s.currentTerm
    requires s.role == Leader ==> s.logs == h.reign[a.term].log
    ensures ServerRel(h, i, Learned(s, peer, a, r))
  {
    hide WfLog, Committed;
    assert s.logs[0].index == 0 && Last(s.logs).index == |s.logs| - 1 by { LogEnds(s.logs); }
    if s.role == Leader && r.conflict && !r.success {
      FindLastBound(s.logs, r.xTerm, Last(s.logs).index);
    }
  }

  lemma LogEnds(logs: Log)
    requires WfLog(logs)
    ensures logs[0].index == 0 && Last(logs).index == |logs| - 1 && Indexed(logs)
  {
  }

  /** The commit rule commits: the counted peers are a quorum that confirmed an entry of the leader's own term. */
  lemma LeaderCommits(h: Core, i: int, s: Server)
    requires 0 <= i < |h.peers| && ServerRel(h, i, s) && WfLog(s.logs) && s.role == Leader
    requires s.logs == h.reign[s.currentTerm].log
    ensures ServerRel(h, i, LeaderCommitLog(s, i, |h.peers|))
  {
    var n := |h.peers|;
    var c := CommitScan(s, i, n, Last(s.logs).index);
    if c != s.commitIndex {
      var q := Holders(s, i, n, c);
      forall v <- q ensures Acked(h, v, s.currentTerm, c) {
        if v != i { assert Acked(h, v, s.currentTerm, s.matchIndex[v]); }
      }
      assert ChosenBy(h, s.currentTerm, c, q);
      assert CommittedAt(h, s.logs, c, s.currentTerm, s.currentTerm, c);
    }
  }

  lemma AppendReplyStep(h: Core, i: int, s: Server, peer: int, a: AppendEntriesArgs, r: AppendEntriesReply)
    returns (h': Core)
    requires Ready(h, i, s) && WfLog(s.logs) && 0 <= peer < |h.peers| && Indexed(s.logs)
    requires MessageRel(h, AppendAnswer(peer, a, r))
    ensures Good(h, h', i, AppendReply(s, i, |h.peers|, peer, a, r), {})
  {
    hide Inv, Committed, WfLog;
    h' := h;
    ExtendsRefl(h);
    if r.term > s.currentTerm {
      h' := AdvanceStep(h, i, s, r.term);
    } else if a.term == s.currentTerm {
      InvReign(h, a.term);
      LearnedRel(h, i, s, peer, a, r);
      var s1 := Learned(s, peer, a, r);
      if s1.role == Leader { LeaderCommits(h, i, s1); }
      assert AppendReply(s, i, |h.peers|, peer, a, r) == LeaderCommitLog(s1, i, |h.peers|);
    }
  }

  lemma SnapshotStep(h: Core, i: int, s: Server, a: InstallSnapshotArgs, leader: int) returns (h': Core)
    requires Ready(h, i, s) && a.lastIncludedIndex == 0
    ensures var (s', reply) := InstallSnapshot(s, a); Good(h, h', i, s', {SnapshotAnswer(i, leader, a, reply)})
  {
    h' := h;
    ExtendsRefl(h);
    if a.term > s.currentTerm { h' := AdvanceStep(h, i, s, a.term); }
  }

  lemma SnapshotReplyStep(h: Core, i: int, s: Server, peer: int, a: InstallSnapshotArgs, r: InstallSnapshotReply)
    returns (h': Core)
    requires Ready(h, i, s) && a.lastIncludedIndex == 0 && 0 <= peer < |h.peers| && WfLog(s.logs)
    ensures Good(h, h', i, SnapshotReply(s, peer, a, r), {})
  {
    hide Inv, Committed, Extends;
    h' := h;
    ExtendsRefl(h);
    if r.term > s.currentTerm { h' := AdvanceStep(h, i, s, r.term); }
  }

  lemma HeartbeatStep(h: Core, i: int, s: Server)
    requires Ready(h, i, s) && s.role == Leader && CanSend(s, |h.peers|)
    ensures Good(h, h, i, s, Broadcast(s, i, |h.peers|, true))
  {
    hide Inv;
    ExtendsRefl(h);
    InvReign(h, s.currentTerm);
    BroadcastRel(h, i, s, true);
  }

  // ---- Any action

  lemma EffectStep(h: Core, i: int, s: Server, a: Action) returns (h': Core)
    requires Ready(h, i, s) && WfLog(s.logs) && InBounds(s, |h.peers|)
    requires a.Submit? || a.HeartbeatTimer? ==> s.role == Leader
    requires a.Deliver? ==> MessageRel(h, a.m) && Receiver(a.m) == i
    requires a.Deliver? && a.m.VoteAnswer? ==>
               a.m.ballot.term in s.elections && a.m.from in s.elections[a.m.ballot.term].awaiting
    requires a.Deliver? && (a.m.AppendAnswer? || a.m.SnapshotAnswer?) ==> 0 <= a.m.from < |h.peers|
    ensures var (s', sent) := Effect(s, i, |h.peers|, a, AsIntended); Good(h, h', i, s', sent)
  {
    hide Good, WfLog, Broadcast, VoteReply, AppendEntries, AppendReply, RequestVote, InstallSnapshot, SnapshotReply,
         Timeout, Start, Restart;
    match a
    case ElectionTimer(_) => h' := TimeoutStep(h, i, s);
    case HeartbeatTimer(_) => h' := h; HeartbeatStep(h, i, s);
    case Submit(_, command) => h' := StartStep(h, i, s, command);
    case Crash(_) => h' := RestartStep(h, i, s);
    case Deliver(VoteRequest(_, b)) => h' := VoteStep(h, i, s, b);
    case Deliver(VoteAnswer(from, b, r)) => h' := VoteReplyStep(h, i, s, from, b, r);
    case Deliver(AppendRequest(_, e)) => h' := AppendStep(h, i, s, e);
    case Deliver(AppendAnswer(from, e, r)) => h' := AppendReplyStep(h, i, s, from, e, r);
    case Deliver(SnapshotRequest(_, leader, e)) => h' := SnapshotStep(h, i, s, e, leader);
    case Deliver(SnapshotAnswer(from, _, e, r)) => h' := SnapshotReplyStep(h, i, s, from, e, r);
  }

  /** Every step of the cluster keeps a history in order. */
  lemma NextStep(c: Cluster, h: Core, c': Cluster) returns (h': Core)
    requires Inv(h) && Rel(c, h) && Next(c, c', AsIntended)
    ensures Inv(h') && Rel(c', h') && Extends(h, h')
  {
    hide Inv, ServerRel, MessageRel, WfLog, InBounds, Effect;
    var a :| Enabled(c, a) && c' == Apply(c, a, AsIntended);
    var i := Actor(a);
    InvPeer(h, i);
    var s := c.servers[i];
    assert ServerRel(h, i, s);
    ServerLog(h, i, s);
    h' := EffectStep(h, i, s, a);
    var (s', sent) := Effect(s, i, |h.peers|, a, AsIntended);
    StepRel(c, h, h', i, s', sent);
  }

  lemma ServerLog(h: Core, i: int, s: Server)
    requires 0 <= i < |h.peers| && PeerOk(h, i) && ServerRel(h, i, s)
    ensures WfLog(s.logs)
  {
  }
}

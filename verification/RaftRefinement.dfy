/**
 Every step of the cluster, with the step-down as intended, is a sequence of
 the events of RaftCore. The history a RaftCore state records exists only in
 this proof: no server reads it.
 */
module RaftRefinement {
  import opened Sets
  import opened RaftTypes
  import opened RaftServer
  import opened RaftCluster
  import opened RaftCore

  // ---- How a cluster and its history fit together

  ghost predicate BallotRel(h: Core, b: RequestVoteArgs) {
    && 0 <= b.candidateId < |h.peers|
    && b.term in h.peers[b.candidateId].cand
    && (var log := h.peers[b.candidateId].cand[b.term];
        |log| > 0 && Last(log).index == b.lastLogIndex && Last(log).term == b.lastLogTerm)
  }

  /** An append request carries a stretch of its leader's log, up to at least what it says is committed. */
  ghost predicate AppendRel(h: Core, a: AppendEntriesArgs) {
    && a.term in h.reign
    && h.reign[a.term].leader == a.leaderId
    && (var lead := h.reign[a.term].log;
        var m := a.prevLogIndex + 1 + |a.entries|;
        && 0 <= a.prevLogIndex
        && m <= |lead|
        && lead[a.prevLogIndex].term == a.prevLogTerm
        && a.entries == lead[a.prevLogIndex + 1..m]
        && a.leaderCommit < m
        && Committed(h, lead, a.leaderCommit, a.term))
  }

  ghost predicate MessageRel(h: Core, m: Message) {
    match m
    case VoteRequest(_, b) => BallotRel(h, b)
    case VoteAnswer(from, b, r) => BallotRel(h, b)
                                   && (r.voteGranted ==> r.term == b.term && Voted(h, from, b.term, b.candidateId))
    case AppendRequest(_, a) => AppendRel(h, a)
    case AppendAnswer(from, a, r) =>
      && AppendRel(h, a)
      && (r.success ==> Acked(h, from, a.term, a.prevLogIndex + |a.entries|))
      && (r.conflict ==> r.xLen <= a.prevLogIndex || r.xTerm != -1)
      && (r.conflict ==> r.xIndex <= a.prevLogIndex)
    case SnapshotRequest(_, _, a) => a.lastIncludedIndex == 0
    case SnapshotAnswer(_, _, a, _) => a.lastIncludedIndex == 0
  }

  /** The peers that have answered this ballot with a vote. */
  ghost function Granters(h: Core, i: int, t: nat, awaiting: set<int>): set<int> {
    set q | q in Below(|h.peers|) && q != i && q !in awaiting && Voted(h, q, t, i)
  }

  ghost predicate ElectionRel(h: Core, i: int, t: nat, e: Election) {
    && e.args.term == t
    && e.args.candidateId == i
    && BallotRel(h, e.args)
    && Voted(h, i, t, i)
    && e.grantedVote <= 1 + |Granters(h, i, t, e.awaiting)|
    && i !in e.awaiting
  }

  ghost predicate LeaderRel(h: Core, i: int, s: Server) {
    && s.currentTerm in h.reign
    && h.reign[s.currentTerm].leader == i
    && Acked(h, i, s.currentTerm, |s.logs| - 1)
    && (forall q :: 0 <= q < |s.nextIndex| ==> s.nextIndex[q] <= |s.logs|)
    && (forall q :: 0 <= q < |s.matchIndex| ==> s.matchIndex[q] > 0 ==> Acked(h, q, s.currentTerm, s.matchIndex[q]))
  }

  ghost predicate CandidateRel(h: Core, i: int, s: Server)
    requires 0 <= i < |h.peers|
  {
    && s.currentTerm in h.peers[i].cand
    && h.peers[i].cand[s.currentTerm] == s.logs
    && (s.currentTerm in h.reign ==> h.reign[s.currentTerm].leader != i)
  }

  ghost predicate ServerRel(h: Core, i: int, s: Server)
    requires 0 <= i < |h.peers|
  {
    var p := h.peers[i];
    && s.currentTerm == p.term
    && s.logs == p.log
    && (if s.votedFor == NO_VOTE then p.term !in p.votes else p.term in p.votes && p.votes[p.term] == s.votedFor)
    && s.disk == Disk(s.currentTerm, s.votedFor, s.logs)
    && |s.nextIndex| == |h.peers|
    && |s.matchIndex| == |h.peers|
    && (s.role == Leader ==> LeaderRel(h, i, s))
    && (s.role == Candidate ==> CandidateRel(h, i, s))
    && (forall t <- s.elections :: ElectionRel(h, i, t, s.elections[t]))
    && Committed(h, s.logs, s.commitIndex, s.currentTerm)
  }

  ghost predicate Rel(c: Cluster, h: Core) {
    && |c.servers| == |h.peers|
    && (forall i :: 0 <= i < |c.servers| ==> ServerRel(h, i, c.servers[i]))
    && (forall m <- c.net :: MessageRel(h, m))
  }

  // ---- What later events do not disturb

  lemma BallotStable(h: Core, h': Core, b: RequestVoteArgs)
    requires Extends(h, h') && BallotRel(h, b)
    ensures BallotRel(h', b)
  {
    assert PeerExtends(h.peers[b.candidateId], h'.peers[b.candidateId]);
  }

  lemma VotedStable(h: Core, h': Core, q: int, t: nat, c: int)
    requires Extends(h, h') && Voted(h, q, t, c)
    ensures Voted(h', q, t, c)
  {
    assert PeerExtends(h.peers[q], h'.peers[q]);
  }

  lemma AckedStable(h: Core, h': Core, s: int, t: nat, i: int)
    requires Extends(h, h') && Acked(h, s, t, i)
    ensures Acked(h', s, t, i)
  {
    assert PeerExtends(h.peers[s], h'.peers[s]);
  }

  lemma AppendStable(h: Core, h': Core, a: AppendEntriesArgs)
    requires Extends(h, h') && AppendRel(h, a)
    ensures AppendRel(h', a)
  {
    var lead, lead' := h.reign[a.term].log, h'.reign[a.term].log;
    var m := a.prevLogIndex + 1 + |a.entries|;
    assert lead'[a.prevLogIndex + 1..m] == lead'[..|lead|][a.prevLogIndex + 1..m];
    assert lead'[a.prevLogIndex] == lead'[..|lead|][a.prevLogIndex];
    CommittedStable(h, h', lead, a.leaderCommit, a.term, a.term);
    UptoPrefix(lead, lead, lead', a.leaderCommit);
    CommittedShorter(h', lead, lead', a.leaderCommit, a.leaderCommit, a.term);
  }

  lemma MessageStable(h: Core, h': Core, m: Message)
    requires Extends(h, h') && MessageRel(h, m)
    ensures MessageRel(h', m)
  {
    match m
    case VoteRequest(_, b) => BallotStable(h, h', b);
    case VoteAnswer(from, b, r) =>
      BallotStable(h, h', b);
      if r.voteGranted { VotedStable(h, h', from, b.term, b.candidateId); }
    case AppendRequest(_, a) => AppendStable(h, h', a);
    case AppendAnswer(from, a, r) =>
      AppendStable(h, h', a);
      if r.success { AckedStable(h, h', from, a.term, a.prevLogIndex + |a.entries|); }
    case SnapshotRequest(_, _, _) =>
    case SnapshotAnswer(_, _, _, _) =>
  }

  lemma ElectionStable(h: Core, h': Core, i: int, t: nat, e: Election)
    requires Extends(h, h') && ElectionRel(h, i, t, e)
    ensures ElectionRel(h', i, t, e)
  {
    BallotStable(h, h', e.args);
    VotedStable(h, h', i, t, i);
    forall q <- Granters(h, i, t, e.awaiting) ensures q in Granters(h', i, t, e.awaiting) {
      VotedStable(h, h', q, t, i);
    }
    SubsetSize(Granters(h, i, t, e.awaiting), Granters(h', i, t, e.awaiting));
  }

  lemma LeaderStable(h: Core, h': Core, i: int, s: Server)
    requires Extends(h, h') && LeaderRel(h, i, s)
    ensures LeaderRel(h', i, s)
  {
    AckedStable(h, h', i, s.currentTerm, |s.logs| - 1);
    forall q | 0 <= q < |s.matchIndex| && s.matchIndex[q] > 0 ensures Acked(h', q, s.currentTerm, s.matchIndex[q]) {
      AckedStable(h, h', q, s.currentTerm, s.matchIndex[q]);
    }
  }

  /** The history at server `i` may have changed, and a new term may have elected `i`. */
  ghost predicate OnlyAt(h: Core, h': Core, i: int) {
    && Extends(h, h')
    && (forall j :: 0 <= j < |h.peers| && j != i ==> h'.peers[j] == h.peers[j])
    && (forall t <- h'.reign :: t in h.reign || h'.reign[t].leader == i)
  }

  lemma ServerStable(h: Core, h': Core, i: int, j: int, s: Server)
    requires OnlyAt(h, h', i) && 0 <= j < |h.peers| && j != i && ServerRel(h, j, s)
    ensures ServerRel(h', j, s)
  {
    forall t <- s.elections ensures ElectionRel(h', j, t, s.elections[t]) {
      ElectionStable(h, h', j, t, s.elections[t]);
    }
    if s.role == Leader { LeaderStable(h, h', j, s); }
    CommittedStable(h, h', s.logs, s.commitIndex, s.currentTerm, s.currentTerm);
  }

  lemma StepRel(c: Cluster, h: Core, h': Core, i: int, s': Server, sent: set<Message>)
    requires Rel(c, h) && 0 <= i < |c.servers| && OnlyAt(h, h', i)
    requires ServerRel(h', i, s')
    requires forall m <- sent :: MessageRel(h', m)
    ensures Rel(Cluster(c.servers[i := s'], c.net + sent), h')
  {
    var c' := Cluster(c.servers[i := s'], c.net + sent);
    forall j | 0 <= j < |c'.servers| ensures ServerRel(h', j, c'.servers[j]) {
      if j != i { ServerStable(h, h', i, j, c.servers[j]); }
    }
    forall m <- c'.net ensures MessageRel(h', m) {
      if m in c.net { MessageStable(h, h', m); }
    }
  }
}

/**
 Conflict backtracking: however far apart a leader and a follower of its term
 are, exchanging probes and answers brings the follower's log into agreement.
 */
module RaftBacktrack {
  import opened RaftTypes
  import opened RaftServer
  import opened RaftCluster
  import opened RaftCore
  import opened RaftRefinement
  import opened RaftSteps
  import opened RaftSafety

  /** One probe of `peer` by the leader, answered and taken in. */
  ghost function Exchange(lead: Server, follow: Server, me: int, n: nat, peer: int): (Server, Server)
    requires CanSend(lead, n) && Indexed(lead.logs) && |lead.matchIndex| == n && 0 <= peer < n && Indexed(follow.logs)
  {
    match SendTo(lead, me, peer)
    case AppendRequest(_, args) =>
      var (follow', reply) := AppendEntries(follow, args);
      (AppendReply(lead, me, n, peer, args, reply), follow')
    case SnapshotRequest(_, _, args) =>
      var (follow', reply) := InstallSnapshot(follow, args);
      (SnapshotReply(lead, peer, args, reply), follow')
    case _ => (lead, follow)
  }

  /** A leader and a follower of one term whose logs come from one history. */
  ghost predicate Pair(h: Core, lead: Server, follow: Server, n: nat, peer: int) {
    && 0 <= peer < n
    && |lead.nextIndex| == n && |lead.matchIndex| == n
    && lead.role == Leader
    && lead.currentTerm == follow.currentTerm
    && LogOk(h, lead.logs) && LogOk(h, follow.logs)
    && (forall p :: 0 <= p < n ==> lead.nextIndex[p] <= |lead.logs|)
    && follow.commitIndex >= 0
  }

  /** The follower holds the leader's log, and the leader knows it. */
  ghost predicate CaughtUp(lead: Server, follow: Server, peer: int) {
    && |lead.logs| > 0 && 0 <= peer < |lead.matchIndex|
    && Upto(lead.logs, follow.logs, |lead.logs| - 1)
    && lead.matchIndex[peer] >= |lead.logs| - 1
  }

  lemma PairBounds(h: Core, lead: Server, follow: Server, n: nat, peer: int)
    requires Pair(h, lead, follow, n, peer)
    ensures CanSend(lead, n) && Indexed(lead.logs) && Indexed(follow.logs)
    ensures WfLog(lead.logs) && WfLog(follow.logs)
  {
  }

  /** Scanning down for a term finds its last entry, or stops below where it would be. */
  lemma {:induction false} FindLastMeans(log: Log, term: int, i: int)
    requires WfLog(log) && i < |log|
    ensures var r := FindLastFrom(log, term, i);
            && !r.OutOfRange?
            && (r.FoundAt? ==> 0 < r.index <= i && log[r.index].term == term
                               && forall k :: r.index < k <= i ==> log[k].term > term)
            && (r.Absent? ==> forall k :: 0 < k <= i ==> log[k].term != term)
    decreases i
  {
    if i > 0 && log[i].term > term { FindLastMeans(log, term, i - 1); }
  }

  /** The leader's last entry of the term the follower has at `prev` is not beyond `prev`: log matching. */
  lemma LastOfTermBefore(h: Core, lead: Log, log: Log, prev: int, j: int)
    requires LogOk(h, lead) && LogOk(h, log) && 0 < prev < |lead| && prev < |log|
    requires lead[prev].term != log[prev].term && 0 < j < |lead| && lead[j].term == log[prev].term
    ensures j < prev
  {
    if j > prev {
      var all := h.reign[log[prev].term].log;
      assert Upto(lead, all, j) && Upto(log, all, prev);
      UptoShorter(lead, all, j, prev);
      UptoShorter(log, all, prev, prev);
      assert false;
    }
  }

  /** What a follower of the term answers when it cannot accept. */
  ghost predicate Refusal(log: Log, prev: int, reply: AppendEntriesReply) {
    && !reply.success && reply.conflict
    && (prev >= |log| ==> reply.xTerm == -1 && reply.xLen == |log| - 1)
    && (0 < prev < |log| ==> reply.xTerm == log[prev].term && 0 <= reply.xIndex < prev)
  }

  lemma RefusedProbe(follow: Server, args: AppendEntriesArgs)
    requires WfLog(follow.logs) && Indexed(follow.logs) && args.term == follow.currentTerm && args.prevLogIndex >= 0
    requires var prev := args.prevLogIndex; prev < |follow.logs| ==>
                                            follow.logs[prev].term != args.prevLogTerm && prev > 0
    ensures var (follow', reply) := AppendEntries(follow, args);
            && follow'.logs == follow.logs && follow'.currentTerm == follow.currentTerm
               && follow'.commitIndex == follow.commitIndex
            && reply.term == follow.currentTerm
            && Refusal(follow.logs, args.prevLogIndex, reply)
  {
    hide Merge;
  }

  /** The next probe after a refusal at `prev` is strictly lower. */
  lemma NextProbeDescends(h: Core, lead: Log, log: Log, prev: int, reply: AppendEntriesReply)
    requires LogOk(h, lead) && LogOk(h, log) && 0 <= prev < |lead| && Refusal(log, prev, reply)
    requires prev < |log| ==> lead[prev].term != log[prev].term && prev > 0
    requires Last(lead).index - lead[0].index < |lead|
    ensures 0 <= NextProbe(lead, reply) < prev + 1
  {
    if prev < |log| {
      FindLastMeans(lead, log[prev].term, |lead| - 1);
      var found := FindLastFrom(lead, log[prev].term, |lead| - 1);
      if found.FoundAt? { LastOfTermBefore(h, lead, log, prev, found.index); }
    }
  }

  /** A refused probe moves the next one strictly down. */
  lemma ProbeDescends(h: Core, lead: Server, follow: Server, me: int, n: nat, peer: int)
    requires Pair(h, lead, follow, n, peer) && CanSend(lead, n) && Indexed(lead.logs) && Indexed(follow.logs)
    requires lead.nextIndex[peer] >= 1
    requires var prev := lead.nextIndex[peer] - 1;
               !(prev < |follow.logs| && follow.logs[prev].term == lead.logs[prev].term)
    ensures var args := SendTo(lead, me, peer).append;
            var (follow', reply) := AppendEntries(follow, args);
            && follow'.logs == follow.logs && follow'.currentTerm == follow.currentTerm
               && follow'.commitIndex == follow.commitIndex
            && !reply.success && reply.conflict && reply.term == follow.currentTerm
            && 0 <= NextProbe(lead.logs, reply) < lead.nextIndex[peer]
  {
    hide LogOk, AppendEntries, NextProbe;
    PairBounds(h, lead, follow, n, peer);
    var prev := lead.nextIndex[peer] - 1;
    var args := SendTo(lead, me, peer).append;
    RefusedProbe(follow, args);
    NextProbeDescends(h, lead.logs, follow.logs, prev, AppendEntries(follow, args).1);
  }

  /** The conflict hint does not overshoot: the next probe is at most one entry below where the logs part. */
  lemma HintNotTooLow(lead: Log, log: Log, prev: int, xIndex: int, m: int)
    requires WfLog(lead) && WfLog(log) && 0 < prev < |lead| && prev < |log| && lead[prev].term != log[prev].term
    requires Upto(lead, log, m) && -1 <= xIndex < prev
    requires forall k :: xIndex < k < prev ==> log[k].term == log[prev].term
    ensures Last(lead).index - lead[0].index < |lead|
    ensures var found := FindLastLogInXTerm(lead, log[prev].term);
            if found.FoundAt? then found.index >= m else xIndex >= m
  {
    LogEnds(lead);
    var term := log[prev].term;
    FindLastMeans(lead, term, |lead| - 1);
    UptoShorter(lead, log, m, m);
    if m >= prev {
      UptoShorter(lead, log, m, prev);
      assert false;
    }
  }

  /** A refused probe is followed by one no lower than the last entry the two logs share. */
  lemma ProbeNotTooLow(h: Core, lead: Server, follow: Server, me: int, n: nat, peer: int, m: int)
    requires Pair(h, lead, follow, n, peer) && CanSend(lead, n) && Indexed(lead.logs) && Indexed(follow.logs)
    requires lead.nextIndex[peer] >= 1 && Upto(lead.logs, follow.logs, m)
    requires var prev := lead.nextIndex[peer] - 1;
               !(prev < |follow.logs| && follow.logs[prev].term == lead.logs[prev].term)
    ensures NextProbe(lead.logs, AppendEntries(follow, SendTo(lead, me, peer).append).1) >= m
  {
    PairBounds(h, lead, follow, n, peer);
    LogEnds(lead.logs);
    LogEnds(follow.logs);
    hide LogOk, Merge;
    var prev := lead.nextIndex[peer] - 1;
    if prev < |follow.logs| {
      var x := XIndex(follow.logs, prev - 1, follow.logs[prev].term);
      HintNotTooLow(lead.logs, follow.logs, prev, x, m);
    }
  }

  lemma AcceptedProbe(h: Core, lead: Server, follow: Server, me: int, n: nat, peer: int)
    requires Pair(h, lead, follow, n, peer) && CanSend(lead, n) && Indexed(follow.logs)
    requires lead.nextIndex[peer] >= 1
    requires var prev := lead.nextIndex[peer] - 1; prev < |follow.logs|
                                                   && follow.logs[prev].term == lead.logs[prev].term
    ensures var args := SendTo(lead, me, peer).append;
            var (follow', reply) := AppendEntries(follow, args);
            && reply.success && reply.term == follow.currentTerm
            && args.prevLogIndex + |args.entries| == |lead.logs| - 1
            && Upto(lead.logs, follow'.logs, |lead.logs| - 1)
  {
    hide Merge, LogOk;
    PairBounds(h, lead, follow, n, peer);
    var prev := lead.nextIndex[peer] - 1;
    var rest := lead.logs[prev + 1..];
    assert rest == lead.logs[prev + 1..prev + 1 + |rest|];
    MergeFollows(h, lead.logs, follow.logs, prev, rest);
    assert lead.logs[..|lead.logs|] == lead.logs;
  }

  /** What one exchange achieves: agreement, or a strictly lower probe with nothing else disturbed. */
  lemma ExchangeProgress(h: Core, lead: Server, follow: Server, me: int, n: nat, peer: int)
    requires Pair(h, lead, follow, n, peer) && CanSend(lead, n) && Indexed(lead.logs) && Indexed(follow.logs)
    ensures var (lead', follow') := Exchange(lead, follow, me, n, peer);
            && lead'.logs == lead.logs
            && (|| CaughtUp(lead', follow', peer)
                || (&& Pair(h, lead', follow', n, peer)
                    && (if lead.nextIndex[peer] >= 1 then 0 <= lead'.nextIndex[peer] < lead.nextIndex[peer]
                        else lead'.nextIndex[peer] == 1)))
            && (lead.nextIndex[peer] == 1 ==> CaughtUp(lead', follow', peer))
  {
    hide LogOk, AppendEntries, CommitScan, NextProbe;
    PairBounds(h, lead, follow, n, peer);
    LogEnds(lead.logs);
    var next := lead.nextIndex[peer];
    if next >= 1 {
      var args := SendTo(lead, me, peer).append;
      if next - 1 < |follow.logs| && follow.logs[next - 1].term == lead.logs[next - 1].term {
        AcceptedProbe(h, lead, follow, me, n, peer);
      } else {
        ProbeDescends(h, lead, follow, me, n, peer);
      }
    }
  }

  ghost function Exchanges(lead: Server, follow: Server, me: int, n: nat, peer: int, rounds: nat): (Server, Server)
    decreases rounds
  {
    if rounds == 0 || !(CanSend(lead, n) && Indexed(lead.logs) && |lead.matchIndex| == n && 0 <= peer < n
                        && Indexed(follow.logs))
    then (lead, follow)
    else
      var (lead', follow') := Exchange(lead, follow, me, n, peer);
      Exchanges(lead', follow', me, n, peer, rounds - 1)
  }

  /** How many exchanges a next index can take: below 1 one goes to a snapshot that resets it to 1. */
  function Most(next: int): nat {
    if next <= 0 then 2 else if next == 1 then 1 else next + 1
  }

  lemma {:induction false} CatchesUp(h: Core, lead: Server, follow: Server, me: int, n: nat, peer: int)
    returns (rounds: nat)
    requires Pair(h, lead, follow, n, peer)
    ensures rounds <= Most(lead.nextIndex[peer])
    ensures var (lead', follow') := Exchanges(lead, follow, me, n, peer, rounds);
            lead'.logs == lead.logs && CaughtUp(lead', follow', peer)
    decreases Most(lead.nextIndex[peer])
  {
    hide Exchange, LogOk;
    PairBounds(h, lead, follow, n, peer);
    ExchangeProgress(h, lead, follow, me, n, peer);
    var (lead', follow') := Exchange(lead, follow, me, n, peer);
    if CaughtUp(lead', follow', peer) {
      rounds := 1;
      assert Exchanges(lead', follow', me, n, peer, 0) == (lead', follow');
    } else {
      var more := CatchesUp(h, lead', follow', me, n, peer);
      rounds := more + 1;
    }
  }

  /** In every state of every run, a leader that keeps probing a server of its term brings it into agreement. */
  lemma BacktrackingConverges(run: seq<Cluster>, n: nat, k: int, l: int, f: int) returns (rounds: nat)
    requires Run(run, n, AsIntended) && InRun(run, k, l) && InRun(run, k, f) && l != f
    requires At(run, k, l).role == Leader && At(run, k, f).currentTerm == At(run, k, l).currentTerm
    ensures rounds <= |At(run, k, l).logs| + 2
    ensures var (lead, follow) := Exchanges(At(run, k, l), At(run, k, f), l, n, f, rounds);
            lead.logs == At(run, k, l).logs && CaughtUp(lead, follow, f)
  {
    hide Inv, Run, Rel, LogOk, Pair, Exchanges, CaughtUp;
    var hs := History(run, n);
    Sizes(run, n, k);
    RelPair(run[k], hs[k], l, f);
    rounds := CatchesUp(hs[k], At(run, k, l), At(run, k, f), l, n, f);
  }

  lemma RelPair(c: Cluster, h: Core, l: int, f: int)
    requires Inv(h) && Rel(c, h) && 0 <= l < |c.servers| && 0 <= f < |c.servers|
    requires c.servers[l].role == Leader && c.servers[f].currentTerm == c.servers[l].currentTerm
    ensures Pair(h, c.servers[l], c.servers[f], |c.servers|, f)
            && Most(c.servers[l].nextIndex[f]) <= |c.servers[l].logs| + 2
  {
    hide Inv, LogOk;
    RelServer(c, h, l);
    RelServer(c, h, f);
  }

  // ---- The scan on a compacted log

  /** Terms never decrease along a log, compacted or not. */
  ghost predicate TermsRise(logs: Log) {
    forall i, j {:trigger logs[i], logs[j]} :: 0 <= i <= j < |logs| ==> logs[i].term <= logs[j].term
  }

  /**
   findLastLogInXTerm leaves the slice exactly when the log has been compacted
   and every retained term is newer than the one it looks for.
   */
  lemma ScanLeavesSlice(logs: Log, term: int)
    requires Indexed(logs) && TermsRise(logs) && logs[0].index >= 0
    ensures FindLastLogInXTerm(logs, term).OutOfRange? <==> logs[0].index > 1 && logs[0].term > term
  {
    ScanFrom(logs, term, Last(logs).index);
  }

  lemma {:induction false} ScanFrom(logs: Log, term: int, i: int)
    requires Indexed(logs) && TermsRise(logs) && logs[0].index >= 0 && logs[0].index - 1 <= i < logs[0].index + |logs|
    requires i < logs[0].index ==> logs[0].term > term
    ensures FindLastFrom(logs, term, i).OutOfRange? <==> logs[0].index > 1 && logs[0].term > term
    decreases i
  {
    if i >= logs[0].index && i > 0 && logs[i - logs[0].index].term > term {
      ScanFrom(logs, term, i - 1);
    }
  }
}

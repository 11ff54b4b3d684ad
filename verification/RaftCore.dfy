/**
 The safety argument of Raft, freed of messages: what terms, votes, logs and
 acknowledgements the servers have gone through, and the six events that
 change them. `RaftRefinement` shows that every step of the cluster is a
 sequence of these events.
 */
module RaftCore {
  import opened RaftTypes

  /** What one server has done so far; `votes`, `ack` and `cand` are indexed by term. */
  datatype Peer = Peer(
    term: nat,
    log: Log,
    votes: map<nat, int>,  // the candidate this server voted for
    ack: map<nat, nat>,    // the highest index confirmed to that term's leader
    cand: map<nat, Log>)   // the log it stood for election with

  /** A term that elected a leader, and the leader's log in that term. */
  datatype Reign = Reign(leader: int, log: Log, voters: set<int>)

  datatype Core = Core(peers: seq<Peer>, reign: map<nat, Reign>)

  // ---- What the events keep

  ghost predicate LogOk(h: Core, log: Log) {
    && WfLog(log)
    && forall i {:trigger log[i]} :: 0 < i < |log| ==>
         log[i].term in h.reign && Upto(log, h.reign[log[i].term].log, i)
  }

  ghost predicate PeerOk(h: Core, s: int)
    requires 0 <= s < |h.peers|
  {
    var p := h.peers[s];
    && LogOk(h, p.log)
    && TermsAtMost(p.log, p.term)
    && (forall t <- p.votes :: t <= p.term && 0 <= p.votes[t] < |h.peers| && t in h.peers[p.votes[t]].cand)
    && (forall t <- p.cand :: 1 <= t <= p.term && LogOk(h, p.cand[t]) && TermsAtMost(p.cand[t], t))
    && (forall t <- p.ack :: t <= p.term && t in h.reign && p.ack[t] < |h.reign[t].log|)
  }

  ghost predicate ReignOk(h: Core, t: nat)
    requires t in h.reign
  {
    var r := h.reign[t];
    && 1 <= t
    && 0 <= r.leader < |h.peers|
    && LogOk(h, r.log)
    && TermsAtMost(r.log, t)
    && h.peers[r.leader].term >= t
    && (h.peers[r.leader].term == t ==> h.peers[r.leader].log == r.log)
    && Quorum(|h.peers|, r.voters)
    && (forall q <- r.voters :: Voted(h, q, t, r.leader))
  }

  ghost predicate Voted(h: Core, q: int, t: nat, c: int) {
    0 <= q < |h.peers| && t in h.peers[q].votes && h.peers[q].votes[t] == c
  }

  /** An entry that the leader of term `t` put at index `i` in that term. */
  ghost predicate Item(h: Core, t: nat, i: int) {
    t in h.reign && 0 < i < |h.reign[t].log| && h.reign[t].log[i].term == t
  }

  ghost predicate Acked(h: Core, s: int, t: nat, i: int) {
    0 <= s < |h.peers| && t in h.peers[s].ack && i <= h.peers[s].ack[t]
  }

  /** A quorum has left term `t` without confirming `i`: it can no longer be committed there. */
  ghost predicate BlockedBy(h: Core, t: nat, i: int, q: set<int>) {
    Quorum(|h.peers|, q) && forall s <- q :: 0 <= s < |h.peers| && h.peers[s].term > t && !Acked(h, s, t, i)
  }

  ghost predicate Blocked(h: Core, t: nat, i: int) {
    exists q :: BlockedBy(h, t, i, q)
  }

  /** A quorum has confirmed the leader's own-term entry: the commit rule of section 5.4.2. */
  ghost predicate Chosen(h: Core, t: nat, i: int) {
    Item(h, t, i) && exists q :: ChosenBy(h, t, i, q)
  }

  ghost predicate ChosenBy(h: Core, t: nat, i: int, q: set<int>) {
    Quorum(|h.peers|, q) && forall s <- q :: Acked(h, s, t, i)
  }

  ghost predicate HasOrBlocked(h: Core, t: nat, i: int, log: Log)
    requires t in h.reign
  {
    Upto(h.reign[t].log, log, i) || Blocked(h, t, i)
  }

  /** A server that confirmed an entry keeps it for as long as it may be committed. */
  ghost predicate AckedKept(h: Core) {
    forall s: int, t: nat, i: int {:trigger Acked(h, s, t, i), Item(h, t, i)} ::
      Item(h, t, i) && Acked(h, s, t, i) ==> HasOrBlocked(h, t, i, h.peers[s].log)
  }

  /** Every later leader holds it. */
  ghost predicate LeadersHave(h: Core) {
    forall t: nat, i: int, u: nat {:trigger Item(h, t, i), h.reign[u]} ::
      Item(h, t, i) && u in h.reign && t < u ==> HasOrBlocked(h, t, i, h.reign[u].log)
  }

  /** A later candidate that got a vote from a server that confirmed it holds it. */
  ghost predicate VotersVouch(h: Core) {
    forall s: int, u: nat, t: nat, i: int {:trigger Acked(h, s, t, i), Item(h, t, i), h.peers[s].votes[u]} ::
      Item(h, t, i) && Acked(h, s, t, i) && u in h.peers[s].votes && t < u
      && 0 <= h.peers[s].votes[u] < |h.peers| && u in h.peers[h.peers[s].votes[u]].cand
      ==> HasOrBlocked(h, t, i, h.peers[h.peers[s].votes[u]].cand[u])
  }

  ghost predicate Inv(h: Core) {
    && |h.peers| > 0
    && (forall s :: 0 <= s < |h.peers| ==> PeerOk(h, s))
    && (forall t <- h.reign :: ReignOk(h, t))
    && AckedKept(h)
    && LeadersHave(h)
    && VotersVouch(h)
  }

  ghost predicate PrefixOf(a: Log, b: Log) {
    |a| <= |b| && b[..|a|] == a
  }

  /** The log of the leader of term `t` grows by entries of that term. */
  ghost predicate Grows(a: Log, b: Log, t: nat) {
    PrefixOf(a, b) && forall x {:trigger b[x]} :: |a| <= x < |b| ==> b[x].term == t
  }

  ghost predicate PeerExtends(p: Peer, p': Peer) {
    && p.term <= p'.term
    && (forall t <- p.votes :: t in p'.votes && p'.votes[t] == p.votes[t])
    && (forall t <- p.cand :: t in p'.cand && p'.cand[t] == p.cand[t])
    && (forall t <- p.ack :: t in p'.ack && p.ack[t] <= p'.ack[t])
    && (forall t <- p'.ack :: t < p.term ==> t in p.ack && p.ack[t] == p'.ack[t])
  }

  /** Nothing recorded is taken back, and no server confirms entries of a term it has left. */
  ghost predicate Extends(h: Core, h': Core) {
    && |h.peers| == |h'.peers|
    && (forall s :: 0 <= s < |h.peers| ==> PeerExtends(h.peers[s], h'.peers[s]))
    && (forall t <- h.reign :: t in h'.reign && h'.reign[t].leader == h.reign[t].leader
                               && h'.reign[t].voters == h.reign[t].voters
                               && Grows(h.reign[t].log, h'.reign[t].log, t))
  }

  lemma ExtendsTrans(a: Core, b: Core, c: Core)
    requires Extends(a, b) && Extends(b, c)
    ensures Extends(a, c)
  {
    forall t <- a.reign ensures Grows(a.reign[t].log, c.reign[t].log, t) {
      var x, y, z := a.reign[t].log, b.reign[t].log, c.reign[t].log;
      assert z[..|x|] == z[..|y|][..|x|];
      forall i {:trigger z[i]} | |x| <= i < |z| ensures z[i].term == t {
        if i < |y| { assert z[i] == z[..|y|][i] == y[i]; }
      }
    }
    forall s | 0 <= s < |a.peers| ensures PeerExtends(a.peers[s], c.peers[s]) {
      assert PeerExtends(a.peers[s], b.peers[s]) && PeerExtends(b.peers[s], c.peers[s]);
    }
  }

  lemma BlockedStable(h: Core, h': Core, t: nat, i: int)
    requires Extends(h, h') && Blocked(h, t, i)
    ensures Blocked(h', t, i)
  {
    var q :| BlockedBy(h, t, i, q);
    forall s <- q ensures 0 <= s < |h'.peers| && h'.peers[s].term > t && !Acked(h', s, t, i) {
      assert PeerExtends(h.peers[s], h'.peers[s]);
    }
    assert BlockedBy(h', t, i, q);
  }

  lemma UptoPrefix(a: Log, b: Log, b': Log, i: int)
    requires Upto(a, b, i) && PrefixOf(b, b')
    ensures Upto(a, b', i) && Upto(b', a, i)
  {
    assert b'[..i + 1] == b'[..|b|][..i + 1];
  }

  lemma UptoTrans(a: Log, b: Log, c: Log, i: int)
    requires Upto(a, b, i) && Upto(b, c, i)
    ensures Upto(a, c, i)
  {
  }

  lemma UptoShorter(a: Log, b: Log, i: int, j: int)
    requires Upto(a, b, i) && 0 <= j <= i
    ensures Upto(a, b, j) && a[j] == b[j]
  {
    assert a[..j + 1] == a[..i + 1][..j + 1];
    assert b[..j + 1] == b[..i + 1][..j + 1];
    assert a[j] == a[..i + 1][j] && b[j] == b[..i + 1][j];
  }

  lemma LogOkStable(h: Core, h': Core, log: Log)
    requires Extends(h, h') && LogOk(h, log)
    ensures LogOk(h', log)
  {
    forall i {:trigger log[i]} | 0 < i < |log|
      ensures log[i].term in h'.reign && Upto(log, h'.reign[log[i].term].log, i)
    {
      UptoPrefix(log, h.reign[log[i].term].log, h'.reign[log[i].term].log, i);
    }
  }

  lemma HasOrBlockedStable(h: Core, h': Core, t: nat, i: int, log: Log)
    requires Extends(h, h') && t in h.reign && HasOrBlocked(h, t, i, log)
    ensures HasOrBlocked(h', t, i, log)
  {
    if Upto(h.reign[t].log, log, i) {
      var a, a' := h.reign[t].log, h'.reign[t].log;
      assert a'[..i + 1] == a'[..|a|][..i + 1];
    } else {
      BlockedStable(h, h', t, i);
    }
  }

  // ---- Events that leave every leader's log alone

  function SetPeer(h: Core, s: int, p: Peer): Core
    requires 0 <= s < |h.peers|
  {
    h.(peers := h.peers[s := p])
  }

  /** Same logs, same confirmations, same reigns. */
  ghost predicate Quiet(h: Core, h': Core) {
    && Extends(h, h')
    && h'.reign == h.reign
    && forall s :: 0 <= s < |h.peers| ==> h'.peers[s].log == h.peers[s].log && h'.peers[s].ack == h.peers[s].ack
  }

  lemma QuietAcks(h: Core, h': Core)
    requires Quiet(h, h') && AckedKept(h)
    ensures AckedKept(h')
  {
    forall r: int, t: nat, i: int | Item(h', t, i) && Acked(h', r, t, i)
      ensures HasOrBlocked(h', t, i, h'.peers[r].log)
    {
      assert Item(h, t, i) && Acked(h, r, t, i);
      HasOrBlockedStable(h, h', t, i, h.peers[r].log);
    }
  }

  lemma QuietLeaders(h: Core, h': Core)
    requires Extends(h, h') && h'.reign == h.reign && LeadersHave(h)
    ensures LeadersHave(h')
  {
    forall t: nat, i: int, u: nat | Item(h', t, i) && u in h'.reign && t < u
      ensures HasOrBlocked(h', t, i, h'.reign[u].log)
    {
      assert Item(h, t, i);
      HasOrBlockedStable(h, h', t, i, h.reign[u].log);
    }
  }

  /** Votes cast after an event at `s` are old ones, or new ones of `s` that were shown to vouch. */
  lemma QuietVotes(h: Core, h': Core, s: int)
    requires Quiet(h, h') && VotersVouch(h) && 0 <= s < |h.peers|
    requires forall r :: 0 <= r < |h.peers| ==> PeerOk(h, r)
    requires forall r :: 0 <= r < |h.peers| && r != s ==> h'.peers[r] == h.peers[r]
    requires forall u: nat, t: nat, i: int {:trigger Item(h, t, i), h'.peers[s].votes[u]} ::
               u in h'.peers[s].votes && u !in h.peers[s].votes && t < u && Item(h, t, i) && Acked(h, s, t, i)
               && 0 <= h'.peers[s].votes[u] < |h.peers| && u in h'.peers[h'.peers[s].votes[u]].cand
               ==> HasOrBlocked(h, t, i, h'.peers[h'.peers[s].votes[u]].cand[u])
    ensures VotersVouch(h')
  {
    forall r: int, u: nat, t: nat, i: int | Item(h', t, i) && Acked(h', r, t, i) && u in h'.peers[r].votes && t < u
      && 0 <= h'.peers[r].votes[u] < |h'.peers| && u in h'.peers[h'.peers[r].votes[u]].cand
      ensures HasOrBlocked(h', t, i, h'.peers[h'.peers[r].votes[u]].cand[u])
    {
      assert Item(h, t, i) && Acked(h, r, t, i);
      var c := h'.peers[r].votes[u];
      if u in h.peers[r].votes {
        assert PeerOk(h, r) && PeerExtends(h.peers[r], h'.peers[r]) && PeerExtends(h.peers[c], h'.peers[c]);
        assert h.peers[r].votes[u] == c;
      }
      HasOrBlockedStable(h, h', t, i, h'.peers[c].cand[u]);
    }
  }

  /**
   An event at server `s` that changes no log, confirms nothing, and only adds
   vote and candidacy records that are themselves in order, keeps the invariant.
   */
  lemma QuietEvent(h: Core, s: int, p': Peer)
    requires Inv(h) && 0 <= s < |h.peers|
    requires var p := h.peers[s]; PeerExtends(p, p') && p'.log == p.log && p'.ack == p.ack
    requires var h' := SetPeer(h, s, p'); PeerOk(h', s)
    requires forall u: nat, t: nat, i: int {:trigger Item(h, t, i), p'.votes[u]} ::
               u in p'.votes && u !in h.peers[s].votes && t < u && Item(h, t, i) && Acked(h, s, t, i)
               ==> HasOrBlocked(h, t, i, SetPeer(h, s, p').peers[p'.votes[u]].cand[u])
    ensures Inv(SetPeer(h, s, p')) && Extends(h, SetPeer(h, s, p'))
  {
    hide PeerOk, ReignOk, HasOrBlocked, Item, Acked;
    var h' := SetPeer(h, s, p');
    assert Quiet(h, h');
    forall r | 0 <= r < |h'.peers| ensures PeerOk(h', r) {
      if r != s { PeerStable(h, h', r); }
    }
    forall t <- h'.reign ensures ReignOk(h', t) { ReignStable(h, h', t); }
    QuietAcks(h, h');
    QuietLeaders(h, h');
    QuietVotes(h, h', s);
  }

  lemma PeerStable(h: Core, h': Core, r: int)
    requires Extends(h, h') && 0 <= r < |h.peers| && PeerOk(h, r) && h'.peers[r] == h.peers[r]
    ensures PeerOk(h', r)
  {
    var p := h.peers[r];
    LogOkStable(h, h', p.log);
    forall t <- p.cand ensures LogOk(h', p.cand[t]) { LogOkStable(h, h', p.cand[t]); }
    forall t <- p.votes ensures t in h'.peers[p.votes[t]].cand {
      assert PeerExtends(h.peers[p.votes[t]], h'.peers[p.votes[t]]);
    }
  }

  lemma ReignStable(h: Core, h': Core, t: nat)
    requires Extends(h, h') && t in h.reign && ReignOk(h, t) && h'.reign[t] == h.reign[t]
    requires forall s :: 0 <= s < |h.peers| ==>
                         h'.peers[s].log == h.peers[s].log || h'.peers[s].term > t || s != h.reign[t].leader
    ensures ReignOk(h', t)
  {
    var r := h.reign[t];
    LogOkStable(h, h', r.log);
    assert PeerExtends(h.peers[r.leader], h'.peers[r.leader]);
    forall q <- r.voters ensures Voted(h', q, t, r.leader) {
      assert Voted(h, q, t, r.leader);
      assert PeerExtends(h.peers[q], h'.peers[q]);
    }
  }

  /** Adopting a higher term, or nothing at all. */
  function Advance(h: Core, s: int, t: nat): Core
    requires 0 <= s < |h.peers|
  {
    SetPeer(h, s, h.peers[s].(term := t))
  }

  lemma AdvanceOk(h: Core, s: int, t: nat)
    requires Inv(h) && 0 <= s < |h.peers| && t >= h.peers[s].term
    ensures Inv(Advance(h, s, t)) && Extends(h, Advance(h, s, t))
  {
    var h' := Advance(h, s, t);
    assert PeerOk(h, s);
    PeerMoved(h, s, h'.peers[s]);
    QuietEvent(h, s, h'.peers[s]);
  }

  /** The part of PeerOk that a new term, vote or candidacy of `s` does not touch. */
  lemma PeerMoved(h: Core, s: int, p': Peer)
    requires 0 <= s < |h.peers| && PeerOk(h, s)
    requires var p := h.peers[s]; PeerExtends(p, p') && p'.log == p.log && p'.ack == p.ack
    ensures var h' := SetPeer(h, s, p'); Extends(h, h') && LogOk(h', p'.log) && TermsAtMost(p'.log, p'.term)
    ensures var h' := SetPeer(h, s, p'); forall t <- h.peers[s].votes ::
                                         0 <= p'.votes[t] < |h'.peers| && t in h'.peers[p'.votes[t]].cand
    ensures var h' := SetPeer(h, s, p'); forall t <- h.peers[s].cand ::
                                         t <= p'.term && LogOk(h', p'.cand[t]) && TermsAtMost(p'.cand[t], t)
  {
    var p, h' := h.peers[s], SetPeer(h, s, p');
    assert Extends(h, h');
    LogOkStable(h, h', p.log);
    forall t <- p.cand ensures LogOk(h', p.cand[t]) { LogOkStable(h, h', p.cand[t]); }
  }

  /** Standing for election in the next term, with a vote for itself. */
  function Stand(h: Core, s: int): Core
    requires 0 <= s < |h.peers|
  {
    var p := h.peers[s];
    var t := p.term + 1;
    SetPeer(h, s, p.(term := t, votes := p.votes[t := s], cand := p.cand[t := p.log]))
  }

  lemma StandOk(h: Core, s: int)
    requires Inv(h) && 0 <= s < |h.peers|
    ensures Inv(Stand(h, s)) && Extends(h, Stand(h, s))
  {
    hide HasOrBlocked, Item, Acked, ReignOk, PeerOk;
    assert PeerOk(h, s);
    StandPeer(h, s);
    QuietEvent(h, s, Stand(h, s).peers[s]);
  }

  lemma StandPeer(h: Core, s: int)
    requires 0 <= s < |h.peers| && PeerOk(h, s)
    ensures PeerOk(Stand(h, s), s) && PeerExtends(h.peers[s], Stand(h, s).peers[s])
  {
    hide LogOk;
    PeerMoved(h, s, Stand(h, s).peers[s]);
  }

  /** Granting a vote in the current term. */
  function Grant(h: Core, s: int, c: int): Core
    requires 0 <= s < |h.peers|
  {
    var p := h.peers[s];
    SetPeer(h, s, p.(votes := p.votes[p.term := c]))
  }

  /** An up-to-date candidate holds whatever the voter confirmed and may be committed. */
  lemma UpToDateHas(h: Core, own: Log, log: Log, t: nat, i: int)
    requires LogOk(h, own) && LogOk(h, log) && LeadersHave(h)
    requires Item(h, t, i) && Upto(h.reign[t].log, own, i)
    requires AsUpToDate(Last(log).term, Last(log).index, own)
    requires Last(log).term in h.reign ==> WfLog(h.reign[Last(log).term].log)
    ensures HasOrBlocked(h, t, i, log)
  {
    var lead, u := h.reign[t].log, Last(log).term;
    UptoShorter(lead, own, i, i);
    assert own[i].term <= Last(own).term;
    var other := h.reign[u].log;
    assert Upto(log, other, |log| - 1);
    if u == Last(own).term {
      assert Upto(own, other, |own| - 1);
      UptoShorter(own, other, |own| - 1, i);
      UptoShorter(log, other, |log| - 1, i);
    } else if !Blocked(h, t, i) {
      assert HasOrBlocked(h, t, i, other);
      UptoShorter(lead, other, i, i);
      UptoShorter(log, other, |log| - 1, |log| - 1);
      assert other[|log| - 1].term > other[i].term;
      UptoShorter(log, other, |log| - 1, i);
    }
  }

  ghost predicate MayGrant(h: Core, s: int, c: int) {
    && 0 <= s < |h.peers| && 0 <= c < |h.peers|
    && (var t := h.peers[s].term;
        && t in h.peers[c].cand
        && (t in h.peers[s].votes ==> h.peers[s].votes[t] == c)
        && |h.peers[s].log| > 0
        && (var log := h.peers[c].cand[t]; |log| > 0 && AsUpToDate(Last(log).term, Last(log).index, h.peers[s].log)))
  }

  lemma GrantOk(h: Core, s: int, c: int)
    requires Inv(h) && MayGrant(h, s, c)
    ensures Inv(Grant(h, s, c)) && Extends(h, Grant(h, s, c))
  {
    hide PeerOk;
    var u, h' := h.peers[s].term, Grant(h, s, c);
    GrantPeer(h, s, c);
    forall t: nat, i: int | t < u && Item(h, t, i) && Acked(h, s, t, i)
      ensures HasOrBlocked(h, t, i, h.peers[c].cand[u])
    {
      GrantVouches(h, s, c, t, i);
    }
    QuietEvent(h, s, h'.peers[s]);
  }

  lemma GrantPeer(h: Core, s: int, c: int)
    requires MayGrant(h, s, c) && PeerOk(h, s)
    ensures PeerOk(Grant(h, s, c), s)
  {
    PeerMoved(h, s, Grant(h, s, c).peers[s]);
  }

  lemma GrantVouches(h: Core, s: int, c: int, t: nat, i: int)
    requires Inv(h) && MayGrant(h, s, c) && t < h.peers[s].term && Item(h, t, i) && Acked(h, s, t, i)
    ensures HasOrBlocked(h, t, i, h.peers[c].cand[h.peers[s].term])
  {
    var log := h.peers[c].cand[h.peers[s].term];
    assert PeerOk(h, s) && PeerOk(h, c);
    assert Last(log).term in h.reign ==> ReignOk(h, Last(log).term);
    if !Blocked(h, t, i) { UpToDateHas(h, h.peers[s].log, log, t, i); }
  }

  // ---- Events that change a log

  /** Winning the current term with the votes of `q`. */
  function Elect(h: Core, c: int, q: set<int>): Core
    requires 0 <= c < |h.peers| && |h.peers[c].log| > 0
  {
    var p := h.peers[c];
    Core(h.peers[c := p.(ack := p.ack[p.term := |p.log| - 1])], h.reign[p.term := Reign(c, p.log, q)])
  }

  /** A candidate whose log is still the one it stood with, and a quorum that voted for it. */
  ghost predicate MayElect(h: Core, c: int, q: set<int>) {
    && 0 <= c < |h.peers|
    && (var p := h.peers[c]; p.term !in h.reign && p.term in p.cand && p.cand[p.term] == p.log && |p.log| > 0)
    && Quorum(|h.peers|, q)
    && (forall s <- q :: Voted(h, s, h.peers[c].term, c))
  }

  lemma ElectOk(h: Core, c: int, q: set<int>)
    requires Inv(h) && MayElect(h, c, q)
    ensures Inv(Elect(h, c, q)) && Extends(h, Elect(h, c, q))
  {
    hide PeerOk, ReignOk, HasOrBlocked;
    var h' := Elect(h, c, q);
    assert PeerOk(h, c);
    ElectItems(h, c, q);
    ElectPeers(h, c, q);
    ElectReigns(h, c, q);
    ElectAcks(h, c, q);
    ElectLeaders(h, c, q);
    VotesUnmoved(h, h');
  }

  /** Nothing in the new leader's log carries its term yet. */
  lemma ElectItems(h: Core, c: int, q: set<int>)
    requires MayElect(h, c, q) && PeerOk(h, c)
    ensures Extends(h, Elect(h, c, q))
    ensures forall t: nat, i: int {:trigger Item(Elect(h, c, q), t, i)} ::
              Item(Elect(h, c, q), t, i) ==> Item(h, t, i) && t != h.peers[c].term
  {
    var p, h' := h.peers[c], Elect(h, c, q);
    assert p.term !in p.ack;
    forall t: nat, i: int | Item(h', t, i) ensures Item(h, t, i) && t != p.term {
    }
  }

  lemma ElectPeers(h: Core, c: int, q: set<int>)
    requires MayElect(h, c, q) && Extends(h, Elect(h, c, q))
    requires forall s :: 0 <= s < |h.peers| ==> PeerOk(h, s)
    ensures forall s :: 0 <= s < |h.peers| ==> PeerOk(Elect(h, c, q), s)
  {
    var p, h' := h.peers[c], Elect(h, c, q);
    forall s | 0 <= s < |h.peers| ensures PeerOk(h', s) {
      assert PeerOk(h, s);
      if s != c {
        PeerStable(h, h', s);
      } else {
        LogOkStable(h, h', p.log);
        forall t <- p.cand ensures LogOk(h', p.cand[t]) { LogOkStable(h, h', p.cand[t]); }
      }
    }
  }

  lemma ElectReigns(h: Core, c: int, q: set<int>)
    requires MayElect(h, c, q) && Extends(h, Elect(h, c, q)) && PeerOk(h, c)
    requires forall t <- h.reign :: ReignOk(h, t)
    ensures forall t <- Elect(h, c, q).reign :: ReignOk(Elect(h, c, q), t)
  {
    var p, h' := h.peers[c], Elect(h, c, q);
    LogOkStable(h, h', p.log);
    forall t <- h'.reign ensures ReignOk(h', t) {
      if t in h.reign && t != p.term {
        ReignStable(h, h', t);
      } else {
        forall s <- q ensures Voted(h', s, t, c) { assert Voted(h, s, t, c); }
      }
    }
  }

  lemma ElectAcks(h: Core, c: int, q: set<int>)
    requires MayElect(h, c, q) && PeerOk(h, c) && AckedKept(h)
    ensures AckedKept(Elect(h, c, q))
  {
    var h' := Elect(h, c, q);
    ElectItems(h, c, q);
    forall r: int, t: nat, i: int | Item(h', t, i) && Acked(h', r, t, i)
      ensures HasOrBlocked(h', t, i, h'.peers[r].log)
    {
      assert Item(h, t, i) && Acked(h, r, t, i);
      HasOrBlockedStable(h, h', t, i, h.peers[r].log);
    }
  }

  lemma ElectLeaders(h: Core, c: int, q: set<int>)
    requires MayElect(h, c, q) && LeadersHave(h) && VotersVouch(h)
    requires forall s :: 0 <= s < |h.peers| ==> PeerOk(h, s)
    ensures LeadersHave(Elect(h, c, q))
  {
    hide PeerOk, ReignOk, HasOrBlocked;
    var h' := Elect(h, c, q);
    assert PeerOk(h, c);
    ElectItems(h, c, q);
    forall t: nat, i: int, u: nat | Item(h', t, i) && u in h'.reign && t < u
      ensures HasOrBlocked(h', t, i, h'.reign[u].log)
    {
      assert Item(h, t, i);
      if u == h.peers[c].term {
        ElectedHas(h, c, q, t, i);
      } else {
        assert HasOrBlocked(h, t, i, h.reign[u].log);
      }
      HasOrBlockedStable(h, h', t, i, h'.reign[u].log);
    }
  }

  /** Either no voter confirmed the entry, and the quorum blocks it, or one did and vouched for the candidate. */
  lemma ElectedHas(h: Core, c: int, q: set<int>, t: nat, i: int)
    requires VotersVouch(h) && MayElect(h, c, q) && Item(h, t, i) && t < h.peers[c].term
    requires forall s :: 0 <= s < |h.peers| ==> PeerOk(h, s)
    ensures HasOrBlocked(h, t, i, h.peers[c].log)
  {
    var u := h.peers[c].term;
    if s :| s in q && Acked(h, s, t, i) {
      assert Voted(h, s, u, c);
      assert h.peers[s].votes[u] == c;
    } else {
      forall s <- q ensures 0 <= s < |h.peers| && h.peers[s].term > t && !Acked(h, s, t, i) {
        assert Voted(h, s, u, c);
        assert PeerOk(h, s);
      }
      assert BlockedBy(h, t, i, q);
    }
  }

  /** No new votes, and a server that confirms something new has voted in no later term. */
  lemma VotesUnmoved(h: Core, h': Core)
    requires Extends(h, h') && VotersVouch(h)
    requires forall r :: 0 <= r < |h.peers| ==> PeerOk(h, r)
    requires forall r :: 0 <= r < |h.peers| ==>
                         h'.peers[r].votes == h.peers[r].votes && h'.peers[r].cand == h.peers[r].cand
    requires forall r: int, t: nat, i: int {:trigger Acked(h', r, t, i), Item(h', t, i)} ::
               Item(h', t, i) && Acked(h', r, t, i) ==> (Item(h, t, i) && Acked(h, r, t, i)) || h.peers[r].term <= t
    ensures VotersVouch(h')
  {
    forall r: int, u: nat, t: nat, i: int | Item(h', t, i) && Acked(h', r, t, i) && u in h'.peers[r].votes && t < u
      && 0 <= h'.peers[r].votes[u] < |h'.peers| && u in h'.peers[h'.peers[r].votes[u]].cand
      ensures HasOrBlocked(h', t, i, h'.peers[h'.peers[r].votes[u]].cand[u])
    {
      assert PeerOk(h, r);
      assert Acked(h, r, t, i);
      var c := h.peers[r].votes[u];
      HasOrBlockedStable(h, h', t, i, h.peers[c].cand[u]);
    }
  }

  /** The leader of the current term takes a command. */
  function Extend(h: Core, c: int, cmd: Command): Core
    requires 0 <= c < |h.peers| && h.peers[c].term in h.reign
  {
    var p := h.peers[c];
    var t := p.term;
    var log := p.log + [Entry(|p.log|, t, cmd)];
    Core(h.peers[c := p.(log := log, ack := p.ack[t := |p.log|])], h.reign[t := h.reign[t].(log := log)])
  }

  ghost predicate Leads(h: Core, c: int) {
    0 <= c < |h.peers| && h.peers[c].term in h.reign && h.reign[h.peers[c].term].leader == c
  }

  lemma ExtendOk(h: Core, c: int, cmd: Command)
    requires Inv(h) && Leads(h, c)
    ensures Inv(Extend(h, c, cmd)) && Extends(h, Extend(h, c, cmd))
  {
    var h' := Extend(h, c, cmd);
    ExtendItems(h, c, cmd);
    ExtendLog(h, c, cmd);
    ExtendPeers(h, c, cmd);
    ExtendReigns(h, c, cmd);
    ExtendAcks(h, c, cmd);
    ExtendLeaders(h, c, cmd);
    ExtendVotes(h, c, cmd);
  }

  lemma ExtendVotes(h: Core, c: int, cmd: Command)
    requires Leads(h, c) && ReignOk(h, h.peers[c].term) && VotersVouch(h)
    requires forall s :: 0 <= s < |h.peers| ==> PeerOk(h, s)
    ensures VotersVouch(Extend(h, c, cmd))
  {
    ExtendItems(h, c, cmd);
    VotesUnmoved(h, Extend(h, c, cmd));
  }

  /** The one new entry is confirmed by the leader alone. */
  lemma ExtendItems(h: Core, c: int, cmd: Command)
    requires Leads(h, c) && ReignOk(h, h.peers[c].term)
    requires forall s :: 0 <= s < |h.peers| ==> PeerOk(h, s)
    ensures var h' := Extend(h, c, cmd); var t := h.peers[c].term;
            && Extends(h, h')
            && PrefixOf(h.peers[c].log, h'.peers[c].log)
            && (forall u: nat, i: int {:trigger Item(h', u, i)} ::
                Item(h', u, i) ==> Item(h, u, i) || (u == t && i == |h.peers[c].log|))
            && (forall r: int, u: nat, i: int {:trigger Acked(h', r, u, i)} ::
                  Item(h', u, i) && Acked(h', r, u, i) ==> (Item(h, u, i) && Acked(h, r, u, i)) || (r == c && u == t))
  {
    hide LogOk, TermsAtMost, Quorum;
    var h' := Extend(h, c, cmd);
    var t := h.peers[c].term;
    assert PeerOk(h, c);
    forall r: int, u: nat, i: int | Item(h', u, i) && Acked(h', r, u, i)
      ensures (Item(h, u, i) && Acked(h, r, u, i)) || (r == c && u == t)
    {
      assert PeerOk(h, r);
    }
  }

  lemma ExtendAcks(h: Core, c: int, cmd: Command)
    requires Leads(h, c) && ReignOk(h, h.peers[c].term) && AckedKept(h)
    requires forall s :: 0 <= s < |h.peers| ==> PeerOk(h, s)
    ensures AckedKept(Extend(h, c, cmd))
  {
    var h' := Extend(h, c, cmd);
    ExtendItems(h, c, cmd);
    forall r: int, u: nat, i: int | Item(h', u, i) && Acked(h', r, u, i)
      ensures HasOrBlocked(h', u, i, h'.peers[r].log)
    {
      if Item(h, u, i) && Acked(h, r, u, i) {
        StillHas(h, h', u, i, h.peers[r].log, h'.peers[r].log);
      }
    }
  }

  /** A log that had an entry, or missed one that is blocked, may grow. */
  lemma StillHas(h: Core, h': Core, u: nat, i: int, log: Log, log': Log)
    requires Extends(h, h') && u in h.reign && HasOrBlocked(h, u, i, log) && PrefixOf(log, log')
    ensures HasOrBlocked(h', u, i, log')
  {
    HasOrBlockedStable(h, h', u, i, log);
    if Upto(h'.reign[u].log, log, i) { UptoPrefix(h'.reign[u].log, log, log', i); }
  }

  lemma ExtendLeaders(h: Core, c: int, cmd: Command)
    requires Leads(h, c) && LeadersHave(h)
    requires forall s :: 0 <= s < |h.peers| ==> PeerOk(h, s)
    requires forall t <- h.reign :: ReignOk(h, t)
    ensures LeadersHave(Extend(h, c, cmd))
  {
    hide PeerOk, ReignOk, HasOrBlocked, Extends, Item;
    var h' := Extend(h, c, cmd);
    assert ReignOk(h, h.peers[c].term);
    LeaderHasLog(h, h.peers[c].term);
    ExtendItems(h, c, cmd);
    forall u: nat, i: int, v: nat | Item(h', u, i) && v in h'.reign && u < v
      ensures u in h'.reign && HasOrBlocked(h', u, i, h'.reign[v].log)
    {
      ExtendLeader(h, c, cmd, u, i, v);
    }
  }

  lemma LeaderHasLog(h: Core, t: nat)
    requires t in h.reign && ReignOk(h, t)
    ensures var p := h.reign[t].leader; 0 <= p < |h.peers|
                                        && (h.peers[p].term == t ==> h.peers[p].log == h.reign[t].log)
  {
  }

  lemma ExtendLeader(h: Core, c: int, cmd: Command, u: nat, i: int, v: nat)
    requires Leads(h, c) && LeadersHave(h) && Extends(h, Extend(h, c, cmd))
    requires forall s :: 0 <= s < |h.peers| ==> PeerOk(h, s)
    requires v in h.reign && ReignOk(h, v) && u < v && PrefixOf(h.peers[c].log, Extend(h, c, cmd).peers[c].log)
    requires Item(h, u, i) || (u == h.peers[c].term && i == |h.peers[c].log|)
    requires h.peers[c].log == h.reign[h.peers[c].term].log
    ensures u in h.reign && HasOrBlocked(Extend(h, c, cmd), u, i, Extend(h, c, cmd).reign[v].log)
  {
    hide PeerOk, ReignOk, Extends;
    var h' := Extend(h, c, cmd);
    if Item(h, u, i) {
      assert HasOrBlocked(h, u, i, h.reign[v].log);
      StillHas(h, h', u, i, h.reign[v].log, h'.reign[v].log);
    } else {
      NewEntryBlocked(h, h', c, i, v);
    }
  }

  lemma ExtendLog(h: Core, c: int, cmd: Command)
    requires Leads(h, c) && PeerOk(h, c) && ReignOk(h, h.peers[c].term) && Extends(h, Extend(h, c, cmd))
    ensures LogOk(Extend(h, c, cmd), Extend(h, c, cmd).peers[c].log)
    ensures TermsAtMost(Extend(h, c, cmd).peers[c].log, h.peers[c].term)
  {
    var p, h' := h.peers[c], Extend(h, c, cmd);
    var log' := h'.peers[c].log;
    LogOkStable(h, h', p.log);
    assert WfLog(log');
    forall i {:trigger log'[i]} | 0 < i < |log'|
      ensures log'[i].term in h'.reign && Upto(log', h'.reign[log'[i].term].log, i)
    {
      if i < |p.log| {
        assert p.log[i] == log'[i];
        assert log'[..i + 1] == p.log[..i + 1];
      }
    }
  }

  lemma ExtendPeers(h: Core, c: int, cmd: Command)
    requires Leads(h, c) && Extends(h, Extend(h, c, cmd))
    requires forall s :: 0 <= s < |h.peers| ==> PeerOk(h, s)
    requires LogOk(Extend(h, c, cmd), Extend(h, c, cmd).peers[c].log)
    requires TermsAtMost(Extend(h, c, cmd).peers[c].log, h.peers[c].term)
    requires h.peers[c].log == h.reign[h.peers[c].term].log
    ensures forall s :: 0 <= s < |h.peers| ==> PeerOk(Extend(h, c, cmd), s)
  {
    var p, h' := h.peers[c], Extend(h, c, cmd);
    forall s | 0 <= s < |h.peers| ensures PeerOk(h', s) {
      assert PeerOk(h, s);
      if s != c {
        PeerStable(h, h', s);
      } else {
        forall u <- p.cand ensures LogOk(h', p.cand[u]) { LogOkStable(h, h', p.cand[u]); }
      }
    }
  }

  lemma ExtendReigns(h: Core, c: int, cmd: Command)
    requires Leads(h, c) && Extends(h, Extend(h, c, cmd))
    requires forall t <- h.reign :: ReignOk(h, t)
    requires LogOk(Extend(h, c, cmd), Extend(h, c, cmd).peers[c].log)
    requires TermsAtMost(Extend(h, c, cmd).peers[c].log, h.peers[c].term)
    ensures forall u <- Extend(h, c, cmd).reign :: ReignOk(Extend(h, c, cmd), u)
  {
    var h' := Extend(h, c, cmd);
    var t := h.peers[c].term;
    forall u <- h'.reign ensures ReignOk(h', u) {
      assert ReignOk(h, u);
      if u != t {
        ReignStable(h, h', u);
      } else {
        forall q <- h.reign[t].voters ensures Voted(h', q, t, c) { assert Voted(h, q, t, c); }
      }
    }
  }

  /** A leader that has been overtaken by term `v` appends in vain. */
  lemma NewEntryBlocked(h: Core, h': Core, c: int, i: int, v: nat)
    requires 0 <= c < |h.peers| && v in h.reign && ReignOk(h, v)
    requires var t := h.peers[c].term; t < v && t in h.reign && i >= |h.reign[t].log|
    requires forall s :: 0 <= s < |h.peers| ==> PeerOk(h, s)
    requires |h'.peers| == |h.peers| && forall s :: 0 <= s < |h.peers| && s != c ==> h'.peers[s] == h.peers[s]
    ensures Blocked(h', h.peers[c].term, i)
  {
    var t := h.peers[c].term;
    forall s <- h.reign[v].voters ensures 0 <= s < |h'.peers| && h'.peers[s].term > t && !Acked(h', s, t, i) {
      assert Voted(h, s, v, h.reign[v].leader);
      assert PeerOk(h, s);
    }
    assert BlockedBy(h', t, i, h.reign[v].voters);
  }

  /** The log after following the current leader up to length `m`. */
  function Followed(lead: Log, log: Log, m: nat): Log
    requires 0 < m <= |lead|
  {
    if Upto(lead, log, m - 1) then log else lead[..m]
  }

  /** A server follows the leader of its current term up to length `m`, and confirms it. */
  function Follow(h: Core, s: int, m: nat): Core
    requires MayFollow(h, s, m)
  {
    var p := h.peers[s];
    var t := p.term;
    var known := if t in p.ack && p.ack[t] >= m then p.ack[t] else m - 1;
    SetPeer(h, s, p.(log := Followed(h.reign[t].log, p.log, m), ack := p.ack[t := known]))
  }

  predicate MayFollow(h: Core, s: int, m: nat) {
    0 <= s < |h.peers| && h.peers[s].term in h.reign && 0 < m <= |h.reign[h.peers[s].term].log|
  }

  lemma FollowOk(h: Core, s: int, m: nat)
    requires Inv(h) && MayFollow(h, s, m)
    ensures Inv(Follow(h, s, m)) && Extends(h, Follow(h, s, m))
  {
    var h' := Follow(h, s, m);
    FollowExtends(h, s, m);
    FollowPeers(h, s, m);
    FollowReigns(h, s, m);
    QuietLeaders(h, h');
    FollowAcks(h, s, m);
    FollowVotes(h, s, m);
  }

  lemma FollowExtends(h: Core, s: int, m: nat)
    requires MayFollow(h, s, m)
    ensures Extends(h, Follow(h, s, m))
  {
  }

  lemma FollowVotes(h: Core, s: int, m: nat)
    requires MayFollow(h, s, m) && Extends(h, Follow(h, s, m)) && VotersVouch(h)
    requires forall r :: 0 <= r < |h.peers| ==> PeerOk(h, r)
    ensures VotersVouch(Follow(h, s, m))
  {
    var h' := Follow(h, s, m);
    forall r: int, t: nat, i: int | Item(h', t, i) && Acked(h', r, t, i)
      ensures (Item(h, t, i) && Acked(h, r, t, i)) || h.peers[r].term <= t
    {
      assert Item(h, t, i);
    }
    VotesUnmoved(h, h');
  }

  lemma PrefixOk(h: Core, log: Log, m: nat)
    requires LogOk(h, log) && 0 < m <= |log|
    ensures LogOk(h, log[..m])
  {
    var part := log[..m];
    forall i {:trigger part[i]} | 0 < i < m
      ensures part[i].term in h.reign && Upto(part, h.reign[part[i].term].log, i)
    {
      assert part[i] == log[i];
      assert part[..i + 1] == log[..i + 1];
    }
  }

  lemma FollowPeers(h: Core, s: int, m: nat)
    requires MayFollow(h, s, m) && Extends(h, Follow(h, s, m))
    requires forall r :: 0 <= r < |h.peers| ==> PeerOk(h, r)
    requires ReignOk(h, h.peers[s].term)
    ensures forall r :: 0 <= r < |h.peers| ==> PeerOk(Follow(h, s, m), r)
  {
    var p, h' := h.peers[s], Follow(h, s, m);
    PrefixOk(h, h.reign[p.term].log, m);
    assert PeerOk(h, s);
    LogOkStable(h, h', h'.peers[s].log);
    forall u <- p.cand ensures LogOk(h', p.cand[u]) { LogOkStable(h, h', p.cand[u]); }
    forall r | 0 <= r < |h'.peers| ensures PeerOk(h', r) {
      if r != s { PeerStable(h, h', r); }
    }
  }

  lemma FollowReigns(h: Core, s: int, m: nat)
    requires MayFollow(h, s, m) && Extends(h, Follow(h, s, m))
    requires forall t <- h.reign :: ReignOk(h, t)
    ensures forall t <- h.reign :: ReignOk(Follow(h, s, m), t)
  {
    var h' := Follow(h, s, m);
    forall u <- h.reign ensures ReignOk(h', u) {
      assert ReignOk(h, u);
      ReignStable(h, h', u);
    }
  }

  lemma FollowAcks(h: Core, s: int, m: nat)
    requires AckedKept(h) && LeadersHave(h) && MayFollow(h, s, m) && PeerOk(h, s)
    requires Extends(h, Follow(h, s, m))
    ensures AckedKept(Follow(h, s, m))
  {
    var h' := Follow(h, s, m);
    var p, t := h.peers[s], h.peers[s].term;
    var lead := h.reign[t].log;
    forall r: int, u: nat, i: int | Item(h', u, i) && Acked(h', r, u, i)
      ensures HasOrBlocked(h', u, i, h'.peers[r].log)
    {
      assert Item(h, u, i);
      if Acked(h, r, u, i) {
        if r == s && !Blocked(h, u, i) { FollowKeeps(h, s, m, u, i); }
        HasOrBlockedStable(h, h', u, i, h'.peers[r].log);
      } else {
        assert r == s && u == t && i <= m - 1;
        assert Upto(lead, h'.peers[s].log, m - 1) by { assert lead[..m][..m] == lead[..m]; }
        UptoShorter(lead, h'.peers[s].log, m - 1, i);
      }
    }
  }

  /** Following the leader never removes a confirmed entry that may still be committed. */
  lemma FollowKeeps(h: Core, s: int, m: nat, u: nat, i: int)
    requires AckedKept(h) && LeadersHave(h) && MayFollow(h, s, m) && PeerOk(h, s)
    requires Item(h, u, i) && Acked(h, s, u, i) && !Blocked(h, u, i)
    ensures Upto(h.reign[u].log, Followed(h.reign[h.peers[s].term].log, h.peers[s].log, m), i)
  {
    var p, t := h.peers[s], h.peers[s].term;
    var lead := h.reign[t].log;
    assert HasOrBlocked(h, u, i, p.log);
    if u < t { assert HasOrBlocked(h, u, i, lead); }
    if !Upto(lead, p.log, m - 1) {
      assert Upto(lead, p.log, i);
      if i >= m - 1 { UptoShorter(lead, p.log, i, m - 1); }
      assert lead[..m][..i + 1] == lead[..i + 1];
    }
  }

  // ---- What follows from the invariant

  /** Two logs that agree on the term at an index agree on everything up to it. */
  lemma LogsMatch(h: Core, a: Log, b: Log, i: int)
    requires LogOk(h, a) && LogOk(h, b)
    requires 0 <= i < |a| && i < |b| && a[i].term == b[i].term
    ensures Upto(a, b, i)
  {
    if i > 0 {
      var lead := h.reign[a[i].term].log;
      assert Upto(a, lead, i) && Upto(b, lead, i);
    } else {
      assert a[..1] == [a[0]] && b[..1] == [b[0]];
    }
  }

  /** A quorum of votes in a term that has a leader is a quorum for that leader. */
  lemma OneWinner(h: Core, t: nat, c: int, q: set<int>)
    requires Inv(h) && t in h.reign
    requires Quorum(|h.peers|, q) && forall s <- q :: Voted(h, s, t, c)
    ensures h.reign[t].leader == c
  {
    assert ReignOk(h, t);
    var s := QuorumsMeet(|h.peers|, q, h.reign[t].voters);
    assert Voted(h, s, t, c) && Voted(h, s, t, h.reign[t].leader);
  }

  lemma ChosenNotBlocked(h: Core, t: nat, i: int)
    requires Chosen(h, t, i)
    ensures !Blocked(h, t, i)
  {
    var q :| ChosenBy(h, t, i, q);
    if Blocked(h, t, i) {
      var b :| BlockedBy(h, t, i, b);
      var s := QuorumsMeet(|h.peers|, q, b);
      assert false;
    }
  }

  lemma ChosenStable(h: Core, h': Core, t: nat, i: int)
    requires Extends(h, h') && Chosen(h, t, i)
    ensures Chosen(h', t, i) && Upto(h.reign[t].log, h'.reign[t].log, i)
  {
    var q :| ChosenBy(h, t, i, q);
    forall s <- q ensures Acked(h', s, t, i) {
      assert Acked(h, s, t, i) && PeerExtends(h.peers[s], h'.peers[s]);
    }
    assert ChosenBy(h', t, i, q);
    var a, a' := h.reign[t].log, h'.reign[t].log;
    assert a'[i] == a'[..|a|][i];
    UptoPrefix(a, a, a', i);
  }

  /** Leader completeness: a committed entry is in the log of every leader of a later term. */
  lemma LeaderComplete(h: Core, t: nat, i: int, u: nat)
    requires Inv(h) && Chosen(h, t, i) && u in h.reign && t <= u
    ensures Upto(h.reign[t].log, h.reign[u].log, i)
  {
    ChosenNotBlocked(h, t, i);
    if t < u { assert HasOrBlocked(h, t, i, h.reign[u].log); }
  }

  /** `log` up to index `k` is part of what some leader of a term up to `bound` committed. */
  ghost predicate CommittedAt(h: Core, log: Log, k: int, bound: int, t: nat, i: int) {
    t <= bound && Chosen(h, t, i) && k <= i && Upto(h.reign[t].log, log, k)
  }

  ghost predicate Committed(h: Core, log: Log, k: int, bound: int) {
    && 0 <= k < |log|
    && log[0] == SENTINEL
    && (k > 0 ==> exists t: nat, i: int :: CommittedAt(h, log, k, bound, t, i))
  }

  lemma CommittedStable(h: Core, h': Core, log: Log, k: int, bound: int, bound': int)
    requires Extends(h, h') && Committed(h, log, k, bound) && bound <= bound'
    ensures Committed(h', log, k, bound')
  {
    if k > 0 {
      var t: nat, i: int :| CommittedAt(h, log, k, bound, t, i);
      ChosenStable(h, h', t, i);
      UptoShorter(h.reign[t].log, h'.reign[t].log, i, k);
      assert CommittedAt(h', log, k, bound', t, i);
    }
  }

  lemma CommittedShorter(h: Core, log: Log, log': Log, k: int, k': int, bound: int)
    requires Committed(h, log, k, bound) && 0 <= k' <= k && Upto(log, log', k')
    ensures Committed(h, log', k', bound)
  {
    assert log'[0] == log'[..k' + 1][0] == log[..k' + 1][0] == log[0];
    if k' > 0 {
      var t: nat, i: int :| CommittedAt(h, log, k, bound, t, i);
      UptoShorter(h.reign[t].log, log, k, k');
      UptoTrans(h.reign[t].log, log, log', k');
      assert CommittedAt(h, log', k', bound, t, i);
    }
  }

  /** What is committed is in the log of the leader of any later term. */
  lemma CommittedInLeader(h: Core, log: Log, k: int, u: nat)
    requires Inv(h) && Committed(h, log, k, u) && u in h.reign
    ensures Upto(log, h.reign[u].log, k)
  {
    assert ReignOk(h, u);
    if k > 0 {
      var t: nat, i: int :| CommittedAt(h, log, k, u, t, i);
      LeaderComplete(h, t, i, u);
      UptoShorter(h.reign[t].log, h.reign[u].log, i, k);
    } else {
      assert log[..1] == [log[0]] && h.reign[u].log[..1] == [h.reign[u].log[0]];
    }
  }

  /** State machine safety: two committed stretches agree as far as the shorter one goes. */
  lemma CommittedAgree(h: Core, a: Log, j: int, b: Log, k: int, bound: int)
    requires Inv(h) && Committed(h, a, j, bound) && Committed(h, b, k, bound) && j <= k
    ensures Upto(a, b, j)
  {
    if j > 0 {
      var t: nat, i: int :| CommittedAt(h, a, j, bound, t, i);
      var u: nat, m: int :| CommittedAt(h, b, k, bound, u, m);
      UptoShorter(h.reign[u].log, b, k, j);
      if t <= u {
        LeaderComplete(h, t, i, u);
        UptoShorter(h.reign[t].log, h.reign[u].log, i, j);
      } else {
        LeaderComplete(h, u, m, t);
        UptoShorter(h.reign[u].log, h.reign[t].log, m, j);
      }
    } else {
      assert a[..1] == [a[0]] && b[..1] == [b[0]];
    }
  }
}

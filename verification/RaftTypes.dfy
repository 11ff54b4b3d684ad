/** Records exchanged and kept by a Raft server (src/raft). */
module RaftTypes {
  import opened Sets

  /** A log entry's payload; the sentinel entry at the head of a log carries none. */
  datatype Command = NoCommand | Op(payload: string)

  datatype Entry = Entry(index: int, term: int, command: Command)

  type Log = seq<Entry>

  /** The zero entry every log starts with. */
  const SENTINEL := Entry(0, 0, NoCommand)

  /** `a` and `b` both reach index `i` and hold the same entries up to it. */
  predicate Upto(a: Log, b: Log, i: int) {
    0 <= i < |a| && i < |b| && a[..i + 1] == b[..i + 1]
  }

  /** An uncompacted log: the sentinel first, positions equal to indexes, terms never decreasing. */
  ghost predicate WfLog(log: Log) {
    && |log| > 0
    && log[0] == SENTINEL
    && (forall i {:trigger log[i]} :: 0 <= i < |log| ==> log[i].index == i)
    && (forall i {:trigger log[i]} :: 0 < i < |log| ==> log[i].term >= 1)
    && (forall i, j {:trigger log[i], log[j]} :: 0 <= i <= j < |log| ==> log[i].term <= log[j].term)
  }

  ghost predicate TermsAtMost(log: Log, t: int) {
    forall i {:trigger log[i]} :: 0 <= i < |log| ==> log[i].term <= t
  }

  /** The election restriction of section 5.4.1: a log ending in (term, index) is no older than `log`. */
  predicate AsUpToDate(lastTerm: int, lastIndex: int, log: Log)
    requires |log| > 0
  {
    var last := Last(log);
    lastTerm > last.term || (lastTerm == last.term && lastIndex >= last.index)
  }

  function Last(log: Log): Entry
    requires |log| > 0
  {
    log[|log| - 1]
  }

  /** More than half of `n` servers, as `cnt > len(peers)/2` counts them. */
  ghost predicate Quorum(n: nat, q: set<int>) {
    q <= Below(n) && |q| > n / 2
  }

  lemma QuorumsMeet(n: nat, a: set<int>, b: set<int>) returns (q: int)
    requires Quorum(n, a) && Quorum(n, b)
    ensures q in a && q in b
  {
    if a * b == {} {
      SubsetSize(a + b, Below(n));
      assert false;
    }
    q :| q in a * b;
  }
}

/** The inductive invariant of the cluster and the facts that follow from it in one state. */
module Invariant {
  import opened Protocol
  import opened Reference
  import opened Steps
  import opened Cluster
  import Quorum

  /** The two sequences share their first `n` entries. */
  ghost predicate Holds(log: seq<LogEntry>, other: seq<LogEntry>, n: nat) {
    n <= |log| && n <= |other| && log[..n] == other[..n]
  }

  /** Every prefix of a log is a prefix of the log of the leader that created its last entry. */
  ghost predicate LogOk(reigns: map<nat, Reign>, log: seq<LogEntry>) {
    && (forall k {:trigger EntryOk(reigns, log, k)} | 0 <= k < |log| :: EntryOk(reigns, log, k))
    && (forall j, k {:trigger InOrder(log, j, k)} | 0 <= j <= k < |log| :: InOrder(log, j, k))
  }

  ghost predicate InOrder(log: seq<LogEntry>, j: nat, k: nat)
    requires j <= k < |log|
  {
    log[j].term <= log[k].term
  }

  ghost predicate EntryOk(reigns: map<nat, Reign>, log: seq<LogEntry>, k: nat)
    requires k < |log|
  {
    && log[k].index == k + 1
    && log[k].term > 0
    && !log[k].command.InstallConfiguration?
    && log[k].term in reigns
    && Holds(log, reigns[log[k].term].log, k + 1)
  }

  // ---------- one conjunct per kind of thing ----------

  ghost predicate MembersOk(c: State) {
    forall i {:trigger MemberOk(c, i)} | i in c.nodes :: MemberOk(c, i)
  }

  ghost predicate MemberOk(c: State, i: Id)
    requires i in c.nodes
  {
    c.nodes[i].id == i && FixedMembership(c.nodes.Keys, c.nodes[i])
  }

  ghost predicate NodeOk(reigns: map<nat, Reign>, n: Node) {
    && LogOk(reigns, n.log)
    && LastTerm(n.log) <= n.term
    && (n.role == Leader ==> n.term in reigns && reigns[n.term].leader == n.id && reigns[n.term].log == n.log)
  }

  ghost predicate NodesOk(c: State) {
    forall i {:trigger NodeOk(c.h.reigns, c.nodes[i])} | i in c.nodes :: NodeOk(c.h.reigns, c.nodes[i])
  }

  ghost predicate HasBallot(h: History, term: nat, voter: Id, candidate: Id) {
    exists b :: b in h.ballots && b.term == term && b.voter == voter && b.candidate == candidate
  }

  ghost predicate VotedFor(h: History, term: nat, voter: Id, candidate: Id, log: seq<LogEntry>) {
    exists b :: b in h.ballots && b.term == term && b.voter == voter && b.candidate == candidate
                && b.early && b.lastIndex == LastIndex(log) && b.lastTerm == LastTerm(log)
  }

  ghost predicate ReignOk(c: State, t: nat)
    requires t in c.h.reigns
  {
    var r := c.h.reigns[t];
    && t > 0
    && r.leader in c.nodes
    && c.nodes[r.leader].term >= t
    && (c.nodes[r.leader].term == t ==> c.nodes[r.leader].role != Candidate)
    && r.base <= r.log
    && LogOk(c.h.reigns, r.log)
    && LastTerm(r.base) < t
    && (forall k {:trigger OwnEntry(r, t, k)} | |r.base| <= k < |r.log| :: OwnEntry(r, t, k))
    && Quorum.Majority(r.voters, c.nodes.Keys)
    && (forall v {:trigger VotedFor(c.h, t, v, r.leader, r.base)} | v in r.voters ::
          VotedFor(c.h, t, v, r.leader, r.base))
  }

  ghost predicate OwnEntry(r: Reign, t: nat, k: nat)
    requires k < |r.log|
  {
    r.log[k].term == t
  }

  ghost predicate ReignsOk(c: State) {
    forall t {:trigger ReignOk(c, t)} | t in c.h.reigns :: ReignOk(c, t)
  }

  ghost predicate BallotOk(c: State, b: Ballot) {
    && b.voter in c.nodes && b.candidate in c.nodes
    && LogOk(c.h.reigns, b.log)
    && UpToDate(b.lastTerm, b.lastIndex, b.log)
    && (!b.early ==> b.term in c.h.reigns)
    && b.term <= c.nodes[b.voter].term
    && (b.term == c.nodes[b.voter].term ==> c.nodes[b.voter].vote == Some(b.candidate))
    && ClaimOk(c.nodes[b.candidate], b.term, b.lastIndex, b.lastTerm)
  }

  /** A candidate's log does not change while it is a candidate. */
  ghost predicate ClaimOk(n: Node, term: nat, lastIndex: nat, lastTerm: nat) {
    && term <= n.term
    && (term == n.term && n.role == Candidate ==> lastIndex == LastIndex(n.log) && lastTerm == LastTerm(n.log))
  }

  ghost predicate BallotsOk(c: State) {
    && (forall b {:trigger BallotOk(c, b)} | b in c.h.ballots :: BallotOk(c, b))
    && (forall a, b {:trigger OneVote(a, b)} | a in c.h.ballots && b in c.h.ballots :: OneVote(a, b))
  }

  /** No voter votes for two candidates in one term. */
  ghost predicate OneVote(a: Ballot, b: Ballot) {
    a.term == b.term && a.voter == b.voter ==> a.candidate == b.candidate
  }

  ghost predicate CandidateOk(c: State, n: Node) {
    n.role == Candidate ==>
      && n.term > 0
      && n.id in n.votes
      && n.votes <= c.nodes.Keys
      && forall v {:trigger HasBallot(c.h, n.term, v, n.id)} | v in n.votes :: HasBallot(c.h, n.term, v, n.id)
  }

  ghost predicate CandidatesOk(c: State) {
    forall i {:trigger CandidateOk(c, c.nodes[i])} | i in c.nodes :: CandidateOk(c, c.nodes[i])
  }

  /** Some leader elected in a term after `t` and up to `bound` started without the first `n`
      entries of the leader of `t`. */
  ghost predicate Lost(reigns: map<nat, Reign>, t: nat, n: nat, bound: int)
    requires t in reigns
  {
    exists u :: u in reigns && t < u <= bound && !Holds(reigns[u].base, reigns[t].log, n)
  }

  ghost predicate Kept(reigns: map<nat, Reign>, t: nat, n: nat, log: seq<LogEntry>, bound: int)
    requires t in reigns
  {
    Holds(log, reigns[t].log, n) || Lost(reigns, t, n, bound)
  }

  /** What was acknowledged is kept, in the node's log and in every log it later voted with,
      unless an intermediate leader already lacked it. */
  ghost predicate AckOk(c: State, a: Ack) {
    && a.node in c.nodes
    && a.term in c.h.reigns
    && a.index <= |c.h.reigns[a.term].log|
    && a.term <= c.nodes[a.node].term
    && KeptUpTo(c.h.reigns, a, c.nodes[a.node].log, c.nodes[a.node].term)
    && (forall b {:trigger KeptWhenVoting(c.h.reigns, a, b)} | b in c.h.ballots :: KeptWhenVoting(c.h.reigns, a, b))
  }

  ghost predicate KeptUpTo(reigns: map<nat, Reign>, a: Ack, log: seq<LogEntry>, bound: int)
    requires a.term in reigns
  {
    forall n: nat {:trigger Kept(reigns, a.term, n, log, bound)} | n <= a.index :: Kept(reigns, a.term, n, log, bound)
  }

  ghost predicate KeptWhenVoting(reigns: map<nat, Reign>, a: Ack, b: Ballot)
    requires a.term in reigns
  {
    b.early && b.voter == a.node && b.term > a.term ==> KeptUpTo(reigns, a, b.log, b.term - 1)
  }

  ghost predicate AcksOk(c: State) {
    forall a {:trigger AckOk(c, a)} | a in c.h.acks :: AckOk(c, a)
  }

  ghost predicate Acked(h: History, term: nat, node: Id, index: nat) {
    exists a :: a in h.acks && a.term == term && a.node == node && a.index >= index
  }

  ghost predicate PointOk(c: State, p: Point) {
    && p.term in c.h.reigns
    && 0 < p.index <= |c.h.reigns[p.term].log|
    && c.h.reigns[p.term].log[p.index - 1].term == p.term
    && Quorum.Majority(p.quorum, c.nodes.Keys)
    && (forall v {:trigger Acked(c.h, p.term, v, p.index)} | v in p.quorum :: Acked(c.h, p.term, v, p.index))
  }

  /** `s` is part of what was committed in some term up to `bound`. */
  ghost predicate Backed(h: History, bound: nat, s: seq<LogEntry>) {
    s == [] || exists p {:trigger BackedBy(h, bound, s, p)} :: p in h.points && BackedBy(h, bound, s, p)
  }

  ghost predicate BackedBy(h: History, bound: nat, s: seq<LogEntry>, p: Point) {
    && p.term <= bound && p.term in h.reigns
    && |s| <= p.index <= |h.reigns[p.term].log|
    && s == h.reigns[p.term].log[..|s|]
  }

  ghost predicate PointsOk(c: State) {
    forall p {:trigger PointOk(c, p)} | p in c.h.points :: PointOk(c, p)
  }

  ghost predicate CommitOk(h: History, n: Node) {
    && n.applied == n.commit <= |n.log|
    && Backed(h, n.term, n.log[..n.commit])
    && n.sm == Replay(EMPTY, n.log[..n.applied])
  }

  ghost predicate CommitsOk(c: State) {
    forall i {:trigger CommitOk(c.h, c.nodes[i])} | i in c.nodes :: CommitOk(c.h, c.nodes[i])
  }

  ghost predicate GateOk(c: State, g: Gate) {
    && g.node in c.nodes
    && g.index <= c.nodes[g.node].commit
    && g.term in c.h.reigns
    && g.index <= |c.h.reigns[g.term].log|
    && Backed(c.h, g.term, c.h.reigns[g.term].log[..g.index])
    && (forall v {:trigger Acked(c.h, g.term, v, g.index)} | v in c.nodes && v != g.node && g.index > 0 ::
          Acked(c.h, g.term, v, g.index))
  }

  ghost predicate GatesOk(c: State) {
    forall g {:trigger GateOk(c, g)} | g in c.gates :: GateOk(c, g)
  }

  /** An AppendEntries message is a slice of its leader's log that reaches its commit index, or it
      names a predecessor no log can match. */
  ghost predicate AppendOk(h: History, args: AppendArgs) {
    args.term in h.reigns &&
    var r := h.reigns[args.term].log;
    || (args.prevIndex > 0 && args.prevTerm == 0)
    || (&& args.prevIndex + |args.entries| <= |r|
        && args.entries == r[args.prevIndex..args.prevIndex + |args.entries|]
        && (args.prevIndex > 0 ==> args.prevTerm == r[args.prevIndex - 1].term)
        && args.commit <= args.prevIndex + |args.entries|
        && Backed(h, args.term, r[..args.commit]))
  }

  ghost predicate MsgOk(c: State, m: Msg) {
    && m.src in c.nodes
    && match m
       case VoteRequest(src, dst, args) =>
         args.candidate == src && ClaimOk(c.nodes[src], args.term, args.lastIndex, args.lastTerm)
       case VoteAnswer(src, dst, reqTerm, reply) => reply.granted ==> HasBallot(c.h, reqTerm, src, dst)
       case Append(src, dst, args) => AppendOk(c.h, args)
       case AppendAnswer(src, dst, reqTerm, last, reply) => reply.success ==> Ack(reqTerm, src, last) in c.h.acks
       case TxVote(src, dst, args) =>
         src != dst && exists g :: g in c.gates && g.node == src && g.index == args.lastIndex
       case _ => true
  }

  ghost predicate MsgsOk(c: State) {
    forall m {:trigger MsgOk(c, m)} | m in c.msgs :: MsgOk(c, m)
  }

  ghost predicate Inv(c: State) {
    && MembersOk(c)
    && NodesOk(c)
    && ReignsOk(c)
    && BallotsOk(c)
    && CandidatesOk(c)
    && AcksOk(c)
    && PointsOk(c)
    && CommitsOk(c)
    && GatesOk(c)
    && MsgsOk(c)
  }

  // ---------- prefixes ----------

  lemma HoldsLess(a: seq<LogEntry>, b: seq<LogEntry>, n: nat, m: nat)
    requires Holds(a, b, n) && m <= n
    ensures Holds(a, b, m)
  {
    assert a[..m] == a[..n][..m] && b[..m] == b[..n][..m];
  }

  lemma HoldsTrans(a: seq<LogEntry>, b: seq<LogEntry>, d: seq<LogEntry>, n: nat)
    requires Holds(a, b, n) && Holds(b, d, n)
    ensures Holds(a, d, n)
  {
  }

  lemma HoldsLonger(a: seq<LogEntry>, b: seq<LogEntry>, longer: seq<LogEntry>, n: nat)
    requires Holds(a, b, n) && b <= longer
    ensures Holds(a, longer, n)
  {
    assert longer[..n] == b[..n];
  }

  lemma HoldsAt(a: seq<LogEntry>, b: seq<LogEntry>, n: nat, k: nat)
    requires Holds(a, b, n) && k < n
    ensures a[k] == b[k]
  {
    assert a[k] == a[..n][k] && b[k] == b[..n][k];
  }

  /** Two logs with the same term at an index agree up to it. */
  lemma LogsMatch(reigns: map<nat, Reign>, a: seq<LogEntry>, b: seq<LogEntry>, k: nat)
    requires LogOk(reigns, a) && LogOk(reigns, b)
    requires k < |a| && k < |b| && a[k].term == b[k].term
    ensures Holds(a, b, k + 1)
  {
    assert EntryOk(reigns, a, k) && EntryOk(reigns, b, k);
  }

  lemma TermsOrdered(reigns: map<nat, Reign>, log: seq<LogEntry>, j: nat, k: nat)
    requires LogOk(reigns, log) && j <= k < |log|
    ensures log[j].term <= log[k].term
  {
    assert InOrder(log, j, k);
  }

  lemma LogOkPrefix(reigns: map<nat, Reign>, log: seq<LogEntry>, n: nat)
    requires LogOk(reigns, log) && n <= |log|
    ensures LogOk(reigns, log[..n])
  {
    forall k: nat | k < n ensures EntryOk(reigns, log[..n], k) {
      assert EntryOk(reigns, log, k);
      assert log[..n][..k + 1] == log[..k + 1];
    }
    forall j: nat, k: nat | j <= k < n ensures InOrder(log[..n], j, k) {
      assert InOrder(log, j, k);
    }
  }

  // ---------- leader completeness ----------

  /** What a point committed is in the starting log of every later leader. */
  lemma {:induction false} LaterLeadersHold(c: State, p: Point, u: nat)
    requires Inv(c) && p in c.h.points && u in c.h.reigns && p.term < u
    ensures PointOk(c, p)
    ensures Holds(c.h.reigns[u].base, c.h.reigns[p.term].log, p.index)
    decreases u
  {
    var reigns := c.h.reigns;
    assert PointOk(c, p) && ReignOk(c, u);
    var v := Quorum.MajoritiesMeet(p.quorum, c.nodes.Keys, reigns[u].voters, c.nodes.Keys);
    assert Acked(c.h, p.term, v, p.index) && VotedFor(c.h, u, v, reigns[u].leader, reigns[u].base);
    var a :| a in c.h.acks && a.term == p.term && a.node == v && a.index >= p.index;
    var b :| b in c.h.ballots && b.term == u && b.voter == v && b.candidate == reigns[u].leader
             && b.early && b.lastIndex == LastIndex(reigns[u].base) && b.lastTerm == LastTerm(reigns[u].base);
    assert AckOk(c, a) && BallotOk(c, b);
    assert KeptWhenVoting(reigns, a, b);
    assert Kept(reigns, p.term, p.index, b.log, u - 1);
    if Lost(reigns, p.term, p.index, u - 1) {
      var w :| w in reigns && p.term < w <= u - 1 && !Holds(reigns[w].base, reigns[p.term].log, p.index);
      LaterLeadersHold(c, p, w);
      assert false;
    }
    LogOkPrefix(reigns, reigns[u].log, |reigns[u].base|);
    assert reigns[u].base == reigns[u].log[..|reigns[u].base|];
    FresherLogHolds(c, p, u, b.log);
  }

  /** A starting log at least as fresh as a log with the committed entries has them too. */
  lemma {:induction false} FresherLogHolds(c: State, p: Point, u: nat, log: seq<LogEntry>)
    requires Inv(c) && p in c.h.points && PointOk(c, p) && u in c.h.reigns && p.term < u
    requires LogOk(c.h.reigns, log) && LogOk(c.h.reigns, c.h.reigns[u].base)
    requires Holds(log, c.h.reigns[p.term].log, p.index)
    requires UpToDate(LastTerm(c.h.reigns[u].base), LastIndex(c.h.reigns[u].base), log)
    ensures Holds(c.h.reigns[u].base, c.h.reigns[p.term].log, p.index)
    decreases u, 0
  {
    var reigns := c.h.reigns;
    var base, committed := reigns[u].base, reigns[p.term].log;
    assert PointOk(c, p) && ReignOk(c, u);
    HoldsAt(log, committed, p.index, p.index - 1);
    assert InOrder(log, p.index - 1, |log| - 1);
    assert EntryOk(reigns, log, |log| - 1);
    assert base != [];
    var lb := |base| - 1;
    assert EntryOk(reigns, base, lb);
    if LastTerm(base) == LastTerm(log) {
      assert |base| >= |log|;
      HoldsLess(base, reigns[LastTerm(base)].log, |base|, p.index);
      HoldsLess(log, reigns[LastTerm(log)].log, |log|, p.index);
    } else {
      var w := LastTerm(base);
      LaterLeadersHold(c, p, w);
      assert ReignOk(c, w);
      HoldsLonger(committed, reigns[w].base, reigns[w].log, p.index);
      if |base| < p.index {
        HoldsAt(base, reigns[w].log, |base|, lb);
        HoldsAt(committed, reigns[w].log, p.index, lb);
        assert LogOk(reigns, committed) by { assert ReignOk(c, p.term); }
        TermsOrdered(reigns, committed, lb, p.index - 1);
        assert false;
      }
      HoldsLess(base, reigns[w].log, |base|, p.index);
    }
  }

  /** Committed prefixes never conflict: the log of a leader holds all that was committed before. */
  lemma LeaderHoldsBacked(c: State, bound: nat, s: seq<LogEntry>, u: nat)
    requires Inv(c) && Backed(c.h, bound, s) && u in c.h.reigns && bound <= u
    ensures s <= c.h.reigns[u].log
  {
    if s != [] {
      var p :| p in c.h.points && BackedBy(c.h, bound, s, p);
      var committed := c.h.reigns[p.term].log;
      if p.term < u {
        LaterLeadersHold(c, p, u);
        assert ReignOk(c, u);
        HoldsLess(c.h.reigns[u].base, committed, p.index, |s|);
      }
    }
  }

  /** A leader of a newer term started with it, whichever came first. */
  lemma LeaderStartsWithBacked(c: State, bound: nat, s: seq<LogEntry>, u: nat)
    requires Inv(c) && Backed(c.h, bound, s) && u in c.h.reigns && bound < u
    ensures s <= c.h.reigns[u].base
  {
    if s != [] {
      var p :| p in c.h.points && BackedBy(c.h, bound, s, p);
      LaterLeadersHold(c, p, u);
      HoldsLess(c.h.reigns[u].base, c.h.reigns[p.term].log, p.index, |s|);
    }
  }

  /** Of two committed prefixes one extends the other. */
  lemma BackedComparable(c: State, b1: nat, s1: seq<LogEntry>, b2: nat, s2: seq<LogEntry>)
    requires Inv(c) && Backed(c.h, b1, s1) && Backed(c.h, b2, s2) && |s1| <= |s2|
    ensures s1 <= s2
  {
    if s1 != [] {
      var p1 :| p1 in c.h.points && BackedBy(c.h, b1, s1, p1);
      var p2 :| p2 in c.h.points && BackedBy(c.h, b2, s2, p2);
      var u := if p1.term <= p2.term then p2.term else p1.term;
      assert BackedBy(c.h, u, s1, p1) && BackedBy(c.h, u, s2, p2);
      LeaderHoldsBacked(c, u, s1, u);
      LeaderHoldsBacked(c, u, s2, u);
    }
  }
}

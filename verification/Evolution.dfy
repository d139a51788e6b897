/** How the invariant is carried from one state to the next when one node moves: what was true of
    the old nodes, messages and history stays true, so a step only has to answer for what is new. */
module Evolution {
  import opened Protocol
  import opened Steps
  import opened Cluster
  import opened Invariant

  /** Leaderships are added, and the log of one only grows. */
  ghost predicate GrowReigns(r: map<nat, Reign>, r': map<nat, Reign>) {
    forall t {:trigger GrowReign(r, r', t)} | t in r :: GrowReign(r, r', t)
  }

  ghost predicate GrowReign(r: map<nat, Reign>, r': map<nat, Reign>, t: nat)
    requires t in r
  {
    && t in r'
    && r'[t].leader == r[t].leader && r'[t].base == r[t].base && r'[t].voters == r[t].voters
    && r[t].log <= r'[t].log
  }

  /** Terms and commit indices grow, a vote given in a term stays, and a candidacy starts only with
      a new term. */
  ghost predicate NodeMoves(n: Node, n': Node) {
    && n'.id == n.id
    && n'.config == n.config && n'.peers == n.peers && n'.pendingSimple == n.pendingSimple
    && n'.term >= n.term && n'.commit >= n.commit
    && (n'.term == n.term && n.vote.Some? ==> n'.vote == n.vote)
    && (n'.term == n.term && n'.role == Candidate ==> n.role == Candidate && n'.log == n.log)
  }

  ghost predicate HistoryGrows(h: History, h': History) {
    && h.ballots <= h'.ballots && h.acks <= h'.acks && h.points <= h'.points
    && GrowReigns(h.reigns, h'.reigns)
  }

  ghost predicate Moves(c: State, c': State, i: Id) {
    && i in c.nodes
    && c'.nodes.Keys == c.nodes.Keys
    && (forall j | j in c.nodes && j != i :: c'.nodes[j] == c.nodes[j])
    && NodeMoves(c.nodes[i], c'.nodes[i])
    && c.gates <= c'.gates
    && HistoryGrows(c.h, c'.h)
  }

  // ---------- monotonicity of the ingredients ----------

  lemma LogOkGrows(r: map<nat, Reign>, r': map<nat, Reign>, log: seq<LogEntry>)
    requires GrowReigns(r, r') && LogOk(r, log)
    ensures LogOk(r', log)
  {
    forall k: nat | k < |log| ensures EntryOk(r', log, k) {
      assert EntryOk(r, log, k);
      assert GrowReign(r, r', log[k].term);
      HoldsLonger(log, r[log[k].term].log, r'[log[k].term].log, k + 1);
    }
    forall j: nat, k: nat | j <= k < |log| ensures InOrder(log, j, k) {
      TermsOrdered(r, log, j, k);
    }
  }

  lemma BackedGrows(h: History, h': History, bound: nat, bound': nat, s: seq<LogEntry>)
    requires HistoryGrows(h, h') && Backed(h, bound, s) && bound <= bound'
    ensures Backed(h', bound', s)
  {
    if s != [] {
      var p :| p in h.points && BackedBy(h, bound, s, p);
      assert GrowReign(h.reigns, h'.reigns, p.term);
      assert BackedBy(h', bound', s, p);
    }
  }

  lemma KeptGrows(r: map<nat, Reign>, r': map<nat, Reign>, t: nat, n: nat, log: seq<LogEntry>, bound: int, bound': int)
    requires GrowReigns(r, r') && t in r && n <= |r[t].log| && bound <= bound'
    requires Kept(r, t, n, log, bound)
    ensures t in r' && Kept(r', t, n, log, bound')
  {
    assert GrowReign(r, r', t);
    if Holds(log, r[t].log, n) {
      HoldsLonger(log, r[t].log, r'[t].log, n);
    } else {
      var u :| u in r && t < u <= bound && !Holds(r[u].base, r[t].log, n);
      assert GrowReign(r, r', u);
      assert r'[t].log[..n] == r[t].log[..n];
    }
  }

  lemma KeptUpToGrows(r: map<nat, Reign>, r': map<nat, Reign>, a: Ack, log: seq<LogEntry>, bound: int, bound': int)
    requires GrowReigns(r, r') && a.term in r && a.index <= |r[a.term].log| && bound <= bound'
    requires KeptUpTo(r, a, log, bound)
    ensures a.term in r' && KeptUpTo(r', a, log, bound')
  {
    assert GrowReign(r, r', a.term);
    forall n: nat | n <= a.index ensures Kept(r', a.term, n, log, bound') {
      assert Kept(r, a.term, n, log, bound);
      KeptGrows(r, r', a.term, n, log, bound, bound');
    }
  }

  lemma AckedGrows(h: History, h': History, term: nat, node: Id, index: nat)
    requires h.acks <= h'.acks && Acked(h, term, node, index)
    ensures Acked(h', term, node, index)
  {
  }

  lemma VotedForGrows(h: History, h': History, term: nat, voter: Id, candidate: Id, log: seq<LogEntry>)
    requires h.ballots <= h'.ballots && VotedFor(h, term, voter, candidate, log)
    ensures VotedFor(h', term, voter, candidate, log)
  {
  }

  lemma HasBallotGrows(h: History, h': History, term: nat, voter: Id, candidate: Id)
    requires h.ballots <= h'.ballots && HasBallot(h, term, voter, candidate)
    ensures HasBallot(h', term, voter, candidate)
  {
  }

  // ---------- one lemma per conjunct ----------

  lemma MembersMove(c: State, c': State, i: Id)
    requires Moves(c, c', i) && MembersOk(c)
    ensures MembersOk(c')
  {
    forall j | j in c'.nodes ensures MemberOk(c', j) {
      assert MemberOk(c, j);
    }
  }

  lemma NodesMove(c: State, c': State, i: Id)
    requires Moves(c, c', i) && MembersOk(c) && NodesOk(c)
    requires NodeOk(c'.h.reigns, c'.nodes[i])
    requires forall t | t in c.h.reigns && c.h.reigns[t].leader != i ::
               t in c'.h.reigns && c'.h.reigns[t] == c.h.reigns[t]
    ensures NodesOk(c')
  {
    forall j | j in c'.nodes ensures NodeOk(c'.h.reigns, c'.nodes[j]) {
      if j != i {
        assert NodeOk(c.h.reigns, c.nodes[j]) && MemberOk(c, j);
        LogOkGrows(c.h.reigns, c'.h.reigns, c.nodes[j].log);
      }
    }
  }

  lemma ReignMoves(c: State, c': State, i: Id, t: nat)
    requires Moves(c, c', i) && t in c.h.reigns && ReignOk(c, t)
    requires t in c'.h.reigns && c'.h.reigns[t] == c.h.reigns[t]
    ensures ReignOk(c', t)
  {
    var r := c.h.reigns[t];
    LogOkGrows(c.h.reigns, c'.h.reigns, r.log);
    forall v | v in r.voters ensures VotedFor(c'.h, t, v, r.leader, r.base) {
      VotedForGrows(c.h, c'.h, t, v, r.leader, r.base);
    }
    forall k: nat | |r.base| <= k < |r.log| ensures OwnEntry(r, t, k) {
      assert OwnEntry(c.h.reigns[t], t, k);
    }
  }

  lemma ReignsMove(c: State, c': State, i: Id)
    requires Moves(c, c', i) && ReignsOk(c)
    requires forall t | t in c'.h.reigns :: (t in c.h.reigns && c'.h.reigns[t] == c.h.reigns[t]) || ReignOk(c', t)
    ensures ReignsOk(c')
  {
    forall t | t in c'.h.reigns ensures ReignOk(c', t) {
      if t in c.h.reigns && c'.h.reigns[t] == c.h.reigns[t] {
        assert ReignOk(c, t);
        ReignMoves(c, c', i, t);
      }
    }
  }

  lemma BallotsMove(c: State, c': State, i: Id)
    requires Moves(c, c', i) && BallotsOk(c)
    requires forall b | b in c'.h.ballots && b !in c.h.ballots ::
               BallotOk(c', b) && forall a | a in c'.h.ballots :: OneVote(a, b) && OneVote(b, a)
    ensures BallotsOk(c')
  {
    forall b | b in c'.h.ballots ensures BallotOk(c', b) {
      if b in c.h.ballots {
        assert BallotOk(c, b);
        LogOkGrows(c.h.reigns, c'.h.reigns, b.log);
        assert b.term in c.h.reigns ==> GrowReign(c.h.reigns, c'.h.reigns, b.term);
      }
    }
    forall a, b | a in c'.h.ballots && b in c'.h.ballots ensures OneVote(a, b) {
      if a in c.h.ballots && b in c.h.ballots {
        assert OneVote(a, b);
      }
    }
  }

  lemma CandidatesMove(c: State, c': State, i: Id)
    requires Moves(c, c', i) && CandidatesOk(c) && CandidateOk(c', c'.nodes[i])
    ensures CandidatesOk(c')
  {
    forall j | j in c'.nodes ensures CandidateOk(c', c'.nodes[j]) {
      if j != i {
        var n := c.nodes[j];
        assert CandidateOk(c, n);
        if n.role == Candidate {
          forall v | v in n.votes ensures HasBallot(c'.h, n.term, v, n.id) {
            HasBallotGrows(c.h, c'.h, n.term, v, n.id);
          }
        }
      }
    }
  }

  lemma AckMoves(c: State, c': State, i: Id, a: Ack)
    requires Moves(c, c', i) && AckOk(c, a)
    requires a.node == i ==> a.term in c'.h.reigns && KeptUpTo(c'.h.reigns, a, c'.nodes[i].log, c'.nodes[i].term)
    requires forall b | b in c'.h.ballots && b !in c.h.ballots ::
               a.term in c'.h.reigns && KeptWhenVoting(c'.h.reigns, a, b)
    ensures AckOk(c', a)
  {
    assert GrowReign(c.h.reigns, c'.h.reigns, a.term);
    if a.node != i {
      KeptUpToGrows(c.h.reigns, c'.h.reigns, a, c.nodes[a.node].log, c.nodes[a.node].term, c.nodes[a.node].term);
    }
    forall b | b in c'.h.ballots ensures KeptWhenVoting(c'.h.reigns, a, b) {
      if b in c.h.ballots {
        assert KeptWhenVoting(c.h.reigns, a, b);
        if b.early && b.voter == a.node && b.term > a.term {
          KeptUpToGrows(c.h.reigns, c'.h.reigns, a, b.log, b.term - 1, b.term - 1);
        }
      }
    }
  }

  lemma AcksMove(c: State, c': State, i: Id)
    requires Moves(c, c', i) && AcksOk(c)
    requires forall a | a in c.h.acks && a.node == i ::
               a.term in c'.h.reigns && KeptUpTo(c'.h.reigns, a, c'.nodes[i].log, c'.nodes[i].term)
    requires forall a, b | a in c.h.acks && b in c'.h.ballots && b !in c.h.ballots ::
               a.term in c'.h.reigns && KeptWhenVoting(c'.h.reigns, a, b)
    requires forall a | a in c'.h.acks && a !in c.h.acks :: AckOk(c', a)
    ensures AcksOk(c')
  {
    forall a | a in c'.h.acks ensures AckOk(c', a) {
      if a in c.h.acks {
        assert AckOk(c, a);
        AckMoves(c, c', i, a);
      }
    }
  }

  lemma PointsMove(c: State, c': State, i: Id)
    requires Moves(c, c', i) && PointsOk(c)
    requires forall p | p in c'.h.points && p !in c.h.points :: PointOk(c', p)
    ensures PointsOk(c')
  {
    forall p | p in c'.h.points ensures PointOk(c', p) {
      if p in c.h.points {
        assert PointOk(c, p);
        assert GrowReign(c.h.reigns, c'.h.reigns, p.term);
        forall v | v in p.quorum ensures Acked(c'.h, p.term, v, p.index) {
          AckedGrows(c.h, c'.h, p.term, v, p.index);
        }
      }
    }
  }

  lemma CommitsMove(c: State, c': State, i: Id)
    requires Moves(c, c', i) && CommitsOk(c) && CommitOk(c'.h, c'.nodes[i])
    ensures CommitsOk(c')
  {
    forall j | j in c'.nodes ensures CommitOk(c'.h, c'.nodes[j]) {
      if j != i {
        var n := c.nodes[j];
        assert CommitOk(c.h, n);
        BackedGrows(c.h, c'.h, n.term, n.term, n.log[..n.commit]);
      }
    }
  }

  lemma GatesMove(c: State, c': State, i: Id)
    requires Moves(c, c', i) && GatesOk(c)
    requires forall g | g in c'.gates && g !in c.gates :: GateOk(c', g)
    ensures GatesOk(c')
  {
    forall g | g in c'.gates ensures GateOk(c', g) {
      if g in c.gates {
        assert GateOk(c, g);
        assert GrowReign(c.h.reigns, c'.h.reigns, g.term);
        assert c'.h.reigns[g.term].log[..g.index] == c.h.reigns[g.term].log[..g.index];
        BackedGrows(c.h, c'.h, g.term, g.term, c.h.reigns[g.term].log[..g.index]);
        forall v | v in c'.nodes && v != g.node && g.index > 0 ensures Acked(c'.h, g.term, v, g.index) {
          AckedGrows(c.h, c'.h, g.term, v, g.index);
        }
      }
    }
  }

  lemma AppendGrows(h: History, h': History, args: AppendArgs)
    requires HistoryGrows(h, h') && AppendOk(h, args)
    ensures AppendOk(h', args)
  {
    assert GrowReign(h.reigns, h'.reigns, args.term);
    if !(args.prevIndex > 0 && args.prevTerm == 0) {
      var r, r' := h.reigns[args.term].log, h'.reigns[args.term].log;
      var last := args.prevIndex + |args.entries|;
      assert r'[args.prevIndex..last] == r[args.prevIndex..last];
      assert r'[..args.commit] == r[..args.commit];
      BackedGrows(h, h', args.term, args.term, r[..args.commit]);
    }
  }

  lemma MsgsMove(c: State, c': State, i: Id)
    requires Moves(c, c', i) && MsgsOk(c)
    requires forall m | m in c'.msgs && m !in c.msgs :: MsgOk(c', m)
    ensures MsgsOk(c')
  {
    forall m | m in c'.msgs ensures MsgOk(c', m) {
      if m in c.msgs {
        assert MsgOk(c, m);
        match m
        case VoteRequest(src, dst, args) =>
        case VoteAnswer(src, dst, reqTerm, reply) =>
          if reply.granted {
            HasBallotGrows(c.h, c'.h, reqTerm, src, dst);
          }
        case Append(src, dst, args) => AppendGrows(c.h, c'.h, args);
        case AppendAnswer(src, dst, reqTerm, last, reply) =>
        case TxVote(src, dst, args) =>
        case _ =>
      }
    }
  }

  // ---------- in groups ----------

  /** Members, logs, leaderships and candidates. */
  lemma FrontMoves(c: State, c': State, i: Id)
    requires Inv(c) && Moves(c, c', i)
    requires NodeOk(c'.h.reigns, c'.nodes[i]) && CandidateOk(c', c'.nodes[i])
    requires forall t | t in c.h.reigns && c.h.reigns[t].leader != i ::
               t in c'.h.reigns && c'.h.reigns[t] == c.h.reigns[t]
    requires forall t | t in c'.h.reigns :: (t in c.h.reigns && c'.h.reigns[t] == c.h.reigns[t]) || ReignOk(c', t)
    ensures MembersOk(c') && NodesOk(c') && ReignsOk(c') && CandidatesOk(c')
  {
    MembersMove(c, c', i);
    NodesMove(c, c', i);
    ReignsMove(c, c', i);
    CandidatesMove(c, c', i);
  }

  /** Commit points, commit indices, gates and messages. */
  lemma BackMoves(c: State, c': State, i: Id)
    requires Inv(c) && Moves(c, c', i) && c'.h.points == c.h.points && c'.gates == c.gates
    requires CommitOk(c'.h, c'.nodes[i])
    requires forall m | m in c'.msgs && m !in c.msgs :: MsgOk(c', m)
    ensures PointsOk(c') && CommitsOk(c') && GatesOk(c') && MsgsOk(c')
  {
    PointsMove(c, c', i);
    CommitsMove(c, c', i);
    GatesMove(c, c', i);
    MsgsMove(c, c', i);
  }
}

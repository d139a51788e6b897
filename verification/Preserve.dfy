/** Every kind of change a step makes keeps the invariant. */
module Preserve {
  import opened Protocol
  import opened Reference
  import opened Steps
  import opened Cluster
  import opened Invariant
  import opened Evolution
  import opened LogRepair
  import Quorum

  lemma SameReigns(r: map<nat, Reign>)
    ensures GrowReigns(r, r)
  {
  }

  // ---------- changes that leave log, commit index and history alone ----------

  /** Terms, votes, roles and bookkeeping may change, and messages may be sent. */
  lemma QuietKeeps(c: State, c': State, i: Id)
    requires Inv(c) && Moves(c, c', i)
    requires c'.h == c.h && c'.gates == c.gates
    requires var n, n' := c.nodes[i], c'.nodes[i];
             && n'.log == n.log && n'.commit == n.commit && n'.applied == n.applied && n'.sm == n.sm
             && (n'.role == Leader ==> n.role == Leader && n'.term == n.term)
    requires CandidateOk(c', c'.nodes[i])
    requires forall m | m in c'.msgs && m !in c.msgs :: MsgOk(c', m)
    ensures Inv(c')
  {
    var n, n' := c.nodes[i], c'.nodes[i];
    var reigns := c.h.reigns;
    assert NodeOk(reigns, n);
    BallotsMove(c, c', i);
    FrontMoves(c, c', i);
    forall a | a in c.h.acks && a.node == i ensures a.term in reigns && KeptUpTo(reigns, a, n'.log, n'.term) {
      assert AckOk(c, a);
      KeptUpToGrows(reigns, reigns, a, n.log, n.term, n'.term);
    }
    AcksMove(c, c', i);
    assert CommitOk(c.h, n);
    BackedGrows(c.h, c'.h, n.term, n'.term, n.log[..n.commit]);
    BackMoves(c, c', i);
  }

  // ---------- votes ----------

  /** A ballot cast in the voter's current term, with its current log. */
  lemma BallotKeeps(c: State, c': State, i: Id, b: Ballot)
    requires Inv(c) && Moves(c, c', i) && c'.gates == c.gates
    requires c'.h == c.h.(ballots := c.h.ballots + {b})
    requires var n, n' := c.nodes[i], c'.nodes[i];
             && n'.log == n.log && n'.commit == n.commit && n'.applied == n.applied && n'.sm == n.sm
             && n'.role == (if n'.term == n.term then n.role else Candidate)
             && b.voter == i && b.log == n.log && b.term == n'.term && n'.vote == Some(b.candidate)
             && b.early == (b.term !in c.h.reigns)
             && (b.term == n.term ==> n.vote == None || n.vote == Some(b.candidate))
    requires BallotOk(c', b) && CandidateOk(c', c'.nodes[i])
    requires forall m | m in c'.msgs && m !in c.msgs :: MsgOk(c', m)
    ensures Inv(c')
  {
    var n, n' := c.nodes[i], c'.nodes[i];
    var reigns := c.h.reigns;
    assert NodeOk(reigns, n);
    forall a | a in c'.h.ballots ensures OneVote(a, b) && OneVote(b, a) {
      if a != b {
        assert BallotOk(c, a);
      }
    }
    BallotsMove(c, c', i);
    FrontMoves(c, c', i);
    forall a | a in c.h.acks && a.node == i ensures a.term in reigns && KeptUpTo(reigns, a, n'.log, n'.term) {
      assert AckOk(c, a);
      KeptUpToGrows(reigns, reigns, a, n.log, n.term, n'.term);
    }
    forall a | a in c.h.acks ensures a.term in reigns && KeptWhenVoting(reigns, a, b) {
      assert AckOk(c, a);
      if b.early && b.voter == a.node && b.term > a.term {
        KeptBeforeLeader(reigns, a, n.log, n.term, b.term);
      }
    }
    AcksMove(c, c', i);
    assert CommitOk(c.h, n);
    BackedGrows(c.h, c'.h, n.term, n'.term, n.log[..n.commit]);
    BackMoves(c, c', i);
  }

  /** While a term has no leader, it cannot be the leader of that term that lost an entry. */
  lemma KeptBeforeLeader(reigns: map<nat, Reign>, a: Ack, log: seq<LogEntry>, bound: nat, term: nat)
    requires a.term in reigns && term !in reigns && bound <= term
    requires KeptUpTo(reigns, a, log, bound)
    ensures KeptUpTo(reigns, a, log, term - 1)
  {
    var before := term - 1;
    forall n: nat | n <= a.index ensures Kept(reigns, a.term, n, log, before) {
      assert Kept(reigns, a.term, n, log, bound);
    }
  }

  lemma PromoteKeeps(c: State, i: Id)
    requires Inv(c) && i in c.nodes
    ensures Inv(WithNode(c, Promote(c.nodes[i])).(h := c.h.(ballots := c.h.ballots + {SelfVote(c.h, c.nodes[i])})))
  {
    var n := c.nodes[i];
    var b := SelfVote(c.h, n);
    var c' := WithNode(c, Promote(n)).(h := c.h.(ballots := c.h.ballots + {b}));
    assert MemberOk(c, i) && NodeOk(c.h.reigns, n);
    SameReigns(c.h.reigns);
    assert b in c'.h.ballots;
    assert HasBallot(c'.h, n.term + 1, i, i);
    assert BallotOk(c', b);
    BallotKeeps(c, c', i, b);
  }

  // ---------- election ----------

  /** A term with a leader has no other candidate backed by a majority. */
  lemma CandidateTermIsFree(c: State, i: Id)
    requires Inv(c) && i in c.nodes && c.nodes[i].role == Candidate
    requires Quorum.Majority(c.nodes[i].votes, c.nodes.Keys)
    ensures c.nodes[i].term !in c.h.reigns
  {
    var n := c.nodes[i];
    if n.term in c.h.reigns {
      var r := c.h.reigns[n.term];
      assert ReignOk(c, n.term) && CandidateOk(c, n) && MemberOk(c, i);
      var v := Quorum.MajoritiesMeet(n.votes, c.nodes.Keys, r.voters, c.nodes.Keys);
      assert VotedFor(c.h, n.term, v, r.leader, r.base) && HasBallot(c.h, n.term, v, i);
      var a :| a in c.h.ballots && a.term == n.term && a.voter == v && a.candidate == r.leader;
      var b :| b in c.h.ballots && b.term == n.term && b.voter == v && b.candidate == i;
      OneVoteEach(c, a, b);
      assert false;
    }
  }

  lemma OneVoteEach(c: State, a: Ballot, b: Ballot)
    requires BallotsOk(c) && a in c.h.ballots && b in c.h.ballots
    requires a.term == b.term && a.voter == b.voter
    ensures a.candidate == b.candidate
  {
    assert OneVote(a, b);
  }

  /** The reign that an election opens. */
  lemma CrownedReign(c: State, c': State, i: Id)
    requires Inv(c) && i in c.nodes && c.nodes[i].role == Candidate && i in c'.nodes && c'.nodes.Keys == c.nodes.Keys
    requires var n, n' := c.nodes[i], c'.nodes[i];
             && n.id == i && n'.term == n.term && n'.role == Leader
             && Quorum.Majority(n.votes, c.nodes.Keys) && n.term !in c.h.reigns
             && n.term in c'.h.reigns && c'.h.reigns[n.term] == Reign(i, n.log, n.log, n.votes)
             && LogOk(c'.h.reigns, n.log) && c'.h.ballots == c.h.ballots
    ensures ReignOk(c', c.nodes[i].term)
  {
    var n := c.nodes[i];
    var t := n.term;
    assert MemberOk(c, i) && NodeOk(c.h.reigns, n) && CandidateOk(c, n);
    assert n.log != [] ==> EntryOk(c.h.reigns, n.log, |n.log| - 1);
    forall v | v in n.votes ensures VotedFor(c'.h, t, v, i, n.log) {
      assert HasBallot(c.h, t, v, i);
      var b :| b in c.h.ballots && b.term == t && b.voter == v && b.candidate == i;
      assert BallotOk(c, b);
    }
  }

  lemma CrownKeeps(c: State, i: Id)
    requires Inv(c) && i in c.nodes && c.nodes[i].role == Candidate
    requires Quorum.Majority(c.nodes[i].votes, c.nodes.Keys)
    ensures var n := c.nodes[i];
            Inv(WithNode(c, BecomeLeader(n)).(h := RecordCrown(c.h, n, BecomeLeader(n))))
  {
    var n := c.nodes[i];
    var c' := WithNode(c, BecomeLeader(n)).(h := RecordCrown(c.h, n, BecomeLeader(n)));
    assert MemberOk(c, i) && CandidateOk(c, n);
    CandidateTermIsFree(c, i);
    var r, r' := c.h.reigns, c'.h.reigns;
    assert r' == r[n.term := Reign(i, n.log, n.log, n.votes)];
    forall u | u in r ensures GrowReign(r, r', u) {
    }
    CrownMoves(c, c', i);
  }

  lemma CrownMoves(c: State, c': State, i: Id)
    requires Inv(c) && Moves(c, c', i) && c'.msgs == c.msgs && c'.gates == c.gates
    requires c'.h == c.h.(reigns := c'.h.reigns)
    requires var n, n' := c.nodes[i], c'.nodes[i];
             && n.role == Candidate && n.id == i && Quorum.Majority(n.votes, c.nodes.Keys) && n.term !in c.h.reigns
             && n'.id == i && n'.role == Leader && n'.term == n.term && n'.log == n.log
             && n'.commit == n.commit && n'.applied == n.applied && n'.sm == n.sm
             && c'.h.reigns == c.h.reigns[n.term := Reign(i, n.log, n.log, n.votes)]
    ensures Inv(c')
  {
    var n := c.nodes[i];
    assert NodeOk(c.h.reigns, n) && CommitOk(c.h, n);
    LogOkGrows(c.h.reigns, c'.h.reigns, n.log);
    CrownedReign(c, c', i);
    FrontMoves(c, c', i);
    BallotsMove(c, c', i);
    KeptHere(c, c', i);
    AcksMove(c, c', i);
    BackedGrows(c.h, c'.h, n.term, n.term, n.log[..n.commit]);
    BackMoves(c, c', i);
  }

  /** Acknowledgements of a node whose log only grows are still kept. */
  lemma KeptHere(c: State, c': State, i: Id)
    requires Moves(c, c', i) && AcksOk(c) && c.nodes[i].log <= c'.nodes[i].log
    ensures forall a | a in c.h.acks && a.node == i ::
              a.term in c'.h.reigns && KeptUpTo(c'.h.reigns, a, c'.nodes[i].log, c'.nodes[i].term)
  {
    var n, n' := c.nodes[i], c'.nodes[i];
    forall a | a in c.h.acks && a.node == i
      ensures a.term in c'.h.reigns && KeptUpTo(c'.h.reigns, a, n'.log, n'.term)
    {
      assert AckOk(c, a);
      KeptUpToGrows(c.h.reigns, c'.h.reigns, a, n.log, n.term, n'.term);
      forall k: nat | k <= a.index ensures Kept(c'.h.reigns, a.term, k, n'.log, n'.term) {
        assert Kept(c'.h.reigns, a.term, k, n.log, n'.term);
        if Holds(n.log, c'.h.reigns[a.term].log, k) {
          assert n'.log[..k] == n.log[..k];
        }
      }
    }
  }

  // ---------- proposing ----------

  lemma ExtendLog(r: map<nat, Reign>, r': map<nat, Reign>, log: seq<LogEntry>, e: LogEntry)
    requires GrowReigns(r, r') && LogOk(r, log) && LastTerm(log) <= e.term
    requires e.index == |log| + 1 && e.term > 0 && !e.command.InstallConfiguration?
    requires e.term in r' && r'[e.term].log == log + [e]
    ensures LogOk(r', log + [e])
  {
    LogOkGrows(r, r', log);
    var log' := log + [e];
    forall k: nat | k < |log'| ensures EntryOk(r', log', k) {
      if k < |log| {
        assert EntryOk(r', log, k);
        assert log'[..k + 1] == log[..k + 1];
      }
    }
    forall j: nat, k: nat | j <= k < |log'| ensures InOrder(log', j, k) {
      if k < |log| {
        TermsOrdered(r', log, j, k);
      } else if j < |log| {
        TermsOrdered(r', log, j, |log| - 1);
      }
    }
  }

  lemma ProposeKeeps(c: State, i: Id, cmd: Command)
    requires Inv(c) && i in c.nodes && c.nodes[i].role == Leader && !cmd.InstallConfiguration?
    ensures c.nodes[i].term in c.h.reigns
    ensures var n := c.nodes[i];
            var n' := PushEntry(n, cmd);
            Inv(WithNode(c, n').(h := c.h.(reigns := c.h.reigns[n.term := c.h.reigns[n.term].(log := n'.log)])))
  {
    var n := c.nodes[i];
    assert MemberOk(c, i) && NodeOk(c.h.reigns, n);
    assert ReignOk(c, n.term);
    var n' := PushEntry(n, cmd);
    var c' := WithNode(c, n').(h := c.h.(reigns := c.h.reigns[n.term := c.h.reigns[n.term].(log := n'.log)]));
    forall u | u in c.h.reigns ensures GrowReign(c.h.reigns, c'.h.reigns, u) {
    }
    var e := LogEntry(n.term, |n.log| + 1, cmd);
    ExtendLog(c.h.reigns, c'.h.reigns, n.log, e);
    ReignExtended(c, c', i);
    ExtensionKeeps(c, c', i);
  }

  /** The leader's log and the log of its reign grow together. */
  lemma ExtensionKeeps(c: State, c': State, i: Id)
    requires Inv(c) && Moves(c, c', i) && c'.msgs == c.msgs && c'.gates == c.gates
    requires c'.h == c.h.(reigns := c'.h.reigns)
    requires var n, n' := c.nodes[i], c'.nodes[i];
             && n.role == Leader && n.term in c.h.reigns && ReignOk(c, n.term)
             && n'.role == Leader && n'.term == n.term && n.log <= n'.log
             && n'.commit == n.commit && n'.applied == n.applied && n'.sm == n.sm
             && NodeOk(c'.h.reigns, n') && ReignOk(c', n.term)
             && (forall u :: u in c'.h.reigns <==> u in c.h.reigns)
             && (forall u | u in c.h.reigns && u != n.term :: c'.h.reigns[u] == c.h.reigns[u])
    ensures Inv(c')
  {
    var n, n' := c.nodes[i], c'.nodes[i];
    assert MemberOk(c, i) && NodeOk(c.h.reigns, n);
    BallotsMove(c, c', i);
    FrontMoves(c, c', i);
    KeptHere(c, c', i);
    AcksMove(c, c', i);
    assert CommitOk(c.h, n);
    assert n'.log[..n.commit] == n.log[..n.commit];
    BackedGrows(c.h, c'.h, n.term, n.term, n.log[..n.commit]);
    BackMoves(c, c', i);
  }

  lemma ReignExtended(c: State, c': State, i: Id)
    requires Moves(c, c', i) && c'.nodes[i].term == c.nodes[i].term && c'.nodes[i].role == Leader
    requires c'.h.ballots == c.h.ballots
    requires var t := c.nodes[i].term;
             && t in c.h.reigns && ReignOk(c, t) && t in c'.h.reigns && c.h.reigns[t].leader == i
             && |c'.h.reigns[t].log| == |c.h.reigns[t].log| + 1
             && c'.h.reigns[t].log[|c.h.reigns[t].log|].term == t
             && LogOk(c'.h.reigns, c'.h.reigns[t].log)
    ensures ReignOk(c', c.nodes[i].term)
  {
    var t := c.nodes[i].term;
    var r, r' := c.h.reigns[t], c'.h.reigns[t];
    assert GrowReign(c.h.reigns, c'.h.reigns, t);
    forall v | v in r'.voters ensures VotedFor(c'.h, t, v, r'.leader, r'.base) {
      VotedForGrows(c.h, c'.h, t, v, r.leader, r.base);
    }
    forall k: nat | |r'.base| <= k < |r'.log| ensures OwnEntry(r', t, k) {
      if k < |r.log| {
        assert OwnEntry(r, t, k);
      }
    }
  }

  // ---------- replication ----------

  /** Merging an accepted message into a log: the message's slice of the leader's log is there
      afterwards, and nothing the log shared with the leader's log is lost. */
  lemma MergeKeeps(reigns: map<nat, Reign>, log: seq<LogEntry>, r: seq<LogEntry>, entries: seq<LogEntry>, prev: nat,
                   merged: seq<LogEntry>)
    requires LogOk(reigns, log) && LogOk(reigns, r) && merged == Resolve(log, entries)
    requires prev + |entries| <= |r| && entries == r[prev..prev + |entries|]
    requires prev == 0 || (prev <= |log| && log[prev - 1].term == r[prev - 1].term)
    ensures LogOk(reigns, merged)
    ensures merged == log || merged == r[..prev + |entries|]
    ensures Holds(merged, r, prev + |entries|)
    ensures forall n: nat :: Holds(log, r, n) ==> Holds(merged, r, n)
  {
    SliceContiguous(reigns, r, entries, prev);
    SharedBefore(reigns, log, r, prev);
    var j := ResolveForm(log, entries, prev);
    MergeCases(reigns, log, r, entries, prev, j, merged);
    MergeForm(reigns, log, r, prev + |entries|, merged);
  }

  lemma SharedBefore(reigns: map<nat, Reign>, log: seq<LogEntry>, r: seq<LogEntry>, prev: nat)
    requires LogOk(reigns, log) && LogOk(reigns, r) && prev <= |r|
    requires prev == 0 || (prev <= |log| && log[prev - 1].term == r[prev - 1].term)
    ensures Holds(log, r, prev)
  {
    if prev > 0 {
      LogsMatch(reigns, log, r, prev - 1);
    }
  }

  lemma MergeCases(reigns: map<nat, Reign>, log: seq<LogEntry>, r: seq<LogEntry>, entries: seq<LogEntry>, prev: nat,
                   j: nat,
                   merged: seq<LogEntry>)
    requires LogOk(reigns, log) && LogOk(reigns, r) && Holds(log, r, prev)
    requires prev + |entries| <= |r| && entries == r[prev..prev + |entries|]
    requires AgreesFor(log, entries, prev, j) && (j < |entries| ==> FirstNew(log, entries, prev, j))
    requires merged == if j == |entries| then log else log[..prev + j] + entries[j..]
    ensures || (merged == log && Holds(log, r, prev + |entries|))
            || (merged == r[..prev + |entries|]
                && forall n: nat :: Holds(log, r, n) ==> Holds(r[..prev + |entries|], r, n))
  {
    SharedThrough(reigns, log, r, entries, prev, j);
    if j < |entries| {
      CutAtDifference(log, r, entries, prev, j);
    }
  }

  lemma MergeForm(reigns: map<nat, Reign>, log: seq<LogEntry>, r: seq<LogEntry>, last: nat, merged: seq<LogEntry>)
    requires LogOk(reigns, log) && LogOk(reigns, r) && last <= |r|
    requires || (merged == log && Holds(log, r, last))
             || (merged == r[..last] && forall n: nat :: Holds(log, r, n) ==> Holds(r[..last], r, n))
    ensures LogOk(reigns, merged)
    ensures Holds(merged, r, last)
    ensures forall n: nat :: Holds(log, r, n) ==> Holds(merged, r, n)
  {
    LogOkPrefix(reigns, r, last);
  }

  /** Entries that agree in term are shared with the leader's log. */
  lemma SharedThrough(reigns: map<nat, Reign>, log: seq<LogEntry>, r: seq<LogEntry>, entries: seq<LogEntry>,
                      prev: nat, j: nat)
    requires LogOk(reigns, log) && LogOk(reigns, r)
    requires prev + |entries| <= |r| && entries == r[prev..prev + |entries|]
    requires Holds(log, r, prev) && AgreesFor(log, entries, prev, j)
    ensures Holds(log, r, prev + j)
  {
    if j > 0 {
      assert log[prev + (j - 1)].term == entries[j - 1].term;
      assert entries[j - 1] == r[prev + (j - 1)];
      LogsMatch(reigns, log, r, prev + (j - 1));
    }
  }

  /** Cutting at the first differing entry leaves a prefix of the leader's log, and at that point the
      old log had nothing more in common with it. */
  lemma CutAtDifference(log: seq<LogEntry>, r: seq<LogEntry>, entries: seq<LogEntry>, prev: nat, j: nat)
    requires prev + |entries| <= |r| && entries == r[prev..prev + |entries|]
    requires FirstNew(log, entries, prev, j) && Holds(log, r, prev + j)
    ensures log[..prev + j] + entries[j..] == r[..prev + |entries|]
    ensures forall n: nat :: Holds(log, r, n) ==> Holds(r[..prev + |entries|], r, n)
  {
    var last := prev + |entries|;
    assert entries[j..] == r[prev + j..last];
    assert r[..prev + j] + r[prev + j..last] == r[..last];
    assert entries[j] == r[prev + j];
    forall n: nat | Holds(log, r, n) ensures Holds(r[..last], r, n) {
      assert n <= prev + j by {
        if n > prev + j {
          HoldsAt(log, r, n, prev + j);
          assert false;
        }
      }
      assert r[..last][..n] == r[..n];
    }
  }

  lemma SliceContiguous(reigns: map<nat, Reign>, r: seq<LogEntry>, entries: seq<LogEntry>, prev: nat)
    requires LogOk(reigns, r) && prev + |entries| <= |r| && entries == r[prev..prev + |entries|]
    ensures Contiguous(entries, prev)
  {
    forall j | 0 <= j < |entries| ensures entries[j].index == prev + 1 + j {
      assert EntryOk(reigns, r, prev + j);
    }
  }

  ghost predicate Accepts(c: State, i: Id, args: AppendArgs) {
    && i in c.nodes && c.nodes[i].term == args.term && Consistent(c.nodes[i], args)
    && AppendOk(c.h, args) && !(args.prevIndex > 0 && args.prevTerm == 0)
  }

  /** The log after an accepted message. */
  ghost predicate MergedOk(c: State, i: Id, args: AppendArgs, log': seq<LogEntry>)
    requires Accepts(c, i, args)
  {
    && LogOk(c.h.reigns, log')
    && LastTerm(log') <= args.term
    && Holds(log', c.h.reigns[args.term].log, args.prevIndex + |args.entries|)
    && Holds(log', c.nodes[i].log, c.nodes[i].commit)
    && (forall a {:trigger AckOk(c, a)} | a in c.h.acks && a.node == i ::
          a.term in c.h.reigns && KeptUpTo(c.h.reigns, a, log', args.term))
  }

  lemma MergeFacts(c: State, i: Id, args: AppendArgs)
    requires Inv(c) && Accepts(c, i, args)
    ensures MergedOk(c, i, args, Resolve(c.nodes[i].log, args.entries))
  {
    var n, t := c.nodes[i], args.term;
    var reigns, r := c.h.reigns, c.h.reigns[t].log;
    assert NodeOk(reigns, n) && ReignOk(c, t);
    var log' := Resolve(n.log, args.entries);
    MergeKeeps(reigns, n.log, r, args.entries, args.prevIndex, log');
    MergedFacts(c, i, args, log');
  }

  lemma MergedFacts(c: State, i: Id, args: AppendArgs, log': seq<LogEntry>)
    requires Inv(c) && Accepts(c, i, args)
    requires var log, r := c.nodes[i].log, c.h.reigns[args.term].log;
             && LogOk(c.h.reigns, log')
             && (log' == log || log' == r[..args.prevIndex + |args.entries|])
             && Holds(log', r, args.prevIndex + |args.entries|)
             && forall n: nat :: Holds(log, r, n) ==> Holds(log', r, n)
    ensures MergedOk(c, i, args, log')
  {
    var n, t := c.nodes[i], args.term;
    var reigns, r := c.h.reigns, c.h.reigns[t].log;
    assert NodeOk(reigns, n) && ReignOk(c, t) && CommitOk(c.h, n);
    MergedLastTerm(c, n.log, log', t);
    LeaderHoldsBacked(c, t, n.log[..n.commit], t);
    assert Holds(n.log, r, n.commit) && Holds(log', r, n.commit);
    forall a | a in c.h.acks && a.node == i ensures a.term in reigns && KeptUpTo(reigns, a, log', t) {
      assert AckOk(c, a);
      KeptThroughMerge(c, a, n.log, log', t);
    }
  }

  /** An accepted AppendEntries: the follower's log, its acknowledgement and its commit index. */
  lemma AcceptKeeps(c: State, c': State, i: Id, args: AppendArgs)
    requires Inv(c) && Moves(c, c', i) && c'.gates == c.gates && Accepts(c, i, args)
    requires c'.h == c.h.(acks := c.h.acks + {Ack(args.term, i, args.prevIndex + |args.entries|)})
    requires MergedOk(c, i, args, c'.nodes[i].log)
    requires var n, n' := c.nodes[i], c'.nodes[i];
             && n'.term == args.term && n'.role == Follower
             && n'.commit == (if args.commit > n.commit then args.commit else n.commit) <= |n'.log|
             && n'.applied == n'.commit && n'.sm == Replay(EMPTY, n'.log[..n'.commit])
    requires forall m | m in c'.msgs && m !in c.msgs :: MsgOk(c', m)
    ensures Inv(c')
  {
    var n, n' := c.nodes[i], c'.nodes[i];
    var reigns, t := c.h.reigns, args.term;
    var last := args.prevIndex + |args.entries|;
    SameReigns(reigns);
    BallotsMove(c, c', i);
    FrontMoves(c, c', i);
    forall a | a in c.h.acks && a.node == i ensures a.term in reigns && KeptUpTo(reigns, a, n'.log, n'.term) {
      assert AckOk(c, a);
    }
    NewAckOk(c', Ack(t, i, last));
    AcksMove(c, c', i);
    AcceptedCommit(c, c', i, args);
    BackMoves(c, c', i);
  }

  lemma AcceptedCommit(c: State, c': State, i: Id, args: AppendArgs)
    requires Inv(c) && Moves(c, c', i) && Accepts(c, i, args) && MergedOk(c, i, args, c'.nodes[i].log)
    requires c'.h.reigns == c.h.reigns
    requires var n, n' := c.nodes[i], c'.nodes[i];
             && n'.term == args.term
             && n'.commit == (if args.commit > n.commit then args.commit else n.commit) <= |n'.log|
             && n'.applied == n'.commit && n'.sm == Replay(EMPTY, n'.log[..n'.commit])
    ensures CommitOk(c'.h, c'.nodes[i])
  {
    var n, n', t := c.nodes[i], c'.nodes[i], args.term;
    var r, last := c.h.reigns[t].log, args.prevIndex + |args.entries|;
    assert CommitOk(c.h, n);
    if args.commit > n.commit {
      HoldsLess(n'.log, r, last, args.commit);
      BackedGrows(c.h, c'.h, t, t, r[..args.commit]);
    } else {
      BackedGrows(c.h, c'.h, t, t, n.log[..n.commit]);
    }
  }

  lemma MergedLastTerm(c: State, log: seq<LogEntry>, log': seq<LogEntry>, t: nat)
    requires t in c.h.reigns && ReignOk(c, t) && LastTerm(log) <= t
    requires log' == log || log' <= c.h.reigns[t].log
    ensures LastTerm(log') <= t
  {
    var r := c.h.reigns[t];
    if log' != log && log' != [] {
      var k := |log'| - 1;
      if k < |r.base| {
        TermsOrdered(c.h.reigns, r.log, k, |r.base| - 1);
      } else {
        assert OwnEntry(r, t, k);
      }
    }
  }

  /** An acknowledged prefix survives a merge, or the leader merged from never had it. */
  lemma KeptThroughMerge(c: State, a: Ack, log: seq<LogEntry>, log': seq<LogEntry>, t: nat)
    requires a.term in c.h.reigns && a.index <= |c.h.reigns[a.term].log| && a.term <= t
    requires t in c.h.reigns && ReignOk(c, t)
    requires KeptUpTo(c.h.reigns, a, log, t)
    requires forall n: nat :: Holds(log, c.h.reigns[t].log, n) ==> Holds(log', c.h.reigns[t].log, n)
    ensures KeptUpTo(c.h.reigns, a, log', t)
  {
    var reigns := c.h.reigns;
    var r, acked := reigns[t].log, reigns[a.term].log;
    forall n: nat | n <= a.index ensures Kept(reigns, a.term, n, log', t) {
      assert Kept(reigns, a.term, n, log, t);
      if Holds(log, acked, n) && a.term < t {
        if Holds(reigns[t].base, acked, n) {
          HoldsLonger(acked, reigns[t].base, r, n);
          HoldsTrans(log, acked, r, n);
          HoldsTrans(log', r, acked, n);
        }
      }
    }
  }

  /** A node of the leader's term that holds the prefix may acknowledge it. */
  lemma NewAckOk(c: State, a: Ack)
    requires BallotsOk(c) && a.node in c.nodes && a.term in c.h.reigns
    requires c.nodes[a.node].term == a.term
    requires Holds(c.nodes[a.node].log, c.h.reigns[a.term].log, a.index)
    ensures AckOk(c, a)
  {
    var log := c.nodes[a.node].log;
    forall n: nat | n <= a.index ensures Kept(c.h.reigns, a.term, n, log, a.term) {
      HoldsLess(log, c.h.reigns[a.term].log, a.index, n);
    }
    forall b | b in c.h.ballots ensures KeptWhenVoting(c.h.reigns, a, b) {
      assert BallotOk(c, b);
    }
  }

  // ---------- commit ----------

  lemma BackedLess(h: History, bound: nat, s: seq<LogEntry>, k: nat)
    requires Backed(h, bound, s) && k <= |s|
    ensures Backed(h, bound, s[..k])
  {
    if s != [] && k > 0 {
      var p :| p in h.points && BackedBy(h, bound, s, p);
      assert s[..k] == h.reigns[p.term].log[..k];
      assert BackedBy(h, bound, s[..k], p);
    }
  }

  /** A node that only advances its commit index, over a prefix that is already committed. */
  lemma AdvanceKeeps(c: State, c': State, i: Id)
    requires Inv(c) && Moves(c, c', i) && c'.gates == c.gates && c'.h == c.h
    requires var n, n' := c.nodes[i], c'.nodes[i];
             && n'.term == n.term && n'.role == n.role && n'.votes == n.votes && n'.log == n.log
             && n'.applied == n'.commit <= |n'.log|
             && n'.sm == Replay(EMPTY, n'.log[..n'.commit])
             && Backed(c.h, n.term, n.log[..n'.commit])
    requires forall m | m in c'.msgs && m !in c.msgs :: MsgOk(c', m)
    ensures Inv(c')
  {
    var n := c.nodes[i];
    SameReigns(c.h.reigns);
    assert NodeOk(c.h.reigns, n) && CandidateOk(c, n);
    BallotsMove(c, c', i);
    FrontMoves(c, c', i);
    KeptHere(c, c', i);
    AcksMove(c, c', i);
    BackMoves(c, c', i);
  }

  /** Nothing moves but the record of acknowledgements, commit points and gates. */
  lemma OnlyRecords(c: State, c': State, i: Id)
    requires Inv(c) && i in c.nodes && c'.nodes == c.nodes && c'.msgs == c.msgs && c.gates <= c'.gates
    requires c'.h.reigns == c.h.reigns && c'.h.ballots == c.h.ballots
    requires c.h.acks <= c'.h.acks && c.h.points <= c'.h.points
    ensures Moves(c, c', i)
    ensures MembersOk(c') && NodesOk(c') && ReignsOk(c') && BallotsOk(c')
    ensures CandidatesOk(c') && CommitsOk(c') && MsgsOk(c')
  {
    var n := c.nodes[i];
    assert MemberOk(c, i) && NodeOk(c.h.reigns, n) && CandidateOk(c, n) && CommitOk(c.h, n);
    SameReigns(c.h.reigns);
    MembersMove(c, c', i);
    NodesMove(c, c', i);
    ReignsMove(c, c', i);
    BallotsMove(c, c', i);
    assert CandidateOk(c', c'.nodes[i]) by {
      if n.role == Candidate {
        forall v | v in n.votes ensures HasBallot(c'.h, n.term, v, n.id) {
          HasBallotGrows(c.h, c'.h, n.term, v, n.id);
        }
      }
    }
    CandidatesMove(c, c', i);
    BackedGrows(c.h, c'.h, n.term, n.term, n.log[..n.commit]);
    CommitsMove(c, c', i);
    MsgsMove(c, c', i);
  }

  /** The leader's own log counts as an acknowledgement, and the quorum it counted makes a point. */
  lemma PointKeeps(c: State, i: Id, index: nat, quorum: set<Id>)
    requires Inv(c) && i in c.nodes && c.nodes[i].role == Leader
    requires 0 < index <= |c.nodes[i].log| && c.nodes[i].log[index - 1].term == c.nodes[i].term
    requires Quorum.Majority(quorum, c.nodes.Keys)
    requires forall v | v in quorum && v != i :: Acked(c.h, c.nodes[i].term, v, index)
    ensures var t := c.nodes[i].term;
            var c' := c.(h := c.h.(acks := c.h.acks + {Ack(t, i, index)},
                                   points := c.h.points + {Point(t, index, quorum)}));
            Inv(c') && Backed(c'.h, t, c.nodes[i].log[..index])
  {
    var n := c.nodes[i];
    var t := n.term;
    var a, p := Ack(t, i, index), Point(t, index, quorum);
    var c' := c.(h := c.h.(acks := c.h.acks + {a}, points := c.h.points + {p}));
    OnlyRecords(c, c', i);
    assert NodeOk(c.h.reigns, n);
    KeptHere(c, c', i);
    NewAckOk(c', a);
    AcksMove(c, c', i);
    forall v | v in quorum ensures Acked(c'.h, t, v, index) {
      if v == i {
        assert a in c'.h.acks;
      } else {
        AckedGrows(c.h, c'.h, t, v, index);
      }
    }
    PointsMove(c, c', i);
    GatesMove(c, c', i);
    assert BackedBy(c'.h, t, n.log[..index], p);
  }

  lemma GateStays(c: State, c': State, g: Gate)
    requires GateOk(c, g) && c'.nodes == c.nodes && c'.h == c.h
    ensures GateOk(c', g)
  {
    forall v | v in c'.nodes && v != g.node && g.index > 0 ensures Acked(c'.h, g.term, v, g.index) {
      assert Acked(c.h, g.term, v, g.index);
    }
  }

  lemma GateKeeps(c: State, g: Gate)
    requires Inv(c) && GateOk(c, g)
    ensures Inv(c.(gates := c.gates + {g}))
  {
    var c' := c.(gates := c.gates + {g});
    var i := g.node;
    OnlyRecords(c, c', i);
    KeptHere(c, c', i);
    AcksMove(c, c', i);
    PointsMove(c, c', i);
    GateStays(c, c', g);
    GatesMove(c, c', i);
  }
}

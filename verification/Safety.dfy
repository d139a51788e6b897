/** The safety theorems, over whole runs: they relate the states of any two moments. */
module Safety {
  import opened Protocol
  import opened Reference
  import opened Steps
  import opened Cluster
  import opened Invariant
  import opened Evolution
  import opened Preserve
  import opened Induction
  import Quorum

  // ---------- what only grows ----------

  ghost predicate Advances(c: State, c': State) {
    && c'.nodes.Keys == c.nodes.Keys
    && HistoryGrows(c.h, c'.h)
    && (forall i {:trigger Onward(c, c', i)} | i in c.nodes :: Onward(c, c', i))
  }

  ghost predicate Onward(c: State, c': State, i: Id)
    requires i in c.nodes
  {
    i in c'.nodes && c'.nodes[i].term >= c.nodes[i].term && c'.nodes[i].commit >= c.nodes[i].commit
  }

  lemma OneNodeAdvances(c: State, c': State, i: Id, n': Node)
    requires i in c.nodes && n'.id == i && c'.nodes == c.nodes[i := n']
    requires n'.term >= c.nodes[i].term && n'.commit >= c.nodes[i].commit
    requires HistoryGrows(c.h, c'.h)
    ensures Advances(c, c')
  {
    forall j | j in c.nodes ensures Onward(c, c', j) {
    }
  }

  lemma SameHistory(h: History, h': History)
    requires h'.reigns == h.reigns && h.ballots <= h'.ballots && h.acks <= h'.acks && h.points <= h'.points
    ensures HistoryGrows(h, h')
  {
    SameReigns(h.reigns);
  }

  lemma CrownGrows(c: State, i: Id, n1: Node)
    requires Inv(c) && i in c.nodes && n1 == c.nodes[i].(votes := n1.votes) && n1.role == Candidate
    requires Inv(WithNode(c, n1)) && Quorum.Majority(n1.votes, c.nodes.Keys)
    ensures HistoryGrows(c.h, RecordCrown(c.h, c.nodes[i], BecomeLeader(n1)))
  {
    assert MemberOk(c, i);
    CandidateTermIsFree(WithNode(c, n1), i);
    var r' := RecordCrown(c.h, c.nodes[i], BecomeLeader(n1)).reigns;
    forall t | t in c.h.reigns ensures GrowReign(c.h.reigns, r', t) {
    }
  }

  lemma VoteAnswerAdvances(c: State, i: Id, m: Msg)
    requires Inv(c) && i in c.nodes && m in c.msgs && m.dst == i && m.VoteAnswer?
    requires !m.voteReply.granted && m.voteReply.term > m.reqTerm ==> MayAdopt(c.nodes[i], m.voteReply.term)
    ensures Advances(c, CountEffect(c, c.nodes[i], OnVoteReply(c.nodes[i], m.src, m.reqTerm, m.voteReply)))
  {
    var n := c.nodes[i];
    var n' := OnVoteReply(n, m.src, m.reqTerm, m.voteReply);
    assert MemberOk(c, i) && MsgOk(c, m);
    if n.role == Candidate && n'.role == Leader {
      var n1 := n.(votes := n.votes + {m.src});
      CountKeeps(c, WithNode(c, n1), i, m.src);
      CountedWins(WithNode(c, n1), i);
      CrownGrows(c, i, n1);
    } else {
      SameHistory(c.h, c.h);
    }
    OneNodeAdvances(c, CountEffect(c, n, n'), i, n');
  }

  lemma WinAloneAdvances(c: State, i: Id)
    requires Inv(c) && i in c.nodes
    ensures Advances(c, Do(c, DoWinAlone(i)))
  {
    var n := c.nodes[i];
    assert MemberOk(c, i) && CandidateOk(c, n);
    assert c.nodes[i := n] == c.nodes;
    if n.peers == [] && n.role == Candidate {
      Quorum.SubsetSize({i}, n.votes);
      assert WithNode(c, n) == c;
      CrownGrows(c, i, n);
    } else {
      SameHistory(c.h, c.h);
    }
    OneNodeAdvances(c, Do(c, DoWinAlone(i)), i, WinAlone(n));
  }

  lemma ProposeAdvances(c: State, i: Id, cmd: Command)
    requires Inv(c) && i in c.nodes
    ensures Advances(c, Do(c, DoPropose(i, cmd)))
  {
    var n := c.nodes[i];
    assert MemberOk(c, i) && NodeOk(c.h.reigns, n);
    var c' := Do(c, DoPropose(i, cmd));
    forall t | t in c.h.reigns ensures GrowReign(c.h.reigns, c'.h.reigns, t) {
    }
    OneNodeAdvances(c, c', i, Propose(n, cmd).0);
  }

  lemma HandleAppendAdvances(c: State, i: Id, src: Id, args: AppendArgs)
    requires Inv(c) && i in c.nodes && AppendOk(c.h, args)
    ensures Advances(c, AppendEffect(c, i, src, args, HandleAppend(c.nodes[i], args)))
  {
    var n := c.nodes[i];
    var r := HandleAppend(n, args);
    assert MemberOk(c, i);
    SameHistory(c.h, AppendEffect(c, i, src, args, r).h);
    if !(args.term < n.term || (args.term == n.term && n.role == Leader)) {
      var n1 := (if args.term > n.term then AdoptTerm(n, args.term) else n).(role := Follower);
      var c1 := WithNode(c, n1);
      QuietStep(c, c1, i, n1);
      if Consistent(n1, args) {
        if args.prevIndex > 0 {
          assert NodeOk(c1.h.reigns, c1.nodes[i]);
          assert EntryOk(c1.h.reigns, n1.log, args.prevIndex - 1);
        }
        MergeFacts(c1, i, args);
        AcceptedForm(c1, i, args);
      }
    }
    OneNodeAdvances(c, AppendEffect(c, i, src, args, r), i, r.0);
  }

  lemma CommitAdvances(c: State, c1: State, i: Id)
    requires Inv(c) && i in c.nodes && i in c1.nodes && c1 == WithNode(c, c1.nodes[i]) && Inv(c1)
    requires c1.nodes[i].term == c.nodes[i].term && c1.nodes[i].commit == c.nodes[i].commit
    ensures var n1 := c1.nodes[i];
            Advances(c, WithNode(c, MaybeCommit(n1)).(h := RecordCommit(c.h, c.nodes.Keys, n1, MaybeCommit(n1))))
  {
    var n1 := c1.nodes[i];
    assert MemberOk(c1, i) && CommitOk(c1.h, n1);
    NoConfigIn(c1, i);
    MaybeCommitForm(n1);
    var c' := WithNode(c, MaybeCommit(n1)).(h := RecordCommit(c.h, c.nodes.Keys, n1, MaybeCommit(n1)));
    SameHistory(c.h, c'.h);
    OneNodeAdvances(c, c', i, MaybeCommit(n1));
  }

  lemma AppendAnswerAdvances(c: State, i: Id, src: Id, last: nat, reply: AppendReply)
    requires Inv(c) && i in c.nodes
    ensures Advances(c, AnswerEffect(c, src, last, reply, c.nodes[i]))
  {
    var n := c.nodes[i];
    assert MemberOk(c, i) && CandidateOk(c, n);
    if reply.success {
      var n1 := RecordMatch(n, src, last);
      QuietStep(c, WithNode(c, n1), i, n1);
      CommitAdvances(c, WithNode(c, n1), i);
    } else {
      SameHistory(c.h, c.h);
      OneNodeAdvances(c, AnswerEffect(c, src, last, reply, n), i, OnAppendReply(n, src, last, reply));
    }
  }

  lemma HandleTxVoteAdvances(c: State, i: Id, src: Id, req: TxVoteArgs)
    requires Inv(c) && i in c.nodes
    ensures Advances(c, TxVoteEffect(c, i, src, req, HandleTxVote(c.nodes[i], req)))
  {
    var n := c.nodes[i];
    assert MemberOk(c, i) && CommitOk(c.h, n);
    NoConfigIn(c, i);
    FastForwardForm(n, req.lastIndex);
    SameHistory(c.h, c.h);
    OneNodeAdvances(c, TxVoteEffect(c, i, src, req, HandleTxVote(n, req)), i, HandleTxVote(n, req).0);
  }

  lemma StepAdvances(c: State, s: Step)
    requires Inv(c) && Enabled(c, s) && Assumed(c, s)
    ensures Advances(c, Do(c, s))
  {
    if s.DoProbe? || s.DoProbeAnswer? || s.DoPromote? || s.DoHandleVote? || s.DoVoteAnswer? || s.DoWinAlone? {
      ElectionAdvances(c, s);
    } else {
      ReplicationAdvances(c, s);
    }
  }

  lemma ElectionAdvances(c: State, s: Step)
    requires Inv(c) && Enabled(c, s) && Assumed(c, s)
    requires s.DoProbe? || s.DoProbeAnswer? || s.DoPromote? || s.DoHandleVote? || s.DoVoteAnswer? || s.DoWinAlone?
    ensures Advances(c, Do(c, s))
  {
    var n := c.nodes[s.i];
    assert MemberOk(c, s.i);
    match s
    case DoProbe(i) => ProbeAdvances(c, i);
    case DoProbeAnswer(i, m) => ProbeAnswerAdvances(c, i, OnPreVoteReply(n, m.round, m.src, m.reqTerm, m.voteReply));
    case DoPromote(i) => PromoteAdvances(c, i);
    case DoHandleVote(i, m) => VoteAdvances(c, i, m.src, m.vote);
    case DoVoteAnswer(i, m) => VoteAnswerAdvances(c, i, m);
    case DoWinAlone(i) => WinAloneAdvances(c, i);
  }

  lemma ReplicationAdvances(c: State, s: Step)
    requires Inv(c) && Enabled(c, s) && Assumed(c, s)
    requires !(s.DoProbe? || s.DoProbeAnswer? || s.DoPromote? || s.DoHandleVote? || s.DoVoteAnswer? || s.DoWinAlone?)
    ensures Advances(c, Do(c, s))
  {
    var n := c.nodes[s.i];
    assert MemberOk(c, s.i);
    match s
    case DoPropose(i, cmd) => ProposeAdvances(c, i, cmd);
    case DoHandleAppend(i, m) =>
      assert MsgOk(c, m);
      HandleAppendAdvances(c, i, m.src, m.append);
    case DoAppendAnswer(i, m) => AppendAnswerAdvances(c, i, m.src, m.last, m.appendReply);
    case DoCommit(i) =>
      assert c.nodes[i := n] == c.nodes && WithNode(c, n) == c;
      CommitAdvances(c, c, i);
    case DoHandleTxVote(i, m) => HandleTxVoteAdvances(c, i, m.src, m.tx);
    case DoTxAnswer(i, m) => TxAnswerAdvances(c, i, m);
    case DoHandleProbe(i, m) => NobodyMoves(c, Do(c, s));
    case DoRequestVote(i, to) => NobodyMoves(c, Do(c, s));
    case DoSendAppend(i, to) => NobodyMoves(c, Do(c, s));
    case DoPassGate(i, index) => NobodyMoves(c, Do(c, s));
    case DoSendTxVote(i, to, txId, index) => NobodyMoves(c, Do(c, s));
  }

  lemma VoteAdvances(c: State, i: Id, src: Id, args: VoteArgs)
    requires Inv(c) && i in c.nodes
    ensures Advances(c, VoteEffect(c, c.nodes[i], src, args, HandleRequestVote(c.nodes[i], args)))
  {
    var n := c.nodes[i];
    var c' := VoteEffect(c, n, src, args, HandleRequestVote(n, args));
    assert MemberOk(c, i);
    SameHistory(c.h, c'.h);
    OneNodeAdvances(c, c', i, HandleRequestVote(n, args).0);
  }

  lemma ProbeAnswerAdvances(c: State, i: Id, n': Node)
    requires Inv(c) && i in c.nodes && n'.id == i && n'.term >= c.nodes[i].term && n'.commit == c.nodes[i].commit
    ensures Advances(c, ProbeEffect(c, c.nodes[i], n'))
  {
    SameHistory(c.h, ProbeEffect(c, c.nodes[i], n').h);
    OneNodeAdvances(c, ProbeEffect(c, c.nodes[i], n'), i, n');
  }

  lemma PromoteAdvances(c: State, i: Id)
    requires Inv(c) && i in c.nodes
    ensures Advances(c, Do(c, DoPromote(i)))
  {
    assert MemberOk(c, i);
    SameHistory(c.h, Do(c, DoPromote(i)).h);
    OneNodeAdvances(c, Do(c, DoPromote(i)), i, Promote(c.nodes[i]));
  }

  lemma TxAnswerAdvances(c: State, i: Id, m: Msg)
    requires Inv(c) && Enabled(c, DoTxAnswer(i, m)) && Assumed(c, DoTxAnswer(i, m))
    ensures Advances(c, Do(c, DoTxAnswer(i, m)))
  {
    assert MemberOk(c, i);
    SameHistory(c.h, c.h);
    OneNodeAdvances(c, Do(c, DoTxAnswer(i, m)), i, OnTxVoteReply(c.nodes[i], m.reqTerm, m.txReply));
  }

  lemma ProbeAdvances(c: State, i: Id)
    requires Inv(c) && Enabled(c, DoProbe(i))
    ensures Advances(c, Do(c, DoProbe(i)))
  {
    assert MemberOk(c, i);
    SameHistory(c.h, c.h);
    OneNodeAdvances(c, Do(c, DoProbe(i)), i, BecomePreCandidate(c.nodes[i]));
  }

  /** The steps that only send, and the gate: no node moves. */
  lemma NobodyMoves(c: State, c': State)
    requires c'.nodes == c.nodes && c'.h == c.h
    ensures Advances(c, c')
  {
    SameHistory(c.h, c'.h);
    forall i | i in c.nodes ensures Onward(c, c', i) {
    }
  }

  lemma AdvancesTrans(a: State, b: State, c: State)
    requires Advances(a, b) && Advances(b, c)
    ensures Advances(a, c)
  {
    forall t | t in a.h.reigns ensures GrowReign(a.h.reigns, c.h.reigns, t) {
      assert GrowReign(a.h.reigns, b.h.reigns, t) && GrowReign(b.h.reigns, c.h.reigns, t);
    }
    forall i | i in a.nodes ensures Onward(a, c, i) {
      assert Onward(a, b, i) && Onward(b, c, i);
    }
  }

  lemma {:induction false} RunAdvances(run: seq<State>, j: nat, k: nat)
    requires IsRun(run) && j <= k < |run|
    ensures Advances(run[j], run[k])
    decreases k - j
  {
    if j == k {
      SameHistory(run[j].h, run[j].h);
      forall i | i in run[j].nodes ensures Onward(run[j], run[k], i) {
      }
    } else {
      RunAdvances(run, j, k - 1);
      RunHolds(run, k - 1);
      assert Next(run[k - 1], run[k]);
      var s :| Enabled(run[k - 1], s) && Assumed(run[k - 1], s) && run[k] == Do(run[k - 1], s);
      StepAdvances(run[k - 1], s);
      AdvancesTrans(run[j], run[k - 1], run[k]);
    }
  }

  // ---------- the theorems ----------

  lemma NamesHold(run: seq<State>, k: nat, a: Id)
    requires IsRun(run) && k < |run| && a in run[k].nodes
    ensures run[k].nodes[a].id == a
  {
    RunHolds(run, k);
    assert MemberOk(run[k], a);
  }

  /** A node's term never goes back. */
  lemma TermsRise(run: seq<State>, j: nat, k: nat, a: Id)
    requires IsRun(run) && j <= k < |run| && a in run[j].nodes
    ensures a in run[k].nodes && run[j].nodes[a].term <= run[k].nodes[a].term
  {
    RunAdvances(run, j, k);
    assert Onward(run[j], run[k], a);
  }

  /** At most one leader per term, over all moments of a run. */
  lemma ElectionSafety(run: seq<State>, j: nat, k: nat, a: Id, b: Id)
    requires IsRun(run) && j <= k < |run| && a in run[j].nodes && b in run[k].nodes
    requires run[j].nodes[a].role == Leader && run[k].nodes[b].role == Leader
    requires run[j].nodes[a].term == run[k].nodes[b].term
    ensures a == b
  {
    RunHolds(run, j);
    RunHolds(run, k);
    RunAdvances(run, j, k);
    assert NodeOk(run[j].h.reigns, run[j].nodes[a]) && NodeOk(run[k].h.reigns, run[k].nodes[b]);
    assert MemberOk(run[j], a) && MemberOk(run[k], b);
    assert GrowReign(run[j].h.reigns, run[k].h.reigns, run[j].nodes[a].term);
  }

  /** Two logs, at any two moments, that have the same term at an index are identical up to it. */
  lemma LogMatching(run: seq<State>, j: nat, k: nat, a: Id, b: Id, x: nat)
    requires IsRun(run) && j <= k < |run| && a in run[j].nodes && b in run[k].nodes
    requires x < |run[j].nodes[a].log| && x < |run[k].nodes[b].log|
    requires run[j].nodes[a].log[x].term == run[k].nodes[b].log[x].term
    ensures run[j].nodes[a].log[..x + 1] == run[k].nodes[b].log[..x + 1]
  {
    RunHolds(run, j);
    RunHolds(run, k);
    RunAdvances(run, j, k);
    assert NodeOk(run[j].h.reigns, run[j].nodes[a]) && NodeOk(run[k].h.reigns, run[k].nodes[b]);
    LogOkGrows(run[j].h.reigns, run[k].h.reigns, run[j].nodes[a].log);
    LogsMatch(run[k].h.reigns, run[j].nodes[a].log, run[k].nodes[b].log, x);
  }

  /** Terms never decrease along a log, and an entry's index is its position. */
  lemma LogShape(run: seq<State>, k: nat, a: Id, x: nat, y: nat)
    requires IsRun(run) && k < |run| && a in run[k].nodes && x <= y < |run[k].nodes[a].log|
    ensures 0 < run[k].nodes[a].log[x].term <= run[k].nodes[a].log[y].term <= run[k].nodes[a].term
    ensures run[k].nodes[a].log[x].index == x + 1
  {
    RunHolds(run, k);
    var n, reigns := run[k].nodes[a], run[k].h.reigns;
    assert NodeOk(reigns, n);
    assert EntryOk(reigns, n.log, x);
    TermsOrdered(reigns, n.log, x, y);
    TermsOrdered(reigns, n.log, y, |n.log| - 1);
  }

  /** A leader's log only grows while it leads a term. */
  lemma LeaderAppendOnly(run: seq<State>, j: nat, k: nat, a: Id)
    requires IsRun(run) && j <= k < |run| && a in run[j].nodes && a in run[k].nodes
    requires run[j].nodes[a].role == Leader && run[k].nodes[a].role == Leader
    requires run[j].nodes[a].term == run[k].nodes[a].term
    ensures run[j].nodes[a].log <= run[k].nodes[a].log
  {
    RunHolds(run, j);
    RunHolds(run, k);
    RunAdvances(run, j, k);
    assert NodeOk(run[j].h.reigns, run[j].nodes[a]) && NodeOk(run[k].h.reigns, run[k].nodes[a]);
    assert GrowReign(run[j].h.reigns, run[k].h.reigns, run[j].nodes[a].term);
  }

  /** What a node has committed is in the log of every leader of a newer term, whether that leader
      is seen before or after, and of every later leader of the same term. */
  lemma LeaderCompleteness(run: seq<State>, j: nat, k: nat, a: Id, b: Id)
    requires IsRun(run) && j < |run| && k < |run| && a in run[j].nodes && b in run[k].nodes
    requires run[k].nodes[b].role == Leader
    requires || run[j].nodes[a].term < run[k].nodes[b].term
             || (run[j].nodes[a].term == run[k].nodes[b].term && j <= k)
    ensures run[j].nodes[a].commit <= |run[j].nodes[a].log|
    ensures run[j].nodes[a].log[..run[j].nodes[a].commit] <= run[k].nodes[b].log
  {
    RunHolds(run, j);
    RunHolds(run, k);
    var n, u := run[j].nodes[a], run[k].nodes[b].term;
    assert CommitOk(run[j].h, n) && NodeOk(run[k].h.reigns, run[k].nodes[b]) && ReignOk(run[k], u);
    if j <= k {
      RunAdvances(run, j, k);
      BackedGrows(run[j].h, run[k].h, n.term, n.term, n.log[..n.commit]);
      LeaderHoldsBacked(run[k], n.term, n.log[..n.commit], u);
    } else {
      RunAdvances(run, k, j);
      assert GrowReign(run[k].h.reigns, run[j].h.reigns, u);
      LeaderStartsWithBacked(run[j], n.term, n.log[..n.commit], u);
    }
  }

  /** Index and term of a snapshot name an entry that every leader of a newer term, and every later leader of the
      same term, holds at that index. */
  lemma SnapshotNamesEntry(run: seq<State>, j: nat, k: nat, a: Id, b: Id)
    requires IsRun(run) && j < |run| && k < |run| && a in run[j].nodes && b in run[k].nodes
    requires run[j].nodes[a].commit > 0 && run[k].nodes[b].role == Leader
    requires || run[j].nodes[a].term < run[k].nodes[b].term
             || (run[j].nodes[a].term == run[k].nodes[b].term && j <= k)
    ensures var s, log := TakeSnapshot(run[j].nodes[a]), run[k].nodes[b].log;
            && 0 < s.lastIndex <= |log| && log[s.lastIndex - 1].term == s.lastTerm
            && log[s.lastIndex - 1].index == s.lastIndex
            && s.data == Replay(EMPTY, log[..s.lastIndex]).kv
  {
    LeaderCompleteness(run, j, k, a, b);
    RunHolds(run, j);
    var n, log := run[j].nodes[a], run[k].nodes[b].log;
    assert CommitOk(run[j].h, n);
    assert log[..n.commit] == n.log[..n.commit];
    assert log[n.commit - 1] == log[..n.commit][n.commit - 1] == n.log[n.commit - 1];
    LogShape(run, k, b, n.commit - 1, n.commit - 1);
  }

  /** Committed prefixes of any two nodes, at any two moments, never differ. */
  lemma StateMachineSafety(run: seq<State>, j: nat, k: nat, a: Id, b: Id)
    requires IsRun(run) && j <= k < |run| && a in run[j].nodes && b in run[k].nodes
    ensures var n, m := run[j].nodes[a], run[k].nodes[b];
            && n.commit <= |n.log| && m.commit <= |m.log|
            && (if n.commit <= m.commit then n.log[..n.commit] <= m.log[..m.commit]
                else m.log[..m.commit] <= n.log[..n.commit])
  {
    RunHolds(run, j);
    RunHolds(run, k);
    RunAdvances(run, j, k);
    var n, m := run[j].nodes[a], run[k].nodes[b];
    assert CommitOk(run[j].h, n) && CommitOk(run[k].h, m);
    BackedGrows(run[j].h, run[k].h, n.term, n.term, n.log[..n.commit]);
    if n.commit <= m.commit {
      BackedComparable(run[k], n.term, n.log[..n.commit], m.term, m.log[..m.commit]);
    } else {
      BackedComparable(run[k], m.term, m.log[..m.commit], n.term, n.log[..n.commit]);
    }
  }

  /** A node never loses, moves or un-commits what it has committed. */
  lemma CommitStable(run: seq<State>, j: nat, k: nat, a: Id)
    requires IsRun(run) && j <= k < |run| && a in run[j].nodes
    ensures a in run[k].nodes
    ensures run[j].nodes[a].commit <= run[k].nodes[a].commit
    ensures run[j].nodes[a].commit <= |run[j].nodes[a].log|
    ensures run[j].nodes[a].log[..run[j].nodes[a].commit] <= run[k].nodes[a].log
  {
    RunAdvances(run, j, k);
    assert Onward(run[j], run[k], a);
    StateMachineSafety(run, j, k, a, a);
  }

  /** Nodes that have applied equally much hold the same data and the same staged transactions, and
      both are the reference meaning of their log. */
  lemma ReplicasAgree(run: seq<State>, j: nat, k: nat, a: Id, b: Id)
    requires IsRun(run) && j <= k < |run| && a in run[j].nodes && b in run[k].nodes
    requires run[j].nodes[a].applied == run[k].nodes[b].applied
    ensures run[j].nodes[a].sm == run[k].nodes[b].sm
    ensures run[j].nodes[a].applied <= |run[j].nodes[a].log|
    ensures run[j].nodes[a].sm == Replay(EMPTY, run[j].nodes[a].log[..run[j].nodes[a].applied])
  {
    RunHolds(run, j);
    RunHolds(run, k);
    assert CommitOk(run[j].h, run[j].nodes[a]) && CommitOk(run[k].h, run[k].nodes[b]);
    StateMachineSafety(run, j, k, a, b);
    var n, m := run[j].nodes[a], run[k].nodes[b];
    assert n.log[..n.applied] == m.log[..m.applied];
  }

  /** A message that changes a follower's commit index is accepted, and moves it to exactly the index it
      announces, which it covers. */
  lemma AppendCommits(c: State, i: Id, args: AppendArgs)
    requires Inv(c) && i in c.nodes && AppendOk(c.h, args)
    ensures var n, r := c.nodes[i], HandleAppend(c.nodes[i], args);
            r.0.commit != n.commit ==>
              r.1.success && r.0.commit == args.commit && args.commit <= args.prevIndex + |args.entries|
  {
    var n := c.nodes[i];
    assert MemberOk(c, i);
    if !(args.term < n.term || (args.term == n.term && n.role == Leader)) {
      var n1 := (if args.term > n.term then AdoptTerm(n, args.term) else n).(role := Follower);
      var c1 := WithNode(c, n1);
      QuietStep(c, c1, i, n1);
      if Consistent(n1, args) {
        if args.prevIndex > 0 {
          assert NodeOk(c1.h.reigns, c1.nodes[i]);
          assert EntryOk(c1.h.reigns, n1.log, args.prevIndex - 1);
        }
        MergeFacts(c1, i, args);
        AcceptedForm(c1, i, args);
      }
    }
  }

  /** Every AppendEntries ever sent either covers the commit index it announces, or is refused by every node
      because no entry has term 0. So the rule `min(leader_commit, log.len())` never commits an entry that the
      message did not verify: whoever handles it and moves its commit index moves it to the announced one, within
      the entries of the message. */
  lemma SentAppendsReachCommit(run: seq<State>, k: nat, m: Msg, v: Id)
    requires IsRun(run) && k < |run| && m in run[k].msgs && m.Append? && v in run[k].nodes
    ensures || m.append.commit <= m.append.prevIndex + |m.append.entries|
            || !HandleAppend(run[k].nodes[v], m.append).1.success
    ensures var n, r := run[k].nodes[v], HandleAppend(run[k].nodes[v], m.append);
            r.0.commit != n.commit ==>
              r.0.commit == m.append.commit && m.append.commit <= m.append.prevIndex + |m.append.entries|
  {
    RunHolds(run, k);
    assert MsgOk(run[k], m);
    AppendCommits(run[k], v, m.append);
    if m.append.prevIndex > 0 && m.append.prevTerm == 0 {
      var n := run[k].nodes[v];
      assert NodeOk(run[k].h.reigns, n);
      if m.append.prevIndex <= |n.log| {
        assert EntryOk(run[k].h.reigns, n.log, m.append.prevIndex - 1);
      }
    }
  }

  /** The commit fast-forward of the transaction vote: whoever receives the request holds, up to the
      requested index, exactly what its sender has committed. */
  lemma FastForwardSafe(run: seq<State>, k: nat, m: Msg)
    requires IsRun(run) && k < |run| && m in run[k].msgs && m.TxVote? && m.dst in run[k].nodes
    ensures m.src in run[k].nodes
    ensures var n, sender, x := run[k].nodes[m.dst], run[k].nodes[m.src], m.tx.lastIndex;
            && x <= sender.commit <= |sender.log|
            && x <= |n.log|
            && n.log[..x] == sender.log[..x]
  {
    RunHolds(run, k);
    var c := run[k];
    assert MsgOk(c, m);
    var g :| g in c.gates && g.node == m.src && g.index == m.tx.lastIndex;
    assert GateOk(c, g) && CommitOk(c.h, c.nodes[m.src]);
    if g.index > 0 {
      GateBacks(c, g, m.dst);
      var n, sender := c.nodes[m.dst], c.nodes[m.src];
      BackedComparable(c, n.term, n.log[..g.index], sender.term, sender.log[..sender.commit]);
      assert sender.log[..sender.commit][..g.index] == sender.log[..g.index];
    }
  }

  // ---------- the checkers of the simulation harness ----------

  /** `check_election_safety` */
  ghost predicate ElectionCheck(nodes: map<Id, Node>) {
    forall a, b | a in nodes && b in nodes && nodes[a].role == Leader && nodes[b].role == Leader
                  && nodes[a].term == nodes[b].term :: a == b
  }

  /** `check_log_matching_property` on one pair: term and command agree up to both commit indices,
      which are in range. */
  ghost predicate LogPair(n: Node, m: Node) {
    forall x | 0 <= x < n.commit && x < m.commit ::
      x < |n.log| && x < |m.log| && n.log[x].term == m.log[x].term && n.log[x].command == m.log[x].command
  }

  ghost predicate LogCheck(nodes: map<Id, Node>) {
    forall a, b | a in nodes && b in nodes :: LogPair(nodes[a], nodes[b])
  }

  /** `check_state_machine_safety` on one pair: the same for the applied range. */
  ghost predicate AppliedPair(n: Node, m: Node) {
    forall x | 0 <= x < n.applied && x < m.applied ::
      x < |n.log| && x < |m.log| && n.log[x].command == m.log[x].command
  }

  ghost predicate AppliedCheck(nodes: map<Id, Node>) {
    forall a, b | a in nodes && b in nodes :: AppliedPair(nodes[a], nodes[b])
  }

  /** `check_committed_entry_durability`: what every node has committed is the same everywhere. */
  ghost predicate DurabilityCheck(nodes: map<Id, Node>) {
    forall a, b, x: nat | a in nodes && b in nodes && CommittedByAll(nodes, x) ::
      x < |nodes[a].log| && x < |nodes[b].log| && nodes[a].log[x].command == nodes[b].log[x].command
  }

  ghost predicate CommittedByAll(nodes: map<Id, Node>, x: nat) {
    forall a | a in nodes :: x < nodes[a].commit
  }

  /** No checker ever reports a violation or indexes out of bounds. */
  lemma CheckersNeverFail(run: seq<State>, k: nat)
    requires IsRun(run) && k < |run|
    ensures ElectionCheck(run[k].nodes) && LogCheck(run[k].nodes)
    ensures AppliedCheck(run[k].nodes) && DurabilityCheck(run[k].nodes)
  {
    var nodes := run[k].nodes;
    forall a, b | a in nodes && b in nodes && nodes[a].role == Leader && nodes[b].role == Leader
                  && nodes[a].term == nodes[b].term
      ensures a == b
    {
      ElectionSafety(run, k, k, a, b);
    }
    forall a, b | a in nodes && b in nodes ensures LogPair(nodes[a], nodes[b]) && AppliedPair(nodes[a], nodes[b]) {
      PairAgrees(run, k, a, b);
    }
    forall a, b, x: nat | a in nodes && b in nodes && CommittedByAll(nodes, x)
      ensures x < |nodes[a].log| && x < |nodes[b].log| && nodes[a].log[x].command == nodes[b].log[x].command
    {
      SameAt(run, k, a, b, x);
    }
  }

  lemma PairAgrees(run: seq<State>, k: nat, a: Id, b: Id)
    requires IsRun(run) && k < |run| && a in run[k].nodes && b in run[k].nodes
    ensures LogPair(run[k].nodes[a], run[k].nodes[b]) && AppliedPair(run[k].nodes[a], run[k].nodes[b])
  {
    var n, m := run[k].nodes[a], run[k].nodes[b];
    RunHolds(run, k);
    assert CommitOk(run[k].h, n) && CommitOk(run[k].h, m);
    forall x: nat | x < n.commit && x < m.commit ensures x < |n.log| && x < |m.log| && n.log[x] == m.log[x] {
      SameAt(run, k, a, b, x);
    }
  }

  lemma SameAt(run: seq<State>, k: nat, a: Id, b: Id, x: nat)
    requires IsRun(run) && k < |run| && a in run[k].nodes && b in run[k].nodes
    requires x < run[k].nodes[a].commit && x < run[k].nodes[b].commit
    ensures x < |run[k].nodes[a].log| && x < |run[k].nodes[b].log|
    ensures run[k].nodes[a].log[x] == run[k].nodes[b].log[x]
  {
    StateMachineSafety(run, k, k, a, b);
    var n, m := run[k].nodes[a], run[k].nodes[b];
    assert n.log[x] == n.log[..n.commit][x] && m.log[x] == m.log[..m.commit][x];
  }
}

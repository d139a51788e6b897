/** The assumption about match indices, traced back to two conditions on single steps: a node is elected
    with no match indices left over, and a success is recorded only by the leader it answers. */
module Hypotheses {
  import opened Protocol
  import opened Steps
  import opened Cluster
  import opened Invariant
  import Induction

  /** No node becomes leader with match indices of an earlier leadership (true, for one, if no node is
      elected twice), a success is recorded in the term it was asked in, and late refusals and
      membership changes are as in `Assumed`. */
  ghost predicate StartsClean(c: State, s: Step)
    requires Enabled(c, s)
  {
    var n := c.nodes[s.i];
    match s
    case DoVoteAnswer(i, m) =>
      && (!m.voteReply.granted && m.voteReply.term > m.reqTerm ==> MayAdopt(n, m.voteReply.term))
      && (n.role == Candidate && OnVoteReply(n, m.src, m.reqTerm, m.voteReply).role == Leader ==> n.matchIndex == map[])
    case DoWinAlone(i) => n.role == Candidate && WinAlone(n).role == Leader ==> n.matchIndex == map[]
    case DoTxAnswer(i, m) => m.txReply.term > m.reqTerm && n.role == Leader ==> MayAdopt(n, m.txReply.term)
    case DoPropose(i, cmd) => !cmd.InstallConfiguration?
    case DoAppendAnswer(i, m) => m.appendReply.success ==> n.role == Leader && m.reqTerm == n.term
    case _ => true
  }

  /** Each match index of a leader goes back to an answer of its term. */
  ghost predicate MatchBacked(c: State, n: Node) {
    n.role == Leader ==>
      forall p | p in n.matchIndex && n.matchIndex[p] > 0 :: AnsweredThisTerm(c, n, p, n.matchIndex[p])
  }

  ghost predicate AllBacked(c: State) {
    forall i {:trigger MatchBacked(c, c.nodes[i])} | i in c.nodes :: MatchBacked(c, c.nodes[i])
  }

  lemma AnswersStay(c: State, c': State, n: Node, n': Node, p: Id, index: nat)
    requires AnsweredThisTerm(c, n, p, index) && c.msgs <= c'.msgs && n'.id == n.id && n'.term == n.term
    ensures AnsweredThisTerm(c', n', p, index)
  {
    var m :| m in c.msgs && m.AppendAnswer? && m.src == p && m.dst == n.id
             && m.reqTerm == n.term && m.appendReply.success && m.last >= index;
    assert m in c'.msgs;
  }

  /** A leader that keeps its term and its match indices, or starts with none. */
  ghost predicate KeepsMatches(n: Node, n': Node) {
    n'.id == n.id && (n'.role == Leader ==>
      n'.matchIndex == map[] || (n.role == Leader && n'.term == n.term && n'.matchIndex == n.matchIndex))
  }

  lemma BackedStays(c: State, c': State, i: Id, n': Node)
    requires AllBacked(c) && i in c.nodes && c'.nodes == c.nodes[i := n'] && c.msgs <= c'.msgs
    requires KeepsMatches(c.nodes[i], n') || MatchBacked(c', n')
    ensures AllBacked(c')
  {
    forall j | j in c'.nodes ensures MatchBacked(c', c'.nodes[j]) {
      var n, m := c.nodes[j], c'.nodes[j];
      assert MatchBacked(c, n);
      if (j != i || KeepsMatches(n, n')) && m.role == Leader && m.matchIndex != map[] {
        forall p | p in m.matchIndex && m.matchIndex[p] > 0 ensures AnsweredThisTerm(c', m, p, m.matchIndex[p]) {
          AnswersStay(c, c', n, m, p, m.matchIndex[p]);
        }
      }
    }
  }

  /** What is recorded suffices for every count. */
  lemma BackedCounts(c: State, n: Node, index: nat)
    requires MatchBacked(c, n) && n.role == Leader && index > 0
    ensures CountsOwnAnswers(c, n, index)
  {
    forall p | p in c.nodes && p != n.id && MatchOf(n, p) >= index ensures AnsweredThisTerm(c, n, p, index) {
      assert AnsweredThisTerm(c, n, p, n.matchIndex[p]);
    }
  }

  /** Recording a success of the current term. */
  lemma RecordBacked(c: State, n: Node, m: Msg)
    requires MatchBacked(c, n) && n.role == Leader && m in c.msgs && m.AppendAnswer? && m.dst == n.id
    requires m.reqTerm == n.term && m.appendReply.success
    ensures MatchBacked(c, RecordMatch(n, m.src, m.last))
  {
    var n1 := RecordMatch(n, m.src, m.last);
    forall p | p in n1.matchIndex && n1.matchIndex[p] > 0 ensures AnsweredThisTerm(c, n1, p, n1.matchIndex[p]) {
      if p != m.src {
        AnswersStay(c, c, n, n1, p, n.matchIndex[p]);
      }
    }
  }

  lemma AppendAnswerBacked(c: State, i: Id, m: Msg)
    requires AllBacked(c) && Enabled(c, DoAppendAnswer(i, m))
    requires StartsClean(c, DoAppendAnswer(i, m)) && c.nodes[i].id == i
    ensures Assumed(c, DoAppendAnswer(i, m)) && AllBacked(Do(c, DoAppendAnswer(i, m)))
  {
    var n := c.nodes[i];
    var c' := Do(c, DoAppendAnswer(i, m));
    assert MatchBacked(c, n);
    if m.appendReply.success {
      var n1 := RecordMatch(n, m.src, m.last);
      RecordBacked(c, n, m);
      Induction.MaybeCommitKeeps(n1);
      if MaybeCommit(n1).commit > n.commit {
        BackedCounts(c, n1, MaybeCommit(n1).commit);
      }
      forall p | p in n1.matchIndex && n1.matchIndex[p] > 0
        ensures AnsweredThisTerm(c', MaybeCommit(n1), p, n1.matchIndex[p])
      {
        AnswersStay(c, c', n1, MaybeCommit(n1), p, n1.matchIndex[p]);
      }
    }
    BackedStays(c, c', i, OnAppendReply(n, m.src, m.last, m.appendReply));
  }

  lemma CommitBacked(c: State, i: Id)
    requires AllBacked(c) && i in c.nodes && c.nodes[i].id == i
    ensures Assumed(c, DoCommit(i)) && AllBacked(Do(c, DoCommit(i)))
  {
    var n := c.nodes[i];
    assert MatchBacked(c, n);
    Induction.MaybeCommitKeeps(n);
    if MaybeCommit(n).commit > n.commit {
      BackedCounts(c, n, MaybeCommit(n).commit);
    }
    BackedStays(c, Do(c, DoCommit(i)), i, MaybeCommit(n));
  }

  lemma GateBacked(c: State, i: Id, index: nat)
    requires AllBacked(c) && Enabled(c, DoPassGate(i, index)) && c.nodes[i].id == i
    ensures Assumed(c, DoPassGate(i, index)) && AllBacked(Do(c, DoPassGate(i, index)))
  {
    var n := c.nodes[i];
    assert MatchBacked(c, n);
    if index > 0 {
      BackedCounts(c, n, index);
    }
    assert c.nodes[i := n] == c.nodes;
    BackedStays(c, Do(c, DoPassGate(i, index)), i, n);
  }

  lemma FollowerBacked(c: State, s: Step)
    requires AllBacked(c) && Enabled(c, s) && c.nodes[s.i].id == s.i && (s.DoHandleAppend? || s.DoHandleTxVote?)
    ensures AllBacked(Do(c, s))
  {
    var n := c.nodes[s.i];
    match s
    case DoHandleAppend(i, m) =>
      HandleAppendMatches(n, m.append);
      BackedStays(c, Do(c, s), i, HandleAppend(n, m.append).0);
    case DoHandleTxVote(i, m) =>
      ApplyLogsKeeps(if n.commit < m.tx.lastIndex <= |n.log| then n.(commit := m.tx.lastIndex) else n);
      BackedStays(c, Do(c, s), i, HandleTxVote(n, m.tx).0);
  }

  lemma HandleAppendMatches(n: Node, args: AppendArgs)
    ensures KeepsMatches(n, HandleAppend(n, args).0)
  {
    if !(args.term < n.term || (args.term == n.term && n.role == Leader)) {
      var n1 := (if args.term > n.term then AdoptTerm(n, args.term) else n).(role := Follower);
      if Consistent(n1, args) {
        var n2 := n1.(log := Resolve(n1.log, args.entries), wal := n1.wal + Written(n1.log, args.entries));
        ApplyLogsKeeps(n2.(commit := if args.commit <= |n2.log| then args.commit else |n2.log|));
      }
    }
  }

  lemma OtherBacked(c: State, s: Step)
    requires AllBacked(c) && Enabled(c, s) && StartsClean(c, s) && c.nodes[s.i].id == s.i
    requires !s.DoHandleAppend? && !s.DoHandleTxVote? && !s.DoAppendAnswer? && !s.DoCommit? && !s.DoPassGate?
    ensures Assumed(c, s) && AllBacked(Do(c, s))
  {
    var n, c' := c.nodes[s.i], Do(c, s);
    if s.DoVoteAnswer? || s.DoWinAlone? || s.DoProbeAnswer? {
      ElectionBacked(c, s);
    } else {
      QuietBacked(c, s);
    }
    BackedStays(c, c', s.i, c'.nodes[s.i]);
  }

  lemma QuietBacked(c: State, s: Step)
    requires Enabled(c, s) && c.nodes[s.i].id == s.i
    requires s.DoProbe? || s.DoHandleProbe? || s.DoPromote? || s.DoRequestVote? || s.DoHandleVote? || s.DoPropose?
             || s.DoSendAppend? || s.DoSendTxVote? || s.DoTxAnswer?
    ensures var c' := Do(c, s);
            && s.i in c'.nodes && KeepsMatches(c.nodes[s.i], c'.nodes[s.i])
            && c'.nodes == c.nodes[s.i := c'.nodes[s.i]] && c.msgs <= c'.msgs
  {
    assert c.nodes[s.i := c.nodes[s.i]] == c.nodes;
  }

  lemma ElectionBacked(c: State, s: Step)
    requires Enabled(c, s) && StartsClean(c, s) && c.nodes[s.i].id == s.i
    requires s.DoVoteAnswer? || s.DoWinAlone? || s.DoProbeAnswer?
    ensures var c' := Do(c, s);
            && s.i in c'.nodes && KeepsMatches(c.nodes[s.i], c'.nodes[s.i])
            && c'.nodes == c.nodes[s.i := c'.nodes[s.i]] && c.msgs <= c'.msgs
  {
  }

  lemma StepBacked(c: State, s: Step)
    requires AllBacked(c) && Enabled(c, s) && StartsClean(c, s) && c.nodes[s.i].id == s.i
    ensures Assumed(c, s) && AllBacked(Do(c, s))
  {
    match s
    case DoAppendAnswer(i, m) => AppendAnswerBacked(c, i, m);
    case DoCommit(i) => CommitBacked(c, i);
    case DoPassGate(i, index) => GateBacked(c, i, index);
    case DoHandleAppend(i, m) => FollowerBacked(c, s);
    case DoHandleTxVote(i, m) => FollowerBacked(c, s);
    case _ => OtherBacked(c, s);
  }

  ghost predicate CleanNext(c: State, c': State) {
    exists s :: Enabled(c, s) && StartsClean(c, s) && c' == Do(c, s)
  }

  ghost predicate IsCleanRun(run: seq<State>) {
    && |run| > 0 && Init(run[0])
    && forall k | 0 <= k < |run| - 1 :: CleanNext(run[k], run[k + 1])
  }

  /** Every theorem about runs holds of the runs that keep these two conditions. */
  lemma {:induction false} CleanRunsAreRuns(run: seq<State>)
    requires IsCleanRun(run)
    ensures IsRun(run) && AllBacked(run[|run| - 1])
    decreases |run|
  {
    if |run| == 1 {
      forall i | i in run[0].nodes ensures MatchBacked(run[0], run[0].nodes[i]) {
        assert StartsFresh(run[0], i);
      }
    } else {
      var k := |run| - 2;
      var init := run[..k + 1];
      assert IsCleanRun(init) by {
        forall j | 0 <= j < k ensures CleanNext(init[j], init[j + 1]) {
          assert CleanNext(run[j], run[j + 1]);
        }
      }
      CleanRunsAreRuns(init);
      Induction.RunHolds(init, k);
      assert CleanNext(run[k], run[k + 1]);
      var s :| Enabled(run[k], s) && StartsClean(run[k], s) && run[k + 1] == Do(run[k], s);
      assert MemberOk(run[k], s.i);
      StepBacked(run[k], s);
      OneMore(run, k);
    }
  }

  lemma OneMore(run: seq<State>, k: nat)
    requires |run| == k + 2 && IsRun(run[..k + 1]) && Next(run[k], run[k + 1])
    ensures IsRun(run)
  {
    var init := run[..k + 1];
    assert init[0] == run[0];
    forall j | 0 <= j < |run| - 1 ensures Next(run[j], run[j + 1]) {
      assert j < k ==> Next(init[j], init[j + 1]) && init[j] == run[j] && init[j + 1] == run[j + 1];
    }
  }
}

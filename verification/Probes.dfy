/** Probe rounds over whole runs: what an answer to a probe says about its round, and when a promotion
    happens at the term that was probed. Nothing here needs an assumption beyond the code. */
module Probes {
  import opened Protocol
  import opened Steps
  import opened Cluster
  import Quorum

  ghost predicate AnyNext(c: State, c': State) {
    exists s :: Enabled(c, s) && c' == Do(c, s)
  }

  ghost predicate IsAnyRun(run: seq<State>) {
    && |run| > 0 && Init(run[0])
    && forall k | 0 <= k < |run| - 1 :: AnyNext(run[k], run[k + 1])
  }

  // ---------- one step ----------

  /** Rounds are only added, and never change the term they probe or the servers they are sized for. */
  ghost predicate RoundsStay(n: Node, n': Node) {
    && n'.id == n.id && |n.probes| <= |n'.probes|
    && forall r | 0 <= r < |n.probes| ::
         n'.probes[r].term == n.probes[r].term && n'.probes[r].total == n.probes[r].total
  }

  ghost predicate Named(c: State) { forall i | i in c.nodes :: c.nodes[i].id == i }

  /** The message is about a round that its owner has started, with the term of that round. */
  ghost predicate AboutRound(c: State, owner: Id, round: nat, term: nat) {
    owner in c.nodes && round < |c.nodes[owner].probes| && c.nodes[owner].probes[round].term == term
  }

  ghost predicate ProbeMsgOk(c: State, m: Msg) {
    && (m.ProbeRequest? ==> AboutRound(c, m.src, m.round, m.vote.term))
    && (m.ProbeAnswer? ==> AboutRound(c, m.dst, m.round, m.reqTerm))
  }

  ghost predicate ProbesOk(c: State) {
    Named(c) && forall m {:trigger ProbeMsgOk(c, m)} | m in c.msgs :: ProbeMsgOk(c, m)
  }

  /** What a step does to the rounds of the node that takes it. */
  ghost predicate RoundStep(c: State, s: Step, n': Node)
    requires Enabled(c, s)
  {
    var n := c.nodes[s.i];
    && RoundsStay(n, n')
    && (|n'.probes| > |n.probes| ==>
          s.DoProbe? && n.role == Follower && n'.probes == n.probes + [Probe(n.term + 1, |n.peers| + 1, {})])
  }

  lemma AppendKeepsRounds(n: Node, args: AppendArgs)
    ensures HandleAppend(n, args).0.id == n.id && HandleAppend(n, args).0.probes == n.probes
  {
    if !(args.term < n.term || (args.term == n.term && n.role == Leader)) {
      var n1 := (if args.term > n.term then AdoptTerm(n, args.term) else n).(role := Follower);
      if Consistent(n1, args) {
        var n2 := n1.(log := Resolve(n1.log, args.entries), wal := n1.wal + Written(n1.log, args.entries));
        ApplyLogsKeeps(n2.(commit := if args.commit <= |n2.log| then args.commit else |n2.log|));
      }
    }
  }

  lemma CommitKeepsRounds(n: Node)
    ensures MaybeCommit(n).id == n.id && MaybeCommit(n).probes == n.probes
  {
    if n.role == Leader {
      var highest := Quorum.Highest(n.config, n.matchIndex, n.id, |n.log|, |n.log|);
      ApplyLogsKeeps(n.(commit := highest));
    }
  }

  /** The steps that apply entries leave the rounds alone. */
  lemma ApplyingStep(c: State, s: Step)
    requires Enabled(c, s) && Named(c)
    requires s.DoHandleAppend? || s.DoAppendAnswer? || s.DoCommit? || s.DoHandleTxVote?
    ensures var c' := Do(c, s);
            && s.i in c'.nodes && c'.nodes == c.nodes[s.i := c'.nodes[s.i]] && c.msgs <= c'.msgs
            && c'.nodes[s.i].id == s.i && c'.nodes[s.i].probes == c.nodes[s.i].probes
            && forall m | m in c'.msgs && m !in c.msgs :: !m.ProbeRequest? && !m.ProbeAnswer?
  {
    var n := c.nodes[s.i];
    match s
    case DoHandleAppend(i, m) => AppendKeepsRounds(n, m.append);
    case DoAppendAnswer(i, m) => CommitKeepsRounds(RecordMatch(n, m.src, m.last));
    case DoCommit(i) => CommitKeepsRounds(n);
    case DoHandleTxVote(i, m) =>
      ApplyLogsKeeps(if n.commit < m.tx.lastIndex <= |n.log| then n.(commit := m.tx.lastIndex) else n);
  }

  /** So do all others but a probe, and only probes and their answers are about rounds. */
  lemma OtherStep(c: State, s: Step)
    requires Enabled(c, s) && Named(c)
    requires !(s.DoHandleAppend? || s.DoAppendAnswer? || s.DoCommit? || s.DoHandleTxVote?)
    requires !(s.DoProbe? || s.DoHandleProbe? || s.DoProbeAnswer?)
    ensures var c' := Do(c, s);
            && s.i in c'.nodes && c'.nodes == c.nodes[s.i := c'.nodes[s.i]] && c.msgs <= c'.msgs
            && c'.nodes[s.i].id == s.i && c'.nodes[s.i].probes == c.nodes[s.i].probes
            && forall m | m in c'.msgs && m !in c.msgs :: !m.ProbeRequest? && !m.ProbeAnswer?
  {
    assert c.nodes[s.i := c.nodes[s.i]] == c.nodes;
  }

  lemma AnswerStep(c: State, i: Id, m: Msg)
    requires Enabled(c, DoProbeAnswer(i, m)) && Named(c)
    ensures var c' := Do(c, DoProbeAnswer(i, m));
            && i in c'.nodes && c'.nodes == c.nodes[i := c'.nodes[i]] && c.msgs == c'.msgs
            && RoundStep(c, DoProbeAnswer(i, m), c'.nodes[i])
  {
  }

  lemma RoundsCarry(c: State, c': State, i: Id)
    requires ProbesOk(c) && i in c.nodes && i in c'.nodes && c'.nodes == c.nodes[i := c'.nodes[i]] && c.msgs <= c'.msgs
    requires RoundsStay(c.nodes[i], c'.nodes[i])
    requires forall m | m in c'.msgs && m !in c.msgs :: ProbeMsgOk(c', m)
    ensures ProbesOk(c')
  {
    forall m | m in c'.msgs ensures ProbeMsgOk(c', m) {
      if m in c.msgs {
        assert ProbeMsgOk(c, m);
      }
    }
  }

  lemma StepRounds(c: State, s: Step)
    requires ProbesOk(c) && Enabled(c, s)
    ensures var c' := Do(c, s);
            && s.i in c'.nodes && c'.nodes == c.nodes[s.i := c'.nodes[s.i]]
            && RoundStep(c, s, c'.nodes[s.i]) && ProbesOk(c')
  {
    var c' := Do(c, s);
    match s
    case DoProbe(i) => ProbeStep(c, i);
    case DoHandleProbe(i, m) =>
      assert ProbeMsgOk(c, m);
      assert c.nodes[i := c.nodes[i]] == c.nodes;
      RoundsCarry(c, c', i);
    case DoProbeAnswer(i, m) =>
      AnswerStep(c, i, m);
      RoundsCarry(c, c', i);
    case DoHandleAppend(i, m) =>
      ApplyingStep(c, s);
      RoundsCarry(c, c', i);
    case DoAppendAnswer(i, m) =>
      ApplyingStep(c, s);
      RoundsCarry(c, c', i);
    case DoCommit(i) =>
      ApplyingStep(c, s);
      RoundsCarry(c, c', i);
    case DoHandleTxVote(i, m) =>
      ApplyingStep(c, s);
      RoundsCarry(c, c', i);
    case _ =>
      OtherStep(c, s);
      RoundsCarry(c, c', s.i);
  }

  lemma ProbeStep(c: State, i: Id)
    requires ProbesOk(c) && Enabled(c, DoProbe(i))
    ensures var c' := Do(c, DoProbe(i));
            && i in c'.nodes && c'.nodes == c.nodes[i := c'.nodes[i]]
            && RoundStep(c, DoProbe(i), c'.nodes[i]) && ProbesOk(c')
  {
    var n, c' := c.nodes[i], Do(c, DoProbe(i));
    assert c'.nodes[i] == BecomePreCandidate(n);
    RoundsCarry(c, c', i);
  }

  // ---------- whole runs ----------

  /** Every probe request and every answer in flight carries the term that its round probes. */
  lemma {:induction false} RunRounds(run: seq<State>, k: nat)
    requires IsAnyRun(run) && k < |run|
    ensures ProbesOk(run[k])
  {
    if k == 0 {
      forall i | i in run[0].nodes ensures run[0].nodes[i].id == i {
        assert StartsFresh(run[0], i);
      }
    } else {
      RunRounds(run, k - 1);
      assert AnyNext(run[k - 1], run[k]);
      var s :| Enabled(run[k - 1], s) && run[k] == Do(run[k - 1], s);
      StepRounds(run[k - 1], s);
    }
  }

  /** Round `round` of node `i` was started between moments `j` and `j + 1`, from the term the node had then. */
  ghost predicate StartedAt(run: seq<State>, j: nat, i: Id, round: nat, term: nat) {
    && j + 1 < |run| && i in run[j].nodes && i in run[j + 1].nodes
    && |run[j].nodes[i].probes| == round && |run[j + 1].nodes[i].probes| == round + 1
    && run[j].nodes[i].role == Follower && run[j].nodes[i].term + 1 == term
  }

  lemma {:induction false} RoundStarted(run: seq<State>, k: nat, i: Id, round: nat) returns (j: nat)
    requires IsAnyRun(run) && k < |run| && i in run[k].nodes && round < |run[k].nodes[i].probes|
    ensures j < k && StartedAt(run, j, i, round, run[k].nodes[i].probes[round].term)
    decreases k
  {
    assert k == 0 ==> StartsFresh(run[0], i);
    RunRounds(run, k - 1);
    assert AnyNext(run[k - 1], run[k]);
    var s :| Enabled(run[k - 1], s) && run[k] == Do(run[k - 1], s);
    StepRounds(run[k - 1], s);
    if round < |run[k - 1].nodes[i].probes| {
      j := RoundStarted(run, k - 1, i, round);
    } else {
      j := k - 1;
    }
  }

  /** A grant that promotes a node promotes it at the term its round probed if and only if the node still has
      the term from which that round was started. */
  lemma PromotesAsProbedIff(run: seq<State>, k: nat, i: Id, m: Msg) returns (j: nat)
    requires IsAnyRun(run) && k < |run| && Enabled(run[k], DoProbeAnswer(i, m))
    requires Do(run[k], DoProbeAnswer(i, m)).nodes[i].term != run[k].nodes[i].term
    ensures m.reqTerm == run[k].nodes[i].probes[m.round].term
    ensures j < k && StartedAt(run, j, i, m.round, m.reqTerm)
    ensures Do(run[k], DoProbeAnswer(i, m)).nodes[i].term == m.reqTerm <==> run[k].nodes[i].term == run[j].nodes[i].term
  {
    RunRounds(run, k);
    assert ProbeMsgOk(run[k], m);
    j := RoundStarted(run, k, i, m.round);
    assert Do(run[k], DoProbeAnswer(i, m)).nodes[i].term == run[k].nodes[i].term + 1;
  }
}

/** The coordinator of a two-phase commit on the leader: the waits before the vote, the tally, and
    what a decision to commit says about every peer. */
module Coordinator {
  import opened Protocol
  import opened Reference
  import opened Steps
  import Cluster
  import Invariant
  import Induction
  import Safety
  import Store
  import R = RaftNode

  /** A vote request may time out, fail, or be answered. */
  datatype Answer = Failed | Replied(reply: TxVoteReply)

  datatype VoteResult = VoteResult(peer: Id, answer: Answer)

  /** `NewerTerm`: some peer is ahead, so nothing is decided here. */
  datatype Verdict = Decide(decision: TxDecision) | NewerTerm(term: nat)

  predicate Newer(r: VoteResult, term: nat) { r.answer.Replied? && r.answer.reply.term > term }

  predicate Granted(r: VoteResult) { r.answer.Replied? && r.answer.reply.granted }

  function FirstNewer(results: seq<VoteResult>, term: nat): Option<nat> {
    if results == [] then None
    else
      var k := |results| - 1;
      if FirstNewer(results[..k], term).Some? then FirstNewer(results[..k], term)
      else if Newer(results[k], term) then Some(results[k].answer.reply.term) else None
  }

  function Voters(results: seq<VoteResult>): set<Id> {
    set r | r in results && Granted(r) :: r.peer
  }

  predicate AllGranted(results: seq<VoteResult>) { forall k | 0 <= k < |results| :: Granted(results[k]) }

  /** Nobody refused or failed, and exactly the expected servers said yes. */
  predicate Unanimous(leader: Id, peers: seq<Id>, results: seq<VoteResult>) {
    && AllGranted(results)
    && Voters(results) + {leader} == (set p | p in peers) + {leader}
  }

  function VerdictOf(leader: Id, term: nat, peers: seq<Id>, results: seq<VoteResult>): Verdict {
    if FirstNewer(results, term).Some? then NewerTerm(FirstNewer(results, term).value)
    else Decide(if Unanimous(leader, peers, results) then Commit else Abort)
  }

  // ---------- the tally ----------

  /** The tally loop. Recording the votes on the state machine changes nothing a client can see. */
  method Tally(node: R.RaftNode, txId: TxId, term: nat, peers: seq<Id>, results: seq<VoteResult>) returns (v: Verdict)
    requires node.Valid()
    modifies node.sm
    ensures node.Valid() && node.View() == old(node.View())
    ensures v == VerdictOf(node.id, term, peers, results) && (v.NewerTerm? ==> v.term > term)
  {
    NewerIsNewer(results, term);
    var expected := (set p | p in peers) + {node.id};
    var yes := {node.id};
    var abort := false;
    for i := 0 to |results|
      invariant node.Valid() && node.View() == old(node.View())
      invariant FirstNewer(results[..i], term) == None
      invariant yes == Voters(results[..i]) + {node.id}
      invariant abort <==> !AllGranted(results[..i])
    {
      var r := results[i];
      TallyStep(results, i, term);
      if r.answer.Failed? {
        abort := true;
      } else {
        if r.answer.reply.term > term {
          NewerSticks(results, i + 1, term);
          return NewerTerm(r.answer.reply.term);
        }
        if r.answer.reply.granted {
          yes := yes + {r.peer};
          node.sm.RecordVote(txId, r.peer, Store.Yes);
        } else {
          abort := true;
        }
      }
    }
    assert results[..|results|] == results;
    v := Decide(if abort || yes != expected then Abort else Commit);
  }

  lemma TallyStep(results: seq<VoteResult>, i: nat, term: nat)
    requires i < |results|
    ensures var r, sofar, next := results[i], results[..i], results[..i + 1];
            && Voters(next) == Voters(sofar) + (if Granted(r) then {r.peer} else {})
            && (AllGranted(next) <==> AllGranted(sofar) && Granted(r))
            && (FirstNewer(sofar, term) == None ==>
                  FirstNewer(next, term) == if Newer(r, term) then Some(r.answer.reply.term) else None)
  {
    assert results[..i + 1] == results[..i] + [results[i]];
  }

  lemma {:induction false} NewerSticks(results: seq<VoteResult>, i: nat, term: nat)
    requires i <= |results| && FirstNewer(results[..i], term).Some?
    ensures FirstNewer(results, term) == FirstNewer(results[..i], term)
    decreases |results|
  {
    if i < |results| {
      var k := |results| - 1;
      assert results[..k][..i] == results[..i];
      NewerSticks(results[..k], i, term);
    } else {
      assert results[..i] == results;
    }
  }

  /** The newer term that is reported is the first one in the order of the answers. */
  lemma {:induction false} FirstNewerIsFirst(results: seq<VoteResult>, term: nat, k: nat)
    requires k < |results| && Newer(results[k], term) && forall i | 0 <= i < k :: !Newer(results[i], term)
    ensures FirstNewer(results, term) == Some(results[k].answer.reply.term)
    decreases |results|
  {
    var m := |results| - 1;
    if k < m {
      FirstNewerIsFirst(results[..m], term, k);
    } else {
      NewerIsNewer(results[..m], term);
    }
  }

  /** Acting on a verdict, on whatever the node has become since the tally: a newer term makes a leader
      step down, otherwise the decision is proposed if the node leads now. */
  method FinishRound(node: R.RaftNode, txId: TxId, term: nat, v: Verdict) returns (proposed: Option<TxDecision>)
    requires node.Valid() && (v.NewerTerm? ==> v.term > term)
    modifies node, node.storage
    ensures node.Valid()
    ensures match v
            case NewerTerm(t) =>
              proposed == None && node.View() == OnTxVoteReply(old(node.View()), term, TxVoteReply(t, false))
            case Decide(decision) =>
              && proposed == (if old(node.role) == Leader then Some(decision) else None)
              && node.View() == Propose(old(node.View()), DecideTx(txId, decision)).0
  {
    match v {
      case NewerTerm(t) =>
        proposed := None;
        if node.role == Leader {
          node.StepDown(t);
        }
      case Decide(decision) =>
        var ok := node.Propose(DecideTx(txId, decision));
        proposed := if ok then Some(decision) else None;
    }
  }

  lemma {:induction false} NewerIsNewer(results: seq<VoteResult>, term: nat)
    ensures FirstNewer(results, term).Some? <==> exists k :: 0 <= k < |results| && Newer(results[k], term)
    ensures FirstNewer(results, term).Some? ==> FirstNewer(results, term).value > term
  {
    if results != [] {
      var k := |results| - 1;
      NewerIsNewer(results[..k], term);
      assert forall j | 0 <= j < k :: results[..k][j] == results[j];
      if Newer(results[k], term) {
      }
    }
  }

  // ---------- what a verdict means ----------

  /** The peer `n` votes yes: it is in the leader's term, its log is not fresher than the request, and
      after catching up it holds the transaction staged. */
  ghost predicate VotesYes(n: Node, req: TxVoteArgs) {
    && n.term == req.term
    && UpToDate(req.lastTerm, req.lastIndex, n.log)
    && req.txId in FastForward(n, req.lastIndex).sm.pending
  }

  /** One request per peer: `states[k]` is what peer k is when the request reaches it; an answer may
      also be lost, late or missing. */
  ghost predicate FannedOut(peers: seq<Id>, states: seq<Node>, req: TxVoteArgs, results: seq<VoteResult>) {
    && |states| == |peers| == |results|
    && forall k | 0 <= k < |peers| ::
         results[k].answer.Failed? || results[k] == VoteResult(peers[k], Replied(HandleTxVote(states[k], req).1))
  }

  lemma AnswerMeans(n: Node, req: TxVoteArgs)
    ensures HandleTxVote(n, req).1.granted <==> VotesYes(n, req)
    ensures HandleTxVote(n, req).1.term > req.term <==> n.term > req.term
    ensures VotesYes(n, req) ==> HandleTxVote(n, req).0.term == req.term
    ensures VotesYes(n, req) ==> req.txId in HandleTxVote(n, req).0.sm.pending
  {
    ApplyLogsKeeps(if n.commit < req.lastIndex <= |n.log| then n.(commit := req.lastIndex) else n);
  }

  /** The verdict of a round, for any states the peers may be in and any answers that may get lost:
      commit exactly when every peer answered and votes yes; no decision exactly when an answer came
      from a peer in a newer term; abort in every other case. */
  lemma RoundDecides(leader: Id, peers: seq<Id>, states: seq<Node>, req: TxVoteArgs, results: seq<VoteResult>)
    requires FannedOut(peers, states, req, results)
    ensures var v := VerdictOf(leader, req.term, peers, results);
            && (v == Decide(Commit)
                <==> forall k | 0 <= k < |peers| :: results[k].answer.Replied? && VotesYes(states[k], req))
            && (v.NewerTerm?
                <==> exists k :: 0 <= k < |peers| && results[k].answer.Replied? && states[k].term > req.term)
  {
    NewerIsNewer(results, req.term);
    forall k | 0 <= k < |peers|
      ensures Granted(results[k]) <==> results[k].answer.Replied? && VotesYes(states[k], req)
      ensures Newer(results[k], req.term) <==> results[k].answer.Replied? && states[k].term > req.term
    {
      AnswerMeans(states[k], req);
    }
    if AllGranted(results) {
      AllAnswered(peers, results);
    }
  }

  lemma AllAnswered(peers: seq<Id>, results: seq<VoteResult>)
    requires |peers| == |results|
    requires forall k | 0 <= k < |results| :: Granted(results[k]) && results[k].peer == peers[k]
    ensures Voters(results) == set p | p in peers
  {
    forall p | p in peers ensures p in Voters(results) {
      var k :| 0 <= k < |peers| && peers[k] == p;
      assert results[k] in results && results[k].peer == p;
    }
  }

  /** A decision to commit leaves every peer in the leader's term with the transaction staged. */
  lemma CommitMeansAllStaged(leader: Id, peers: seq<Id>, states: seq<Node>, req: TxVoteArgs,
                             results: seq<VoteResult>, k: nat)
    requires FannedOut(peers, states, req, results) && k < |peers|
    requires VerdictOf(leader, req.term, peers, results) == Decide(Commit)
    ensures results[k] == VoteResult(peers[k], Replied(TxVoteReply(req.term, true)))
    ensures HandleTxVote(states[k], req).0.term == req.term
    ensures req.txId in HandleTxVote(states[k], req).0.sm.pending
  {
    RoundDecides(leader, peers, states, req, results);
    AnswerMeans(states[k], req);
  }

  // ---------- the waits ----------

  predicate Replicated(n: Node, index: nat) { forall p | p in n.peers :: Cluster.MatchOf(n, p) >= index }

  /** Poll `k` finds the entry everywhere, and the node has led at every poll so far. */
  predicate OpensAt(polled: seq<Node>, index: nat, k: int) {
    0 <= k < |polled| && Replicated(polled[k], index) && forall j | 0 <= j <= k :: polled[j].role == Leader
  }

  /** `wait_for_replication` over the states it polls until it gives up: it succeeds exactly if some
      poll opens the gate, at the first that does. */
  method WaitForReplication(polled: seq<Node>, index: nat) returns (ok: bool, at: nat)
    ensures ok ==> OpensAt(polled, index, at) && forall k | 0 <= k < at :: !Replicated(polled[k], index)
    ensures !ok ==> forall k | 0 <= k < |polled| :: !OpensAt(polled, index, k)
  {
    at := 0;
    while at < |polled|
      invariant at <= |polled|
      invariant forall k | 0 <= k < at :: polled[k].role == Leader && !Replicated(polled[k], index)
    {
      if polled[at].role != Leader {
        return false, at;
      }
      var all := true;
      for i := 0 to |polled[at].peers|
        invariant all <==> forall j | 0 <= j < i :: Cluster.MatchOf(polled[at], polled[at].peers[j]) >= index
      {
        var p := polled[at].peers[i];
        var matched := if p in polled[at].matchIndex then polled[at].matchIndex[p] else 0;
        if matched < index {
          all := false;
        }
      }
      if all {
        return true, at;
      }
      at := at + 1;
    }
    ok := false;
  }

  /** Seeing the entry committed first and replicated later is seeing both at once: in a run, the two
      waits together open the gate. */
  lemma WaitsOpenGate(run: seq<Cluster.State>, j: nat, k: nat, a: Id, index: nat)
    requires Cluster.IsRun(run) && j <= k < |run| && a in run[j].nodes
    requires run[j].nodes[a].commit >= index
    requires a in run[k].nodes && run[k].nodes[a].role == Leader && Replicated(run[k].nodes[a], index)
    ensures Cluster.Enabled(run[k], Cluster.DoPassGate(a, index))
  {
    Safety.CommitStable(run, j, k, a);
  }

  /** What a voter stages is the leader's own transaction: whoever handles the request in its term
      votes about the operations in the sender's BeginTx, unless it has already applied a later entry
      about the same transaction. */
  lemma VoteIsAboutLeadersTx(run: seq<Cluster.State>, k: nat, m: Cluster.Msg)
    requires Cluster.IsRun(run) && k < |run| && m in run[k].msgs && m.TxVote? && m.dst in run[k].nodes
    requires m.src in run[k].nodes && 0 < m.tx.lastIndex <= |run[k].nodes[m.src].log|
    requires Begins(run[k].nodes[m.src].log[m.tx.lastIndex - 1], m.tx.txId)
    requires var n := run[k].nodes[m.dst];
             && n.term == m.tx.term && UpToDate(m.tx.lastTerm, m.tx.lastIndex, n.log)
             && forall y | m.tx.lastIndex <= y < n.commit && y < |n.log| ::
                  !Begins(n.log[y], m.tx.txId) && !Decides(n.log[y], m.tx.txId)
    ensures var r := HandleTxVote(run[k].nodes[m.dst], m.tx);
            && r.1.granted
            && m.tx.txId in r.0.sm.pending
            && r.0.sm.pending[m.tx.txId] == run[k].nodes[m.src].log[m.tx.lastIndex - 1].command.ops
  {
    Safety.FastForwardSafe(run, k, m);
    Induction.RunHolds(run, k);
    var c := run[k];
    var n, sender, x := c.nodes[m.dst], c.nodes[m.src], m.tx.lastIndex;
    assert Invariant.CommitOk(c.h, n);
    Induction.NoConfigIn(c, m.dst);
    Induction.FastForwardForm(n, x);
    assert n.log[x - 1] == n.log[..x][x - 1] == sender.log[..x][x - 1] == sender.log[x - 1];
    StagedUntilDecided(EMPTY, n.log, m.tx.txId, x - 1, if n.commit < x then x else n.commit);
  }
}

/** The handlers measured against the rules of the Raft paper: where they agree exactly, and exactly
    when the two shortcuts in the code break a rule. */
module Rules {
  import opened Protocol
  import opened Steps
  import opened Quorum
  import Cluster
  import Safety

  // ---------- the commit rule ----------

  /** Figure 2: a leader may set its commit index to `index`. */
  ghost predicate CommitAllowed(n: Node, index: nat) {
    && n.commit < index <= |n.log|
    && Reached(n.config, n.matchIndex, n.id, |n.log|, index)
    && n.log[index - 1].term == n.term
  }

  ghost predicate TermsRise(log: seq<LogEntry>, bound: nat) {
    forall x, y | 0 <= x <= y < |log| :: log[x].term <= log[y].term <= bound
  }

  /** `maybe_commit` looks at one index only, yet it moves to the greatest index the rule allows,
      and stays if there is none. */
  lemma CommitRuleExact(n: Node)
    requires n.role == Leader && TermsRise(n.log, n.term)
    ensures var target := MaybeCommit(n).commit;
            && (target != n.commit ==> CommitAllowed(n, target))
            && (forall index: nat :: CommitAllowed(n, index) ==> index <= target)
  {
    var highest := Highest(n.config, n.matchIndex, n.id, |n.log|, |n.log|);
    if highest > n.commit && n.log[highest - 1].term == n.term {
      ApplyLogsKeeps(n.(commit := highest));
    }
    forall index: nat | CommitAllowed(n, index) ensures index <= MaybeCommit(n).commit {
      assert index <= highest;
      assert n.log[index - 1].term <= n.log[highest - 1].term <= n.term;
    }
  }

  /** In every reachable state, hence for every leader there is. */
  lemma CommitRuleInRuns(run: seq<Cluster.State>, k: nat, a: Id)
    requires Cluster.IsRun(run) && k < |run| && a in run[k].nodes && run[k].nodes[a].role == Leader
    ensures var n := run[k].nodes[a];
            var target := MaybeCommit(n).commit;
            && (target != n.commit ==> CommitAllowed(n, target))
            && (forall index: nat :: CommitAllowed(n, index) ==> index <= target)
  {
    var n := run[k].nodes[a];
    forall x, y | 0 <= x <= y < |n.log| ensures n.log[x].term <= n.log[y].term <= n.term {
      Safety.LogShape(run, k, a, x, y);
    }
    CommitRuleExact(n);
  }

  // ---------- late refusals ----------

  /** Refusals are compared with the term of the request. For a node that has voted for someone in
      its current term, that lets it vote for another candidate in the same term exactly when the
      refusal is newer than the request and not newer than the node. */
  lemma SecondVoteIff(n: Node, from: Id, reqTerm: nat, reply: VoteReply, first: Id, args: VoteArgs)
    requires !reply.granted && n.vote == Some(first)
    requires args.term == n.term && args.candidate != first && UpToDate(args.lastTerm, args.lastIndex, n.log)
    ensures HandleRequestVote(OnVoteReply(n, from, reqTerm, reply), args).1.granted <==> reqTerm < reply.term <= n.term
  {
  }

  /** The term goes back, or a vote of the current term is forgotten. */
  predicate Regresses(n: Node, n': Node) {
    n'.term < n.term || (n'.term == n.term && n.vote != None && n'.vote != n.vote)
  }

  /** The assumption on late refusals is exactly what rules this out, in both places. */
  lemma RegressesIff(n: Node, from: Id, reqTerm: nat, reply: VoteReply, txReply: TxVoteReply)
    ensures Regresses(n, OnVoteReply(n, from, reqTerm, reply))
        <==> !reply.granted && reply.term > reqTerm && !MayAdopt(n, reply.term)
    ensures Regresses(n, OnTxVoteReply(n, reqTerm, txReply))
        <==> n.role == Leader && txReply.term > reqTerm && !MayAdopt(n, txReply.term)
  {
  }

  // ---------- match indices left from an earlier leadership ----------

  /** A node elected with the match indices it had commits its first proposal before any answer
      exactly when those old indices already form a quorum for the new entry. */
  lemma StaleMatchCommitsIff(n: Node, cmd: Command)
    requires n.role == Candidate && n.commit <= |n.log|
    requires forall x | 0 <= x < |n.log| :: n.log[x].term < n.term
    ensures var m := Propose(BecomeLeader(n), cmd).0;
            MaybeCommit(m).commit != n.commit
            <==> Reached(n.config, n.matchIndex, n.id, |n.log| + 1, |n.log| + 1)
  {
    var m := Propose(BecomeLeader(n), cmd).0;
    assert m.log[|n.log|].term == n.term;
    var highest := Highest(m.config, m.matchIndex, m.id, |m.log|, |m.log|);
    if highest > m.commit && m.log[highest - 1].term == m.term {
      ApplyLogsKeeps(m.(commit := highest));
    }
  }

  // ---------- pre-vote ----------

  /** A probe for a newer term is granted exactly when it is for the next term and the vote itself
      would be granted, and it never changes the voter. */
  lemma PreVotePredictsVote(n: Node, args: VoteArgs)
    requires args.term > n.term
    ensures HandlePreVote(n, args).granted <==> args.term == n.term + 1 && HandleRequestVote(n, args).1.granted
  {
  }

  /** Promotion through pre-vote enters the same election as a timeout does. A round that was left
      behind still counts: its majority promotes the node from whatever round it is in now. */
  lemma PreVotePromotes(n: Node, round: nat, from: Id, probedTerm: nat, reply: VoteReply)
    requires round < |n.probes|
    ensures var n' := OnPreVoteReply(n, round, from, probedTerm, reply);
            n'.term != n.term <==> && reply.term <= probedTerm && reply.granted && n.role == PreCandidate
                                   && 2 * |n.probes[round].granted + {from}| > n.probes[round].total
    ensures var n' := OnPreVoteReply(n, round, from, probedTerm, reply);
            n'.term != n.term ==> n' == Promote(CountGrant(n, round, from))
  {
  }
}

/** What each handler answers and when, written out in the terms of the node and the message alone: both
    directions, every error case, and what stays unchanged. */
module Handlers {
  import opened Protocol
  import opened Reference
  import opened Steps
  import opened LogRepair
  import Quorum

  // ---------- elections ----------

  /** The election restriction of section 5.4.1 of the Raft paper: the claimed last entry is not older than
      the last one of `log`, by term first and by index second. */
  predicate NotOlder(lastTerm: nat, lastIndex: nat, log: seq<LogEntry>) {
    || log == []
    || lastTerm > log[|log| - 1].term
    || (lastTerm == log[|log| - 1].term && lastIndex >= log[|log| - 1].index)
  }

  /** `handle_request_vote` grants exactly a candidate that is not in an older term, that has this node's vote
      or finds it free, and whose log is not older; a newer term is adopted either way. */
  lemma VoteExact(n: Node, a: VoteArgs)
    ensures var (n1, r) := HandleRequestVote(n, a);
            && (r.granted <==> && a.term >= n.term
                               && (a.term > n.term || n.vote == None || n.vote == Some(a.candidate))
                               && NotOlder(a.lastTerm, a.lastIndex, n.log))
            && r.term == (if a.term > n.term then a.term else n.term)
            && n1 == n.(term := r.term,
                        role := if a.term > n.term then Follower else n.role,
                        vote := if r.granted then Some(a.candidate) else if a.term > n.term then None else n.vote)
  {
  }

  /** `handle_pre_vote` grants exactly a probe for the node's term or the next one, unless the node leads the
      probed term, from a log that is not older. */
  lemma PreVoteExact(n: Node, a: VoteArgs)
    ensures var r := HandlePreVote(n, a);
            && (r.granted <==> && n.term <= a.term <= n.term + 1 && !(a.term == n.term && n.role == Leader)
                               && NotOlder(a.lastTerm, a.lastIndex, n.log))
            && r.term == n.term
  {
  }

  /** `become_pre_candidate` starts a round exactly on a follower, for the next term and all its servers, without
      touching term or vote. */
  lemma PreCandidateExact(n: Node)
    ensures n.role == Follower ==>
              BecomePreCandidate(n)
              == n.(role := PreCandidate, probes := n.probes + [Probe(n.term + 1, |n.peers| + 1, {})])
    ensures n.role != Follower ==> BecomePreCandidate(n) == n
  {
  }

  /** `process_pre_vote_reply`: a newer term ends the probe phase, a grant is counted in its own round, and
      more than half of the servers of that round promote a pre-candidate. */
  lemma PreVoteReplyExact(n: Node, round: nat, from: Id, probedTerm: nat, r: VoteReply)
    requires round < |n.probes|
    ensures var n1 := OnPreVoteReply(n, round, from, probedTerm, r);
            var grants := n.probes[round].granted + {from};
            var counted := n.(probes := n.probes[round := Probe(n.probes[round].term, n.probes[round].total, grants)]);
            var wins := n.role == PreCandidate && 2 * |grants| > n.probes[round].total;
            && (r.term > probedTerm ==> n1 == n.(role := if n.role == PreCandidate then Follower else n.role))
            && (r.term <= probedTerm && !r.granted ==> n1 == n)
            && (r.term <= probedTerm && r.granted && wins ==>
                  n1 == counted.(term := n.term + 1, role := Candidate, vote := Some(n.id), votes := {n.id}))
            && (r.term <= probedTerm && r.granted && !wins ==> n1 == counted)
  {
  }

  /** `request_votes`: a candidate is elected exactly by the grant, in its own term, that completes more than
      half of the servers; a refusal from beyond the request's term is adopted. */
  lemma VoteReplyExact(n: Node, from: Id, t: nat, r: VoteReply)
    ensures var n1 := OnVoteReply(n, from, t, r);
            && (n.role != Leader ==>
                  (n1.role == Leader
                   <==> n.role == Candidate && r.granted && n.term == t && 2 * |n.votes + {from}| > |n.peers| + 1))
            && (r.granted && n.role == Candidate && n.term == t ==>
                  && n1.votes == n.votes + {from} && n1.term == n.term && n1.vote == n.vote && n1.log == n.log
                  && n1.matchIndex == n.matchIndex
                  && (n1.role == Leader ==> n1.nextIndex == map p | p in n.peers :: |n.log| + 1)
                  && (n1.role != Leader ==> n1 == n.(votes := n.votes + {from})))
            && (r.granted && !(n.role == Candidate && n.term == t) ==> n1 == n)
            && (!r.granted && r.term > t ==> n1 == n.(term := r.term, role := Follower, vote := None))
            && (!r.granted && r.term <= t ==> n1 == n)
  {
  }

  /** A candidate without peers leads at once. */
  lemma AloneExact(n: Node)
    requires n.role != Leader
    ensures WinAlone(n).role == Leader <==> n.role == Candidate && n.peers == []
    ensures WinAlone(n) == n.(role := WinAlone(n).role, nextIndex := WinAlone(n).nextIndex)
  {
  }

  // ---------- proposing ----------

  /** `propose` succeeds exactly on a leader, and appends one entry of its term to the log and to disk. */
  lemma ProposeExact(n: Node, cmd: Command)
    ensures var (n1, ok) := Propose(n, cmd);
            && (ok <==> n.role == Leader)
            && (ok ==> && n1.log == n.log + [LogEntry(n.term, |n.log| + 1, cmd)]
                       && n1.wal == n.wal + [LogEntry(n.term, |n.log| + 1, cmd)])
            && n1 == n.(log := n1.log, wal := n1.wal) && (!ok ==> n1 == n)
  {
  }

  /** A server of that id is listed in the configuration. */
  predicate Listed(config: Configuration, id: Id) {
    match config
    case Simple(servers) => exists s :: s in servers && s.nodeId == id
    case Joint(before, after) =>
      (exists s :: s in before && s.nodeId == id) || (exists s :: s in after && s.nodeId == id)
  }

  lemma ListedIsContained(config: Configuration, id: Id)
    ensures Contains(config, id) <==> Listed(config, id)
  {
    if config.Joint? {
      CombineIsUnion(config.before, config.after);
    }
  }

  /** `propose_add_node`: which error belongs to which case, and what is proposed otherwise. */
  lemma AddExact(n: Node, s: ServerId)
    ensures var (n1, r) := ProposeAdd(n, s);
            && (r == NotLeader <==> n.role != Leader)
            && (r == AlreadyMember <==> n.role == Leader && Listed(n.config, s.nodeId))
            && (r == Proposed(|n.log| + 1) <==> n.role == Leader && !Listed(n.config, s.nodeId))
            && (r.Proposed? ==>
                  && n1.log == n.log + [LogEntry(n.term, |n.log| + 1, n1.log[|n.log|].command)]
                  && n1.log[|n.log|].command
                       == InstallConfiguration(Joint(AllServers(n.config), AllServers(n.config) + [s]))
                  && n1.pendingSimple == Some(Simple(AllServers(n.config) + [s])))
            && (!r.Proposed? ==> n1 == n)
  {
    ListedIsContained(n.config, s.nodeId);
  }

  /** `propose_remove_node`: a leader proposes the removal of every other member, unless none would remain. */
  lemma RemoveExact(n: Node, id: Id)
    ensures var (n1, r) := ProposeRemove(n, id);
            var others := exists s :: s in AllServers(n.config) && s.nodeId != id;
            && (r == NotLeader <==> n.role != Leader)
            && (r == CannotRemoveSelf <==> n.role == Leader && id == n.id)
            && (r == NotMember <==> n.role == Leader && id != n.id && !Listed(n.config, id))
            && (r == CannotRemoveLast <==> n.role == Leader && id != n.id && Listed(n.config, id) && !others)
            && (r == Proposed(|n.log| + 1) <==> n.role == Leader && id != n.id && Listed(n.config, id) && others)
            && (r.Proposed? ==>
                  && |n1.log| == |n.log| + 1 && n.log <= n1.log
                  && n1.log[|n.log|].command.InstallConfiguration?
                  && n1.log[|n.log|].command.config == Joint(AllServers(n.config), n1.pendingSimple.value.servers)
                  && (forall s :: s in n1.pendingSimple.value.servers
                                  <==> s in AllServers(n.config) && s.nodeId != id))
            && (!r.Proposed? ==> n1 == n)
  {
    ListedIsContained(n.config, id);
    WithoutExact(AllServers(n.config), id);
    var after := Without(AllServers(n.config), id);
    assert after == [] <==> !(exists s :: s in after) by {
      assert after != [] ==> after[0] in after;
    }
  }

  lemma {:induction false} WithoutExact(servers: seq<ServerId>, id: Id)
    ensures forall s :: s in Without(servers, id) <==> s in servers && s.nodeId != id
  {
    if servers != [] {
      WithoutExact(servers[..|servers| - 1], id);
      assert servers == servers[..|servers| - 1] + [servers[|servers| - 1]];
    }
  }

  /** A pending simple configuration follows up on exactly the joint one that leads to it, or on itself. */
  lemma FollowsUpExact(config: Configuration, servers: seq<ServerId>)
    ensures FollowsUp(config, Simple(servers))
        <==> (config.Joint? && config.after == servers) || config == Simple(servers)
  {
  }

  // ---------- replication ----------

  /** The message for a peer: everything from its next index on, after an entry of the leader's own log. */
  lemma BuildExact(n: Node, peer: Id)
    ensures var a := BuildAppend(n, peer);
            var next := if peer in n.nextIndex then n.nextIndex[peer] else 1;
            && a.term == n.term && a.leader == n.id && a.commit == n.commit
            && a.prevIndex == (if next == 0 then 0 else next - 1)
            && (a.prevIndex <= |n.log| ==> n.log == n.log[..a.prevIndex] + a.entries)
            && (a.prevIndex > |n.log| ==> a.entries == [] && a.prevTerm == 0)
            && (0 < a.prevIndex <= |n.log| ==> a.prevTerm == n.log[a.prevIndex - 1].term)
            && (a.prevIndex == 0 ==> a.prevTerm == 0)
  {
  }

  /** `handle_append_entries` succeeds exactly for a sender that is not in an older term, and not in a term this
      node leads, whose previous entry this node holds. In every other case but a refused sender of an old or own
      term, that sender's term is adopted and its lead followed. */
  lemma AppendExact(n: Node, a: AppendArgs)
    ensures var (n1, r) := HandleAppend(n, a);
            var heard := a.term >= n.term && !(a.term == n.term && n.role == Leader);
            && (r.success <==> heard && (a.prevIndex == 0
                                         || (a.prevIndex <= |n.log| && n.log[a.prevIndex - 1].term == a.prevTerm)))
            && r.term == (if heard then a.term else n.term)
            && (!heard ==> n1 == n)
            && (heard ==> n1.term == a.term && n1.role == Follower
                          && n1.vote == (if a.term > n.term then None else n.vote))
            && (heard && !r.success ==> n1 == n.(term := a.term, role := Follower, vote := n1.vote))
  {
    if a.term >= n.term && !(a.term == n.term && n.role == Leader) {
      AcceptedLogForm((if a.term > n.term then AdoptTerm(n, a.term) else n).(role := Follower), a);
    }
  }

  lemma AcceptedLogForm(f: Node, a: AppendArgs)
    requires f.role == Follower
    ensures var merged := f.(log := Resolve(f.log, a.entries), wal := f.wal + Written(f.log, a.entries));
            var n1 := FollowCommit(merged, a.commit);
            && n1.term == f.term && n1.vote == f.vote && n1.role == Follower && n1.log == merged.log
            && n1.commit == (if a.commit <= f.commit then f.commit
                             else if a.commit <= |merged.log| then a.commit else |merged.log|)
  {
    var merged := f.(log := Resolve(f.log, a.entries), wal := f.wal + Written(f.log, a.entries));
    ApplyLogsAsFollower(merged.(commit := if a.commit <= |merged.log| then a.commit else |merged.log|));
  }

  /** A success means that the log holds the message's entries after the previous one, that nothing before them
      has changed, and that the commit index is the announced one as far as the log reaches. */
  lemma AppendHolds(n: Node, a: AppendArgs)
    requires HandleAppend(n, a).1.success
    ensures var n1 := HandleAppend(n, a).0;
            && n1.commit == (if a.commit <= n.commit then n.commit
                             else if a.commit <= |n1.log| then a.commit else |n1.log|)
            && (Contiguous(a.entries, a.prevIndex) ==>
                  && a.prevIndex + |a.entries| <= |n1.log| && n1.log[..a.prevIndex] == n.log[..a.prevIndex]
                  && forall i | 0 <= i < |a.entries| :: n1.log[a.prevIndex + i].term == a.entries[i].term)
  {
    var f := (if a.term > n.term then AdoptTerm(n, a.term) else n).(role := Follower);
    AppendExact(n, a);
    AcceptedIs(n, a, f);
    AcceptedLogForm(f, a);
    if Contiguous(a.entries, a.prevIndex) {
      ResolveContains(n.log, a.entries, a.prevIndex);
    }
  }

  lemma AcceptedIs(n: Node, a: AppendArgs, f: Node)
    requires HandleAppend(n, a).1.success
    requires f == (if a.term > n.term then AdoptTerm(n, a.term) else n).(role := Follower)
    ensures HandleAppend(n, a).0
         == FollowCommit(f.(log := Resolve(f.log, a.entries), wal := f.wal + Written(f.log, a.entries)), a.commit)
  {
  }

  /** The reply to an AppendEntries: a success is recorded and may commit, a newer term is adopted, and any other
      refusal moves the next index back by one, but not below the first entry. */
  lemma AppendReplyExact(n: Node, peer: Id, last: nat, r: AppendReply)
    ensures var n1 := OnAppendReply(n, peer, last, r);
            var next := if peer in n.nextIndex then n.nextIndex[peer] else 1;
            && (r.success ==> && n1.matchIndex == n.matchIndex[peer := last] && n1.term == n.term && n1.role == n.role
                              && n1 == MaybeCommit(n.(matchIndex := n.matchIndex[peer := last],
                                                      nextIndex := n.nextIndex[peer := last + 1])))
            && (!r.success && r.term > n.term ==> n1 == n.(term := r.term, role := Follower, vote := None))
            && (!r.success && r.term <= n.term ==>
                  n1 == if next > 1 then n.(nextIndex := n.nextIndex[peer := next - 1]) else n)
  {
    if r.success {
      var m := RecordMatch(n, peer, last);
      if m.role == Leader {
        ApplyLogsKeeps(m.(commit := Quorum.Highest(m.config, m.matchIndex, m.id, |m.log|, |m.log|)));
      }
    }
  }

  // ---------- the transaction vote ----------

  /** The request about an entry carries the leader's term and the entry's own term. */
  lemma BuildTxVoteExact(n: Node, txId: TxId, index: nat)
    ensures var a := BuildTxVote(n, txId, index);
            && a.term == n.term && a.txId == txId && a.lastIndex == index
            && (0 < index <= |n.log| ==> a.lastTerm == n.log[index - 1].term)
  {
  }

  /** `handle_tx_vote_request`: a newer term is adopted and refused, an older one refused, and in the same term
      the vote is granted exactly to a log that is not older about a transaction that is staged once this node
      has caught up. */
  lemma TxVoteExact(n: Node, req: TxVoteArgs)
    ensures var (n1, r) := HandleTxVote(n, req);
            && (req.term < n.term ==> n1 == n && r == TxVoteReply(n.term, false))
            && (req.term > n.term ==>
                  n1 == n.(term := req.term, role := Follower, vote := None) && r == TxVoteReply(req.term, false))
            && (req.term == n.term ==> r.term == n.term && n1.term == n.term && n1.role == n.role)
            && (req.term == n.term && !NotOlder(req.lastTerm, req.lastIndex, n.log) ==> n1 == n && !r.granted)
            && (req.term == n.term && NotOlder(req.lastTerm, req.lastIndex, n.log) ==>
                  && (r.granted <==> req.txId in n1.sm.pending)
                  && n1 == ApplyLogs(n.(commit := if n.commit < req.lastIndex <= |n.log| then req.lastIndex
                                                  else n.commit)))
  {
    ApplyLogsKeeps(if n.commit < req.lastIndex <= |n.log| then n.(commit := req.lastIndex) else n);
  }

  /** The coordinator steps down exactly if it leads and the reply is from beyond the request's term. */
  lemma TxReplyExact(n: Node, t: nat, r: TxVoteReply)
    ensures OnTxVoteReply(n, t, r)
         == if n.role == Leader && r.term > t then n.(term := r.term, role := Follower, vote := None) else n
  {
  }

  // ---------- starting ----------

  lemma {:induction false} InitialServersExact(id: Id, peers: seq<Id>)
    ensures var servers := InitialServers(id, peers);
            && |servers| == |peers| + 1 && servers[0] == ServerId(id, id)
            && forall i | 0 <= i < |peers| :: servers[i + 1] == ServerId(peers[i], peers[i])
  {
    if peers != [] {
      InitialServersExact(id, peers[..|peers| - 1]);
    }
  }

  /** A node starts as a follower, with the saved term, vote and entries and nothing committed, applied,
      matched, pending or counted. */
  lemma StartExact(id: Id, peers: seq<Id>, term: nat, vote: Option<Id>, wal: seq<LogEntry>, sm: KvState)
    ensures var n := FreshNode(id, peers, term, vote, wal, sm);
            && n.id == id && n.peers == peers && n.term == term && n.vote == vote && n.role == Follower
            && n.log == wal && n.wal == wal && n.commit == 0 && n.applied == 0 && n.sm == sm
            && n.nextIndex == map[] && n.matchIndex == map[] && n.pendingSimple == None
            && n.votes == {} && n.probes == []
            && n.config == Simple(InitialServers(id, peers))
  {
  }

  /** A snapshot is named by the commit index and the term of the entry there. */
  lemma SnapshotExact(n: Node)
    ensures var s := TakeSnapshot(n);
            && s.lastIndex == n.commit && s.data == n.sm.kv
            && (0 < n.commit <= |n.log| ==> s.lastTerm == n.log[n.commit - 1].term)
            && (!(0 < n.commit <= |n.log|) ==> s.lastTerm == 0)
  {
  }

  /** Restoring replaces the data, drops what is staged, and never moves an index back. */
  lemma RestoreExact(n: Node, s: Snapshot)
    ensures var n1 := RestoreSnapshot(n, s);
            && n1.sm == KvState(s.data, map[])
            && n1.commit >= n.commit && n1.commit >= s.lastIndex && (n1.commit == n.commit || n1.commit == s.lastIndex)
            && n1.applied >= n.applied && n1.applied >= s.lastIndex
            && (n1.applied == n.applied || n1.applied == s.lastIndex)
            && n1 == n.(sm := n1.sm, commit := n1.commit, applied := n1.applied)
  {
  }
}

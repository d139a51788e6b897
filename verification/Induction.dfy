/** Each step of the cluster keeps the invariant, so every state of every run has it. */
module Induction {
  import opened Protocol
  import opened Reference
  import opened Steps
  import opened Cluster
  import opened Invariant
  import opened Evolution
  import opened LogRepair
  import opened Preserve
  import Quorum

  lemma InitHolds(c: State)
    requires Init(c)
    ensures Inv(c)
  {
    forall i | i in c.nodes ensures MemberOk(c, i) {
      assert StartsFresh(c, i);
    }
    forall i | i in c.nodes
      ensures NodeOk(c.h.reigns, c.nodes[i]) && CandidateOk(c, c.nodes[i]) && CommitOk(c.h, c.nodes[i])
    {
      assert StartsFresh(c, i);
      FreshNodeOk(c.nodes.Keys, c.h, c.nodes[i]);
    }
    assert MembersOk(c) && NodesOk(c) && CandidatesOk(c) && CommitsOk(c);
    assert ReignsOk(c) && BallotsOk(c) && AcksOk(c) && PointsOk(c) && GatesOk(c) && MsgsOk(c);
  }

  lemma FreshNodeOk(members: set<Id>, h: History, n: Node)
    requires Fresh(members, n)
    ensures NodeOk(h.reigns, n) && CommitOk(h, n)
  {
  }

  /** Nothing to say about a step that changes one node quietly and sends at most one message. */
  lemma QuietStep(c: State, c': State, i: Id, n': Node)
    requires Inv(c) && i in c.nodes && NodeMoves(c.nodes[i], n')
    requires c'.h == c.h && c'.gates == c.gates && c'.nodes == c.nodes[i := n']
    requires var n := c.nodes[i];
             && n'.log == n.log && n'.commit == n.commit && n'.applied == n.applied && n'.sm == n.sm
             && (n'.role == Leader ==> n.role == Leader && n'.term == n.term)
             && (n'.role == Candidate ==> n'.term == n.term && n'.votes == n.votes)
    requires forall m | m in c'.msgs && m !in c.msgs :: MsgOk(c', m)
    ensures Inv(c')
  {
    var n := c.nodes[i];
    SameReigns(c.h.reigns);
    assert CandidateOk(c, n);
    QuietKeeps(c, c', i);
  }

  /** Adopting a newer term. */
  lemma AdoptKeeps(c: State, i: Id, term: nat)
    requires Inv(c) && i in c.nodes && MayAdopt(c.nodes[i], term)
    ensures Inv(WithNode(c, AdoptTerm(c.nodes[i], term)))
  {
    assert MemberOk(c, i);
    QuietStep(c, WithNode(c, AdoptTerm(c.nodes[i], term)), i, AdoptTerm(c.nodes[i], term));
  }

  lemma SendKeeps(c: State, i: Id, m: Msg)
    requires Inv(c) && i in c.nodes && MsgOk(c, m)
    ensures Inv(Send(c, m))
  {
    assert MemberOk(c, i);
    assert c.nodes[i := c.nodes[i]] == c.nodes;
    QuietStep(c, Send(c, m), i, c.nodes[i]);
  }

  // ---------- elections ----------

  lemma ProbeKeeps(c: State, i: Id)
    requires Inv(c) && Enabled(c, DoProbe(i))
    ensures Inv(Do(c, DoProbe(i)))
  {
    assert MemberOk(c, i);
    var n' := BecomePreCandidate(c.nodes[i]);
    QuietStep(c, Do(c, DoProbe(i)), i, n');
  }

  lemma ProbeAnswerKeeps(c: State, i: Id, round: nat, src: Id, reqTerm: nat, reply: VoteReply)
    requires Inv(c) && i in c.nodes && round < |c.nodes[i].probes|
    ensures Inv(ProbeEffect(c, c.nodes[i], OnPreVoteReply(c.nodes[i], round, src, reqTerm, reply)))
  {
    var n := c.nodes[i];
    var n' := OnPreVoteReply(n, round, src, reqTerm, reply);
    assert MemberOk(c, i);
    if n'.term > n.term {
      var n1 := CountGrant(n, round, src);
      var c1 := WithNode(c, n1);
      QuietStep(c, c1, i, n1);
      PromoteKeeps(c1, i);
      assert c1.nodes[i := n'] == c.nodes[i := n'];
      assert SelfVote(c.h, n) == SelfVote(c1.h, n1);
    } else {
      QuietStep(c, WithNode(c, n'), i, n');
    }
  }

  lemma HandleVoteKeeps(c: State, i: Id, m: Msg)
    requires Inv(c) && i in c.nodes && m in c.msgs && m.VoteRequest?
    ensures Inv(VoteEffect(c, c.nodes[i], m.src, m.vote, HandleRequestVote(c.nodes[i], m.vote)))
  {
    var n, args := c.nodes[i], m.vote;
    var r := HandleRequestVote(n, args);
    var c' := VoteEffect(c, n, m.src, args, r);
    assert MemberOk(c, i) && MsgOk(c, m);
    if r.1.granted {
      var n1 := if args.term > n.term then AdoptTerm(n, args.term) else n;
      var c1 := WithNode(c, n1);
      QuietStep(c, c1, i, n1);
      assert c'.nodes == c1.nodes[i := n1.(vote := Some(args.candidate))];
      GrantKeeps(c1, c', i, m);
    } else {
      QuietStep(c, c', i, r.0);
    }
  }

  /** Granting a vote in the voter's own term. */
  lemma GrantKeeps(c: State, c': State, i: Id, m: Msg)
    requires Inv(c) && i in c.nodes && m in c.msgs && m.VoteRequest? && m.vote.term == c.nodes[i].term
    requires var n, args := c.nodes[i], m.vote;
             && (n.vote == None || n.vote == Some(args.candidate))
             && UpToDate(args.lastTerm, args.lastIndex, n.log)
             && c'.nodes == c.nodes[i := n.(vote := Some(args.candidate))]
             && c'.h == c.h.(ballots := c.h.ballots + {CastVote(c.h, n, args)})
    requires c'.gates == c.gates
    requires c'.msgs == c.msgs + {VoteAnswer(i, m.src, m.vote.term, VoteReply(m.vote.term, true))}
    ensures Inv(c')
  {
    var n, args := c.nodes[i], m.vote;
    var b := CastVote(c.h, n, args);
    assert MemberOk(c, i) && MsgOk(c, m) && NodeOk(c.h.reigns, n) && CandidateOk(c, n);
    SameReigns(c.h.reigns);
    assert b in c'.h.ballots;
    assert BallotOk(c', b);
    assert HasBallot(c'.h, args.term, i, m.src);
    assert CandidateOk(c', c'.nodes[i]) by {
      if n.role == Candidate {
        forall v | v in n.votes ensures HasBallot(c'.h, n.term, v, n.id) {
          HasBallotGrows(c.h, c'.h, n.term, v, n.id);
        }
      }
    }
    BallotKeeps(c, c', i, b);
  }

  lemma VoteAnswerKeeps(c: State, i: Id, m: Msg)
    requires Inv(c) && i in c.nodes && m in c.msgs && m.dst == i && m.VoteAnswer?
    requires !m.voteReply.granted && m.voteReply.term > m.reqTerm ==> MayAdopt(c.nodes[i], m.voteReply.term)
    ensures Inv(CountEffect(c, c.nodes[i], OnVoteReply(c.nodes[i], m.src, m.reqTerm, m.voteReply)))
  {
    var n := c.nodes[i];
    assert MemberOk(c, i) && MsgOk(c, m) && CandidateOk(c, n);
    assert c.nodes[i := n] == c.nodes;
    if m.voteReply.granted {
      if n.role == Candidate && n.term == m.reqTerm {
        GrantedKeeps(c, i, m.src);
      }
    } else if m.voteReply.term > m.reqTerm {
      AdoptKeeps(c, i, m.voteReply.term);
    }
  }

  lemma GrantedKeeps(c: State, i: Id, v: Id)
    requires Inv(c) && i in c.nodes && v in c.nodes && c.nodes[i].role == Candidate
    requires HasBallot(c.h, c.nodes[i].term, v, i)
    ensures var n := c.nodes[i];
            Inv(CountEffect(c, n, OnVoteReply(n, v, n.term, VoteReply(n.term, true))))
  {
    var n := c.nodes[i];
    assert MemberOk(c, i);
    var n1 := n.(votes := n.votes + {v});
    var c1 := WithNode(c, n1);
    CountKeeps(c, c1, i, v);
    if |n1.votes| > (|n.peers| + 1) / 2 {
      CountedWins(c1, i);
      CrownKeeps(c1, i);
      var n2 := BecomeLeader(n1);
      assert c1.nodes[i := n2] == c.nodes[i := n2];
    }
  }

  lemma CountedWins(c: State, i: Id)
    requires Inv(c) && i in c.nodes && c.nodes[i].role == Candidate
    requires |c.nodes[i].votes| > (|c.nodes[i].peers| + 1) / 2
    ensures Quorum.Majority(c.nodes[i].votes, c.nodes.Keys)
  {
    assert MemberOk(c, i) && CandidateOk(c, c.nodes[i]);
  }

  lemma CountKeeps(c: State, c': State, i: Id, v: Id)
    requires Inv(c) && i in c.nodes && v in c.nodes && c.nodes[i].role == Candidate
    requires HasBallot(c.h, c.nodes[i].term, v, i)
    requires c' == c.(nodes := c.nodes[i := c.nodes[i].(votes := c.nodes[i].votes + {v})])
    ensures Inv(c')
  {
    var n := c.nodes[i];
    assert MemberOk(c, i) && CandidateOk(c, n);
    SameReigns(c.h.reigns);
    forall w | w in n.votes + {v} ensures HasBallot(c'.h, n.term, w, n.id) {
      if w != v {
        HasBallotGrows(c.h, c'.h, n.term, w, n.id);
      }
    }
    QuietKeeps(c, c', i);
  }

  lemma WinAloneKeeps(c: State, i: Id)
    requires Inv(c) && i in c.nodes
    ensures Inv(Do(c, DoWinAlone(i)))
  {
    var n := c.nodes[i];
    assert MemberOk(c, i) && CandidateOk(c, n);
    assert c.nodes[i := n] == c.nodes;
    if n.peers == [] && n.role == Candidate {
      Quorum.SubsetSize({i}, n.votes);
      CrownKeeps(c, i);
    }
  }

  // ---------- replication ----------

  lemma ProposalKeeps(c: State, i: Id, cmd: Command)
    requires Inv(c) && i in c.nodes && !cmd.InstallConfiguration?
    ensures Inv(Do(c, DoPropose(i, cmd)))
  {
    assert MemberOk(c, i);
    if c.nodes[i].role == Leader {
      ProposeKeeps(c, i, cmd);
    } else {
      assert c.nodes[i := c.nodes[i]] == c.nodes;
    }
  }

  /** A built message carries the log from its predecessor to the end, so it always reaches the
      commit index it announces; otherwise it names a predecessor of term 0. */
  lemma BuildAppendForm(n: Node, to: Id)
    ensures var args := BuildAppend(n, to);
            && args.term == n.term && args.commit == n.commit
            && (|| (args.prevIndex > 0 && args.prevTerm == 0)
                || (&& args.prevIndex + |args.entries| == |n.log|
                    && args.entries == n.log[args.prevIndex..args.prevIndex + |args.entries|]
                    && (args.prevIndex > 0 ==> args.prevTerm == n.log[args.prevIndex - 1].term)))
  {
  }

  lemma BuiltAppendOk(c: State, i: Id, to: Id)
    requires Inv(c) && i in c.nodes && c.nodes[i].role == Leader
    ensures AppendOk(c.h, BuildAppend(c.nodes[i], to))
  {
    assert NodeOk(c.h.reigns, c.nodes[i]) && CommitOk(c.h, c.nodes[i]);
    BuildAppendForm(c.nodes[i], to);
  }

  lemma SendAppendKeeps(c: State, i: Id, to: Id)
    requires Inv(c) && Enabled(c, DoSendAppend(i, to))
    ensures Inv(Do(c, DoSendAppend(i, to)))
  {
    BuiltAppendOk(c, i, to);
    SendKeeps(c, i, Append(i, to, BuildAppend(c.nodes[i], to)));
  }

  lemma NoConfigIn(c: State, i: Id)
    requires Inv(c) && i in c.nodes
    ensures NoConfigChange(c.nodes[i].log)
  {
    assert NodeOk(c.h.reigns, c.nodes[i]);
    LogHasNoConfig(c.h.reigns, c.nodes[i].log);
  }

  lemma LogHasNoConfig(reigns: map<nat, Reign>, log: seq<LogEntry>)
    requires LogOk(reigns, log)
    ensures NoConfigChange(log)
  {
    forall k | 0 <= k < |log| ensures !log[k].command.InstallConfiguration? {
      assert EntryOk(reigns, log, k);
    }
  }

  /** The follower's commit rule reaches exactly the announced index when the log does. */
  lemma FollowCommitForm(n: Node, leaderCommit: nat)
    requires NoConfigChange(n.log) && n.applied == n.commit <= |n.log| && leaderCommit <= |n.log|
    requires n.sm == Replay(EMPTY, n.log[..n.commit])
    ensures var k := if leaderCommit > n.commit then leaderCommit else n.commit;
            FollowCommit(n, leaderCommit) == n.(commit := k, applied := k, sm := Replay(EMPTY, n.log[..k]))
  {
    if leaderCommit > n.commit {
      ApplyLogsForm(n.(commit := leaderCommit));
    }
  }

  lemma HandleAppendKeeps(c: State, i: Id, src: Id, args: AppendArgs)
    requires Inv(c) && i in c.nodes && AppendOk(c.h, args)
    ensures Inv(AppendEffect(c, i, src, args, HandleAppend(c.nodes[i], args)))
  {
    var n := c.nodes[i];
    assert MemberOk(c, i);
    if args.term < n.term || (args.term == n.term && n.role == Leader) {
      assert c.nodes[i := n] == c.nodes;
      QuietStep(c, AppendEffect(c, i, src, args, (n, AppendReply(n.term, false))), i, n);
    } else {
      var n1 := (if args.term > n.term then AdoptTerm(n, args.term) else n).(role := Follower);
      var c1 := WithNode(c, n1);
      QuietStep(c, c1, i, n1);
      var r := AcceptEntries(n1, args);
      FromLeaderKeeps(c1, i, src, args, r);
      assert c.nodes[i := n1][i := r.0] == c.nodes[i := r.0];
      assert AppendEffect(c1, i, src, args, r) == AppendEffect(c, i, src, args, r);
    }
  }

  /** The sender is accepted as leader of the follower's term. */
  lemma FromLeaderKeeps(c: State, i: Id, src: Id, args: AppendArgs, r: (Node, AppendReply))
    requires Inv(c) && i in c.nodes && AppendOk(c.h, args) && r == AcceptEntries(c.nodes[i], args)
    requires c.nodes[i].role == Follower && c.nodes[i].term == args.term
    ensures r.0.id == i && Inv(AppendEffect(c, i, src, args, r))
  {
    var n := c.nodes[i];
    assert MemberOk(c, i);
    if Consistent(n, args) {
      AcceptStep(c, i, src, args);
    } else {
      assert c.nodes[i := n] == c.nodes;
      QuietStep(c, AppendEffect(c, i, src, args, r), i, n);
    }
  }

  ghost function Accepted(n: Node, args: AppendArgs): Node {
    FollowCommit(n.(log := Resolve(n.log, args.entries), wal := n.wal + Written(n.log, args.entries)), args.commit)
  }

  lemma AcceptStep(c: State, i: Id, src: Id, args: AppendArgs)
    requires Inv(c) && i in c.nodes && AppendOk(c.h, args)
    requires c.nodes[i].role == Follower && c.nodes[i].term == args.term && Consistent(c.nodes[i], args)
    ensures Accepted(c.nodes[i], args).id == i
    ensures Inv(AppendEffect(c, i, src, args, (Accepted(c.nodes[i], args), AppendReply(args.term, true))))
  {
    var n := c.nodes[i];
    assert MemberOk(c, i) && NodeOk(c.h.reigns, n);
    if args.prevIndex > 0 {
      assert EntryOk(c.h.reigns, n.log, args.prevIndex - 1);
    }
    MergeFacts(c, i, args);
    AcceptedForm(c, i, args);
    AcceptedNodeKeeps(c, i, src, args, Accepted(n, args));
  }

  lemma AcceptedNodeKeeps(c: State, i: Id, src: Id, args: AppendArgs, n': Node)
    requires Inv(c) && Accepts(c, i, args) && c.nodes[i].role == Follower
    requires MergedOk(c, i, args, n'.log)
    requires var n := c.nodes[i];
             var k := if args.commit > n.commit then args.commit else n.commit;
             && k <= |n'.log|
             && n' == n.(log := n'.log, wal := n'.wal, commit := k, applied := k, sm := Replay(EMPTY, n'.log[..k]))
    ensures Inv(AppendEffect(c, i, src, args, (n', AppendReply(args.term, true))))
  {
    assert MemberOk(c, i);
    SameReigns(c.h.reigns);
    AcceptKeeps(c, AppendEffect(c, i, src, args, (n', AppendReply(args.term, true))), i, args);
  }

  /** The follower after an accepted message: a message never makes it commit an entry that the
      message did not verify. */
  lemma AcceptedForm(c: State, i: Id, args: AppendArgs)
    requires Inv(c) && Accepts(c, i, args) && MergedOk(c, i, args, Resolve(c.nodes[i].log, args.entries))
    ensures var n, n' := c.nodes[i], Accepted(c.nodes[i], args);
            var k := if args.commit > n.commit then args.commit else n.commit;
            && n'.log == Resolve(n.log, args.entries)
            && k <= |n'.log|
            && n' == n.(log := n'.log, wal := n'.wal, commit := k, applied := k, sm := Replay(EMPTY, n'.log[..k]))
  {
    var n := c.nodes[i];
    var n2 := n.(log := Resolve(n.log, args.entries), wal := n.wal + Written(n.log, args.entries));
    assert CommitOk(c.h, n);
    LogHasNoConfig(c.h.reigns, n2.log);
    FollowCommitForm(n2, args.commit);
  }

  lemma AppendAnswerKeeps(c: State, i: Id, src: Id, last: nat, reply: AppendReply)
    requires Inv(c) && i in c.nodes
    requires var n1 := RecordMatch(c.nodes[i], src, last);
             reply.success && MaybeCommit(n1).commit > n1.commit ==> CountsOwnAnswers(c, n1, MaybeCommit(n1).commit)
    ensures Inv(AnswerEffect(c, src, last, reply, c.nodes[i]))
  {
    var n := c.nodes[i];
    assert MemberOk(c, i) && CandidateOk(c, n);
    if reply.success {
      SuccessKeeps(c, i, RecordMatch(n, src, last));
    } else if reply.term > n.term {
      AdoptKeeps(c, i, reply.term);
    } else {
      var n' := OnAppendReply(n, src, last, reply);
      QuietStep(c, WithNode(c, n'), i, n');
    }
  }

  lemma SuccessKeeps(c: State, i: Id, n1: Node)
    requires Inv(c) && i in c.nodes
    requires n1 == c.nodes[i].(matchIndex := n1.matchIndex, nextIndex := n1.nextIndex)
    requires MaybeCommit(n1).commit > n1.commit ==> CountsOwnAnswers(c, n1, MaybeCommit(n1).commit)
    ensures Inv(WithNode(c, MaybeCommit(n1)).(h := RecordCommit(c.h, c.nodes.Keys, n1, MaybeCommit(n1))))
  {
    var c1, n' := WithNode(c, n1), MaybeCommit(n1);
    assert MemberOk(c, i) && CandidateOk(c, c.nodes[i]);
    QuietStep(c, c1, i, n1);
    SameAnswers(c, c1, n1, n'.commit);
    MaybeCommitKeeps(n1);
    CommitKeeps(c1, i);
    assert c1.nodes[i := n'] == c.nodes[i := n'] && c1.nodes.Keys == c.nodes.Keys;
  }

  lemma SameAnswers(c: State, c1: State, n: Node, index: nat)
    requires c1.msgs == c.msgs && c1.nodes.Keys == c.nodes.Keys
    ensures CountsOwnAnswers(c, n, index) ==> CountsOwnAnswers(c1, n, index)
  {
    if CountsOwnAnswers(c, n, index) {
      forall p | p in c1.nodes && p != n.id && MatchOf(n, p) >= index ensures AnsweredThisTerm(c1, n, p, index) {
        assert AnsweredThisTerm(c, n, p, index);
      }
    }
  }

  lemma MaybeCommitKeeps(n: Node)
    ensures var r := MaybeCommit(n);
            r.id == n.id && r.role == n.role && r.term == n.term && r.matchIndex == n.matchIndex
  {
    var highest := Quorum.Highest(n.config, n.matchIndex, n.id, |n.log|, |n.log|);
    ApplyLogsKeeps(n.(commit := highest));
  }

  // ---------- committing ----------

  /** What `maybe_commit` does to a leader whose log holds no membership change. */
  lemma MaybeCommitForm(n: Node)
    requires NoConfigChange(n.log) && n.applied == n.commit <= |n.log| && n.sm == Replay(EMPTY, n.log[..n.commit])
    ensures var k := MaybeCommit(n).commit;
            && n.commit <= k <= |n.log|
            && MaybeCommit(n) == n.(commit := k, applied := k, sm := Replay(EMPTY, n.log[..k]))
            && (k > n.commit ==> n.role == Leader && n.log[k - 1].term == n.term
                                 && Quorum.Reached(n.config, n.matchIndex, n.id, |n.log|, k))
  {
    if n.role == Leader {
      var highest := Quorum.Highest(n.config, n.matchIndex, n.id, |n.log|, |n.log|);
      if highest > n.commit && n.log[highest - 1].term == n.term {
        ApplyLogsForm(n.(commit := highest));
      }
    }
  }

  ghost function CountedFor(c: State, n: Node, index: nat): set<Id> {
    set p | p in c.nodes.Keys && (p == n.id || MatchOf(n, p) >= index)
  }

  /** The servers `maybe_commit` counts are a majority of the cluster. */
  lemma CountedIsMajority(c: State, i: Id, index: nat)
    requires i in c.nodes && MemberOk(c, i) && index <= |c.nodes[i].log|
    requires var n := c.nodes[i]; Quorum.Reached(n.config, n.matchIndex, n.id, |n.log|, index)
    ensures Quorum.Majority(CountedFor(c, c.nodes[i], index), c.nodes.Keys)
  {
    var n := c.nodes[i];
    Quorum.ReachedIsMajority(n.config.servers, n.matchIndex, n.id, |n.log|, index);
    var counted := Quorum.Counted(n.config.servers, n.matchIndex, n.id, |n.log|, index);
    assert counted <= CountedFor(c, n, index);
    Quorum.SubsetSize(counted, CountedFor(c, n, index));
  }

  lemma AnswerIsAck(c: State, n: Node, p: Id, index: nat)
    requires MsgsOk(c) && AnsweredThisTerm(c, n, p, index)
    ensures Acked(c.h, n.term, p, index)
  {
    var m :| m in c.msgs && m.AppendAnswer? && m.src == p && m.dst == n.id
             && m.reqTerm == n.term && m.appendReply.success && m.last >= index;
    assert MsgOk(c, m);
  }

  lemma CommitKeeps(c: State, i: Id)
    requires Inv(c) && i in c.nodes
    requires var n := c.nodes[i];
             MaybeCommit(n).commit > n.commit ==> CountsOwnAnswers(c, n, MaybeCommit(n).commit)
    ensures var n := c.nodes[i];
            Inv(WithNode(c, MaybeCommit(n)).(h := RecordCommit(c.h, c.nodes.Keys, n, MaybeCommit(n))))
  {
    var n := c.nodes[i];
    var k := MaybeCommit(n).commit;
    assert MemberOk(c, i) && CommitOk(c.h, n) && NodeOk(c.h.reigns, n);
    NoConfigIn(c, i);
    MaybeCommitForm(n);
    if k > n.commit {
      CommitAdvanceKeeps(c, i, MaybeCommit(n));
    } else {
      assert MaybeCommit(n) == n;
      assert c.nodes[i := n] == c.nodes;
    }
  }

  /** A leader that commits what it counted. */
  lemma CommitAdvanceKeeps(c: State, i: Id, n': Node)
    requires Inv(c) && i in c.nodes && c.nodes[i].role == Leader && c.nodes[i].id == i
    requires var n, k := c.nodes[i], n'.commit;
             && n.commit < k <= |n.log| && n.log[k - 1].term == n.term
             && n' == n.(commit := k, applied := k, sm := Replay(EMPTY, n.log[..k]))
             && Quorum.Reached(n.config, n.matchIndex, n.id, |n.log|, k) && CountsOwnAnswers(c, n, k)
    ensures Inv(WithNode(c, n').(h := RecordCommit(c.h, c.nodes.Keys, c.nodes[i], n')))
  {
    var n, k := c.nodes[i], n'.commit;
    CountedIsMajority(c, i, k);
    var quorum := CountedFor(c, n, k);
    forall v | v in quorum && v != i ensures Acked(c.h, n.term, v, k) {
      AnswerIsAck(c, n, v, k);
    }
    PointKeeps(c, i, k, quorum);
    var c1 := c.(h := RecordCommit(c.h, c.nodes.Keys, n, n'));
    SameReigns(c1.h.reigns);
    assert MemberOk(c, i);
    AdvanceKeeps(c1, WithNode(c1, n'), i);
  }

  // ---------- the transaction side channel ----------

  lemma PassGateKeeps(c: State, i: Id, index: nat)
    requires Inv(c) && Enabled(c, DoPassGate(i, index)) && Assumed(c, DoPassGate(i, index))
    ensures Inv(Do(c, DoPassGate(i, index)))
  {
    var n := c.nodes[i];
    var g := Gate(i, n.term, index);
    assert MemberOk(c, i) && NodeOk(c.h.reigns, n) && CommitOk(c.h, n);
    BackedLess(c.h, n.term, n.log[..n.commit], index);
    assert n.log[..n.commit][..index] == n.log[..index];
    forall v | v in c.nodes && v != i && index > 0 ensures Acked(c.h, n.term, v, index) {
      assert v in n.peers;
      AnswerIsAck(c, n, v, index);
    }
    GateKeeps(c, g);
  }

  /** The fast-forward is safe: a node that a passed gate talks to holds the committed prefix. */
  lemma GateBacks(c: State, g: Gate, i: Id)
    requires Inv(c) && g in c.gates && i in c.nodes && i != g.node && g.index > 0
    ensures g.index <= |c.nodes[i].log|
    ensures Backed(c.h, c.nodes[i].term, c.nodes[i].log[..g.index])
  {
    var n, reigns := c.nodes[i], c.h.reigns;
    assert GateOk(c, g);
    assert Acked(c.h, g.term, i, g.index);
    var a :| a in c.h.acks && a.term == g.term && a.node == i && a.index >= g.index;
    assert AckOk(c, a);
    assert Kept(reigns, g.term, g.index, n.log, n.term);
    var s := reigns[g.term].log[..g.index];
    if Lost(reigns, g.term, g.index, n.term) {
      var u :| u in reigns && g.term < u <= n.term && !Holds(reigns[u].base, reigns[g.term].log, g.index);
      CommittedNotLost(c, g, u);
      assert false;
    }
    BackedGrowsBound(c.h, g.term, n.term, s);
  }

  lemma BackedGrowsBound(h: History, bound: nat, bound': nat, s: seq<LogEntry>)
    requires Backed(h, bound, s) && bound <= bound'
    ensures Backed(h, bound', s)
  {
    SameReigns(h.reigns);
    BackedGrows(h, h, bound, bound', s);
  }

  lemma CommittedNotLost(c: State, g: Gate, u: nat)
    requires Inv(c) && g in c.gates && GateOk(c, g) && g.index > 0 && u in c.h.reigns && g.term < u
    ensures Holds(c.h.reigns[u].base, c.h.reigns[g.term].log, g.index)
  {
    var s := c.h.reigns[g.term].log[..g.index];
    var p :| p in c.h.points && BackedBy(c.h, g.term, s, p);
    LaterLeadersHold(c, p, u);
    HoldsLess(c.h.reigns[u].base, c.h.reigns[p.term].log, p.index, g.index);
  }

  lemma FastForwardForm(n: Node, index: nat)
    requires NoConfigChange(n.log) && n.applied == n.commit <= |n.log| && n.sm == Replay(EMPTY, n.log[..n.commit])
    ensures var k := if n.commit < index <= |n.log| then index else n.commit;
            FastForward(n, index) == n.(commit := k, applied := k, sm := Replay(EMPTY, n.log[..k]))
  {
    if n.commit < index <= |n.log| {
      ApplyLogsForm(n.(commit := index));
    } else {
      ApplyLogsForm(n);
    }
  }

  lemma HandleTxVoteKeeps(c: State, i: Id, src: Id, req: TxVoteArgs)
    requires Inv(c) && i in c.nodes
    requires src != i && exists g :: g in c.gates && g.node == src && g.index == req.lastIndex
    ensures Inv(TxVoteEffect(c, i, src, req, HandleTxVote(c.nodes[i], req)))
  {
    var n := c.nodes[i];
    var r := HandleTxVote(n, req);
    var c' := TxVoteEffect(c, i, src, req, r);
    assert MemberOk(c, i) && CandidateOk(c, n);
    if req.term == n.term && UpToDate(req.lastTerm, req.lastIndex, n.log) {
      FastForwardBacked(c, i, src, req.lastIndex);
      SameReigns(c.h.reigns);
      AdvanceKeeps(c, c', i);
    } else {
      QuietStep(c, c', i, r.0);
    }
  }

  lemma FastForwardBacked(c: State, i: Id, src: Id, index: nat)
    requires Inv(c) && i in c.nodes && src != i && exists g :: g in c.gates && g.node == src && g.index == index
    ensures var n, n' := c.nodes[i], FastForward(c.nodes[i], index);
            && n'.commit <= |n.log| && Backed(c.h, n.term, n.log[..n'.commit])
            && n' == n.(commit := n'.commit, applied := n'.commit, sm := Replay(EMPTY, n.log[..n'.commit]))
            && n'.commit >= n.commit
  {
    var n := c.nodes[i];
    NoConfigIn(c, i);
    assert CommitOk(c.h, n);
    FastForwardForm(n, index);
    if n.commit < index <= |n.log| {
      var g :| g in c.gates && g.node == src && g.index == index;
      GateBacks(c, g, i);
    }
  }

  lemma TxAnswerKeeps(c: State, i: Id, m: Msg)
    requires Inv(c) && Enabled(c, DoTxAnswer(i, m)) && Assumed(c, DoTxAnswer(i, m))
    ensures Inv(Do(c, DoTxAnswer(i, m)))
  {
    assert MemberOk(c, i);
    assert c.nodes[i := c.nodes[i]] == c.nodes;
    if m.txReply.term > m.reqTerm && c.nodes[i].role == Leader {
      AdoptKeeps(c, i, m.txReply.term);
    }
  }

  // ---------- all steps, all runs ----------

  lemma StepKeeps(c: State, s: Step)
    requires Inv(c) && Enabled(c, s) && Assumed(c, s)
    ensures Inv(Do(c, s))
  {
    if s.DoProbe? || s.DoHandleProbe? || s.DoProbeAnswer? || s.DoPromote? || s.DoRequestVote? || s.DoHandleVote?
       || s.DoVoteAnswer? || s.DoWinAlone?
    {
      ElectionKeeps(c, s);
    } else {
      ReplicationKeeps(c, s);
    }
  }

  lemma ElectionKeeps(c: State, s: Step)
    requires Inv(c) && Enabled(c, s) && Assumed(c, s)
    requires s.DoProbe? || s.DoHandleProbe? || s.DoProbeAnswer? || s.DoPromote? || s.DoRequestVote? || s.DoHandleVote?
             || s.DoVoteAnswer? || s.DoWinAlone?
    ensures Inv(Do(c, s))
  {
    match s
    case DoProbe(i) => ProbeKeeps(c, i);
    case DoHandleProbe(i, m) =>
      assert MsgOk(c, m);
      SendKeeps(c, i, ProbeAnswer(i, m.src, m.round, m.vote.term, HandlePreVote(c.nodes[i], m.vote)));
    case DoProbeAnswer(i, m) => ProbeAnswerKeeps(c, i, m.round, m.src, m.reqTerm, m.voteReply);
    case DoPromote(i) => PromoteKeeps(c, i);
    case DoRequestVote(i, to) =>
      var n := c.nodes[i];
      SendKeeps(c, i, VoteRequest(i, to, VoteArgs(n.term, i, LastIndex(n.log), LastTerm(n.log))));
    case DoHandleVote(i, m) =>
      assert MemberOk(c, i);
      HandleVoteKeeps(c, i, m);
    case DoVoteAnswer(i, m) => VoteAnswerKeeps(c, i, m);
    case DoWinAlone(i) => WinAloneKeeps(c, i);
  }

  lemma ReplicationKeeps(c: State, s: Step)
    requires Inv(c) && Enabled(c, s) && Assumed(c, s)
    requires s.DoPropose? || s.DoSendAppend? || s.DoHandleAppend? || s.DoAppendAnswer? || s.DoCommit? || s.DoPassGate?
             || s.DoSendTxVote? || s.DoHandleTxVote? || s.DoTxAnswer?
    ensures Inv(Do(c, s))
  {
    match s
    case DoPropose(i, cmd) => ProposalKeeps(c, i, cmd);
    case DoSendAppend(i, to) => SendAppendKeeps(c, i, to);
    case DoHandleAppend(i, m) =>
      assert MsgOk(c, m);
      HandleAppendKeeps(c, i, m.src, m.append);
    case DoAppendAnswer(i, m) => AppendAnswerKeeps(c, i, m.src, m.last, m.appendReply);
    case DoCommit(i) => CommitKeeps(c, i);
    case DoPassGate(i, index) => PassGateKeeps(c, i, index);
    case DoSendTxVote(i, to, txId, index) =>
      SendKeeps(c, i, TxVote(i, to, BuildTxVote(c.nodes[i], txId, index)));
    case DoHandleTxVote(i, m) =>
      assert MsgOk(c, m);
      HandleTxVoteKeeps(c, i, m.src, m.tx);
    case DoTxAnswer(i, m) => TxAnswerKeeps(c, i, m);
  }

  /** Every state of every run satisfies the invariant. */
  lemma {:induction false} RunHolds(run: seq<State>, k: nat)
    requires IsRun(run) && k < |run|
    ensures Inv(run[k])
  {
    if k == 0 {
      InitHolds(run[0]);
    } else {
      RunHolds(run, k - 1);
      assert Next(run[k - 1], run[k]);
      var s :| Enabled(run[k - 1], s) && Assumed(run[k - 1], s) && run[k] == Do(run[k - 1], s);
      StepKeeps(run[k - 1], s);
    }
  }
}

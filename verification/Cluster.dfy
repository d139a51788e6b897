/** The whole cluster as a step system: nodes, every message ever sent, and a history that the
    steps record but never read. */
module Cluster {
  import opened Protocol
  import opened Reference
  import opened Steps

  /** A message may be lost, delayed, reordered and delivered any number of times: once sent it stays
      in `msgs`, and a delivery does not remove it. A reply carries the part of its request the
      sender's callback still knows. */
  datatype Msg =
    | VoteRequest(src: Id, dst: Id, vote: VoteArgs)
    | VoteAnswer(src: Id, dst: Id, reqTerm: nat, voteReply: VoteReply)
    | ProbeRequest(src: Id, dst: Id, round: nat, vote: VoteArgs)
    | ProbeAnswer(src: Id, dst: Id, round: nat, reqTerm: nat, voteReply: VoteReply)
    | Append(src: Id, dst: Id, append: AppendArgs)
    | AppendAnswer(src: Id, dst: Id, reqTerm: nat, last: nat, appendReply: AppendReply)
    | TxVote(src: Id, dst: Id, tx: TxVoteArgs)
    | TxAnswer(src: Id, dst: Id, reqTerm: nat, txReply: TxVoteReply)

  /** The coordinator on `node` has seen the entry at `index` committed and held by every peer. */
  datatype Gate = Gate(node: Id, term: nat, index: nat)

  /** One leadership: the log it started from, its log so far, and who voted for it. */
  datatype Reign = Reign(leader: Id, base: seq<LogEntry>, log: seq<LogEntry>, voters: set<Id>)

  /** One vote, with the voter's log at that moment and the freshness the candidate claimed; `early`
      says that the term had no leader yet. */
  datatype Ballot =
    Ballot(term: nat, voter: Id, candidate: Id, log: seq<LogEntry>, lastIndex: nat, lastTerm: nat, early: bool)

  /** `node` held the first `index` entries of the leader of `term` while in that term. */
  datatype Ack = Ack(term: nat, node: Id, index: nat)

  /** A leader of `term` advanced its commit index to `index`, counting `quorum`. */
  datatype Point = Point(term: nat, index: nat, quorum: set<Id>)

  datatype History = History(reigns: map<nat, Reign>, ballots: set<Ballot>, acks: set<Ack>, points: set<Point>)

  datatype State = State(nodes: map<Id, Node>, msgs: set<Msg>, gates: set<Gate>, h: History)

  datatype Step =
    | DoProbe(i: Id)
    | DoHandleProbe(i: Id, m: Msg)
    | DoProbeAnswer(i: Id, m: Msg)
    | DoPromote(i: Id)
    | DoRequestVote(i: Id, to: Id)
    | DoHandleVote(i: Id, m: Msg)
    | DoVoteAnswer(i: Id, m: Msg)
    | DoWinAlone(i: Id)
    | DoPropose(i: Id, cmd: Command)
    | DoSendAppend(i: Id, to: Id)
    | DoHandleAppend(i: Id, m: Msg)
    | DoAppendAnswer(i: Id, m: Msg)
    | DoCommit(i: Id)
    | DoPassGate(i: Id, index: nat)
    | DoSendTxVote(i: Id, to: Id, txId: TxId, index: nat)
    | DoHandleTxVote(i: Id, m: Msg)
    | DoTxAnswer(i: Id, m: Msg)

  predicate Delivers(c: State, i: Id, m: Msg) { m in c.msgs && m.dst == i }

  /** When the code can take a step. */
  ghost predicate Enabled(c: State, s: Step) {
    && s.i in c.nodes
    && match s
       case DoProbe(i) => c.nodes[i].role == Follower
       case DoHandleProbe(i, m) => Delivers(c, i, m) && m.ProbeRequest?
       case DoProbeAnswer(i, m) => Delivers(c, i, m) && m.ProbeAnswer? && m.round < |c.nodes[i].probes|
       case DoPromote(i) => true
       case DoRequestVote(i, to) => to in c.nodes
       case DoHandleVote(i, m) => Delivers(c, i, m) && m.VoteRequest?
       case DoVoteAnswer(i, m) => Delivers(c, i, m) && m.VoteAnswer?
       case DoWinAlone(i) => true
       case DoPropose(i, cmd) => true
       case DoSendAppend(i, to) => to in c.nodes && c.nodes[i].role == Leader
       case DoHandleAppend(i, m) => Delivers(c, i, m) && m.Append?
       case DoAppendAnswer(i, m) => Delivers(c, i, m) && m.AppendAnswer?
       case DoCommit(i) => true
       case DoPassGate(i, index) =>
         && c.nodes[i].role == Leader
         && c.nodes[i].commit >= index
         && (forall p | p in c.nodes[i].peers :: MatchOf(c.nodes[i], p) >= index)
       case DoSendTxVote(i, to, txId, index) =>
         to in c.nodes && to != i && exists g :: g in c.gates && g.node == i && g.index == index
       case DoHandleTxVote(i, m) => Delivers(c, i, m) && m.TxVote?
       case DoTxAnswer(i, m) => Delivers(c, i, m) && m.TxAnswer?
  }

  function MatchOf(n: Node, p: Id): nat { if p in n.matchIndex then n.matchIndex[p] else 0 }

  // ---------- what the theorems assume beyond the code ----------

  /** Peer `p` has answered this leader, in its current term, that it holds `index`. */
  ghost predicate AnsweredThisTerm(c: State, n: Node, p: Id, index: nat) {
    exists m :: m in c.msgs && m.AppendAnswer? && m.src == p && m.dst == n.id
                && m.reqTerm == n.term && m.appendReply.success && m.last >= index
  }

  /** Every peer counted for `index` was counted for answers of the current term. */
  ghost predicate CountsOwnAnswers(c: State, n: Node, index: nat) {
    forall p | p in c.nodes && p != n.id && MatchOf(n, p) >= index :: AnsweredThisTerm(c, n, p, index)
  }

  /** The three assumptions: a late refusal never lowers the term or clears a vote, stale
      match indices are never what makes a quorum, and membership does not change. */
  ghost predicate Assumed(c: State, s: Step)
    requires Enabled(c, s)
  {
    var n := c.nodes[s.i];
    match s
    case DoVoteAnswer(i, m) => !m.voteReply.granted && m.voteReply.term > m.reqTerm ==> MayAdopt(n, m.voteReply.term)
    case DoTxAnswer(i, m) => m.txReply.term > m.reqTerm && n.role == Leader ==> MayAdopt(n, m.txReply.term)
    case DoPropose(i, cmd) => !cmd.InstallConfiguration?
    case DoAppendAnswer(i, m) =>
      var n1 := RecordMatch(n, m.src, m.last);
      m.appendReply.success && MaybeCommit(n1).commit > n.commit ==> CountsOwnAnswers(c, n1, MaybeCommit(n1).commit)
    case DoCommit(i) => MaybeCommit(n).commit > n.commit ==> CountsOwnAnswers(c, n, MaybeCommit(n).commit)
    case DoPassGate(i, index) => index > 0 ==> CountsOwnAnswers(c, n, index)
    case _ => true
  }

  // ---------- the effect of a step ----------

  ghost function WithNode(c: State, n: Node): State { c.(nodes := c.nodes[n.id := n]) }

  ghost function Send(c: State, m: Msg): State { c.(msgs := c.msgs + {m}) }

  /** Recording an election if the node has just become leader. */
  ghost function RecordCrown(h: History, before: Node, after: Node): History {
    if before.role == Candidate && after.role == Leader
    then h.(reigns := h.reigns[after.term := Reign(after.id, after.log, after.log, after.votes)])
    else h
  }

  /** Recording a commit advance, with the servers counted for it. */
  ghost function RecordCommit(h: History, members: set<Id>, before: Node, after: Node): History {
    if after.commit > before.commit
    then h.(acks := h.acks + {Ack(before.term, before.id, after.commit)},
            points := h.points + {Point(before.term, after.commit,
                                        set p | p in members
                                                && (p == before.id || MatchOf(before, p) >= after.commit))})
    else h
  }

  ghost function Do(c: State, s: Step): State
    requires Enabled(c, s)
  {
    var n := c.nodes[s.i];
    match s
    case DoProbe(i) =>
      var args := VoteArgs(n.term + 1, i, LastIndex(n.log), LastTerm(n.log));
      WithNode(c, BecomePreCandidate(n)).(msgs := c.msgs + set p | p in n.peers :: ProbeRequest(i, p, |n.probes|, args))
    case DoHandleProbe(i, m) => Send(c, ProbeAnswer(i, m.src, m.round, m.vote.term, HandlePreVote(n, m.vote)))
    case DoProbeAnswer(i, m) => ProbeEffect(c, n, OnPreVoteReply(n, m.round, m.src, m.reqTerm, m.voteReply))
    case DoPromote(i) => WithNode(c, Promote(n)).(h := c.h.(ballots := c.h.ballots + {SelfVote(c.h, n)}))
    case DoRequestVote(i, to) => Send(c, VoteRequest(i, to, VoteArgs(n.term, i, LastIndex(n.log), LastTerm(n.log))))
    case DoHandleVote(i, m) => VoteEffect(c, n, m.src, m.vote, HandleRequestVote(n, m.vote))
    case DoVoteAnswer(i, m) => CountEffect(c, n, OnVoteReply(n, m.src, m.reqTerm, m.voteReply))
    case DoWinAlone(i) => WithNode(c, WinAlone(n)).(h := RecordCrown(c.h, n, WinAlone(n)))
    case DoPropose(i, cmd) =>
      var n1 := Propose(n, cmd).0;
      if n.role == Leader && n.term in c.h.reigns
      then WithNode(c, n1).(h := c.h.(reigns := c.h.reigns[n.term := c.h.reigns[n.term].(log := n1.log)]))
      else WithNode(c, n1)
    case DoSendAppend(i, to) => Send(c, Append(i, to, BuildAppend(n, to)))
    case DoHandleAppend(i, m) => AppendEffect(c, i, m.src, m.append, HandleAppend(n, m.append))
    case DoAppendAnswer(i, m) => AnswerEffect(c, m.src, m.last, m.appendReply, n)
    case DoCommit(i) => WithNode(c, MaybeCommit(n)).(h := RecordCommit(c.h, c.nodes.Keys, n, MaybeCommit(n)))
    case DoPassGate(i, index) => c.(gates := c.gates + {Gate(i, n.term, index)})
    case DoSendTxVote(i, to, txId, index) => Send(c, TxVote(i, to, BuildTxVote(n, txId, index)))
    case DoHandleTxVote(i, m) => TxVoteEffect(c, i, m.src, m.tx, HandleTxVote(n, m.tx))
    case DoTxAnswer(i, m) => WithNode(c, OnTxVoteReply(n, m.reqTerm, m.txReply))
  }

  /** A probe answer may start an election, with the node's vote for itself. */
  ghost function ProbeEffect(c: State, n: Node, n1: Node): State {
    var c1 := WithNode(c, n1);
    if n1.term > n.term then c1.(h := c.h.(ballots := c.h.ballots + {SelfVote(c.h, n)})) else c1
  }

  ghost function VoteEffect(c: State, n: Node, src: Id, args: VoteArgs, r: (Node, VoteReply)): State {
    var c1 := Send(WithNode(c, r.0), VoteAnswer(n.id, src, args.term, r.1));
    if r.1.granted then c1.(h := c.h.(ballots := c.h.ballots + {CastVote(c.h, n, args)})) else c1
  }

  ghost function CountEffect(c: State, n: Node, n1: Node): State {
    WithNode(c, n1).(h := RecordCrown(c.h, n, n1))
  }

  ghost function AppendEffect(c: State, i: Id, src: Id, args: AppendArgs, r: (Node, AppendReply)): State {
    var last := args.prevIndex + |args.entries|;
    var c1 := Send(WithNode(c, r.0), AppendAnswer(i, src, args.term, last, r.1));
    if r.1.success then c1.(h := c.h.(acks := c.h.acks + {Ack(args.term, i, last)})) else c1
  }

  ghost function AnswerEffect(c: State, src: Id, last: nat, reply: AppendReply, n: Node): State {
    var n1 := OnAppendReply(n, src, last, reply);
    if reply.success
    then WithNode(c, n1).(h := RecordCommit(c.h, c.nodes.Keys, RecordMatch(n, src, last), n1))
    else WithNode(c, n1)
  }

  ghost function TxVoteEffect(c: State, i: Id, src: Id, req: TxVoteArgs, r: (Node, TxVoteReply)): State {
    Send(WithNode(c, r.0), TxAnswer(i, src, req.term, r.1))
  }

  ghost function SelfVote(h: History, n: Node): Ballot {
    Ballot(n.term + 1, n.id, n.id, n.log, LastIndex(n.log), LastTerm(n.log), n.term + 1 !in h.reigns)
  }

  ghost function CastVote(h: History, n: Node, args: VoteArgs): Ballot {
    Ballot(args.term, n.id, args.candidate, n.log, args.lastIndex, args.lastTerm, args.term !in h.reigns)
  }

  // ---------- runs ----------

  /** A configuration that lists exactly `members`, as every node starts with. */
  ghost predicate FixedMembership(members: set<Id>, n: Node) {
    && n.config.Simple?
    && DistinctIds(n.config.servers)
    && Ids(n.config.servers) == members
    && (forall p :: p in n.peers <==> p in members && p != n.id)
    && |n.peers| + 1 == |members|
    && n.pendingSimple == None
  }

  ghost predicate Fresh(members: set<Id>, n: Node) {
    && n.term == 0 && n.vote == None && n.role == Follower
    && n.log == [] && n.commit == 0 && n.applied == 0 && n.sm == EMPTY && n.probes == []
    && FixedMembership(members, n)
  }

  ghost predicate StartsFresh(c: State, i: Id)
    requires i in c.nodes
  {
    c.nodes[i].id == i && Fresh(c.nodes.Keys, c.nodes[i])
  }

  ghost predicate Init(c: State) {
    && (forall i {:trigger StartsFresh(c, i)} | i in c.nodes :: StartsFresh(c, i))
    && c.msgs == {} && c.gates == {}
    && c.h == History(map[], {}, {}, {})
  }

  ghost predicate Next(c: State, c': State) {
    exists s :: Enabled(c, s) && Assumed(c, s) && c' == Do(c, s)
  }

  ghost predicate IsRun(run: seq<State>) {
    && |run| > 0 && Init(run[0])
    && forall k | 0 <= k < |run| - 1 :: Next(run[k], run[k + 1])
  }
}

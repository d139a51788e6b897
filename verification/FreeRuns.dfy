/** Runs of three servers without one of the assumptions, put together from the moves the code makes by
    itself: elections start with a probe, as the election timer starts them. */
module FreeRuns {
  import opened Protocol
  import opened Reference
  import opened Steps
  import opened Cluster

  /** The assumption that a run does without, if any. */
  datatype Waived = Nothing | LateRefusals | LeftoverMatches

  predicate Waives(w: Waived, s: Step) {
    match w
    case Nothing => false
    case LateRefusals => s.DoVoteAnswer?
    case LeftoverMatches => s.DoAppendAnswer?
  }

  /** Elections start with a probe only, every answer to a probe is counted once, only a candidate asks for
      votes, and membership stays. */
  ghost predicate Timely(c: State, s: Step)
    requires Enabled(c, s)
  {
    match s
    case DoPromote(i) => false
    case DoProbeAnswer(i, m) => m.src !in c.nodes[i].probes[m.round].granted
    case DoRequestVote(i, to) => c.nodes[i].role == Candidate
    case DoPropose(i, cmd) => !cmd.InstallConfiguration?
    case _ => true
  }

  ghost predicate FreeNext(w: Waived, c: State, c': State) {
    exists s :: Enabled(c, s) && Timely(c, s) && (Assumed(c, s) || Waives(w, s)) && c' == Do(c, s)
  }

  /** A run in which every step is timely and keeps all assumptions but the waived one. */
  ghost predicate IsFreeRun(w: Waived, run: seq<State>) {
    && |run| > 0 && Init(run[0])
    && forall k | 0 <= k < |run| - 1 :: FreeNext(w, run[k], run[k + 1])
  }

  /** Without a waiver these are runs like any other. */
  lemma FreeRunsAreRuns(run: seq<State>)
    requires IsFreeRun(Nothing, run)
    ensures IsRun(run)
  {
    forall k | 0 <= k < |run| - 1 ensures Next(run[k], run[k + 1]) {
      assert FreeNext(Nothing, run[k], run[k + 1]);
    }
  }

  ghost function Last(run: seq<State>): State
    requires run != []
  {
    run[|run| - 1]
  }

  lemma Take(w: Waived, run: seq<State>, s: Step) returns (longer: seq<State>)
    requires IsFreeRun(w, run) && Enabled(Last(run), s) && Timely(Last(run), s)
    requires Assumed(Last(run), s) || Waives(w, s)
    ensures IsFreeRun(w, longer) && Last(longer) == Do(Last(run), s)
  {
    longer := run + [Do(Last(run), s)];
    forall k | 0 <= k < |longer| - 1 ensures FreeNext(w, longer[k], longer[k + 1]) {
      assert k < |run| - 1 ==> FreeNext(w, run[k], run[k + 1]) && longer[k] == run[k] && longer[k + 1] == run[k + 1];
    }
  }

  // ---------- where a run has led ----------

  predicate Apart(x: Node, y: Node, z: Node) { x.id != y.id && y.id != z.id && x.id != z.id }

  ghost predicate Has(c: State, n: Node) { n.id in c.nodes && c.nodes[n.id] == n }

  /** The run has led to these three nodes, in whatever order they are named. */
  ghost predicate At(w: Waived, run: seq<State>, x: Node, y: Node, z: Node) {
    IsFreeRun(w, run) && Apart(x, y, z) && Has(Last(run), x) && Has(Last(run), y) && Has(Last(run), z)
  }

  ghost predicate Grows(run: seq<State>, longer: seq<State>) {
    run != [] && longer != [] && Last(run).msgs <= Last(longer).msgs
  }

  // ---------- probing ----------

  ghost function ProbeArgs(n: Node): VoteArgs { VoteArgs(n.term + 1, n.id, LastIndex(n.log), LastTerm(n.log)) }

  /** The peer would grant a probe now. */
  predicate WouldGrant(n: Node, args: VoteArgs) {
    && n.term <= args.term <= n.term + 1 && !(args.term == n.term && n.role == Leader)
    && UpToDate(args.lastTerm, args.lastIndex, n.log)
  }

  lemma StartsProbe(w: Waived, run: seq<State>, x: Node, y: Node, z: Node) returns (longer: seq<State>)
    requires At(w, run, x, y, z) && x.role == Follower && x.peers == [y.id, z.id]
    ensures At(w, longer, BecomePreCandidate(x), y, z) && Grows(run, longer)
    ensures ProbeRequest(x.id, y.id, |x.probes|, ProbeArgs(x)) in Last(longer).msgs
    ensures ProbeRequest(x.id, z.id, |x.probes|, ProbeArgs(x)) in Last(longer).msgs
  {
    longer := Take(w, run, DoProbe(x.id));
    assert x.peers[0] in x.peers && x.peers[1] in x.peers;
  }

  lemma AnswersProbe(w: Waived, run: seq<State>, x: Node, y: Node, z: Node, m: Msg) returns (longer: seq<State>)
    requires At(w, run, x, y, z) && m in Last(run).msgs && m.ProbeRequest? && m.dst == y.id && WouldGrant(y, m.vote)
    ensures At(w, longer, x, y, z) && Grows(run, longer)
    ensures ProbeAnswer(y.id, m.src, m.round, m.vote.term, VoteReply(y.term, true)) in Last(longer).msgs
  {
    longer := Take(w, run, DoHandleProbe(y.id, m));
  }

  /** A grant of peer `j` to round `round` of `n` is in flight. */
  ghost predicate Granted(run: seq<State>, n: Node, round: nat, j: Id)
    requires run != []
  {
    && round < |n.probes|
    && exists t: nat ::
         && t <= n.probes[round].term
         && ProbeAnswer(j, n.id, round, n.probes[round].term, VoteReply(t, true)) in Last(run).msgs
  }

  /** Both peers have granted the round, and none of the grants has been heard. */
  ghost predicate Probed(run: seq<State>, n: Node, round: nat, j: Id, k: Id) {
    && run != [] && j != k && n.role == PreCandidate && Granted(run, n, round, j) && Granted(run, n, round, k)
    && n.probes[round].total == 3 && n.probes[round].granted == {}
  }

  lemma StillProbed(run: seq<State>, longer: seq<State>, n: Node, round: nat, j: Id, k: Id)
    requires Probed(run, n, round, j, k) && Grows(run, longer)
    ensures Probed(longer, n, round, j, k)
  {
  }

  /** A probe that both peers grant at once. */
  lemma Collects(w: Waived, run: seq<State>, x: Node, y: Node, z: Node) returns (longer: seq<State>)
    requires At(w, run, x, y, z) && x.role == Follower && x.peers == [y.id, z.id]
    requires WouldGrant(y, ProbeArgs(x)) && WouldGrant(z, ProbeArgs(x))
    ensures At(w, longer, BecomePreCandidate(x), y, z) && Grows(run, longer)
    ensures Probed(longer, BecomePreCandidate(x), |x.probes|, y.id, z.id)
  {
    var x1 := BecomePreCandidate(x);
    var round, args := |x.probes|, ProbeArgs(x);
    longer := StartsProbe(w, run, x, y, z);
    longer := AnswersProbe(w, longer, x1, y, z, ProbeRequest(x.id, y.id, round, args));
    assert Granted(longer, x1, round, y.id);
    longer := AnswersProbe(w, longer, x1, z, y, ProbeRequest(x.id, z.id, round, args));
    assert Granted(longer, x1, round, z.id);
  }

  /** The node after both grants of a round have promoted it. */
  function Risen(n: Node, round: nat, j: Id, k: Id): Node
    requires round < |n.probes|
  {
    Promote(n.(probes := n.probes[round := n.probes[round].(granted := {j, k})]))
  }

  lemma HearsGrant(w: Waived, run: seq<State>, x: Node, y: Node, z: Node, m: Msg, x1: Node) returns (longer: seq<State>)
    requires At(w, run, x, y, z) && m in Last(run).msgs && m.ProbeAnswer? && m.dst == x.id && m.round < |x.probes|
    requires m.src !in x.probes[m.round].granted
    requires x1 == OnPreVoteReply(x, m.round, m.src, m.reqTerm, m.voteReply)
    ensures At(w, longer, x1, y, z) && Grows(run, longer)
  {
    assert x1.id == x.id;
    longer := Take(w, run, DoProbeAnswer(x.id, m));
    assert Last(longer) == ProbeEffect(Last(run), x, x1);
  }

  lemma CountsGrants(n: Node, round: nat, j: Id, k: Id, m1: Msg, m2: Msg) returns (n1: Node)
    requires round < |n.probes| && j != k && n.role == PreCandidate
    requires n.probes[round].total == 3 && n.probes[round].granted == {}
    requires m1.ProbeAnswer? && m1.src == j && m1.round == round
    requires m1.voteReply.granted && m1.voteReply.term <= m1.reqTerm
    requires m2.ProbeAnswer? && m2.src == k && m2.round == round
    requires m2.voteReply.granted && m2.voteReply.term <= m2.reqTerm
    ensures n1 == OnPreVoteReply(n, round, j, m1.reqTerm, m1.voteReply)
    ensures n1.id == n.id && |n1.probes| == |n.probes| && n1.probes[round].granted == {j} && n1.term == n.term
    ensures OnPreVoteReply(n1, round, k, m2.reqTerm, m2.voteReply) == Risen(n, round, j, k)
  {
    n1 := OnPreVoteReply(n, round, j, m1.reqTerm, m1.voteReply);
    assert {} + {j} == {j} && |{j}| == 1;
    assert {j} + {k} == {j, k} && |{j, k}| == 2;
    assert n1 == n.(probes := n.probes[round := n.probes[round].(granted := {j})]);
    var probe := n.probes[round].(granted := {j, k});
    assert n1.probes[round := probe] == n.probes[round := probe];
  }

  /** Hearing the first of two grants; the second one, still in flight, will promote the node. */
  lemma HearsFirst(w: Waived, run: seq<State>, x: Node, y: Node, z: Node, round: nat)
    returns (longer: seq<State>, x1: Node, m: Msg)
    requires At(w, run, x, y, z) && Probed(run, x, round, y.id, z.id)
    ensures At(w, longer, x1, y, z) && Grows(run, longer) && m in Last(longer).msgs
    ensures m.ProbeAnswer? && m.src == z.id && m.dst == x.id && m.round == round && m.reqTerm == x.probes[round].term
    ensures round < |x1.probes| && m.src !in x1.probes[round].granted && x1.term == x.term
    ensures OnPreVoteReply(x1, round, z.id, m.reqTerm, m.voteReply) == Risen(x, round, y.id, z.id)
  {
    var t := x.probes[round].term;
    var t1: nat :| t1 <= t && ProbeAnswer(y.id, x.id, round, t, VoteReply(t1, true)) in Last(run).msgs;
    var t2: nat :| t2 <= t && ProbeAnswer(z.id, x.id, round, t, VoteReply(t2, true)) in Last(run).msgs;
    var m1 := ProbeAnswer(y.id, x.id, round, t, VoteReply(t1, true));
    m := ProbeAnswer(z.id, x.id, round, t, VoteReply(t2, true));
    x1 := CountsGrants(x, round, y.id, z.id, m1, m);
    longer := HearsGrant(w, run, x, y, z, m1, x1);
  }

  /** Hearing both grants, now or later, promotes the node. */
  lemma Rises(w: Waived, run: seq<State>, x: Node, y: Node, z: Node, round: nat) returns (longer: seq<State>)
    requires At(w, run, x, y, z) && Probed(run, x, round, y.id, z.id)
    ensures At(w, longer, Risen(x, round, y.id, z.id), y, z) && Grows(run, longer)
  {
    var x1, m;
    longer, x1, m := HearsFirst(w, run, x, y, z, round);
    longer := HearsGrant(w, longer, x1, y, z, m, Risen(x, round, y.id, z.id));
  }

  /** A probe, its grants and the promotion without a pause. */
  function Runs(x: Node, j: Id, k: Id): Node
    requires x.role == Follower
  {
    Risen(BecomePreCandidate(x), |x.probes|, j, k)
  }

  lemma RunsForLeader(w: Waived, run: seq<State>, x: Node, y: Node, z: Node) returns (longer: seq<State>)
    requires At(w, run, x, y, z) && x.role == Follower && x.peers == [y.id, z.id]
    requires WouldGrant(y, ProbeArgs(x)) && WouldGrant(z, ProbeArgs(x))
    ensures At(w, longer, Runs(x, y.id, z.id), y, z) && Grows(run, longer)
  {
    longer := Collects(w, run, x, y, z);
    longer := Rises(w, longer, BecomePreCandidate(x), y, z, |x.probes|);
  }

  // ---------- voting ----------

  ghost function RequestOf(n: Node): VoteArgs { VoteArgs(n.term, n.id, LastIndex(n.log), LastTerm(n.log)) }

  lemma SendsRequest(w: Waived, run: seq<State>, x: Node, y: Node, z: Node) returns (longer: seq<State>)
    requires At(w, run, x, y, z) && x.role == Candidate
    ensures At(w, longer, x, y, z) && Grows(run, longer) && VoteRequest(x.id, y.id, RequestOf(x)) in Last(longer).msgs
  {
    longer := Take(w, run, DoRequestVote(x.id, y.id));
  }

  lemma AnswersRequest(w: Waived, run: seq<State>, x: Node, y: Node, z: Node, m: Msg, y1: Node, reply: VoteReply)
    returns (longer: seq<State>)
    requires At(w, run, x, y, z) && m in Last(run).msgs && m.VoteRequest? && m.dst == y.id
    requires (y1, reply) == HandleRequestVote(y, m.vote)
    ensures At(w, longer, x, y1, z) && Grows(run, longer)
    ensures VoteAnswer(y.id, m.src, m.vote.term, reply) in Last(longer).msgs
  {
    longer := Take(w, run, DoHandleVote(y.id, m));
  }

  lemma HearsVote(w: Waived, run: seq<State>, x: Node, y: Node, z: Node, m: Msg, x1: Node) returns (longer: seq<State>)
    requires At(w, run, x, y, z) && m in Last(run).msgs && m.dst == x.id && m.VoteAnswer?
    requires m.voteReply.granted || w == LateRefusals
    requires x1 == OnVoteReply(x, m.src, m.reqTerm, m.voteReply)
    ensures At(w, longer, x1, y, z) && Grows(run, longer)
  {
    assert x1.id == x.id;
    longer := Take(w, run, DoVoteAnswer(x.id, m));
    assert Last(longer) == CountEffect(Last(run), x, x1);
  }

  /** A candidate that has won with the vote of `j`. */
  function Won(n: Node, j: Id): Node {
    n.(role := Leader, votes := {n.id, j}, nextIndex := map p | p in n.peers :: |n.log| + 1)
  }

  function Voted(n: Node, term: nat, i: Id): Node { n.(term := term, role := Follower, vote := Some(i)) }

  lemma Grants(m: Node, args: VoteArgs)
    requires m.term < args.term && UpToDate(args.lastTerm, args.lastIndex, m.log)
    ensures HandleRequestVote(m, args) == (Voted(m, args.term, args.candidate), VoteReply(args.term, true))
  {
  }

  lemma CountsBoth(n: Node, j: Id)
    requires n.role == Candidate && n.votes == {n.id} && j != n.id && |n.peers| == 2
    ensures OnVoteReply(n, j, n.term, VoteReply(n.term, true)) == Won(n, j)
  {
    assert {n.id} + {j} == {n.id, j};
    assert |{n.id, j}| == 2;
  }

  /** Candidate `x` is elected by the vote of `y`, who is in an older term. */
  lemma Elects(w: Waived, run: seq<State>, x: Node, y: Node, z: Node) returns (longer: seq<State>)
    requires At(w, run, x, y, z) && x.role == Candidate && x.votes == {x.id} && |x.peers| == 2
    requires y.term < x.term && UpToDate(LastTerm(x.log), LastIndex(x.log), y.log)
    ensures At(w, longer, Won(x, y.id), Voted(y, x.term, x.id), z) && Grows(run, longer)
  {
    longer := SendsRequest(w, run, x, y, z);
    Grants(y, RequestOf(x));
    var y1 := Voted(y, x.term, x.id);
    longer := AnswersRequest(w, longer, x, y, z, VoteRequest(x.id, y.id, RequestOf(x)), y1, VoteReply(x.term, true));
    CountsBoth(x, y.id);
    longer := HearsVote(w, longer, x, y1, z, VoteAnswer(y.id, x.id, x.term, VoteReply(x.term, true)), Won(x, y.id));
  }

  // ---------- replicating ----------

  lemma Proposes(w: Waived, run: seq<State>, x: Node, y: Node, z: Node, cmd: Command) returns (longer: seq<State>)
    requires At(w, run, x, y, z) && x.role == Leader && !cmd.InstallConfiguration?
    ensures At(w, longer, PushEntry(x, cmd), y, z) && Grows(run, longer)
  {
    longer := Take(w, run, DoPropose(x.id, cmd));
  }

  /** One AppendEntries from `x` to `y` and its handling. */
  lemma Ships(w: Waived, run: seq<State>, x: Node, y: Node, z: Node, args: AppendArgs, y1: Node, reply: AppendReply)
    returns (longer: seq<State>, answer: Msg)
    requires At(w, run, x, y, z) && x.role == Leader && args == BuildAppend(x, y.id)
    requires (y1, reply) == HandleAppend(y, args) && y1.id == y.id
    ensures At(w, longer, x, y1, z) && Grows(run, longer)
    ensures answer == AppendAnswer(y.id, x.id, args.term, args.prevIndex + |args.entries|, reply)
    ensures answer in Last(longer).msgs
  {
    longer := Take(w, run, DoSendAppend(x.id, y.id));
    longer := Take(w, longer, DoHandleAppend(y.id, Append(x.id, y.id, args)));
    answer := AppendAnswer(y.id, x.id, args.term, args.prevIndex + |args.entries|, reply);
  }

  lemma Learns(w: Waived, run: seq<State>, x: Node, y: Node, z: Node, m: Msg, x1: Node) returns (longer: seq<State>)
    requires At(w, run, x, y, z) && m in Last(run).msgs && m.dst == x.id && m.AppendAnswer?
    requires !m.appendReply.success || w == LeftoverMatches
    requires x1 == OnAppendReply(x, m.src, m.last, m.appendReply) && x1.id == x.id
    ensures At(w, longer, x1, y, z) && Grows(run, longer)
  {
    longer := Take(w, run, DoAppendAnswer(x.id, m));
  }

  function Followed(n: Node, term: nat): Node {
    if term > n.term then AdoptTerm(n, term) else n.(role := Follower)
  }

  lemma RefusesAppend(n: Node, args: AppendArgs)
    requires args.term > n.term || (args.term == n.term && n.role != Leader)
    requires !Consistent(n, args)
    ensures HandleAppend(n, args) == (Followed(n, args.term), AppendReply(args.term, false))
  {
  }

  lemma AcceptsAppend(n: Node, args: AppendArgs)
    requires args.term > n.term || (args.term == n.term && n.role != Leader)
    requires Consistent(n, args) && args.commit <= n.commit
    ensures HandleAppend(n, args)
         == (Followed(n, args.term).(log := Resolve(n.log, args.entries), wal := n.wal + Written(n.log, args.entries)),
             AppendReply(args.term, true))
  {
  }

  /** A refused message and its answer: leader `x` backs up by one entry. */
  lemma Backs(w: Waived, run: seq<State>, x: Node, y: Node, z: Node) returns (longer: seq<State>)
    requires At(w, run, x, y, z) && x.role == Leader && y.term == x.term && y.role == Follower
    requires y.id in x.nextIndex && x.nextIndex[y.id] > 1 && !Consistent(y, BuildAppend(x, y.id))
    ensures At(w, longer, x.(nextIndex := x.nextIndex[y.id := x.nextIndex[y.id] - 1]), y, z) && Grows(run, longer)
  {
    var args := BuildAppend(x, y.id);
    RefusesAppend(y, args);
    var answer;
    longer, answer := Ships(w, run, x, y, z, args, y, AppendReply(args.term, false));
    longer := Learns(w, longer, x, y, z, answer, x.(nextIndex := x.nextIndex[y.id := x.nextIndex[y.id] - 1]));
  }

  lemma NothingNew(m: Node, args: AppendArgs) returns (n: Node)
    requires args.term > m.term && args.entries == [] && args.commit <= m.commit
    ensures n == AdoptTerm(m, args.term).(wal := n.wal)
    ensures HandleAppend(m, args) == (n, AppendReply(args.term, Consistent(m, args)))
  {
    if Consistent(m, args) {
      AcceptsAppend(m, args);
    } else {
      RefusesAppend(m, args);
    }
    n := HandleAppend(m, args).0;
  }

  /** A leader makes a server of an older term follow it, by a message that holds nothing new. */
  lemma Deposes(w: Waived, run: seq<State>, x: Node, y: Node, z: Node)
    returns (longer: seq<State>, answer: Msg, y1: Node)
    requires At(w, run, x, y, z) && x.role == Leader && y.term < x.term
    requires BuildAppend(x, y.id).entries == [] && x.commit <= y.commit
    ensures y1 == AdoptTerm(y, x.term).(wal := y1.wal) && At(w, longer, x, y1, z) && Grows(run, longer)
    ensures var args := BuildAppend(x, y.id);
            answer == AppendAnswer(y.id, x.id, x.term, args.prevIndex, AppendReply(x.term, Consistent(y, args)))
    ensures answer in Last(longer).msgs
  {
    var args := BuildAppend(x, y.id);
    y1 := NothingNew(y, args);
    longer, answer := Ships(w, run, x, y, z, args, y1, AppendReply(args.term, Consistent(y, args)));
  }

  /** Sending the whole log, from the first entry on. */
  lemma SendsAll(w: Waived, run: seq<State>, x: Node, y: Node, z: Node)
    returns (longer: seq<State>, answer: Msg, y1: Node)
    requires At(w, run, x, y, z) && x.role == Leader && y.term == x.term && y.role == Follower && x.commit <= y.commit
    requires y.id in x.nextIndex && x.nextIndex[y.id] == 1
    ensures y1 == y.(log := Resolve(y.log, x.log), wal := y1.wal) && At(w, longer, x, y1, z) && Grows(run, longer)
    ensures answer == AppendAnswer(y.id, x.id, x.term, |x.log|, AppendReply(x.term, true))
    ensures answer in Last(longer).msgs
  {
    var args := BuildAppend(x, y.id);
    assert args.entries == x.log && args.prevIndex == 0;
    AcceptsAppend(y, args);
    y1 := HandleAppend(y, args).0;
    longer, answer := Ships(w, run, x, y, z, args, y1, AppendReply(args.term, true));
  }

  /** Entries of another term replace what is there. */
  lemma Replaces(log: seq<LogEntry>, entries: seq<LogEntry>)
    requires 1 <= |entries| <= 2 && entries[0].index == 1 && (|entries| == 2 ==> entries[1].index == 2)
    requires log == [] || log[0].term != entries[0].term
    ensures Resolve(log, entries) == entries
  {
    assert entries[..0] == [] && Resolve(log, []) == log;
    assert Resolve(log, entries[..1]) == [entries[0]] by {
      assert entries[..1][..0] == [];
      assert log[..0] + [entries[0]] == [entries[0]];
    }
    if |entries| == 2 {
      assert entries == [entries[0]] + [entries[1]];
    } else {
      assert entries[..1] == entries;
    }
  }

  // ---------- three servers at the start ----------

  function Start(self: Id, p: Id, q: Id): Node {
    Node(self, 0, None, Follower, [], [], 0, 0, [p, q], map[], map[],
         Simple([ServerId(self, self), ServerId(p, p), ServerId(q, q)]), None, EMPTY, {}, [])
  }

  lemma StartIsFresh(a: Id, b: Id, c: Id, members: set<Id>)
    requires a != b && b != c && a != c && members == {a, b, c}
    ensures Fresh(members, Start(a, b, c))
  {
    assert Ids([ServerId(a, a), ServerId(b, b), ServerId(c, c)]) == {a, b, c};
  }

  lemma InitThree(c: State, x: Id, y: Id, z: Id)
    requires x != y && y != z && x != z
    requires c.nodes.Keys == {x, y, z} && c.nodes[x] == Start(x, y, z) && c.nodes[y] == Start(y, x, z)
    requires c.nodes[z] == Start(z, x, y) && c.msgs == {} && c.gates == {} && c.h == History(map[], {}, {}, {})
    ensures Init(c)
  {
    var members := c.nodes.Keys;
    forall i | i in c.nodes ensures StartsFresh(c, i) {
      if i == x {
        StartIsFresh(x, y, z, members);
      } else if i == y {
        StartIsFresh(y, x, z, members);
      } else {
        StartIsFresh(z, x, y, members);
      }
    }
  }

  lemma FirstState(a: Id, b: Id, c: Id) returns (first: State)
    requires a != b && b != c && a != c
    ensures first.nodes.Keys == {a, b, c} && first.nodes[a] == Start(a, b, c) && first.nodes[b] == Start(b, a, c)
    ensures first.nodes[c] == Start(c, a, b) && first.msgs == {} && first.gates == {}
    ensures first.h == History(map[], {}, {}, {})
  {
    var nodes := map[a := Start(a, b, c), b := Start(b, a, c), c := Start(c, a, b)];
    first := State(nodes, {}, {}, History(map[], {}, {}, {}));
  }

  lemma Starts(w: Waived, a: Id, b: Id, c: Id) returns (run: seq<State>)
    requires a != b && b != c && a != c
    ensures At(w, run, Start(a, b, c), Start(b, a, c), Start(c, a, b))
  {
    var first := FirstState(a, b, c);
    InitThree(first, a, b, c);
    run := [first];
  }
}

/** That the handlers do get somewhere: repeated exchanges bring any follower to the leader's log, exactly a
    majority of willing voters elects, and nobody stays behind a term it has heard of. */
module Progress {
  import opened Protocol
  import opened Steps
  import opened Handlers
  import opened LogRepair
  import opened Cluster
  import Induction
  import Probes
  import Safety

  // ---------- replication converges ----------

  /** One AppendEntries `a` from leader `l` to `f`, its handling and its answer `r`, which leave `l1` and `f1`. */
  ghost predicate Exchange(l: Node, f: Node, a: AppendArgs, r: AppendReply, l1: Node, f1: Node) {
    && a == BuildAppend(l, f.id) && (f1, r) == HandleAppend(f, a)
    && l1 == OnAppendReply(l, f.id, a.prevIndex + |a.entries|, r)
  }

  function NextFor(l: Node, f: Node): nat { if f.id in l.nextIndex then l.nextIndex[f.id] else 1 }

  /** What every reachable pair of a leader and another server of no newer term satisfies. */
  ghost predicate Pair(l: Node, f: Node) {
    && l.role == Leader && f.id != l.id && (f.term < l.term || (f.term == l.term && f.role != Leader))
    && (forall x | 0 <= x < |l.log| :: l.log[x].index == x + 1)
    && (forall x | 0 <= x < |f.log| :: f.log[x].term > 0)
    && Matching(l.log, f.log)
  }

  /** Equal terms at an index mean equal logs up to it. */
  ghost predicate Matching(a: seq<LogEntry>, b: seq<LogEntry>) {
    forall x {:trigger MatchAt(a, b, x)} | 0 <= x < |a| && x < |b| :: MatchAt(a, b, x)
  }

  ghost predicate MatchAt(a: seq<LogEntry>, b: seq<LogEntry>, x: nat)
    requires x < |a| && x < |b|
  {
    a[x].term == b[x].term ==> a[..x + 1] == b[..x + 1]
  }

  /** A row of exchanges between the same two servers, with the messages and the answers. */
  datatype Row = Row(leaders: seq<Node>, followers: seq<Node>, sent: seq<AppendArgs>, answers: seq<AppendReply>)

  ghost predicate Sized(row: Row) {
    |row.leaders| == |row.followers| == |row.sent| + 1 && |row.answers| == |row.sent| >= 1
  }

  /** Step `i` of the row: only the last one is accepted. */
  ghost predicate StepAt(row: Row, i: nat)
    requires Sized(row) && i < |row.sent|
  {
    && Exchange(row.leaders[i], row.followers[i], row.sent[i], row.answers[i], row.leaders[i + 1], row.followers[i + 1])
    && (row.answers[i].success <==> i + 1 == |row.sent|)
  }

  ghost predicate IsRow(row: Row) {
    Sized(row) && forall i {:trigger StepAt(row, i)} | 0 <= i < |row.sent| :: StepAt(row, i)
  }

  /** The follower holds all entries of `log`, in the leader's term, and the leader has recorded it. */
  predicate CaughtUp(log: seq<LogEntry>, term: nat, l: Node, f: Node) {
    && |log| <= |f.log| && f.log[..|log|] == log && f.term == term && f.role == Follower
    && f.id in l.matchIndex && l.matchIndex[f.id] == |log|
  }

  lemma AcceptedPrev(l: Node, f: Node, a: AppendArgs, r: AppendReply, l1: Node, f1: Node)
    requires Pair(l, f) && Exchange(l, f, a, r, l1, f1) && r.success
    ensures var p := a.prevIndex;
            && p <= |l.log| && p <= |f.log| && f.log[..p] == l.log[..p] && a.entries == l.log[p..] && a.term == l.term
  {
    BuildExact(l, f.id);
    AppendExact(f, a);
    var p := a.prevIndex;
    assert p > 0 ==> p <= |f.log| && f.log[p - 1].term == a.prevTerm;
    assert p <= |l.log|;
    if p > 0 {
      assert MatchAt(l.log, f.log, p - 1) && l.log[p - 1].term == f.log[p - 1].term;
    }
    assert a.entries == l.log[p..];
  }

  /** An accepted message leaves the follower with the leader's whole log, and the leader knowing it. */
  lemma AcceptedExchange(l: Node, f: Node, a: AppendArgs, r: AppendReply, l1: Node, f1: Node)
    requires Pair(l, f) && Exchange(l, f, a, r, l1, f1) && r.success
    ensures CaughtUp(l.log, l.term, l1, f1)
  {
    AcceptedLog(l, f, a, r, l1, f1);
    AcceptedBy(f, a, r, f1);
    Recorded(l, f.id, a.prevIndex + |a.entries|, r, l1);
  }

  lemma AcceptedLog(l: Node, f: Node, a: AppendArgs, r: AppendReply, l1: Node, f1: Node)
    requires Pair(l, f) && Exchange(l, f, a, r, l1, f1) && r.success
    ensures |l.log| <= |f1.log| && f1.log[..|l.log|] == l.log
    ensures a.prevIndex + |a.entries| == |l.log| && a.term == l.term
  {
    AcceptedPrev(l, f, a, r, l1, f1);
    HandledLog(f, a, r, f1);
    MergedIsLeaders(l.log, f.log, a.prevIndex);
  }

  lemma AcceptedBy(f: Node, a: AppendArgs, r: AppendReply, f1: Node)
    requires (f1, r) == HandleAppend(f, a) && r.success
    ensures f1.term == a.term && f1.role == Follower && f1.id == f.id
  {
    AppendExact(f, a);
    Probes.AppendKeepsRounds(f, a);
  }

  lemma Recorded(l: Node, peer: Id, last: nat, r: AppendReply, l1: Node)
    requires r.success && l1 == OnAppendReply(l, peer, last, r)
    ensures peer in l1.matchIndex && l1.matchIndex[peer] == last
  {
    AppendReplyExact(l, peer, last, r);
  }

  lemma HandledLog(f: Node, a: AppendArgs, r: AppendReply, f1: Node)
    requires (f1, r) == HandleAppend(f, a) && r.success
    ensures f1.log == Resolve(f.log, a.entries)
  {
    var n := (if a.term > f.term then AdoptTerm(f, a.term) else f).(role := Follower);
    AcceptedIs(f, a, n);
    AcceptedLogForm(n, a);
  }

  lemma MergedIsLeaders(leader: seq<LogEntry>, log: seq<LogEntry>, p: nat)
    requires Matching(leader, log) && p <= |leader| && p <= |log| && log[..p] == leader[..p]
    requires forall x | 0 <= x < |leader| :: leader[x].index == x + 1
    ensures var merged := Resolve(log, leader[p..]); |leader| <= |merged| && merged[..|leader|] == leader
  {
    var entries := leader[p..];
    assert Contiguous(entries, p);
    var j := ResolveForm(log, entries, p);
    SharedUpTo(leader, log, p, j);
    assert log[..p + j] == leader[..p + j] && entries[j..] == leader[p + j..];
    assert leader[..p + j] + leader[p + j..] == leader;
  }

  lemma SharedUpTo(leader: seq<LogEntry>, log: seq<LogEntry>, p: nat, j: nat)
    requires Matching(leader, log) && p <= |leader| && p <= |log| && log[..p] == leader[..p]
    requires AgreesFor(log, leader[p..], p, j)
    ensures log[..p + j] == leader[..p + j]
  {
    if j > 0 {
      assert log[p + (j - 1)].term == leader[p..][j - 1].term;
      assert leader[p..][j - 1] == leader[p + j - 1];
      assert MatchAt(leader, log, p + j - 1);
    }
  }

  /** A refused message moves the leader back by one entry and leaves both logs alone. */
  lemma RefusedExchange(l: Node, f: Node, a: AppendArgs, r: AppendReply, l1: Node, f1: Node)
    requires Pair(l, f) && Exchange(l, f, a, r, l1, f1) && !r.success
    ensures NextFor(l, f) > 1 && l1.log == l.log && l1.term == l.term
    ensures f1.id == f.id && Pair(l1, f1) && NextFor(l1, f1) == NextFor(l, f) - 1
  {
    BuildExact(l, f.id);
    AppendExact(f, a);
    AppendReplyExact(l, f.id, a.prevIndex + |a.entries|, r);
  }

  lemma MakeExchange(l: Node, f: Node) returns (a: AppendArgs, r: AppendReply, l1: Node, f1: Node)
    ensures Exchange(l, f, a, r, l1, f1)
  {
    a := BuildAppend(l, f.id);
    f1, r := HandleAppend(f, a).0, HandleAppend(f, a).1;
    l1 := OnAppendReply(l, f.id, a.prevIndex + |a.entries|, r);
  }

  /** However far apart the two logs are, at most as many exchanges as the leader's next index bring the follower
      to the leader's log: all but the last are refused, and with the last one the follower holds every entry of
      the leader, and the leader has recorded it. */
  lemma {:induction false} CatchesUp(l: Node, f: Node) returns (row: Row)
    requires Pair(l, f)
    ensures IsRow(row) && row.leaders[0] == l && row.followers[0] == f
    ensures |row.sent| == 1 || |row.sent| <= NextFor(l, f)
    ensures CaughtUp(l.log, l.term, row.leaders[|row.sent|], row.followers[|row.sent|])
    decreases NextFor(l, f)
  {
    var a, r, l1, f1 := MakeExchange(l, f);
    if r.success {
      AcceptedExchange(l, f, a, r, l1, f1);
      row := EndsRow(l, f, a, r, l1, f1);
    } else {
      RefusedExchange(l, f, a, r, l1, f1);
      var rest := CatchesUp(l1, f1);
      row := FrontsRow(l, f, a, r, rest);
    }
  }

  lemma EndsRow(l: Node, f: Node, a: AppendArgs, r: AppendReply, l1: Node, f1: Node) returns (row: Row)
    requires Exchange(l, f, a, r, l1, f1) && r.success
    ensures IsRow(row) && row == Row([l, l1], [f, f1], [a], [r])
  {
    row := Row([l, l1], [f, f1], [a], [r]);
    assert StepAt(row, 0);
  }

  lemma FrontsRow(l: Node, f: Node, a: AppendArgs, r: AppendReply, rest: Row) returns (row: Row)
    requires IsRow(rest) && Exchange(l, f, a, r, rest.leaders[0], rest.followers[0]) && !r.success
    ensures IsRow(row)
    ensures row == Row([l] + rest.leaders, [f] + rest.followers, [a] + rest.sent, [r] + rest.answers)
  {
    row := Row([l] + rest.leaders, [f] + rest.followers, [a] + rest.sent, [r] + rest.answers);
    forall i: nat | i < |row.sent| ensures StepAt(row, i) {
      if i > 0 {
        assert StepAt(rest, i - 1);
      }
    }
  }

  /** In every reachable state a leader catches up with every server that is in no newer term. */
  lemma CatchesUpInRuns(run: seq<State>, t: nat, a: Id, b: Id) returns (row: Row)
    requires IsRun(run) && t < |run| && a in run[t].nodes && b in run[t].nodes && a != b
    requires run[t].nodes[a].role == Leader && run[t].nodes[b].term <= run[t].nodes[a].term
    ensures IsRow(row) && row.leaders[0] == run[t].nodes[a] && row.followers[0] == run[t].nodes[b]
    ensures |row.sent| == 1 || |row.sent| <= NextFor(row.leaders[0], row.followers[0])
    ensures CaughtUp(row.leaders[0].log, row.leaders[0].term, row.leaders[|row.sent|], row.followers[|row.sent|])
  {
    PairInRuns(run, t, a, b);
    row := CatchesUp(run[t].nodes[a], run[t].nodes[b]);
  }

  lemma PairInRuns(run: seq<State>, t: nat, a: Id, b: Id)
    requires IsRun(run) && t < |run| && a in run[t].nodes && b in run[t].nodes && a != b
    requires run[t].nodes[a].role == Leader && run[t].nodes[b].term <= run[t].nodes[a].term
    ensures Pair(run[t].nodes[a], run[t].nodes[b])
  {
    var l, f := run[t].nodes[a], run[t].nodes[b];
    Safety.NamesHold(run, t, a);
    Safety.NamesHold(run, t, b);
    if f.role == Leader && f.term == l.term {
      Safety.ElectionSafety(run, t, t, a, b);
    }
    forall x | 0 <= x < |l.log| ensures l.log[x].index == x + 1 {
      Safety.LogShape(run, t, a, x, x);
    }
    forall x | 0 <= x < |f.log| ensures f.log[x].term > 0 {
      Safety.LogShape(run, t, b, x, x);
    }
    forall x: nat | x < |l.log| && x < |f.log| ensures MatchAt(l.log, f.log, x) {
      if l.log[x].term == f.log[x].term {
        Safety.LogMatching(run, t, t, a, b, x);
      }
    }
  }

  // ---------- a majority of willing voters elects ----------

  /** The voter would vote for candidate `c`: by its term and vote, and by the freshness of its log. */
  predicate Willing(v: Node, c: Node) {
    && (v.term < c.term || (v.term == c.term && (v.vote == None || v.vote == Some(c.id))))
    && NotOlder(LastTerm(c.log), LastIndex(c.log), v.log)
  }

  /** The candidate after it has asked these voters, one after the other, and heard their answers. */
  function Asked(c: Node, voters: seq<Node>): Node {
    if voters == [] then c
    else
      var k := |voters| - 1;
      var request := VoteArgs(c.term, c.id, LastIndex(c.log), LastTerm(c.log));
      OnVoteReply(Asked(c, voters[..k]), voters[k].id, c.term, HandleRequestVote(voters[k], request).1)
  }

  ghost predicate DistinctVoters(c: Node, voters: seq<Node>) {
    && (forall i | 0 <= i < |voters| :: voters[i].id != c.id && voters[i].term <= c.term)
    && (forall i, j | 0 <= i < j < |voters| :: voters[i].id != voters[j].id)
  }

  function WillingIds(c: Node, voters: seq<Node>): set<Id> {
    set v | v in voters && Willing(v, c) :: v.id
  }

  lemma WillingStep(c: Node, voters: seq<Node>)
    requires voters != [] && DistinctVoters(c, voters)
    ensures var k := |voters| - 1;
            && DistinctVoters(c, voters[..k])
            && WillingIds(c, voters)
               == WillingIds(c, voters[..k]) + (if Willing(voters[k], c) then {voters[k].id} else {})
            && voters[k].id !in WillingIds(c, voters[..k]) && c.id !in WillingIds(c, voters[..k])
  {
    var k := |voters| - 1;
    assert voters == voters[..k] + [voters[k]];
    assert forall v :: v in voters <==> v in voters[..k] || v == voters[k];
  }

  /** While it is not elected, a candidate has counted itself and all willing voters; it is elected as soon as
      these are a majority, and stays so. */
  lemma {:induction false} AskedForm(c: Node, voters: seq<Node>)
    requires c.role == Candidate && c.votes == {c.id} && DistinctVoters(c, voters)
    ensures Counting(c, Asked(c, voters), WillingIds(c, voters))
  {
    if voters != [] {
      var k := |voters| - 1;
      WillingStep(c, voters);
      AskedForm(c, voters[..k]);
      AsksOne(c, Asked(c, voters[..k]), voters[k], WillingIds(c, voters[..k]));
    }
  }

  /** `n` is what candidate `c` has become after hearing the grants of `willing`. */
  ghost predicate Counting(c: Node, n: Node, willing: set<Id>) {
    && n.term == c.term && n.id == c.id && n.peers == c.peers && (n.role == Leader || n.role == Candidate)
    && (n.role == Candidate ==> n.votes == {c.id} + willing)
    && (n.role == Leader <==> willing != {} && 2 * (1 + |willing|) > |c.peers| + 1)
  }

  lemma AsksOne(c: Node, n: Node, v: Node, willing: set<Id>)
    requires Counting(c, n, willing) && v.term <= c.term && v.id != c.id && v.id !in willing && c.id !in willing
    ensures var request := VoteArgs(c.term, c.id, LastIndex(c.log), LastTerm(c.log));
            Counting(c, OnVoteReply(n, v.id, c.term, HandleRequestVote(v, request).1),
                     willing + if Willing(v, c) then {v.id} else {})
  {
    var request := VoteArgs(c.term, c.id, LastIndex(c.log), LastTerm(c.log));
    VoteExact(v, request);
    VoteReplyExact(n, v.id, c.term, HandleRequestVote(v, request).1);
    if Willing(v, c) {
      assert {c.id} + willing + {v.id} == {c.id} + (willing + {v.id});
      assert |{c.id} + (willing + {v.id})| == 2 + |willing|;
      assert |willing + {v.id}| == 1 + |willing|;
    } else {
      assert willing + {} == willing;
    }
  }

  /** Whatever order the answers come in and whichever of them get lost, the candidate is elected if and only if
      it and the willing voters it has heard from are more than half of the servers. */
  lemma ElectedIff(c: Node, voters: seq<Node>)
    requires c.role == Candidate && c.votes == {c.id} && DistinctVoters(c, voters) && c.peers != []
    ensures Asked(c, voters).role == Leader <==> 2 * (1 + |WillingIds(c, voters)|) > |c.peers| + 1
  {
    AskedForm(c, voters);
  }

  // ---------- a majority of willing peers promotes ----------

  /** The peer would grant a probe of `n` for its next term. */
  predicate Approves(v: Node, n: Node) {
    && v.term <= n.term + 1 <= v.term + 1 && !(v.term == n.term + 1 && v.role == Leader)
    && NotOlder(LastTerm(n.log), LastIndex(n.log), v.log)
  }

  /** A pre-candidate after it has heard these peers, one after the other, about its round `round`. */
  function ProbedBy(n: Node, round: nat, peers: seq<Node>): (r: Node)
    requires round < |n.probes|
    ensures |r.probes| == |n.probes|
  {
    if peers == [] then n
    else
      var k := |peers| - 1;
      var probe := VoteArgs(n.term + 1, n.id, LastIndex(n.log), LastTerm(n.log));
      OnPreVoteReply(ProbedBy(n, round, peers[..k]), round, peers[k].id, n.term + 1, HandlePreVote(peers[k], probe))
  }

  function ApprovingIds(n: Node, peers: seq<Node>): set<Id> {
    set v | v in peers && Approves(v, n) :: v.id
  }

  /** `m` is what pre-candidate `n` has become after hearing the grants of `approving`. */
  ghost predicate Probing(n: Node, round: nat, m: Node, approving: set<Id>) {
    && |m.probes| == |n.probes| && round < |n.probes|
    && m.probes[round] == Probe(n.probes[round].term, n.probes[round].total, approving)
    && (2 * |approving| > n.probes[round].total ==> m.role == Candidate && m.term == n.term + 1)
    && (2 * |approving| <= n.probes[round].total ==> m.role == PreCandidate && m.term == n.term)
  }

  lemma HearsOne(n: Node, round: nat, m: Node, v: Node, approving: set<Id>)
    requires Probing(n, round, m, approving) && v.term <= n.term + 1 && v.id !in approving
    ensures var probe := VoteArgs(n.term + 1, n.id, LastIndex(n.log), LastTerm(n.log));
            Probing(n, round, OnPreVoteReply(m, round, v.id, n.term + 1, HandlePreVote(v, probe)),
                    approving + if Approves(v, n) then {v.id} else {})
  {
    var probe := VoteArgs(n.term + 1, n.id, LastIndex(n.log), LastTerm(n.log));
    PreVoteExact(v, probe);
    PreVoteReplyExact(m, round, v.id, n.term + 1, HandlePreVote(v, probe));
    if Approves(v, n) {
      assert |approving + {v.id}| == |approving| + 1;
    } else {
      assert approving + {} == approving;
    }
  }

  ghost predicate DistinctPeers(n: Node, peers: seq<Node>) {
    && (forall i | 0 <= i < |peers| :: peers[i].term <= n.term + 1)
    && (forall i, j | 0 <= i < j < |peers| :: peers[i].id != peers[j].id)
  }

  lemma ApprovingStep(n: Node, peers: seq<Node>)
    requires peers != [] && DistinctPeers(n, peers)
    ensures var k := |peers| - 1;
            && DistinctPeers(n, peers[..k]) && peers[k].term <= n.term + 1
            && ApprovingIds(n, peers)
               == ApprovingIds(n, peers[..k]) + (if Approves(peers[k], n) then {peers[k].id} else {})
            && peers[k].id !in ApprovingIds(n, peers[..k])
  {
    var k := |peers| - 1;
    assert peers == peers[..k] + [peers[k]];
    assert forall v :: v in peers <==> v in peers[..k] || v == peers[k];
  }

  /** Whatever order the answers come in and whichever of them get lost, the round promotes the node if and only if
      more than half of the servers it was sized for, not counting the node itself, approve. */
  lemma {:induction false} PromotedIff(n: Node, round: nat, peers: seq<Node>)
    requires round < |n.probes| && n.role == PreCandidate && n.probes[round].granted == {}
    requires DistinctPeers(n, peers)
    ensures Probing(n, round, ProbedBy(n, round, peers), ApprovingIds(n, peers))
    decreases |peers|
  {
    if peers == [] {
      assert ApprovingIds(n, peers) == {};
      assert |ApprovingIds(n, peers)| == 0;
      assert ProbedBy(n, round, peers) == n;
    } else {
      var k := |peers| - 1;
      var init, last := peers[..k], peers[k];
      ApprovingStep(n, peers);
      PromotedIff(n, round, init);
      var before := ProbedBy(n, round, init);
      HearsOne(n, round, before, last, ApprovingIds(n, init));
      ProbedByLast(n, round, peers);
    }
  }

  lemma ProbedByLast(n: Node, round: nat, peers: seq<Node>)
    requires round < |n.probes| && peers != []
    ensures var k, probe := |peers| - 1, VoteArgs(n.term + 1, n.id, LastIndex(n.log), LastTerm(n.log));
            ProbedBy(n, round, peers)
            == OnPreVoteReply(ProbedBy(n, round, peers[..k]), round, peers[k].id, n.term + 1,
                              HandlePreVote(peers[k], probe))
  {
  }

  // ---------- nobody stays behind a term it has heard of ----------

  /** The term of a message that is handled for its term. */
  function TermOf(s: Step): nat {
    match s
    case DoHandleVote(i, m) => if m.VoteRequest? then m.vote.term else 0
    case DoHandleAppend(i, m) => if m.Append? then m.append.term else 0
    case DoHandleTxVote(i, m) => if m.TxVote? then m.tx.term else 0
    case _ => 0
  }

  lemma HandledTerm(c: State, s: Step)
    requires Enabled(c, s) && c.nodes[s.i].id == s.i
    ensures s.i in Do(c, s).nodes && Do(c, s).nodes[s.i].term >= TermOf(s)
  {
    var n := c.nodes[s.i];
    match s
    case DoHandleVote(i, m) => VoteExact(n, m.vote);
    case DoHandleAppend(i, m) =>
      AppendExact(n, m.append);
      Probes.AppendKeepsRounds(n, m.append);
    case DoHandleTxVote(i, m) =>
      TxVoteExact(n, m.tx);
      ApplyLogsKeeps(n.(commit := if n.commit < m.tx.lastIndex <= |n.log| then m.tx.lastIndex else n.commit));
    case _ => StepKeepsNode(c, s);
  }

  lemma StepKeepsNode(c: State, s: Step)
    requires Enabled(c, s) && c.nodes[s.i].id == s.i && !s.DoHandleVote? && !s.DoHandleAppend? && !s.DoHandleTxVote?
    ensures s.i in Do(c, s).nodes
  {
  }

  /** In a run, whoever has handled a vote request, an AppendEntries or a transaction vote request of a term is in
      that term or a newer one ever after. */
  lemma TermsCatchUp(run: seq<State>, j: nat, k: nat, s: Step)
    requires IsRun(run) && j < k < |run| && Enabled(run[j], s) && Assumed(run[j], s) && run[j + 1] == Do(run[j], s)
    ensures s.i in run[k].nodes && run[k].nodes[s.i].term >= TermOf(s)
  {
    Safety.NamesHold(run, j, s.i);
    HandledTerm(run[j], s);
    Safety.TermsRise(run, j + 1, k, s.i);
  }
}

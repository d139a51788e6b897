/** What the code does without the assumptions, on three servers whose elections all start with a probe.
    Without the assumption on late refusals two leaders are elected in one term; without the one on match
    indices two different entries are committed at one index; and with all assumptions a node is promoted
    at a term that its probe round did not probe. */
module Anomalies {
  import opened Protocol
  import opened Steps
  import opened Cluster
  import opened FreeRuns
  import Quorum
  import Membership

  // ---------- a promotion past the probed term ----------

  /** Server a probes term 1 and is granted by both peers, but b runs first and leads term 1. Following b,
      server a probes term 2. The next grant it hears is the second one of its first round. */
  lemma PromotedPastProbe(a: Id, b: Id, c: Id) returns (run: seq<State>, m: Msg)
    requires a != b && b != c && a != c
    ensures IsRun(run) && Enabled(Last(run), DoProbeAnswer(a, m))
    ensures var n := Do(Last(run), DoProbeAnswer(a, m)).nodes[a];
            n.role == Candidate && n.term == 2 && m.reqTerm == 1 && n.probes[m.round].term == 1
  {
    var w, na, nb, nc := Nothing, Start(a, b, c), Start(b, a, c), Start(c, a, b);
    run := Starts(w, a, b, c);
    run := Collects(w, run, na, nb, nc);
    na := BecomePreCandidate(na);
    var before := run;
    run := RunsForLeader(w, run, nb, na, nc);
    nb := Runs(nb, a, c);
    run := Elects(w, run, nb, nc, na);
    nb, nc := Won(nb, c), Voted(nc, 1, b);
    var n1;
    run, m, n1 := Deposes(w, run, nb, na, nc);
    run := StartsProbe(w, run, n1, nb, nc);
    var n2 := BecomePreCandidate(n1);
    assert n2.probes[0] == na.probes[0];
    GrantsStay(before, run, na, n2, 0, b);
    GrantsStay(before, run, na, n2, 0, c);
    run, n1, m := HearsFirst(w, run, n2, nb, nc, 0);
    FreeRunsAreRuns(run);
  }

  lemma GrantsStay(run: seq<State>, longer: seq<State>, n: Node, n1: Node, round: nat, j: Id)
    requires run != [] && Granted(run, n, round, j) && Grows(run, longer)
    requires n1.id == n.id && round < |n1.probes| && n1.probes[round] == n.probes[round]
    ensures Granted(longer, n1, round, j)
  {
  }

  // ---------- two leaders in one term ----------

  /** Server b leads term 1 by the vote of y; its request to x is still on the way. Then x and y, following
      b, both probe and are both promoted to term 2, and x refuses the old request. */
  lemma RefusedLate(w: Waived, b: Id, x: Id, y: Id) returns (run: seq<State>, nb: Node, nx: Node, ny: Node)
    requires b != x && x != y && b != y
    ensures At(w, run, nb, nx, ny) && nb.id == b && nx.id == x && ny.id == y
    ensures nb.term == 1 && nb.log == []
    ensures nx.role == Candidate && nx.term == 2 && nx.votes == {x} && nx.log == [] && |nx.peers| == 2
    ensures ny.role == Candidate && ny.term == 2 && ny.votes == {y} && ny.log == [] && |ny.peers| == 2
    ensures VoteAnswer(x, b, 1, VoteReply(2, false)) in Last(run).msgs
  {
    nb, nx, ny := Start(b, x, y), Start(x, b, y), Start(y, b, x);
    run := Starts(w, b, x, y);
    run := RunsForLeader(w, run, nb, nx, ny);
    nb := Runs(nb, x, y);
    run := SendsRequest(w, run, nb, nx, ny);
    var request := VoteRequest(b, x, RequestOf(nb));
    run := Elects(w, run, nb, ny, nx);
    nb, ny := Won(nb, y), Voted(ny, 1, b);
    var answer, n1;
    run, answer, n1 := Deposes(w, run, nb, nx, ny);
    nx := n1;
    run, nx, ny := BothRise(w, run, nb, nx, ny);
    run := AnswersRequest(w, run, nb, nx, ny, request, nx, VoteReply(2, false));
  }

  lemma BothRise(w: Waived, run: seq<State>, nb: Node, x0: Node, y0: Node)
    returns (longer: seq<State>, nx: Node, ny: Node)
    requires At(w, run, nb, x0, y0) && nb.term == x0.term == y0.term && nb.log == [] && x0.log == [] && y0.log == []
    requires x0.role == Follower && x0.peers == [nb.id, y0.id] && y0.role == Follower && y0.peers == [nb.id, x0.id]
    ensures At(w, longer, nb, nx, ny) && Grows(run, longer)
    ensures nx == Runs(x0, nb.id, y0.id) && ny == Runs(y0, nb.id, x0.id)
  {
    var x1, y1 := BecomePreCandidate(x0), BecomePreCandidate(y0);
    longer := Collects(w, run, x0, nb, y0);
    var before := longer;
    longer := Collects(w, longer, y0, nb, x1);
    StillProbed(before, longer, x1, |x0.probes|, nb.id, y0.id);
    before := longer;
    nx := Runs(x0, nb.id, y0.id);
    longer := Rises(w, longer, x1, nb, y1, |x0.probes|);
    StillProbed(before, longer, y1, |y0.probes|, nb.id, x0.id);
    ny := Runs(y0, nb.id, x0.id);
    longer := Rises(w, longer, y1, nb, nx, |y0.probes|);
  }

  /** Server y is elected in term 2 by b. Only now the refusal reaches b, which forgets that vote, and x is
      elected in term 2 by b as well. */
  lemma TwoLeadersInOneTerm(b: Id, x: Id, y: Id) returns (run: seq<State>)
    requires b != x && x != y && b != y
    ensures IsFreeRun(LateRefusals, run) && x in Last(run).nodes && y in Last(run).nodes
    ensures Last(run).nodes[x].role == Leader && Last(run).nodes[y].role == Leader
    ensures Last(run).nodes[x].term == Last(run).nodes[y].term
  {
    var w, nb, nx, ny := LateRefusals, Start(b, x, y), Start(x, b, y), Start(y, b, x);
    run, nb, nx, ny := RefusedLate(w, b, x, y);
    run := Elects(w, run, ny, nb, nx);
    ny, nb := Won(ny, b), Voted(nb, 2, y);
    run := HearsVote(w, run, nb, nx, ny, VoteAnswer(x, b, 1, VoteReply(2, false)), AdoptTerm(nb, 2));
    nb := AdoptTerm(nb, 2);
    run := SendsRequest(w, run, nx, nb, ny);
    var n1 := nb.(vote := Some(x));
    run := AnswersRequest(w, run, nx, nb, ny, VoteRequest(x, b, RequestOf(nx)), n1, VoteReply(2, true));
    CountsBoth(nx, b);
    run := HearsVote(w, run, nx, n1, ny, VoteAnswer(b, x, 2, VoteReply(2, true)), Won(nx, b));
  }

  // ---------- two entries committed at one index ----------

  /** What the scenario needs to know of a node. */
  ghost predicate Is(n: Node, self: Id, p: Id, q: Id, term: nat, role: Role, log: seq<LogEntry>, commit: nat) {
    && n.id == self && n.peers == [p, q] && n.pendingSimple == None
    && n.config == Simple([ServerId(self, self), ServerId(p, p), ServerId(q, q)])
    && n.term == term && n.role == role && n.log == log && n.commit == commit && n.applied == commit
  }

  /** The last round of `n` has both grants in flight. */
  ghost predicate Ready(run: seq<State>, n: Node, j: Id, k: Id) {
    |n.probes| > 0 && Probed(run, n, |n.probes| - 1, j, k)
  }

  /** With one peer counted at 2, the leader commits the second entry if it is of its own term, else nothing. */
  lemma CommitsSecond(n: Node, self: Id, p: Id, q: Id, peer: Id)
    requires Is(n, self, p, q, n.term, Leader, n.log, 0) && |n.log| == 2 && self != p && self != q && p != q
    requires peer == p || peer == q
    requires peer in n.matchIndex && n.matchIndex[peer] >= 2
    ensures n.log[1].term != n.term ==> MaybeCommit(n) == n
    ensures n.log[1].term == n.term ==>
              MaybeCommit(n).commit == 2 && MaybeCommit(n).id == self && MaybeCommit(n).log == n.log
  {
    var servers := n.config.servers;
    var holders := Quorum.Holders(servers, n.matchIndex, self, 2, 2);
    var at := if peer == p then 1 else 2;
    assert {0, at} <= holders;
    Quorum.SubsetSize({0, at}, holders);
    assert Quorum.Reached(n.config, n.matchIndex, self, 2, 2);
    assert Quorum.Highest(n.config, n.matchIndex, self, 2, 2) == 2;
    if n.log[1].term == n.term {
      ApplyLogsKeeps(n.(commit := 2));
      Membership.ApplyLogsSettles(n.(commit := 2));
      assert n.log + [] == n.log;
    }
  }

  function Entry(term: nat, index: nat, cmd: Command): LogEntry { LogEntry(term, index, cmd) }

  /** Term 1: a is elected, c follows it and has a probe for term 2 granted. Only then a proposes two entries,
      which nobody else gets. */
  lemma FirstTerm(w: Waived, a: Id, b: Id, c: Id, u: Command) returns (run: seq<State>, na: Node, nb: Node, nc: Node)
    requires a != b && b != c && a != c && !u.InstallConfiguration?
    ensures At(w, run, na, nb, nc)
    ensures Is(na, a, b, c, 1, Leader, [Entry(1, 1, u), Entry(1, 2, u)], 0) && na.matchIndex == map[]
    ensures Is(nb, b, a, c, 1, Follower, [], 0)
    ensures Is(nc, c, a, b, 1, PreCandidate, [], 0) && nc.matchIndex == map[] && Ready(run, nc, a, b)
  {
    na, nb, nc := Start(a, b, c), Start(b, a, c), Start(c, a, b);
    run := Starts(w, a, b, c);
    run := RunsForLeader(w, run, na, nb, nc);
    na := Runs(na, b, c);
    run := Elects(w, run, na, nb, nc);
    na, nb := Won(na, b), Voted(nb, 1, a);
    var answer, n1;
    run, answer, n1 := Deposes(w, run, na, nc, nb);
    run := Collects(w, run, n1, na, nb);
    nc := BecomePreCandidate(n1);
    run, na := ProposesTwice(w, run, na, nb, nc, u);
  }

  lemma ProposesTwice(w: Waived, run: seq<State>, x: Node, y: Node, z: Node, u: Command)
    returns (longer: seq<State>, n: Node)
    requires At(w, run, x, y, z) && x.role == Leader && x.term == 1 && x.log == [] && !u.InstallConfiguration?
    requires Ready(run, z, x.id, y.id)
    ensures n == x.(log := [Entry(1, 1, u), Entry(1, 2, u)], wal := n.wal)
    ensures At(w, longer, n, y, z) && Ready(longer, z, x.id, y.id)
  {
    longer := Proposes(w, run, x, y, z, u);
    longer := Proposes(w, longer, PushEntry(x, u), y, z, u);
    n := PushEntry(PushEntry(x, u), u);
    StillProbed(run, longer, z, |z.probes| - 1, x.id, y.id);
  }

  /** Term 2: c is promoted by the grants from before and elected by b. Then a follows it and has a probe for
      term 3 granted, and only then c proposes. */
  lemma SecondTerm(w: Waived, run: seq<State>, a0: Node, b0: Node, c0: Node, u: Command, y: Command)
    returns (longer: seq<State>, na: Node, nb: Node, nc: Node)
    requires At(w, run, a0, b0, c0) && !y.InstallConfiguration?
    requires Is(a0, a0.id, b0.id, c0.id, 1, Leader, [Entry(1, 1, u), Entry(1, 2, u)], 0) && a0.matchIndex == map[]
    requires Is(b0, b0.id, a0.id, c0.id, 1, Follower, [], 0)
    requires Is(c0, c0.id, a0.id, b0.id, 1, PreCandidate, [], 0)
    requires c0.matchIndex == map[] && Ready(run, c0, a0.id, b0.id)
    ensures At(w, longer, na, nb, nc)
    ensures Is(na, a0.id, b0.id, c0.id, 2, PreCandidate, [Entry(1, 1, u), Entry(1, 2, u)], 0) && na.matchIndex == map[]
    ensures Ready(longer, na, b0.id, c0.id)
    ensures Is(nb, b0.id, a0.id, c0.id, 2, Follower, [], 0)
    ensures Is(nc, c0.id, a0.id, b0.id, 2, Leader, [Entry(2, 1, y)], 0) && nc.matchIndex == map[]
  {
    na, nb, nc := a0, b0, c0;
    longer := Rises(w, run, nc, na, nb, |nc.probes| - 1);
    nc := Risen(nc, |nc.probes| - 1, na.id, nb.id);
    longer := Elects(w, longer, nc, nb, na);
    nc, nb := Won(nc, nb.id), Voted(nb, 2, nc.id);
    var answer, n1;
    assert BuildAppend(nc, na.id).entries == [];
    longer, answer, n1 := Deposes(w, longer, nc, na, nb);
    longer := Collects(w, longer, n1, nb, nc);
    na := BecomePreCandidate(n1);
    var before := longer;
    longer := Proposes(w, longer, nc, na, nb, y);
    nc := PushEntry(nc, y);
    StillProbed(before, longer, na, |na.probes| - 1, nb.id, nc.id);
  }

  /** Term 3: a is promoted and leads again. It gives b its two old entries, which its own term does not let it
      commit. The match index of b stays at 2. */
  lemma ThirdTerm(w: Waived, run: seq<State>, a0: Node, b0: Node, c0: Node, u: Command, y: Command)
    returns (longer: seq<State>, na: Node, nb: Node, nc: Node)
    requires w == LeftoverMatches && At(w, run, a0, b0, c0)
    requires Is(a0, a0.id, b0.id, c0.id, 2, PreCandidate, [Entry(1, 1, u), Entry(1, 2, u)], 0) && a0.matchIndex == map[]
    requires Ready(run, a0, b0.id, c0.id)
    requires Is(b0, b0.id, a0.id, c0.id, 2, Follower, [], 0)
    requires Is(c0, c0.id, a0.id, b0.id, 2, Leader, [Entry(2, 1, y)], 0)
    ensures At(w, longer, na, nb, nc)
    ensures Is(na, a0.id, b0.id, c0.id, 3, Leader, [Entry(1, 1, u), Entry(1, 2, u)], 0)
    ensures na.matchIndex == map[b0.id := 2]
    ensures Is(nb, b0.id, a0.id, c0.id, 3, Follower, [Entry(1, 1, u), Entry(1, 2, u)], 0)
    ensures nc == AdoptTerm(c0, 3).(wal := nc.wal)
  {
    na, nb, nc := a0, b0, c0;
    longer := Rises(w, run, na, nb, nc, |na.probes| - 1);
    na := Risen(na, |na.probes| - 1, nb.id, nc.id);
    longer := Elects(w, longer, na, nb, nc);
    na, nb := Won(na, nb.id), Voted(nb, 3, na.id);
    var answer, n1;
    assert BuildAppend(na, nc.id).entries == [];
    longer, answer, n1 := Deposes(w, longer, na, nc, nb);
    nc := n1;
    longer, na := BacksTwice(w, longer, na, nb, nc);
    longer, na, nb := Catches(w, longer, na, nb, nc);
  }

  lemma BacksTwice(w: Waived, run: seq<State>, x: Node, y: Node, z: Node) returns (longer: seq<State>, n: Node)
    requires At(w, run, x, y, z) && x.role == Leader && |x.log| == 2
    requires y.role == Follower && y.term == x.term && y.log == []
    requires y.id in x.nextIndex && x.nextIndex[y.id] == 3
    ensures n == x.(nextIndex := x.nextIndex[y.id := 1]) && At(w, longer, n, y, z)
  {
    longer := Backs(w, run, x, y, z);
    n := x.(nextIndex := x.nextIndex[y.id := 2]);
    longer := Backs(w, longer, n, y, z);
    assert x.nextIndex[y.id := 2][y.id := 1] == x.nextIndex[y.id := 1];
    n := n.(nextIndex := n.nextIndex[y.id := 1]);
  }

  lemma Catches(w: Waived, run: seq<State>, x0: Node, y0: Node, z: Node) returns (longer: seq<State>, x: Node, y: Node)
    requires w == LeftoverMatches && At(w, run, x0, y0, z)
    requires Is(x0, x0.id, y0.id, z.id, x0.term, Leader, x0.log, 0) && |x0.log| == 2
    requires x0.log[0].index == 1 && x0.log[1].index == 2 && x0.log[1].term != x0.term
    requires x0.matchIndex == map[] && y0.id in x0.nextIndex && x0.nextIndex[y0.id] == 1
    requires y0.role == Follower && y0.term == x0.term && y0.log == [] && y0.commit == 0
    ensures At(w, longer, x, y, z)
    ensures y == y0.(log := x0.log, wal := y.wal)
    ensures x == x0.(matchIndex := map[y0.id := 2], nextIndex := x.nextIndex)
  {
    var answer;
    longer, answer, y := SendsAll(w, run, x0, y0, z);
    Replaces([], x0.log);
    x := RecordMatch(x0, y.id, 2);
    assert x.matchIndex == map[y.id := 2];
    CommitsSecond(x, x.id, y.id, z.id, y.id);
    longer := Learns(w, longer, x0, y, z, answer, x);
  }

  /** Term 4: c is elected by a, whose last entry is older, replaces both entries of a by its own one, and makes
      b follow. */
  lemma FourthTerm(w: Waived, run: seq<State>, a0: Node, b0: Node, c0: Node, y: Command)
    returns (longer: seq<State>, na: Node, nb: Node, nc: Node)
    requires At(w, run, a0, b0, c0)
    requires a0.term == 3 && |a0.log| == 2 && a0.log[0].term == 1 && a0.log[1].term == 1 && a0.commit == 0
    requires b0.term == 3 && |b0.log| == 2 && b0.log[1].term == 1 && b0.commit == 0
    requires c0.term == 3 && c0.role == Follower && c0.log == [Entry(2, 1, y)] && c0.commit == 0
    requires c0.peers == [a0.id, b0.id]
    ensures At(w, longer, na, nb, nc)
    ensures na == Voted(a0, 4, c0.id).(log := [Entry(2, 1, y)], wal := na.wal)
    ensures nb == AdoptTerm(b0, 4).(wal := nb.wal)
    ensures nc == Won(Runs(c0, a0.id, b0.id), a0.id).(nextIndex := nc.nextIndex)
  {
    na, nb, nc := a0, b0, c0;
    longer := RunsForLeader(w, run, nc, na, nb);
    nc := Runs(nc, na.id, nb.id);
    longer := Elects(w, longer, nc, na, nb);
    nc, na := Won(nc, na.id), Voted(na, 4, nc.id);
    assert nc.nextIndex == map[na.id := 2, nb.id := 2];
    longer, na, nb, nc := Overwrites(w, longer, na, nb, nc);
  }

  lemma Overwrites(w: Waived, run: seq<State>, a0: Node, b0: Node, c0: Node)
    returns (longer: seq<State>, na: Node, nb: Node, nc: Node)
    requires At(w, run, a0, b0, c0) && c0.role == Leader && |c0.log| == 1 && c0.log[0].index == 1 && c0.commit == 0
    requires c0.nextIndex == map[a0.id := 2, b0.id := 2]
    requires a0.role == Follower && a0.term == c0.term && a0.commit == 0 && a0.log != []
    requires a0.log[0].term != c0.log[0].term && b0.term < c0.term && b0.commit == 0
    ensures At(w, longer, na, nb, nc)
    ensures na == a0.(log := c0.log, wal := na.wal)
    ensures nb == AdoptTerm(b0, c0.term).(wal := nb.wal)
    ensures nc == c0.(nextIndex := nc.nextIndex)
  {
    longer := Backs(w, run, c0, a0, b0);
    nc := c0.(nextIndex := c0.nextIndex[a0.id := 1]);
    var answer;
    longer, answer, na := SendsAll(w, longer, nc, a0, b0);
    Replaces(a0.log, nc.log);
    assert BuildAppend(nc, b0.id).entries == [];
    longer, answer, nb := Deposes(w, longer, nc, b0, na);
  }

  /** Term 5: a leads with one entry and the leftover match index 2. c follows it and has a probe for term 6
      granted. Only then a proposes a second entry, and the answer to an earlier heartbeat makes it commit that
      entry, which nobody else has. */
  lemma FifthTerm(w: Waived, run: seq<State>, a0: Node, b0: Node, c0: Node, y: Command, z: Command)
    returns (longer: seq<State>, na: Node, nb: Node, nc: Node)
    requires w == LeftoverMatches && At(w, run, a0, b0, c0) && !z.InstallConfiguration?
    requires Is(a0, a0.id, b0.id, c0.id, 4, Follower, [Entry(2, 1, y)], 0) && a0.matchIndex == map[b0.id := 2]
    requires b0.term == 4 && |b0.log| == 2 && b0.log[1].term == 1
    requires c0.term == 4 && c0.log == [Entry(2, 1, y)] && c0.commit == 0 && c0.peers == [a0.id, b0.id]
    ensures At(w, longer, na, nb, nc)
    ensures na.id == a0.id && na.log == [Entry(2, 1, y), Entry(5, 2, z)] && na.commit == 2
    ensures nb == Voted(b0, 5, a0.id)
    ensures nc == AdoptTerm(c0, 5).(wal := nc.wal, role := PreCandidate, probes := nc.probes)
    ensures Ready(longer, nc, a0.id, b0.id)
  {
    na, nb, nc := a0, b0, c0;
    longer := RunsForLeader(w, run, na, nb, nc);
    na := Runs(na, nb.id, nc.id);
    longer := Elects(w, longer, na, nb, nc);
    na, nb := Won(na, nb.id), Voted(nb, 5, na.id);
    var answer, n1;
    assert BuildAppend(na, nc.id).entries == [];
    longer, answer, n1 := Deposes(w, longer, na, nc, nb);
    longer := Collects(w, longer, n1, na, nb);
    nc := BecomePreCandidate(n1);
    longer, na := CommitsAlone(w, longer, na, nb, nc, z, answer);
  }

  lemma CommitsAlone(w: Waived, run: seq<State>, a0: Node, nb: Node, nc: Node, z: Command, answer: Msg)
    returns (longer: seq<State>, na: Node)
    requires w == LeftoverMatches && At(w, run, a0, nb, nc) && !z.InstallConfiguration?
    requires Is(a0, a0.id, nb.id, nc.id, a0.term, Leader, a0.log, 0) && |a0.log| == 1
    requires a0.matchIndex == map[nb.id := 2] && Ready(run, nc, a0.id, nb.id)
    requires answer in Last(run).msgs && answer == AppendAnswer(nc.id, a0.id, a0.term, 1, AppendReply(a0.term, true))
    ensures At(w, longer, na, nb, nc) && Ready(longer, nc, a0.id, nb.id)
    ensures na.id == a0.id && na.log == a0.log + [Entry(a0.term, 2, z)] && na.commit == 2
  {
    longer := Proposes(w, run, a0, nb, nc, z);
    var n1 := PushEntry(a0, z);
    var n2 := RecordMatch(n1, nc.id, 1);
    CommitsSecond(n2, a0.id, nb.id, nc.id, nb.id);
    na := MaybeCommit(n2);
    longer := Learns(w, longer, n1, nb, nc, answer, na);
    StillProbed(run, longer, nc, |nc.probes| - 1, a0.id, nb.id);
  }

  /** Term 6: c is promoted by the grants from before, elected by b without that entry, and commits another one
      in its place. */
  lemma SixthTerm(w: Waived, run: seq<State>, na: Node, b0: Node, c0: Node, y: Command, v: Command)
    returns (longer: seq<State>, nb: Node, nc: Node)
    requires w == LeftoverMatches && At(w, run, na, b0, c0) && !v.InstallConfiguration?
    requires b0.term == 5 && |b0.log| == 2 && b0.log[0].term == 1 && b0.log[1].term == 1 && b0.commit == 0
    requires Is(c0, c0.id, na.id, b0.id, 5, PreCandidate, [Entry(2, 1, y)], 0) && c0.matchIndex == map[]
    requires Ready(run, c0, na.id, b0.id)
    ensures At(w, longer, na, nb, nc) && nb.id == b0.id && nc.id == c0.id
    ensures nc.log == [Entry(2, 1, y), Entry(6, 2, v)] && nc.commit == 2
  {
    nb, nc := b0, c0;
    longer := Rises(w, run, nc, na, nb, |nc.probes| - 1);
    nc := Risen(nc, |nc.probes| - 1, na.id, nb.id);
    longer := Elects(w, longer, nc, nb, na);
    nc, nb := Won(nc, nb.id), Voted(nb, 6, nc.id);
    longer := Proposes(w, longer, nc, nb, na, v);
    nc := PushEntry(nc, v);
    longer := Backs(w, longer, nc, nb, na);
    nc := nc.(nextIndex := nc.nextIndex[nb.id := 1]);
    longer, nb, nc := CommitsOther(w, longer, na, nb, nc);
  }

  lemma CommitsOther(w: Waived, run: seq<State>, na: Node, b0: Node, c0: Node)
    returns (longer: seq<State>, nb: Node, nc: Node)
    requires w == LeftoverMatches && At(w, run, na, b0, c0)
    requires Is(c0, c0.id, na.id, b0.id, c0.term, Leader, c0.log, 0) && |c0.log| == 2 && c0.matchIndex == map[]
    requires c0.log[0].index == 1 && c0.log[1].index == 2 && c0.log[1].term == c0.term
    requires b0.id in c0.nextIndex && c0.nextIndex[b0.id] == 1
    requires b0.role == Follower && b0.term == c0.term && b0.commit == 0 && b0.log != []
    requires b0.log[0].term != c0.log[0].term
    ensures At(w, longer, na, nb, nc) && nb.id == b0.id && nc.id == c0.id
    ensures nc.log == c0.log && nc.commit == 2
  {
    var answer;
    longer, answer, nb := SendsAll(w, run, c0, b0, na);
    var n1 := RecordMatch(c0, nb.id, 2);
    CommitsSecond(n1, c0.id, na.id, nb.id, nb.id);
    nc := MaybeCommit(n1);
    longer := Learns(w, longer, c0, nb, na, answer, nc);
  }

  /** Leftover match indices lose a committed entry: for any commands, there is a run in which two servers have
      committed different entries at index 2. */
  lemma TwoEntriesCommitted(a: Id, b: Id, c: Id, u: Command, y: Command, z: Command, v: Command)
    returns (run: seq<State>)
    requires a != b && b != c && a != c
    requires !u.InstallConfiguration? && !y.InstallConfiguration?
    requires !z.InstallConfiguration? && !v.InstallConfiguration?
    ensures IsFreeRun(LeftoverMatches, run) && a in Last(run).nodes && c in Last(run).nodes
    ensures Last(run).nodes[a].commit == 2 && Last(run).nodes[a].log == [Entry(2, 1, y), Entry(5, 2, z)]
    ensures Last(run).nodes[c].commit == 2 && Last(run).nodes[c].log == [Entry(2, 1, y), Entry(6, 2, v)]
  {
    var w, na, nb, nc := LeftoverMatches, Start(a, b, c), Start(b, a, c), Start(c, a, b);
    run, na, nb, nc := FirstTerm(w, a, b, c, u);
    run, na, nb, nc := SecondTerm(w, run, na, nb, nc, u, y);
    run, na, nb, nc := ThirdTerm(w, run, na, nb, nc, u, y);
    run, na, nb, nc := FourthTerm(w, run, na, nb, nc, y);
    run, na, nb, nc := FifthTerm(w, run, na, nb, nc, y, z);
    run, nb, nc := SixthTerm(w, run, na, nb, nc, y, v);
  }
}

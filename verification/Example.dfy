/** The assumptions leave room for the protocol to work: two servers elect a leader that commits any
    proposal. */
module Example {
  import opened Protocol
  import opened Reference
  import opened Steps
  import opened Cluster
  import opened Hypotheses
  import Quorum
  import Coordinator

  ghost function Last(run: seq<State>): State
    requires run != []
  {
    run[|run| - 1]
  }

  lemma Extend(run: seq<State>, s: Step) returns (longer: seq<State>)
    requires IsCleanRun(run) && Enabled(Last(run), s) && StartsClean(Last(run), s)
    ensures IsCleanRun(longer) && Last(longer) == Do(Last(run), s)
  {
    longer := run + [Do(Last(run), s)];
    forall k | 0 <= k < |longer| - 1 ensures CleanNext(longer[k], longer[k + 1]) {
      if k < |run| - 1 {
        assert CleanNext(run[k], run[k + 1]);
      }
    }
  }

  function Start(self: Id, other: Id): Node {
    Node(self, 0, None, Follower, [], [], 0, 0, [other], map[], map[],
         Simple([ServerId(self, self), ServerId(other, other)]), None, EMPTY, {}, [])
  }

  lemma StartIsFresh(a: Id, b: Id)
    requires a != b
    ensures Fresh({a, b}, Start(a, b))
  {
    assert Ids([ServerId(a, a), ServerId(b, b)]) == {a, b};
  }

  lemma Starts(a: Id, b: Id) returns (run: seq<State>)
    requires a != b
    ensures IsCleanRun(run)
    ensures Last(run) == State(map[a := Start(a, b), b := Start(b, a)], {}, {}, History(map[], {}, {}, {}))
  {
    var c := State(map[a := Start(a, b), b := Start(b, a)], {}, {}, History(map[], {}, {}, {}));
    assert c.nodes.Keys == {a, b} == {b, a};
    StartIsFresh(a, b);
    StartIsFresh(b, a);
    run := [c];
  }

  /** What the second half needs of the elected leader and its follower. */
  ghost predicate Elected(c: State, a: Id, b: Id) {
    && a in c.nodes && b in c.nodes
    && c.nodes[a].role == Leader && c.nodes[a].term == 1 && c.nodes[a].id == a
    && c.nodes[a] == Start(a, b).(role := Leader, term := 1, vote := Some(a), votes := {a, b}, nextIndex := map[b := 1])
    && c.nodes[b] == Start(b, a).(term := 1, vote := Some(a))
  }

  /** The election so far: one vote is cast and answered. */
  ghost predicate Voted(c: State, a: Id, b: Id) {
    && a in c.nodes && b in c.nodes
    && c.nodes[a] == Promote(Start(a, b))
    && c.nodes[b] == Start(b, a).(term := 1, vote := Some(a))
    && VoteAnswer(b, a, 1, VoteReply(1, true)) in c.msgs
  }

  lemma Votes(a: Id, b: Id) returns (run: seq<State>)
    requires a != b
    ensures IsCleanRun(run) && Voted(Last(run), a, b)
  {
    run := Starts(a, b);
    run := Extend(run, DoPromote(a));
    run := Extend(run, DoRequestVote(a, b));
    var c := Last(run);
    assert c.nodes[a] == Promote(Start(a, b)) && c.nodes[b] == Start(b, a);
    var request := VoteRequest(a, b, VoteArgs(1, a, 0, 0));
    assert request in c.msgs;
    run := Extend(run, DoHandleVote(b, request));
  }

  lemma Wins(a: Id, b: Id)
    requires a != b
    ensures OnVoteReply(Promote(Start(a, b)), b, 1, VoteReply(1, true))
         == Start(a, b).(role := Leader, term := 1, vote := Some(a), votes := {a, b}, nextIndex := map[b := 1])
  {
    assert {a} + {b} == {a, b} && |{a, b}| == 2;
    assert BecomeLeader(Promote(Start(a, b)).(votes := {a, b})).nextIndex == map[b := 1];
  }

  lemma Elects(a: Id, b: Id) returns (run: seq<State>)
    requires a != b
    ensures IsCleanRun(run) && Elected(Last(run), a, b)
  {
    run := Votes(a, b);
    Wins(a, b);
    run := Extend(run, DoVoteAnswer(a, VoteAnswer(b, a, 1, VoteReply(1, true))));
  }

  lemma Replicates(run: seq<State>, a: Id, b: Id, cmd: Command) returns (longer: seq<State>, answer: Msg)
    requires a != b && IsCleanRun(run) && Elected(Last(run), a, b) && !cmd.InstallConfiguration?
    ensures IsCleanRun(longer)
    ensures a in Last(longer).nodes && b in Last(longer).nodes
    ensures Last(longer).nodes[a] == PushEntry(Last(run).nodes[a], cmd)
    ensures Last(longer).nodes[b].term == 1 && Last(longer).nodes[b].log == [LogEntry(1, 1, cmd)]
    ensures Last(longer).nodes[b].commit == 0
    ensures Last(longer).nodes[a].log == [LogEntry(1, 1, cmd)]
    ensures answer == AppendAnswer(b, a, 1, 1, AppendReply(1, true)) && answer in Last(longer).msgs
  {
    longer := Extend(run, DoPropose(a, cmd));
    var e := LogEntry(1, 1, cmd);
    assert Last(longer).nodes[a].log == [e];
    longer := Extend(longer, DoSendAppend(a, b));
    var args := AppendArgs(1, a, 0, 0, [e], 0);
    assert [e][0..] == [e];
    assert Append(a, b, args) in Last(longer).msgs;
    FirstEntryAccepted(Last(longer).nodes[b], args);
    longer := Extend(longer, DoHandleAppend(b, Append(a, b, args)));
    answer := AppendAnswer(b, a, 1, 1, AppendReply(1, true));
  }

  lemma FirstEntryAccepted(n: Node, args: AppendArgs)
    requires n.term == args.term && n.role == Follower && args.prevIndex == 0
    requires n.log == [] && |args.entries| == 1 && args.commit <= n.commit
    ensures HandleAppend(n, args)
         == (n.(log := args.entries, wal := HandleAppend(n, args).0.wal), AppendReply(n.term, true))
  {
    assert args.entries[..0] == [];
    assert [] + [args.entries[0]] == args.entries;
  }

  /** Some run, within all assumptions, elects a leader by the vote of another server and commits a
      proposal by that server's answer. */
  lemma SomeRunCommits(a: Id, b: Id, cmd: Command) returns (run: seq<State>)
    requires a != b && !cmd.InstallConfiguration?
    ensures IsCleanRun(run) && IsRun(run)
    ensures a in Last(run).nodes && b in Last(run).nodes
    ensures Last(run).nodes[a].commit == 1 && Last(run).nodes[a].log == [LogEntry(1, 1, cmd)]
    ensures Replicated(Last(run), a, b) && Last(run).nodes[b].log == [LogEntry(1, 1, cmd)]
  {
    var answer;
    run := Elects(a, b);
    run, answer := Replicates(run, a, b, cmd);
    var n := Last(run).nodes[a];
    CountsTwo(RecordMatch(n, b, 1), a, b);
    run := Extend(run, DoAppendAnswer(a, answer));
    assert Last(run).nodes[a] == MaybeCommit(RecordMatch(n, b, 1));
    CleanRunsAreRuns(run);
  }

  /** What the transaction vote needs: the leader has the answer of its only peer. */
  ghost predicate Replicated(c: State, a: Id, b: Id) {
    && a in c.nodes && b in c.nodes
    && c.nodes[a].role == Leader && c.nodes[a].term == 1 && c.nodes[a].peers == [b]
    && c.nodes[a].matchIndex == map[b := 1]
    && c.nodes[b].term == 1 && c.nodes[b].commit == 0
  }

  /** And in some run the gate is passed, the vote about a transaction is asked for, and it is granted. */
  lemma SomeRunVotes(a: Id, b: Id, x: TxId, ops: seq<TxOp>) returns (run: seq<State>, m: Msg)
    requires a != b
    ensures IsRun(run) && m in Last(run).msgs && m == TxVote(a, b, TxVoteArgs(1, x, 1, 1))
    ensures b in Last(run).nodes && HandleTxVote(Last(run).nodes[b], m.tx).1.granted
  {
    run := SomeRunCommits(a, b, BeginTx(x, ops));
    run := Extend(run, DoPassGate(a, 1));
    assert Gate(a, 1, 1) in Last(run).gates;
    run := Extend(run, DoSendTxVote(a, b, x, 1));
    m := TxVote(a, b, TxVoteArgs(1, x, 1, 1));
    CleanRunsAreRuns(run);
    Coordinator.VoteIsAboutLeadersTx(run, |run| - 1, m);
  }

  lemma CountsTwo(n: Node, a: Id, b: Id)
    requires a != b && n.id == a && n.role == Leader && |n.log| == 1 && n.log[0].term == n.term
    requires n.config == Simple([ServerId(a, a), ServerId(b, b)]) && n.matchIndex == map[b := 1]
    requires n.commit == 0 && n.applied == 0 && !n.log[0].command.InstallConfiguration?
    ensures var r := MaybeCommit(n); r == n.(commit := 1, applied := 1, sm := r.sm)
  {
    var servers := n.config.servers;
    assert Quorum.Holders(servers, n.matchIndex, a, 1, 1) == {0, 1};
    assert Quorum.Reached(n.config, n.matchIndex, a, 1, 1);
    assert Quorum.Highest(n.config, n.matchIndex, a, 1, 1) == 1;
    var n1 := n.(commit := 1);
    assert ApplyLogs(n1) == ApplyLogs(ApplyOne(n1)) == ApplyOne(n1);
  }

  // ---------- a single server ----------

  function Solo(a: Id): Node {
    Node(a, 0, None, Follower, [], [], 0, 0, [], map[], map[], Simple([ServerId(a, a)]), None, EMPTY, {}, [])
  }

  lemma StartsAlone(a: Id) returns (run: seq<State>)
    ensures IsCleanRun(run) && Last(run).nodes == map[a := Solo(a)]
  {
    var c := State(map[a := Solo(a)], {}, {}, History(map[], {}, {}, {}));
    assert c.nodes.Keys == {a} && Ids([ServerId(a, a)]) == {a};
    forall i | i in c.nodes ensures StartsFresh(c, i) {
    }
    run := [c];
  }

  /** A server without peers elects itself and commits what it proposes. */
  lemma SomeRunAlone(a: Id, cmd: Command) returns (run: seq<State>)
    requires !cmd.InstallConfiguration?
    ensures IsRun(run) && a in Last(run).nodes
    ensures Last(run).nodes[a].role == Leader && Last(run).nodes[a].commit == 1
    ensures Last(run).nodes[a].log == [LogEntry(1, 1, cmd)]
  {
    run := StartsAlone(a);
    run := Extend(run, DoPromote(a));
    var n := Promote(Solo(a));
    assert Last(run).nodes == map[a := n];
    run := Extend(run, DoWinAlone(a));
    n := WinAlone(n);
    assert Last(run).nodes == map[a := n];
    run := Extend(run, DoPropose(a, cmd));
    n := PushEntry(n, cmd);
    assert Last(run).nodes == map[a := n];
    CountsOne(n, a);
    run := Extend(run, DoCommit(a));
    assert Last(run).nodes[a] == MaybeCommit(n);
    CleanRunsAreRuns(run);
  }

  lemma CountsOne(n: Node, a: Id)
    requires n.id == a && n.role == Leader && |n.log| == 1 && n.log[0].term == n.term
    requires n.config == Simple([ServerId(a, a)]) && n.commit == 0 && n.applied == 0
    requires !n.log[0].command.InstallConfiguration?
    ensures var r := MaybeCommit(n); r == n.(commit := 1, applied := 1, sm := r.sm)
  {
    assert Quorum.Holders(n.config.servers, n.matchIndex, a, 1, 1) == {0};
    assert Quorum.Reached(n.config, n.matchIndex, a, 1, 1);
    assert Quorum.Highest(n.config, n.matchIndex, a, 1, 1) == 1;
    var n1 := n.(commit := 1);
    assert ApplyLogs(n1) == ApplyLogs(ApplyOne(n1)) == ApplyOne(n1);
  }
}

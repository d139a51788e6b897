/** Who can still elect a leader when elections start with a probe, as the election timer starts them. A probe
    counts its grants without the node itself, against half of all servers, so it takes one live server more than
    a vote does. */
module Availability {
  import opened Protocol
  import opened Reference
  import opened Steps
  import opened Cluster
  import Handlers
  import Invariant
  import Induction
  import Probes
  import Quorum

  // ---------- a server that hears too few others ----------

  /** Where server `a` takes the step, it counts probe answers of `heard` only, and is not promoted without a
      probe, unless it has no peers. */
  ghost predicate Hears(c: State, s: Step, a: Id, heard: set<Id>)
    requires Enabled(c, s)
  {
    s.i == a ==> (s.DoPromote? ==> c.nodes[a].peers == []) && (s.DoProbeAnswer? ==> s.m.src in heard)
  }

  ghost predicate NextHearing(c: State, c': State, a: Id, heard: set<Id>) {
    exists s :: Enabled(c, s) && Assumed(c, s) && Hears(c, s, a, heard) && c' == Do(c, s)
  }

  /** From moment `t` on, `a` hears answers of `heard` only; anyone else may do anything. */
  ghost predicate HearsOnly(run: seq<State>, t: nat, a: Id, heard: set<Id>) {
    IsRun(run) && forall k | t <= k < |run| - 1 :: NextHearing(run[k], run[k + 1], a, heard)
  }

  predicate OutOfElection(n: Node) { n.role == Follower || n.role == PreCandidate }

  /** The grants counted so far, in whichever round, are those of `heard`. */
  ghost predicate CountedOnly(n: Node, heard: set<Id>) {
    forall r | 0 <= r < |n.probes| :: n.probes[r].granted <= heard
  }

  ghost predicate SizedFor(n: Node, size: nat) {
    forall r | 0 <= r < |n.probes| :: n.probes[r].total == size
  }

  /** The node is left with its role or falls back to follower, and keeps its probe rounds. */
  ghost predicate Settles(n: Node, n': Node) {
    (n'.role == n.role || n'.role == Follower) && n'.probes == n.probes
  }

  lemma TooFewGrants(n: Node, round: nat, from: Id, term: nat, r: VoteReply, heard: set<Id>, size: nat)
    requires OutOfElection(n) && CountedOnly(n, heard) && SizedFor(n, size)
    requires round < |n.probes| && from in heard && 2 * |heard| <= size
    ensures var n1 := OnPreVoteReply(n, round, from, term, r); OutOfElection(n1) && CountedOnly(n1, heard)
  {
    var grants := n.probes[round].granted + {from};
    Quorum.SubsetSize(grants, heard);
  }

  lemma AppendSettles(n: Node, a: AppendArgs)
    ensures Settles(n, HandleAppend(n, a).0) && HandleAppend(n, a).0.id == n.id
  {
    Handlers.AppendExact(n, a);
    Probes.AppendKeepsRounds(n, a);
  }

  lemma CommitSettles(n: Node)
    ensures Settles(n, MaybeCommit(n)) && MaybeCommit(n).id == n.id
  {
    if n.role == Leader {
      ApplyLogsKeeps(n.(commit := Quorum.Highest(n.config, n.matchIndex, n.id, |n.log|, |n.log|)));
    }
  }

  lemma ApplyingSettles(c: State, s: Step)
    requires Enabled(c, s) && c.nodes[s.i].id == s.i
    requires s.DoHandleAppend? || s.DoAppendAnswer? || s.DoCommit? || s.DoHandleTxVote?
    ensures s.i in Do(c, s).nodes && Settles(c.nodes[s.i], Do(c, s).nodes[s.i])
  {
    var n := c.nodes[s.i];
    match s
    case DoHandleAppend(i, m) => AppendSettles(n, m.append);
    case DoAppendAnswer(i, m) => CommitSettles(RecordMatch(n, m.src, m.last));
    case DoCommit(i) => CommitSettles(n);
    case DoHandleTxVote(i, m) =>
      ApplyLogsKeeps(if n.commit < m.tx.lastIndex <= |n.log| then n.(commit := m.tx.lastIndex) else n);
  }

  /** The other steps of a node out of election that are not about probes. */
  lemma OtherSettles(c: State, s: Step)
    requires Enabled(c, s) && c.nodes[s.i].id == s.i && OutOfElection(c.nodes[s.i])
    requires !s.DoProbe? && !s.DoProbeAnswer? && !s.DoPromote?
    requires !(s.DoHandleAppend? || s.DoAppendAnswer? || s.DoCommit? || s.DoHandleTxVote?)
    ensures s.i in Do(c, s).nodes && Settles(c.nodes[s.i], Do(c, s).nodes[s.i])
  {
  }

  /** Neither do its probes take it into one. */
  lemma ProbingStays(c: State, s: Step, heard: set<Id>)
    requires Enabled(c, s) && (s.DoProbe? || s.DoProbeAnswer?) && c.nodes[s.i].id == s.i
    requires s.DoProbeAnswer? ==> s.m.src in heard
    requires OutOfElection(c.nodes[s.i]) && CountedOnly(c.nodes[s.i], heard) && SizedFor(c.nodes[s.i], |c.nodes|)
    requires 2 * |heard| <= |c.nodes|
    ensures s.i in Do(c, s).nodes && OutOfElection(Do(c, s).nodes[s.i]) && CountedOnly(Do(c, s).nodes[s.i], heard)
  {
    if s.DoProbeAnswer? {
      TooFewGrants(c.nodes[s.i], s.m.round, s.m.src, s.m.reqTerm, s.m.voteReply, heard, |c.nodes|);
    } else {
      assert Do(c, s).nodes[s.i] == BecomePreCandidate(c.nodes[s.i]);
    }
  }

  /** A step of the server itself. */
  lemma OwnStepStays(c: State, s: Step, heard: set<Id>)
    requires Enabled(c, s) && Hears(c, s, s.i, heard) && c.nodes[s.i].id == s.i
    requires OutOfElection(c.nodes[s.i]) && CountedOnly(c.nodes[s.i], heard) && SizedFor(c.nodes[s.i], |c.nodes|)
    requires c.nodes[s.i].peers != [] && 2 * |heard| <= |c.nodes|
    ensures s.i in Do(c, s).nodes && OutOfElection(Do(c, s).nodes[s.i]) && CountedOnly(Do(c, s).nodes[s.i], heard)
  {
    if s.DoProbe? || s.DoProbeAnswer? {
      ProbingStays(c, s, heard);
    } else if s.DoHandleAppend? || s.DoAppendAnswer? || s.DoCommit? || s.DoHandleTxVote? {
      ApplyingSettles(c, s);
    } else {
      OtherSettles(c, s);
    }
  }

  lemma StaysOut(c: State, s: Step, a: Id, heard: set<Id>)
    requires Enabled(c, s) && Hears(c, s, a, heard) && Probes.ProbesOk(c) && a in c.nodes
    requires OutOfElection(c.nodes[a]) && CountedOnly(c.nodes[a], heard) && SizedFor(c.nodes[a], |c.nodes|)
    requires c.nodes[a].peers != [] && 2 * |heard| <= |c.nodes|
    ensures a in Do(c, s).nodes && OutOfElection(Do(c, s).nodes[a]) && CountedOnly(Do(c, s).nodes[a], heard)
  {
    if s.i == a {
      OwnStepStays(c, s, heard);
    } else {
      Probes.StepRounds(c, s);
    }
  }

  lemma RunIsAnyRun(run: seq<State>)
    requires IsRun(run)
    ensures Probes.IsAnyRun(run)
  {
    forall k | 0 <= k < |run| - 1 ensures Probes.AnyNext(run[k], run[k + 1]) {
      assert Next(run[k], run[k + 1]);
    }
  }

  /** Every server has all others as its peers. */
  ghost predicate AllDialled(c: State) {
    forall i | i in c.nodes :: |c.nodes[i].peers| + 1 == |c.nodes| && i !in c.nodes[i].peers
  }

  lemma StateFacts(run: seq<State>, k: nat)
    requires IsRun(run) && k < |run|
    ensures Probes.ProbesOk(run[k]) && AllDialled(run[k])
  {
    RunIsAnyRun(run);
    Probes.RunRounds(run, k);
    Induction.RunHolds(run, k);
    MembersDialled(run[k]);
  }

  lemma MembersDialled(c: State)
    requires Invariant.MembersOk(c)
    ensures AllDialled(c)
  {
    forall i | i in c.nodes ensures |c.nodes[i].peers| + 1 == |c.nodes| && i !in c.nodes[i].peers {
      assert Invariant.MemberOk(c, i);
    }
  }

  lemma SizedStep(c: State, s: Step, a: Id)
    requires Enabled(c, s) && Probes.ProbesOk(c) && AllDialled(c) && a in c.nodes && SizedFor(c.nodes[a], |c.nodes|)
    ensures Do(c, s).nodes.Keys == c.nodes.Keys && SizedFor(Do(c, s).nodes[a], |c.nodes|)
  {
    Probes.StepRounds(c, s);
  }

  /** Every round was sized for all servers. */
  lemma {:induction false} RoundsSized(run: seq<State>, k: nat, a: Id)
    requires IsRun(run) && k < |run| && a in run[k].nodes
    ensures run[k].nodes.Keys == run[0].nodes.Keys && SizedFor(run[k].nodes[a], |run[0].nodes|)
  {
    if k == 0 {
      assert StartsFresh(run[0], a);
    } else {
      var s := StepOf(run, k - 1);
      StateFacts(run, k - 1);
      Probes.StepRounds(run[k - 1], s);
      RoundsSized(run, k - 1, a);
      KeysCount(run[k - 1].nodes, run[0].nodes);
      SizedStep(run[k - 1], s, a);
    }
  }

  lemma StepOf(run: seq<State>, k: nat) returns (s: Step)
    requires IsRun(run) && k < |run| - 1
    ensures Enabled(run[k], s) && Assumed(run[k], s) && run[k + 1] == Do(run[k], s)
  {
    assert Next(run[k], run[k + 1]);
    s :| Enabled(run[k], s) && Assumed(run[k], s) && run[k + 1] == Do(run[k], s);
  }

  lemma KeysCount(m: map<Id, Node>, m': map<Id, Node>)
    requires m.Keys == m'.Keys
    ensures |m| == |m'| == |m.Keys|
  {
    assert |m.Keys| == |m|;
    assert |m'.Keys| == |m'|;
  }

  /** The server is out of election and has heard `heard` only, in a cluster of the servers `names`. */
  ghost predicate Out(c: State, a: Id, heard: set<Id>, names: set<Id>) {
    c.nodes.Keys == names && a in c.nodes && OutOfElection(c.nodes[a]) && CountedOnly(c.nodes[a], heard)
  }

  /** A server that can hear at most half of the servers, itself not counted, is never again in an election, whatever
      the others do: of three servers, for one, neither of the two that are left. */
  lemma NeverElected(run: seq<State>, t: nat, k: nat, a: Id, heard: set<Id>)
    requires HearsOnly(run, t, a, heard) && t <= k < |run| && a in run[t].nodes
    requires |run[t].nodes| > 1 && 2 * |heard| <= |run[t].nodes|
    requires OutOfElection(run[t].nodes[a]) && CountedOnly(run[t].nodes[a], heard)
    ensures a in run[k].nodes && OutOfElection(run[k].nodes[a]) && CountedOnly(run[k].nodes[a], heard)
  {
    var names := run[t].nodes.Keys;
    KeysCount(run[t].nodes, run[t].nodes);
    forall j | t <= j < |run| - 1 ensures Out(run[j], a, heard, names) ==> Out(run[j + 1], a, heard, names) {
      if Out(run[j], a, heard, names) {
        KeysCount(run[j].nodes, run[t].nodes);
        OneMoreStep(run, t, j, a, heard);
      }
    }
    OutThroughout(run, t, k, a, heard, names);
  }

  lemma {:induction false} OutThroughout(run: seq<State>, t: nat, k: nat, a: Id, heard: set<Id>, names: set<Id>)
    requires t <= k < |run| && Out(run[t], a, heard, names)
    requires forall j | t <= j < |run| - 1 :: Out(run[j], a, heard, names) ==> Out(run[j + 1], a, heard, names)
    ensures Out(run[k], a, heard, names)
    decreases k
  {
    if k > t {
      OutThroughout(run, t, k - 1, a, heard, names);
    }
  }

  lemma OneMoreStep(run: seq<State>, t: nat, k: nat, a: Id, heard: set<Id>)
    requires HearsOnly(run, t, a, heard) && t <= k < |run| - 1 && a in run[k].nodes
    requires |run[k].nodes| > 1 && 2 * |heard| <= |run[k].nodes|
    requires OutOfElection(run[k].nodes[a]) && CountedOnly(run[k].nodes[a], heard)
    ensures Out(run[k + 1], a, heard, run[k].nodes.Keys)
  {
    var s := HearingStep(run, t, k, a, heard);
    StateFacts(run, k);
    RoundsSized(run, k, a);
    KeysCount(run[k].nodes, run[0].nodes);
    SizedStep(run[k], s, a);
    StaysOut(run[k], s, a, heard);
  }

  lemma HearingStep(run: seq<State>, t: nat, k: nat, a: Id, heard: set<Id>) returns (s: Step)
    requires HearsOnly(run, t, a, heard) && t <= k < |run| - 1
    ensures Enabled(run[k], s) && Hears(run[k], s, a, heard) && run[k + 1] == Do(run[k], s)
  {
    assert NextHearing(run[k], run[k + 1], a, heard);
    s :| Enabled(run[k], s) && Assumed(run[k], s) && Hears(run[k], s, a, heard) && run[k + 1] == Do(run[k], s);
  }

  /** No message reaches `a`, and it is not promoted without a probe. */
  predicate Deaf(s: Step, a: Id) {
    s.i == a ==> s.DoProbe? || s.DoRequestVote? || s.DoPropose? || s.DoSendAppend? || s.DoCommit? || s.DoPassGate?
                 || s.DoSendTxVote?
  }

  ghost predicate NextDeaf(c: State, c': State, a: Id) {
    exists s :: Enabled(c, s) && Assumed(c, s) && Deaf(s, a) && c' == Do(c, s)
  }

  lemma DeafStep(c: State, s: Step, a: Id)
    requires Enabled(c, s) && Deaf(s, a) && Probes.ProbesOk(c) && a in c.nodes && OutOfElection(c.nodes[a])
    ensures a in Do(c, s).nodes && SameButProbing(c.nodes[a], Do(c, s).nodes[a])
  {
    Probes.StepRounds(c, s);
  }

  /** From moment `t` on, no message reaches `a`. */
  ghost predicate CutOff(run: seq<State>, t: nat, a: Id) {
    IsRun(run) && forall k | t <= k < |run| - 1 :: NextDeaf(run[k], run[k + 1], a)
  }

  /** The node without what its probing has left. */
  function Unprobed(n: Node): Node { n.(role := Follower, probes := []) }

  predicate SameButProbing(n: Node, n': Node) { OutOfElection(n') && Unprobed(n') == Unprobed(n) }

  /** However long a server is cut off and however often its timer fires, it keeps its term, its vote and its log, so
      it cannot disturb the others when it comes back. */
  lemma CutOffKeepsTerm(run: seq<State>, t: nat, k: nat, a: Id)
    requires CutOff(run, t, a) && t <= k < |run| && a in run[t].nodes && OutOfElection(run[t].nodes[a])
    ensures a in run[k].nodes && SameButProbing(run[t].nodes[a], run[k].nodes[a])
  {
    forall j | t <= j < |run| - 1 ensures Kept(run[j], run[j + 1], a) {
      DeafOnce(run, t, j, a);
    }
    KeptThroughout(run, t, k, a);
  }

  ghost predicate Kept(c: State, c': State, a: Id) {
    a in c.nodes && OutOfElection(c.nodes[a]) ==> a in c'.nodes && SameButProbing(c.nodes[a], c'.nodes[a])
  }

  lemma {:induction false} KeptThroughout(run: seq<State>, t: nat, k: nat, a: Id)
    requires t <= k < |run| && a in run[t].nodes && OutOfElection(run[t].nodes[a])
    requires forall j | t <= j < |run| - 1 :: Kept(run[j], run[j + 1], a)
    ensures a in run[k].nodes && SameButProbing(run[t].nodes[a], run[k].nodes[a])
    decreases k
  {
    if k > t {
      KeptThroughout(run, t, k - 1, a);
      assert Kept(run[k - 1], run[k], a);
    }
  }

  lemma DeafOnce(run: seq<State>, t: nat, k: nat, a: Id)
    requires CutOff(run, t, a) && t <= k < |run| - 1
    ensures Kept(run[k], run[k + 1], a)
  {
    if a in run[k].nodes && OutOfElection(run[k].nodes[a]) {
      var s := DeafStepOf(run[k], run[k + 1], a);
      StateFacts(run, k);
      DeafStep(run[k], s, a);
    }
  }

  lemma DeafStepOf(c: State, c': State, a: Id) returns (s: Step)
    requires NextDeaf(c, c', a)
    ensures Enabled(c, s) && Deaf(s, a) && c' == Do(c, s)
  {
    s :| Enabled(c, s) && Assumed(c, s) && Deaf(s, a) && c' == Do(c, s);
  }

  // ---------- only some servers are up ----------

  /** Only the servers `up` act, and elections start with a probe. */
  ghost predicate Within(c: State, s: Step, up: set<Id>)
    requires Enabled(c, s)
  {
    s.i in up && (s.DoPromote? ==> c.nodes[s.i].peers == [])
  }

  ghost predicate NextWithin(c: State, c': State, up: set<Id>) {
    exists s :: Enabled(c, s) && Assumed(c, s) && Within(c, s, up) && c' == Do(c, s)
  }

  ghost predicate RunOf(run: seq<State>, up: set<Id>) {
    && |run| > 0 && Init(run[0])
    && forall k | 0 <= k < |run| - 1 :: NextWithin(run[k], run[k + 1], up)
  }

  lemma RunOfIsRun(run: seq<State>, up: set<Id>)
    requires RunOf(run, up)
    ensures IsRun(run)
  {
    forall k | 0 <= k < |run| - 1 ensures Next(run[k], run[k + 1]) {
      assert NextWithin(run[k], run[k + 1], up);
    }
  }

  /** Probes go to others, and answers come from servers that are up. */
  ghost predicate FromOthers(up: set<Id>, m: Msg) {
    (m.ProbeRequest? ==> m.src != m.dst) && (m.ProbeAnswer? ==> m.src != m.dst && m.src in up)
  }

  lemma StepFromOthers(c: State, s: Step, up: set<Id>)
    requires Enabled(c, s) && Within(c, s, up) && Probes.ProbesOk(c) && s.i !in c.nodes[s.i].peers
    requires forall m | m in c.msgs :: FromOthers(up, m)
    ensures forall m | m in Do(c, s).msgs :: FromOthers(up, m)
  {
    if s.DoHandleAppend? || s.DoAppendAnswer? || s.DoCommit? || s.DoHandleTxVote? {
      Probes.ApplyingStep(c, s);
    } else if s.DoProbe? || s.DoHandleProbe? || s.DoProbeAnswer? {
    } else {
      Probes.OtherStep(c, s);
    }
  }

  lemma {:induction false} RunFromOthers(run: seq<State>, k: nat, up: set<Id>)
    requires RunOf(run, up) && k < |run|
    ensures forall m | m in run[k].msgs :: FromOthers(up, m)
  {
    if k > 0 {
      RunFromOthers(run, k - 1, up);
      FromOthersOnce(run, k - 1, up);
    }
  }

  lemma FromOthersOnce(run: seq<State>, k: nat, up: set<Id>)
    requires RunOf(run, up) && k < |run| - 1 && forall m | m in run[k].msgs :: FromOthers(up, m)
    ensures forall m | m in run[k + 1].msgs :: FromOthers(up, m)
  {
    RunOfIsRun(run, up);
    StateFacts(run, k);
    var s := WithinStep(run[k], run[k + 1], up);
    StepFromOthers(run[k], s, up);
  }

  lemma WithinStep(c: State, c': State, up: set<Id>) returns (s: Step)
    requires NextWithin(c, c', up)
    ensures Enabled(c, s) && Assumed(c, s) && Within(c, s, up) && c' == Do(c, s)
  {
    s :| Enabled(c, s) && Assumed(c, s) && Within(c, s, up) && c' == Do(c, s);
  }

  lemma HearsOnlyUp(run: seq<State>, up: set<Id>, a: Id)
    requires RunOf(run, up)
    ensures HearsOnly(run, 0, a, if a in up then up - {a} else {})
  {
    var heard := if a in up then up - {a} else {};
    RunOfIsRun(run, up);
    forall k | 0 <= k < |run| - 1 ensures NextHearing(run[k], run[k + 1], a, heard) {
      var s := WithinStep(run[k], run[k + 1], up);
      RunFromOthers(run, k, up);
      assert Hears(run[k], s, a, heard);
    }
  }

  /** Enough servers for a leader: besides the one that probes, more than half of all. */
  predicate Enough(live: nat, size: nat) { 2 * live > size + 2 || (live == 1 && size == 1) }

  lemma NoLeaderAmongFew(run: seq<State>, up: set<Id>, k: nat, a: Id)
    requires RunOf(run, up) && up <= run[0].nodes.Keys && k < |run| && a in run[k].nodes
    requires !Enough(|up|, |run[0].nodes|)
    ensures OutOfElection(run[k].nodes[a])
  {
    RunOfIsRun(run, up);
    RoundsSized(run, k, a);
    HearsOnlyUp(run, up, a);
    assert StartsFresh(run[0], a);
    if |run[0].nodes| > 1 {
      NeverElected(run, 0, k, a, if a in up then up - {a} else {});
    } else {
      NobodyActs(run, k, up);
    }
  }

  /** A cluster of one whose server is down stands still. */
  lemma NobodyActs(run: seq<State>, k: nat, up: set<Id>)
    requires RunOf(run, up) && up <= run[0].nodes.Keys && k < |run| && |run[0].nodes| <= 1 && |up| != 1
    ensures k == 0
  {
    KeysCount(run[0].nodes, run[0].nodes);
    Quorum.SubsetSize(up, run[0].nodes.Keys);
    assert up == {};
    assert k > 0 ==> NextWithin(run[0], run[1], up);
  }

  // ---------- enough servers: an election ----------

  ghost function Last(run: seq<State>): State
    requires run != []
  {
    run[|run| - 1]
  }

  lemma Take(run: seq<State>, up: set<Id>, s: Step) returns (longer: seq<State>)
    requires RunOf(run, up) && Enabled(Last(run), s) && Assumed(Last(run), s) && Within(Last(run), s, up)
    ensures RunOf(longer, up) && longer[0] == run[0] && Last(longer) == Do(Last(run), s)
  {
    longer := run + [Do(Last(run), s)];
    forall k | 0 <= k < |longer| - 1 ensures NextWithin(longer[k], longer[k + 1], up) {
      assert k < |run| - 1 ==> NextWithin(run[k], run[k + 1], up) && longer[k] == run[k] && longer[k + 1] == run[k + 1];
    }
  }

  /** All servers but `a` and `moved` are as they started. */
  ghost predicate Untouched(c: State, c': State, a: Id, moved: set<Id>) {
    c'.nodes.Keys == c.nodes.Keys && forall i | i in c.nodes && i != a && i !in moved :: c'.nodes[i] == c.nodes[i]
  }

  const FIRST_VOTE_TERM := 1

  function FirstArgs(a: Id): VoteArgs { VoteArgs(FIRST_VOTE_TERM, a, 0, 0) }

  /** Server `a` in its first round, in a cluster of `size`, with the grants of `heard`. */
  predicate InFirstRound(n: Node, a: Id, size: nat, heard: set<Id>) {
    && n.id == a && n.log == [] && |n.peers| + 1 == size && n.probes == [Probe(FIRST_VOTE_TERM, size, heard)]
    && if 2 * |heard| > size
       then n.role == Candidate && n.term == FIRST_VOTE_TERM && n.votes == {a}
       else n.role == PreCandidate && n.term == 0
  }

  /** A run of `up` that starts in `c` and has led `a` to the grants of `heard`. */
  ghost predicate Gathering(c: State, run: seq<State>, up: set<Id>, a: Id, heard: set<Id>) {
    && RunOf(run, up) && run[0] == c && a in c.nodes && Untouched(c, Last(run), a, {})
    && InFirstRound(Last(run).nodes[a], a, |c.nodes|, heard)
    && forall p | p in c.nodes && p != a :: ProbeRequest(a, p, 0, FirstArgs(a)) in Last(run).msgs
  }

  lemma StartsRound(c: State, up: set<Id>, a: Id) returns (run: seq<State>)
    requires Init(c) && a in up && a in c.nodes
    ensures Gathering(c, run, up, a, {})
  {
    assert StartsFresh(c, a);
    KeysCount(c.nodes, c.nodes);
    assert RunOf([c], up);
    run := Take([c], up, DoProbe(a));
    assert Last(run).nodes == c.nodes[a := BecomePreCandidate(c.nodes[a])];
  }

  ghost function Grant(a: Id, p: Id): Msg { ProbeAnswer(p, a, 0, FIRST_VOTE_TERM, VoteReply(0, true)) }

  /** Another server, untouched so far, grants the probe. */
  lemma Answers(c: State, run: seq<State>, up: set<Id>, a: Id, heard: set<Id>, p: Id) returns (longer: seq<State>)
    requires Init(c) && Gathering(c, run, up, a, heard) && p in up && p in c.nodes && p != a
    ensures Gathering(c, longer, up, a, heard) && Grant(a, p) in Last(longer).msgs
  {
    assert StartsFresh(c, p);
    longer := Take(run, up, DoHandleProbe(p, ProbeRequest(a, p, 0, FirstArgs(a))));
  }

  /** One more grant is counted. */
  lemma Grants(c: State, run: seq<State>, up: set<Id>, a: Id, heard: set<Id>, p: Id) returns (longer: seq<State>)
    requires Init(c) && Gathering(c, run, up, a, heard) && a in up
    requires p in up && p in c.nodes && p != a && p !in heard
    ensures Gathering(c, longer, up, a, heard + {p})
  {
    longer := Answers(c, run, up, a, heard, p);
    FirstGrant(Last(longer).nodes[a], a, |c.nodes|, heard, p);
    longer := Take(longer, up, DoProbeAnswer(a, Grant(a, p)));
  }

  lemma FirstGrant(n: Node, a: Id, size: nat, heard: set<Id>, p: Id)
    requires InFirstRound(n, a, size, heard) && p !in heard
    ensures InFirstRound(OnPreVoteReply(n, 0, p, FIRST_VOTE_TERM, VoteReply(0, true)), a, size, heard + {p})
  {
    assert |heard + {p}| == |heard| + 1;
  }

  lemma SplitOff(done: set<Id>, todo: set<Id>, p: Id)
    requires p in todo && todo !! done
    ensures done + todo == (done + {p}) + (todo - {p}) && (todo - {p}) !! (done + {p})
  {
  }

  lemma {:induction false} AllGrant(c: State, run: seq<State>, up: set<Id>, a: Id, heard: set<Id>, todo: set<Id>)
    returns (longer: seq<State>)
    requires Init(c) && Gathering(c, run, up, a, heard) && a in up && a !in todo
    requires todo <= up && up <= c.nodes.Keys && todo !! heard
    ensures Gathering(c, longer, up, a, heard + todo)
    decreases todo
  {
    longer := run;
    if todo != {} {
      var p :| p in todo;
      longer := Grants(c, run, up, a, heard, p);
      SplitOff(heard, todo, p);
      longer := AllGrant(c, longer, up, a, heard + {p}, todo - {p});
    } else {
      assert heard + todo == heard;
    }
  }

  /** Server `a` in the first election, with the votes of `asked` and its own until these are enough. */
  predicate InFirstElection(n: Node, a: Id, size: nat, asked: set<Id>) {
    && n.id == a && n.log == [] && |n.peers| + 1 == size && n.term == FIRST_VOTE_TERM
    && (n.role == Leader || (n.role == Candidate && n.votes == {a} + asked))
    && (2 * (|asked| + 1) > size && asked != {} ==> n.role == Leader)
  }

  ghost predicate Canvassing(c: State, run: seq<State>, up: set<Id>, a: Id, asked: set<Id>) {
    && RunOf(run, up) && run[0] == c && a in c.nodes && Untouched(c, Last(run), a, asked)
    && InFirstElection(Last(run).nodes[a], a, |c.nodes|, asked)
  }

  /** One more server votes. */
  lemma Votes(c: State, run: seq<State>, up: set<Id>, a: Id, asked: set<Id>, p: Id) returns (longer: seq<State>)
    requires Init(c) && Canvassing(c, run, up, a, asked) && a in up && a !in asked
    requires p in up && p in c.nodes && p != a && p !in asked
    ensures Canvassing(c, longer, up, a, asked + {p})
  {
    assert StartsFresh(c, p);
    longer := Take(run, up, DoRequestVote(a, p));
    longer := Take(longer, up, DoHandleVote(p, VoteRequest(a, p, FirstArgs(a))));
    FirstVote(Last(longer).nodes[a], a, |c.nodes|, asked, p);
    longer := Take(longer, up, DoVoteAnswer(a, VoteAnswer(p, a, FIRST_VOTE_TERM, VoteReply(FIRST_VOTE_TERM, true))));
  }

  lemma FirstVote(n: Node, a: Id, size: nat, asked: set<Id>, p: Id)
    requires InFirstElection(n, a, size, asked) && p !in asked && a !in asked && p != a
    ensures InFirstElection(OnVoteReply(n, p, FIRST_VOTE_TERM, VoteReply(FIRST_VOTE_TERM, true)), a, size, asked + {p})
  {
    assert {a} + asked + {p} == {a} + (asked + {p});
    assert |asked + {p}| == |asked| + 1;
    assert |{a} + (asked + {p})| == |asked| + 2;
  }

  lemma {:induction false} AllVote(c: State, run: seq<State>, up: set<Id>, a: Id, asked: set<Id>, todo: set<Id>)
    returns (longer: seq<State>)
    requires Init(c) && Canvassing(c, run, up, a, asked) && a in up && a !in todo && a !in asked
    requires todo <= up && up <= c.nodes.Keys && todo !! asked
    ensures Canvassing(c, longer, up, a, asked + todo)
    decreases todo
  {
    longer := run;
    if todo != {} {
      var p :| p in todo;
      longer := Votes(c, run, up, a, asked, p);
      SplitOff(asked, todo, p);
      longer := AllVote(c, longer, up, a, asked + {p}, todo - {p});
    } else {
      assert asked + todo == asked;
    }
  }

  /** Alone in a cluster of one, a server elects itself. */
  lemma ElectsItself(c: State, up: set<Id>, a: Id) returns (run: seq<State>)
    requires Init(c) && a in up && a in c.nodes && |c.nodes| == 1
    ensures RunOf(run, up) && run[0] == c && a in Last(run).nodes && Last(run).nodes[a].role == Leader
  {
    assert StartsFresh(c, a);
    KeysCount(c.nodes, c.nodes);
    assert RunOf([c], up);
    run := Take([c], up, DoPromote(a));
    run := Take(run, up, DoWinAlone(a));
  }

  lemma EnoughElect(c: State, up: set<Id>, a: Id) returns (run: seq<State>)
    requires Init(c) && up <= c.nodes.Keys && a in up && Enough(|up|, |c.nodes|)
    ensures RunOf(run, up) && run[0] == c && a in Last(run).nodes && Last(run).nodes[a].role == Leader
  {
    if |c.nodes| == 1 {
      run := ElectsItself(c, up, a);
    } else {
      var others := up - {a};
      assert |others| == |up| - 1;
      run := StartsRound(c, up, a);
      run := AllGrant(c, run, up, a, {}, others);
      assert {} + others == others;
      assert Canvassing(c, run, up, a, {}) by {
        assert {a} + {} == {a};
      }
      run := AllVote(c, run, up, a, {}, others);
    }
  }

  ghost predicate HasLeader(c: State) { exists a :: a in c.nodes && c.nodes[a].role == Leader }

  ghost predicate Elects(c: State, run: seq<State>, up: set<Id>) {
    RunOf(run, up) && run[0] == c && HasLeader(Last(run))
  }

  /** With elections that start with a probe, the servers that are up can elect a leader if and only if, besides the
      one that probes, they are more than half of all servers: two of three cannot, nor can three of four. */
  lemma ElectableIff(c: State, up: set<Id>)
    requires Init(c) && up <= c.nodes.Keys
    ensures (exists run :: Elects(c, run, up)) <==> Enough(|up|, |c.nodes|)
  {
    if Enough(|up|, |c.nodes|) {
      var a :| a in up;
      var run := EnoughElect(c, up, a);
      assert Elects(c, run, up);
    }
    if run :| Elects(c, run, up) {
      var a :| a in Last(run).nodes && Last(run).nodes[a].role == Leader;
      if !Enough(|up|, |c.nodes|) {
        NoLeaderAmongFew(run, up, |run| - 1, a);
        assert false;
      }
    }
  }
}

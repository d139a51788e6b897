/** Membership changes: how applying a batch installs configurations, when the follow-up entry is
    written, and why quorums overlap while one change is in flight. */
module Membership {
  import opened Protocol
  import opened Reference
  import opened Steps
  import opened Quorum

  // ---------- applying a batch that may hold configurations ----------

  function FirstConfig(log: seq<LogEntry>): Option<Configuration> {
    if log == [] then None
    else if log[0].command.InstallConfiguration? then Some(log[0].command.config)
    else FirstConfig(log[1..])
  }

  /** The entries apply_logs has still to apply. */
  ghost function Batch(n: Node): seq<LogEntry>
    requires n.applied <= n.commit <= |n.log|
  {
    n.log[n.applied..n.commit]
  }

  /** The follow-up a batch triggers: only its first configuration counts, and only on the leader. */
  ghost function FollowUp(n: Node, batch: seq<LogEntry>): seq<LogEntry> {
    if n.role == Leader && n.pendingSimple.Some? && FirstConfig(batch).Some?
       && FollowsUp(FirstConfig(batch).value, n.pendingSimple.value)
    then [LogEntry(n.term, |n.log| + 1, InstallConfiguration(n.pendingSimple.value))]
    else []
  }

  /** The node after a batch, without stepping through it. */
  ghost function Settled(n: Node, batch: seq<LogEntry>): Node {
    var m := Replayed(n, batch);
    m.(applied := n.commit,
       log := n.log + FollowUp(n, batch),
       wal := n.wal + FollowUp(n, batch),
       pendingSimple := if n.role == Leader && FirstConfig(batch).Some? then None else n.pendingSimple)
  }

  lemma {:induction false} LastConfigFront(e: LogEntry, rest: seq<LogEntry>)
    ensures LastConfig([e] + rest) == if LastConfig(rest).Some? then LastConfig(rest)
                                      else if e.command.InstallConfiguration? then Some(e.command.config) else None
  {
    if rest == [] {
      assert [e] + rest == [e];
      assert LastConfig([e][..0]) == None;
    } else {
      var k := |rest| - 1;
      LastConfigFront(e, rest[..k]);
      assert ([e] + rest)[..k + 1] == [e] + rest[..k];
    }
  }

  lemma ReplayedFront(n: Node, e: LogEntry, rest: seq<LogEntry>)
    ensures Replayed(n, [e] + rest) == Replayed(ReplayEntry(n, e.command), rest)
  {
    LastConfigFront(e, rest);
    ReplayBatches(n.sm, [e], rest);
    assert Replay(n.sm, [e][..0]) == n.sm;
    assert Replay(n.sm, [e]) == Apply(n.sm, e.command);
  }

  /** `apply_logs` as a closed form: it applies exactly the committed entries although the log grows
      while it loops, and it appends at most one entry. */
  lemma {:induction false} ApplyLogsSettles(n: Node)
    requires n.applied <= n.commit <= |n.log|
    ensures ApplyLogs(n) == Settled(n, Batch(n))
    decreases n.commit - n.applied
  {
    if n.applied == n.commit {
      assert Batch(n) == [];
      assert n.log + [] == n.log && n.wal + [] == n.wal;
    } else {
      var n1, e := ApplyOne(n), n.log[n.applied];
      BatchFront(n);
      ApplyLogsSettles(n1);
      SettledFront(n, e, Batch(n1));
    }
  }

  lemma BatchFront(n: Node)
    requires n.applied < n.commit <= |n.log|
    ensures var n1 := ApplyOne(n);
            && n1.applied == n.applied + 1 <= n1.commit == n.commit <= |n1.log|
            && Batch(n) == [n.log[n.applied]] + Batch(n1)
  {
    var n1 := ApplyOne(n);
    assert n.log <= n1.log;
    assert n1.log[n1.applied..n.commit] == n.log[n1.applied..n.commit];
  }

  lemma SettledFront(n: Node, e: LogEntry, rest: seq<LogEntry>)
    requires n.applied < |n.log| && n.log[n.applied] == e
    ensures Settled(n, [e] + rest) == Settled(ApplyOne(n), rest)
  {
    ReplayedAfterOne(n, e, rest);
    FollowUpFront(n, e, rest);
  }

  /** Replaying does not look at the bookkeeping of the log. */
  lemma ReplayedAfterOne(n: Node, e: LogEntry, rest: seq<LogEntry>)
    requires n.applied < |n.log| && n.log[n.applied] == e
    ensures var n1 := ApplyOne(n);
            Replayed(n1, rest) == Replayed(n, [e] + rest).(applied := n1.applied, log := n1.log, wal := n1.wal,
                                                           pendingSimple := n1.pendingSimple)
  {
    var n1, m := ApplyOne(n), ReplayEntry(n, e.command);
    ReplayedFront(n, e, rest);
    assert n1 == m.(applied := n1.applied, log := n1.log, wal := n1.wal, pendingSimple := n1.pendingSimple);
  }

  lemma FollowUpFront(n: Node, e: LogEntry, rest: seq<LogEntry>)
    requires n.applied < |n.log| && n.log[n.applied] == e
    ensures var n1, follow := ApplyOne(n), FollowUp(n, [e] + rest);
            && n1.commit == n.commit
            && n1.log + FollowUp(n1, rest) == n.log + follow && n1.wal + FollowUp(n1, rest) == n.wal + follow
            && (if n1.role == Leader && FirstConfig(rest).Some? then None else n1.pendingSimple)
               == (if n.role == Leader && FirstConfig([e] + rest).Some? then None else n.pendingSimple)
  {
    var n1, follow := ApplyOne(n), FollowUp(n, [e] + rest);
    assert ([e] + rest)[1..] == rest;
    if e.command.InstallConfiguration? {
      assert n1.log == n.log + follow && n1.wal == n.wal + follow;
      assert FollowUp(n1, rest) == [] || (n1.log == n.log && n1.wal == n.wal && n.role != Leader);
    } else {
      assert FollowUp(n1, rest) == follow;
    }
  }

  // ---------- one change ----------

  /** Dialled peers are the servers of the installed configuration without the node itself. */
  ghost predicate PeersOk(n: Node) { n.peers == Dial(AllServers(n.config), n.id) }

  /** Peers stay in step with the configuration. */
  lemma PeersFollowConfig(n: Node)
    requires PeersOk(n) && n.applied <= n.commit <= |n.log|
    ensures PeersOk(ApplyLogs(n))
  {
    ApplyLogsSettles(n);
  }

  lemma DialPush(servers: seq<ServerId>, s: ServerId, self: Id)
    ensures Dial(servers + [s], self) == Dial(servers, self) + if s.nodeId != self then [s.addr] else []
  {
    assert (servers + [s])[..|servers|] == servers;
  }

  lemma {:induction false} DialAtStart(id: Id, peers: seq<Id>)
    ensures |Dial(InitialServers(id, peers), id)| <= |peers|
    ensures if id in peers then |Dial(InitialServers(id, peers), id)| < |peers|
            else Dial(InitialServers(id, peers), id) == peers
  {
    if peers == [] {
      DialPush([], ServerId(id, id), id);
      assert [] + [ServerId(id, id)] == [ServerId(id, id)];
    } else {
      var init, last := peers[..|peers| - 1], peers[|peers| - 1];
      DialAtStart(id, init);
      assert peers == init + [last];
      DialPush(InitialServers(id, init), ServerId(last, last), id);
    }
  }

  /** A new node dials the right peers exactly when it is not listed among its own peers. */
  lemma PeersAtStart(id: Id, peers: seq<Id>, term: nat, vote: Option<Id>, wal: seq<LogEntry>, sm: KvState)
    ensures PeersOk(FreshNode(id, peers, term, vote, wal, sm)) <==> id !in peers
  {
    DialAtStart(id, peers);
  }

  /** Replaying keeps it so, and a configuration in the log makes it so. */
  lemma PeersAfterReplay(n: Node)
    ensures PeersOk(ReplayLogs(n)) <==> PeersOk(n) || LastConfig(n.log).Some?
  {
  }

  /** The batch holds exactly one configuration. */
  ghost predicate OnlyConfig(batch: seq<LogEntry>, config: Configuration) {
    exists j :: 0 <= j < |batch| && batch[j].command == InstallConfiguration(config)
                && forall x | 0 <= x < |batch| && x != j :: !batch[x].command.InstallConfiguration?
  }

  lemma OnlyConfigIsFirstAndLast(batch: seq<LogEntry>, config: Configuration)
    requires OnlyConfig(batch, config)
    ensures FirstConfig(batch) == Some(config) && LastConfig(batch) == Some(config)
  {
    var j :| 0 <= j < |batch| && batch[j].command == InstallConfiguration(config)
             && forall x | 0 <= x < |batch| && x != j :: !batch[x].command.InstallConfiguration?;
    FirstConfigAt(batch, j);
    LastConfigAt(batch, j);
  }

  lemma {:induction false} FirstConfigAt(batch: seq<LogEntry>, j: nat)
    requires j < |batch| && batch[j].command.InstallConfiguration?
    requires forall x | 0 <= x < j :: !batch[x].command.InstallConfiguration?
    ensures FirstConfig(batch) == Some(batch[j].command.config)
    decreases j
  {
    if j > 0 {
      FirstConfigAt(batch[1..], j - 1);
    }
  }

  lemma {:induction false} LastConfigAt(batch: seq<LogEntry>, j: nat)
    requires j < |batch| && batch[j].command.InstallConfiguration?
    requires forall x | j < x < |batch| :: !batch[x].command.InstallConfiguration?
    ensures LastConfig(batch) == Some(batch[j].command.config)
    decreases |batch|
  {
    if j < |batch| - 1 {
      LastConfigAt(batch[..|batch| - 1], j);
    }
  }

  /** Nodes propose changes through these two calls only. */
  ghost predicate Changes(n: Node, n': Node, before: seq<ServerId>, after: seq<ServerId>) {
    || (exists s :: (n', Proposed(|n.log| + 1)) == ProposeAdd(n, s) && before == AllServers(n.config)
                    && after == before + [s])
    || (exists id :: (n', Proposed(|n.log| + 1)) == ProposeRemove(n, id) && before == AllServers(n.config)
                     && after == Without(before, id))
  }

  /** A batch with one configuration, as a closed form. */
  lemma OneConfigSettles(n: Node, config: Configuration)
    requires n.applied <= n.commit <= |n.log| && OnlyConfig(Batch(n), config)
    ensures SettledWith(n, Batch(n), config, ApplyLogs(n))
  {
    OnlyConfigIsFirstAndLast(Batch(n), config);
    ApplyLogsSettles(n);
    SettlesOne(n, Batch(n), config);
  }

  /** What a batch with one configuration makes of a node. */
  ghost predicate SettledWith(n: Node, batch: seq<LogEntry>, config: Configuration, r: Node) {
    && r.log == n.log + (if n.role == Leader && n.pendingSimple.Some? && FollowsUp(config, n.pendingSimple.value)
                         then [LogEntry(n.term, |n.log| + 1, InstallConfiguration(n.pendingSimple.value))] else [])
    && r.pendingSimple == (if n.role == Leader then None else n.pendingSimple)
    && r.applied == r.commit == n.commit && r.config == config && PeersOk(r) && r.sm == Replay(n.sm, batch)
  }

  lemma SettlesOne(n: Node, batch: seq<LogEntry>, config: Configuration)
    requires FirstConfig(batch) == Some(config) && LastConfig(batch) == Some(config)
    ensures SettledWith(n, batch, config, Settled(n, batch))
  {
  }

  /** The first half: applying the committed joint entry on the leader writes exactly one follow-up,
      the matching simple configuration, and forgets that it was pending. */
  lemma JointWritesFollowUp(n: Node, joint: Configuration)
    requires n.role == Leader && n.applied <= n.commit <= |n.log| && joint.Joint?
    requires n.pendingSimple == Some(Simple(joint.after)) && OnlyConfig(Batch(n), joint)
    ensures var r := ApplyLogs(n);
            && r.log == n.log + [LogEntry(n.term, |n.log| + 1, InstallConfiguration(Simple(joint.after)))]
            && r.pendingSimple == None && r.applied == r.commit == n.commit
            && r.config == joint && PeersOk(r)
            && r.sm == Replay(n.sm, Batch(n))
  {
    OneConfigSettles(n, joint);
  }

  /** The second half: applying the simple entry, on any node with nothing pending, ends the change
      and writes nothing. */
  lemma SimpleEndsChange(n: Node, after: seq<ServerId>)
    requires n.applied <= n.commit <= |n.log|
    requires n.pendingSimple == None && OnlyConfig(Batch(n), Simple(after))
    ensures var r := ApplyLogs(n);
            && r.log == n.log && r.pendingSimple == None && r.applied == r.commit == n.commit
            && r.config == Simple(after) && PeersOk(r)
            && r.sm == Replay(n.sm, Batch(n))
  {
    OneConfigSettles(n, Simple(after));
    assert n.log + [] == n.log;
  }

  lemma ChangeEntry(n: Node, n1: Node, before: seq<ServerId>, after: seq<ServerId>)
    requires Changes(n, n1, before, after)
    ensures before == AllServers(n.config) && n1 == ProposeChange(n, before, after)
  {
  }

  /** One change from start to end on the leader: `n1` proposes it, `n2` is the leader when the joint
      entry is committed, `n3` when the follow-up is. One entry is written in between, none after. */
  lemma ChangeCompletesOnce(n: Node, n1: Node, before: seq<ServerId>, after: seq<ServerId>, n2: Node, n3: Node)
    requires n.config.Simple? && n.pendingSimple == None && Changes(n, n1, before, after)
    requires n2.role == Leader && n2.pendingSimple == n1.pendingSimple && n1.log <= n2.log
    requires n2.applied <= |n.log| < n2.commit <= |n2.log|
    requires forall x | n2.applied <= x < |n2.log| && x != |n.log| :: !n2.log[x].command.InstallConfiguration?
    requires var r2 := ApplyLogs(n2); r2.log <= n3.log && n3.pendingSimple == r2.pendingSimple
    requires ApplyLogs(n2).applied <= n3.applied <= |n2.log| < n3.commit <= |n3.log|
    requires forall x | |n2.log| < x < |n3.log| :: !n3.log[x].command.InstallConfiguration?
    ensures var r2, r3 := ApplyLogs(n2), ApplyLogs(n3);
            && r2.config == Joint(n.config.servers, after) && PeersOk(r2)
            && |r2.log| == |n2.log| + 1 && r2.log[|n2.log|].command == InstallConfiguration(Simple(after))
            && r3.log == n3.log && r3.applied == r3.commit == n3.commit
            && r3.config == Simple(after) && PeersOk(r3) && r3.pendingSimple == None
  {
    ChangeEntry(n, n1, before, after);
    var joint := Joint(before, after);
    JointIsOnly(n, n1, n2, joint);
    JointWritesFollowUp(n2, joint);
    var r2 := ApplyLogs(n2);
    FollowUpIsOnly(n2, r2, n3, after);
    SimpleEndsChange(n3, after);
  }

  lemma JointIsOnly(n: Node, n1: Node, n2: Node, joint: Configuration)
    requires n1.log == n.log + [LogEntry(n.term, |n.log| + 1, InstallConfiguration(joint))] && n1.log <= n2.log
    requires n2.applied <= |n.log| < n2.commit <= |n2.log|
    requires forall x | n2.applied <= x < |n2.log| && x != |n.log| :: !n2.log[x].command.InstallConfiguration?
    ensures OnlyConfig(Batch(n2), joint)
  {
    var j := |n.log| - n2.applied;
    assert Batch(n2)[j] == n2.log[|n.log|] == n1.log[|n.log|];
    forall x | 0 <= x < |Batch(n2)| && x != j ensures !Batch(n2)[x].command.InstallConfiguration? {
      assert Batch(n2)[x] == n2.log[n2.applied + x];
    }
  }

  lemma FollowUpIsOnly(n2: Node, r2: Node, n3: Node, after: seq<ServerId>)
    requires n2.commit <= n3.applied <= |n2.log|
    requires |r2.log| == |n2.log| + 1 && n2.log <= r2.log <= n3.log && |n2.log| < n3.commit <= |n3.log|
    requires r2.log[|n2.log|].command == InstallConfiguration(Simple(after))
    requires forall x | n2.commit <= x < |n2.log| :: !n2.log[x].command.InstallConfiguration?
    requires forall x | |n2.log| < x < |n3.log| :: !n3.log[x].command.InstallConfiguration?
    ensures OnlyConfig(Batch(n3), Simple(after))
  {
    var j := |n2.log| - n3.applied;
    assert Batch(n3)[j] == n3.log[|n2.log|] == r2.log[|n2.log|];
    forall x | 0 <= x < |Batch(n3)| && x != j ensures !Batch(n3)[x].command.InstallConfiguration? {
      var y := n3.applied + x;
      assert Batch(n3)[x] == n3.log[y];
      if y < |n2.log| {
        assert n3.log[y] == r2.log[y] == n2.log[y];
      }
    }
  }

  /** The pending entry is used up by the first configuration of a batch; the follow-up is written
      exactly when that one matches. */
  lemma FollowUpIff(n: Node)
    requires n.role == Leader && n.pendingSimple.Some? && n.applied <= n.commit <= |n.log|
    ensures FirstConfig(Batch(n)).Some? <==> ApplyLogs(n).pendingSimple == None
    ensures ApplyLogs(n).log != n.log
        <==> FirstConfig(Batch(n)).Some? && FollowsUp(FirstConfig(Batch(n)).value, n.pendingSimple.value)
  {
    ApplyLogsSettles(n);
    assert |ApplyLogs(n).log| == |n.log| + |FollowUp(n, Batch(n))|;
  }

  /** With two additions in flight the first joint entry uses up the second one's follow-up: the
      leader ends in the joint configuration with nothing pending. */
  lemma SecondChangeIsStranded(n: Node, s1: ServerId, s2: ServerId)
    requires n.role == Leader && n.config.Simple? && n.pendingSimple == None && n.applied == n.commit == |n.log|
    requires s1 != s2 && !Contains(n.config, s1.nodeId) && !Contains(n.config, s2.nodeId)
    ensures var n2 := ProposeAdd(ProposeAdd(n, s1).0, s2).0;
            var r := ApplyLogs(n2.(commit := |n2.log|));
            && r.config == Joint(n.config.servers, n.config.servers + [s2])
            && r.pendingSimple == None && r.log == n2.log && r.applied == |r.log|
  {
    var servers := n.config.servers;
    var n2 := ProposeAdd(ProposeAdd(n, s1).0, s2).0;
    var m := n2.(commit := |n2.log|);
    var j1, j2 := Joint(servers, servers + [s1]), Joint(servers, servers + [s2]);
    assert Batch(m) == [LogEntry(n.term, |n.log| + 1, InstallConfiguration(j1)),
                        LogEntry(n.term, |n.log| + 2, InstallConfiguration(j2))];
    FirstConfigAt(Batch(m), 0);
    LastConfigAt(Batch(m), 1);
    assert (servers + [s1])[|servers|] != (servers + [s2])[|servers|];
    ApplyLogsSettles(m);
    assert FollowUp(m, Batch(m)) == [];
    assert n2.log + [] == n2.log;
  }

  // ---------- quorums ----------

  /** The servers of `quorum` satisfy the commit rule under `config`. */
  ghost predicate CommitQuorum(quorum: set<Id>, config: Configuration) {
    match config
    case Simple(servers) => Majority(quorum * Ids(servers), Ids(servers))
    case Joint(before, after) =>
      Majority(quorum * Ids(before), Ids(before)) && Majority(quorum * Ids(after), Ids(after))
  }

  /** The voters of `quorum` win an election under `config`: one majority over all servers. */
  ghost predicate ElectionQuorum(quorum: set<Id>, config: Configuration) {
    Majority(quorum, Ids(AllServers(config)))
  }

  ghost predicate DistinctConfig(config: Configuration) {
    match config
    case Simple(servers) => DistinctIds(servers)
    case Joint(before, after) => DistinctIds(before) && DistinctIds(after)
  }

  /** The servers of `config` that the leader counts at `index`. */
  ghost function CountedIn(config: Configuration, matchIndex: map<Id, nat>, self: Id, selfIndex: nat, index: nat)
    : set<Id>
  {
    set id | id in Ids(AllServers(config)) && IndexOf(matchIndex, self, selfIndex, id) >= index
  }

  lemma CountedAmong(config: Configuration, servers: seq<ServerId>,
                     matchIndex: map<Id, nat>, self: Id, selfIndex: nat, index: nat)
    requires DistinctIds(servers) && Ids(servers) <= Ids(AllServers(config))
    ensures MajorityHolds(servers, matchIndex, self, selfIndex, index)
        <==> Majority(CountedIn(config, matchIndex, self, selfIndex, index) * Ids(servers), Ids(servers))
  {
    ReachedIsMajority(servers, matchIndex, self, selfIndex, index);
    assert CountedIn(config, matchIndex, self, selfIndex, index) * Ids(servers)
        == Counted(servers, matchIndex, self, selfIndex, index);
  }

  /** What `maybe_commit` counts is a commit quorum, and only that. */
  lemma ReachedIsCommitQuorum(config: Configuration, matchIndex: map<Id, nat>, self: Id, selfIndex: nat, index: nat)
    requires DistinctConfig(config)
    ensures Reached(config, matchIndex, self, selfIndex, index)
        <==> CommitQuorum(CountedIn(config, matchIndex, self, selfIndex, index), config)
  {
    match config
    case Simple(servers) => CountedAmong(config, servers, matchIndex, self, selfIndex, index);
    case Joint(before, after) =>
      CombineIsUnion(before, after);
      CountedAmong(config, before, matchIndex, self, selfIndex, index);
      CountedAmong(config, after, matchIndex, self, selfIndex, index);
  }

  lemma {:induction false} DialCount(servers: seq<ServerId>, self: Id)
    requires DistinctIds(servers)
    ensures |Dial(servers, self)| == |servers| - if self in Ids(servers) then 1 else 0
  {
    if servers != [] {
      var k := |servers| - 1;
      DialCount(servers[..k], self);
      assert servers == servers[..k] + [servers[k]];
      PushServer(servers[..k], servers[k]);
      assert servers[k].nodeId !in Ids(servers[..k]);
    }
  }

  /** The addresses a node dials: exactly those of the other servers. */
  lemma {:induction false} DialExact(servers: seq<ServerId>, self: Id)
    ensures forall a :: a in Dial(servers, self) <==> exists s :: s in servers && s.nodeId != self && s.addr == a
  {
    if servers != [] {
      var k := |servers| - 1;
      DialExact(servers[..k], self);
      assert servers == servers[..k] + [servers[k]];
    }
  }

  /** While a server is being added, the joint configuration is the old list with it at the end, so it is dialled
      at its own address beside everyone else. */
  lemma AdditionIsDialled(n: Node, before: seq<ServerId>, s: ServerId)
    requires PeersOk(n) && n.config == Joint(before, before + [s])
    requires s.nodeId !in Ids(before) && s.nodeId != n.id
    ensures AllServers(n.config) == before + [s] && n.peers == Dial(before, n.id) + [s.addr]
  {
    CombineContained(before, before);
    assert (before + [s])[..|before|] == before;
    DialPush(before, s, n.id);
  }

  /** While a server is being removed, everyone is dialled as before. */
  lemma RemovalIsStillDialled(n: Node, before: seq<ServerId>, id: Id)
    requires PeersOk(n) && n.config == Joint(before, Without(before, id))
    ensures AllServers(n.config) == before && n.peers == Dial(before, n.id)
  {
    WithoutIds(before, id);
    forall s | s in Without(before, id) ensures s.nodeId in Ids(before) {
      assert s.nodeId in Ids(Without(before, id));
    }
    CombineContained(before, Without(before, id));
  }

  /** The vote count a candidate compares with its peers is one majority over all servers. */
  lemma ElectionCountsMajority(n: Node, from: Id, reply: VoteReply)
    requires PeersOk(n) && DistinctConfig(n.config) && n.id in Ids(AllServers(n.config))
    requires n.role == Candidate && reply.granted && n.votes + {from} <= Ids(AllServers(n.config))
    ensures OnVoteReply(n, from, n.term, reply).role == Leader <==> ElectionQuorum(n.votes + {from}, n.config)
  {
    var servers := AllServers(n.config);
    if n.config.Joint? {
      CombineIsUnion(n.config.before, n.config.after);
    }
    DialCount(servers, n.id);
    DistinctIdsCount(servers);
  }

  lemma {:induction false} WithoutIds(servers: seq<ServerId>, id: Id)
    ensures Ids(Without(servers, id)) == Ids(servers) - {id}
  {
    if servers != [] {
      var k := |servers| - 1;
      WithoutIds(servers[..k], id);
      assert servers == servers[..k] + [servers[k]];
      PushServer(servers[..k], servers[k]);
      PushServer(Without(servers[..k], id), servers[k]);
    }
  }

  /** A change adds one server or removes one. */
  lemma ChangeIds(n: Node, n1: Node, before: seq<ServerId>, after: seq<ServerId>) returns (id: Id)
    requires Changes(n, n1, before, after)
    ensures before == AllServers(n.config)
    ensures Ids(after) == Ids(before) + {id} || Ids(after) == Ids(before) - {id}
  {
    if s :| (n1, Proposed(|n.log| + 1)) == ProposeAdd(n, s) && before == AllServers(n.config) && after == before + [s] {
      id := s.nodeId;
      PushServer(before, s);
    } else {
      id :| (n1, Proposed(|n.log| + 1)) == ProposeRemove(n, id) && after == Without(before, id);
      WithoutIds(before, id);
    }
  }

  /** While one change is in flight, whoever is elected under any of its three configurations has
      a server in common with everyone who commits under any of them. */
  lemma QuorumsOverlap(n: Node, n1: Node, before: seq<ServerId>, after: seq<ServerId>,
                       electing: Configuration, committing: Configuration, voters: set<Id>, holders: set<Id>)
    requires n.config.Simple? && DistinctIds(n.config.servers) && Changes(n, n1, before, after)
    requires electing in {n.config, Joint(before, after), Simple(after)}
    requires committing in {n.config, Joint(before, after), Simple(after)}
    requires ElectionQuorum(voters, electing) && CommitQuorum(holders, committing)
    ensures voters * holders != {}
  {
    var id := ChangeIds(n, n1, before, after);
    CombineIsUnion(before, after);
    var members := Ids(if committing == Simple(after) then after else before);
    assert Majority(holders * members, members);
    OverlapWithin(voters, Ids(AllServers(electing)), holders * members, members, Ids(before), Ids(after), id);
  }

  /** Majorities of sets that a single server tells apart. */
  lemma OverlapWithin(q1: set<Id>, m1: set<Id>, q2: set<Id>, m2: set<Id>, a: set<Id>, b: set<Id>, id: Id)
    requires Majority(q1, m1) && Majority(q2, m2)
    requires b == a + {id} || b == a - {id}
    requires m1 in {a, b, a + b} && m2 in {a, b}
    ensures q1 * q2 != {}
  {
    if m1 <= m2 {
      AtMostOneMore(m1, m2, id);
      var common := MajoritiesMeet(q1, m1, q2, m2);
      assert common in q1 * q2;
    } else {
      AtMostOneMore(m2, m1, id);
      var common := MajoritiesMeet(q2, m2, q1, m1);
      assert common in q1 * q2;
    }
  }

  lemma AtMostOneMore(small: set<Id>, big: set<Id>, id: Id)
    requires small <= big <= small + {id}
    ensures |big| <= |small| + 1
  {
    SubsetSize(big, small + {id});
  }

  // ---------- a change on top of a change ----------

  /** Whoever is elected under `electing` has a server in common with everyone who commits under `committing`. */
  ghost predicate AlwaysMeet(electing: Configuration, committing: Configuration) {
    forall voters, holders :: ElectionQuorum(voters, electing) && CommitQuorum(holders, committing)
                              ==> voters * holders != {}
  }

  /** Exactly when elections under any configuration meet commits under a simple one. */
  lemma AlwaysMeetIff(electing: Configuration, servers: seq<ServerId>)
    ensures var m1, m2 := Ids(AllServers(electing)), Ids(servers);
            AlwaysMeet(electing, Simple(servers)) <==> m1 == {} || m2 == {} || Least(m1) + Least(m2) > |m1 + m2|
  {
    var m1, m2 := Ids(AllServers(electing)), Ids(servers);
    MajoritiesMeetIff(m1, m2);
    if AlwaysMeet(electing, Simple(servers)) {
      forall q1, q2 | Majority(q1, m1) && Majority(q2, m2) ensures q1 * q2 != {} {
        assert q2 * m2 == q2;
        assert ElectionQuorum(q1, electing) && CommitQuorum(q2, Simple(servers));
      }
    } else {
      var q1, q2 :| ElectionQuorum(q1, electing) && CommitQuorum(q2, Simple(servers)) && q1 * q2 == {};
      assert Majority(q1, m1) && Majority(q2 * m2, m2) && q1 * (q2 * m2) == {};
    }
  }

  /** The first change, still in flight, differs from the old servers by one server `x`. */
  ghost predicate OneServerChange(config: Configuration, x: Id) {
    && config.Joint?
    && Ids(config.after) == if x in Ids(config.before) then Ids(config.before) - {x} else Ids(config.before) + {x}
  }

  function Smaller(config: Configuration): nat
    requires config.Joint?
  {
    if |Ids(config.before)| <= |Ids(config.after)| then |Ids(config.before)| else |Ids(config.after)|
  }

  /** Adding a server while another change is in flight is built from the union of that change. An election
      under it meets every commit under the three configurations of the first change if and only if the
      smaller of the two server sets of the first change is even. */
  lemma SecondAdditionSafeIff(n: Node, x: Id, s: ServerId)
    requires n.role == Leader && OneServerChange(n.config, x) && !Contains(n.config, s.nodeId)
    ensures var servers := AllServers(n.config);
            var second := Joint(servers, servers + [s]);
            && ProposeAdd(n, s) == (ProposeChange(n, servers, servers + [s]), Proposed(|n.log| + 1))
            && (AlwaysMeet(second, Simple(n.config.before)) && AlwaysMeet(second, n.config)
                && AlwaysMeet(second, Simple(n.config.after))
                <==> Smaller(n.config) % 2 == 0)
  {
    var servers := AllServers(n.config);
    MeetsFirstIff(n.config, x, s, Joint(servers, servers + [s]));
  }

  lemma MeetsFirstIff(first: Configuration, x: Id, s: ServerId, second: Configuration)
    requires OneServerChange(first, x) && s.nodeId !in Ids(AllServers(first))
    requires second == Joint(AllServers(first), AllServers(first) + [s])
    ensures AlwaysMeet(second, Simple(first.before)) && AlwaysMeet(second, first)
            && AlwaysMeet(second, Simple(first.after))
        <==> Smaller(first) % 2 == 0
  {
    var a, b := Ids(first.before), Ids(first.after);
    CombineIsUnion(first.before, first.after);
    UnionWith(first, s);
    if x in a {
      assert a == b + {x} && a + b == a;
      MeetsThree(second, first, first.after, first.before, x, s.nodeId);
    } else {
      assert a + b == b;
      MeetsThree(second, first, first.before, first.after, x, s.nodeId);
    }
  }

  lemma MeetsThree(second: Configuration, first: Configuration, small: seq<ServerId>, large: seq<ServerId>, x: Id,
                   y: Id)
    requires first == Joint(small, large) || first == Joint(large, small)
    requires x !in Ids(small) && Ids(large) == Ids(small) + {x} && y !in Ids(large)
    requires Ids(AllServers(second)) == Ids(large) + {y}
    ensures |Ids(small)| < |Ids(large)|
    ensures AlwaysMeet(second, first) && AlwaysMeet(second, Simple(large))
    ensures AlwaysMeet(second, Simple(small)) <==> |Ids(small)| % 2 == 0
  {
    EvenMeets(Ids(small), x, y);
    LargerMeets(second, first, Ids(large), y);
    AlwaysMeetIff(second, small);
    AlwaysMeetIff(second, large);
  }

  /** The electorate of the second change. */
  lemma UnionWith(first: Configuration, s: ServerId)
    requires first.Joint?
    ensures var servers := AllServers(first);
            Ids(AllServers(Joint(servers, servers + [s]))) == Ids(first.before) + Ids(first.after) + {s.nodeId}
  {
    var servers := AllServers(first);
    CombineIsUnion(first.before, first.after);
    CombineIsUnion(servers, servers + [s]);
    PushServer(servers, s);
  }

  lemma EvenMeets(small: set<Id>, x: Id, y: Id)
    requires x !in small && y !in small && x != y
    ensures var all, large := small + {x} + {y}, small + {x};
            && |large| == |small| + 1 && |all| == |small| + 2 && all + small == all && all + large == all
            && Least(all) + Least(large) > |all|
            && (Least(all) + Least(small) > |all| <==> |small| % 2 == 0)
  {
    assert |small + {x}| == |small| + 1;
    assert |small + {x} + {y}| == |small| + 2;
    assert small + {x} + {y} + small == small + {x} + {y};
  }

  /** A commit under the joint configuration includes one under its larger half. */
  lemma LargerMeets(second: Configuration, first: Configuration, large: set<Id>, y: Id)
    requires first.Joint? && (large == Ids(first.before) || large == Ids(first.after))
    requires Ids(AllServers(second)) == large + {y} && y !in large
    ensures AlwaysMeet(second, first)
  {
    forall voters, holders | ElectionQuorum(voters, second) && CommitQuorum(holders, first)
      ensures voters * holders != {}
    {
      assert |large + {y}| == |large| + 1;
      var common := MajoritiesMeet(holders * large, large, voters, large + {y});
      assert common in voters * holders;
    }
  }

  /** A second change proposed before the first has ended is built from the union: from servers a, b,
      c and d, removing d and then adding e, an election can miss the first change's commit quorum. */
  lemma TwoChangesCanMiss(n: Node, four: seq<ServerId>, three: seq<ServerId>, s: ServerId, a: Id, b: Id, c: Id, d: Id)
    requires n.role == Leader && n.config == Joint(four, three)
    requires Ids(four) == {a, b, c, d} && Ids(three) == {a, b, c} && |{a, b, c, d, s.nodeId}| == 5
    ensures var after := four + [s];
            && ProposeAdd(n, s) == (ProposeChange(n, four, after), Proposed(|n.log| + 1))
            && CommitQuorum({a, b}, Simple(three))
            && ElectionQuorum({c, d, s.nodeId}, Joint(four, after))
            && {a, b} * {c, d, s.nodeId} == {}
  {
    AllDifferent(a, b, c, d, s.nodeId);
    BuiltFromUnion(n, s);
    ThreeOfFive(a, b, c, d, s.nodeId);
    assert Ids(four) + {s.nodeId} == {a, b, c, d, s.nodeId};
    MinorityQuorums(four, three, s, {a, b}, {c, d, s.nodeId});
  }

  /** When the new servers are among the old, a further addition starts from the old ones. */
  lemma BuiltFromUnion(n: Node, s: ServerId)
    requires n.role == Leader && n.config.Joint? && Ids(n.config.after) <= Ids(n.config.before)
    requires s.nodeId !in Ids(n.config.before)
    ensures ProposeAdd(n, s) == (ProposeChange(n, n.config.before, n.config.before + [s]), Proposed(|n.log| + 1))
  {
    CombineContained(n.config.before, n.config.after);
  }

  lemma MinorityQuorums(four: seq<ServerId>, three: seq<ServerId>, s: ServerId, holders: set<Id>, voters: set<Id>)
    requires Majority(holders, Ids(three)) && Majority(voters, Ids(four) + {s.nodeId})
    ensures CommitQuorum(holders, Simple(three)) && ElectionQuorum(voters, Joint(four, four + [s]))
  {
    CombineIsUnion(four, four + [s]);
    PushServer(four, s);
    assert Ids(four) + Ids(four + [s]) == Ids(four) + {s.nodeId};
    assert holders * Ids(three) == holders;
  }

  lemma ThreeOfFive(a: Id, b: Id, c: Id, d: Id, e: Id)
    requires |{a, b, c, d, e}| == 5
    ensures Majority({a, b}, {a, b, c}) && Majority({c, d, e}, {a, b, c, d, e})
  {
    AllDifferent(a, b, c, d, e);
  }

  lemma AllDifferent(a: Id, b: Id, c: Id, d: Id, e: Id)
    requires |{a, b, c, d, e}| == 5
    ensures a != b && a != c && a != d && a != e && b != c && b != d && b != e && c != d && c != e && d != e
  {
    assert {a, b, c, d, e} == {a} + {b} + {c} + {d} + {e};
  }

  lemma {:induction false} CombineContained(before: seq<ServerId>, after: seq<ServerId>)
    requires forall s | s in after :: s.nodeId in Ids(before)
    ensures Combine(before, after) == before
  {
    if after != [] {
      CombineContained(before, after[..|after| - 1]);
    }
  }
}

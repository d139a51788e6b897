/** What each handler of a Raft node does, as a function from the node's state (and a message)
    to its next state (and a reply). */
module Steps {
  import opened Protocol
  import opened Reference
  import Quorum

  datatype Role = Follower | Candidate | Leader | PreCandidate

  /** One probe round: the term it probes, the servers it was sized for and the peers that granted it. */
  datatype Probe = Probe(term: nat, total: nat, granted: set<Id>)

  /** One node. `votes` are the peers counted so far in its current election, `probes` the counters of
      its probe rounds, which outlive their rounds; `wal` is the sequence of entries written to disk; `sm` is the
      meaning of its state machine. */
  datatype Node = Node(
    id: Id,
    term: nat,
    vote: Option<Id>,
    role: Role,
    log: seq<LogEntry>,
    wal: seq<LogEntry>,
    commit: nat,
    applied: nat,
    peers: seq<Id>,
    nextIndex: map<Id, nat>,
    matchIndex: map<Id, nat>,
    config: Configuration,
    pendingSimple: Option<Configuration>,
    sm: KvState,
    votes: set<Id>,
    probes: seq<Probe>)

  datatype VoteArgs = VoteArgs(term: nat, candidate: Id, lastIndex: nat, lastTerm: nat)
  datatype VoteReply = VoteReply(term: nat, granted: bool)
  datatype AppendArgs =
    AppendArgs(term: nat, leader: Id, prevIndex: nat, prevTerm: nat, entries: seq<LogEntry>, commit: nat)
  datatype AppendReply = AppendReply(term: nat, success: bool)
  datatype TxVoteArgs = TxVoteArgs(term: nat, txId: TxId, lastIndex: nat, lastTerm: nat)
  datatype TxVoteReply = TxVoteReply(term: nat, granted: bool)

  /** The servers a node starts with: itself and the peers it is given, addresses serving as ids. */
  function InitialServers(id: Id, peers: seq<Id>): seq<ServerId> {
    if peers == [] then [ServerId(id, id)]
    else InitialServers(id, peers[..|peers| - 1]) + [ServerId(peers[|peers| - 1], peers[|peers| - 1])]
  }

  /** A node that starts on what it finds on disk. */
  function FreshNode(id: Id, peers: seq<Id>, term: nat, vote: Option<Id>, wal: seq<LogEntry>, sm: KvState): Node {
    Node(id, term, vote, Follower, wal, wal, 0, 0, peers, map[], map[], Simple(InitialServers(id, peers)), None,
         sm, {}, [])
  }

  function LastIndex(log: seq<LogEntry>): nat { if log == [] then 0 else log[|log| - 1].index }

  function LastTerm(log: seq<LogEntry>): nat { if log == [] then 0 else log[|log| - 1].term }

  /** The election restriction: the other log is at least as fresh as `log`. */
  predicate UpToDate(lastTerm: nat, lastIndex: nat, log: seq<LogEntry>) {
    lastTerm > LastTerm(log) || (lastTerm == LastTerm(log) && lastIndex >= LastIndex(log))
  }

  function AdoptTerm(n: Node, term: nat): Node {
    n.(term := term, role := Follower, vote := None)
  }

  /** Adopting `term` neither goes back in time nor forgets a vote. */
  predicate MayAdopt(n: Node, term: nat) {
    term > n.term || (term == n.term && n.vote == None)
  }

  // ---------- elections ----------

  function HandlePreVote(n: Node, args: VoteArgs): VoteReply {
    if args.term < n.term || args.term > n.term + 1 then VoteReply(n.term, false)
    else if args.term == n.term && n.role == Leader then VoteReply(n.term, false)
    else VoteReply(n.term, UpToDate(args.lastTerm, args.lastIndex, n.log))
  }

  function HandleRequestVote(n: Node, args: VoteArgs): (Node, VoteReply) {
    if args.term < n.term then (n, VoteReply(n.term, false))
    else
      var n1 := if args.term > n.term then AdoptTerm(n, args.term) else n;
      if (n1.vote == None || n1.vote == Some(args.candidate)) && UpToDate(args.lastTerm, args.lastIndex, n1.log)
      then (n1.(vote := Some(args.candidate)), VoteReply(n1.term, true))
      else (n1, VoteReply(n1.term, false))
  }

  function Promote(n: Node): Node {
    n.(term := n.term + 1, role := Candidate, vote := Some(n.id), votes := {n.id})
  }

  function BecomePreCandidate(n: Node): Node {
    if n.role != Follower then n
    else n.(role := PreCandidate, probes := n.probes + [Probe(n.term + 1, |n.peers| + 1, {})])
  }

  function BecomeLeader(n: Node): Node {
    if n.role == Leader then n
    else n.(role := Leader, nextIndex := map p | p in n.peers :: |n.log| + 1)
  }

  /** Counting a grant in the round it answers. */
  function CountGrant(n: Node, round: nat, from: Id): Node
    requires round < |n.probes|
  {
    var probe := n.probes[round];
    n.(probes := n.probes[round := probe.(granted := probe.granted + {from})])
  }

  /** A pre-vote reply in the probe round number `round`, at `probedTerm`: enough grants promote a node
      that is in any probe round. */
  function OnPreVoteReply(n: Node, round: nat, from: Id, probedTerm: nat, reply: VoteReply): Node
    requires round < |n.probes|
  {
    if reply.term > probedTerm then (if n.role == PreCandidate then n.(role := Follower) else n)
    else if !reply.granted then n
    else
      var n1 := CountGrant(n, round, from);
      if |n1.probes[round].granted| <= n1.probes[round].total / 2 || n.role != PreCandidate then n1 else Promote(n1)
  }

  /** A vote reply to the request sent in `reqTerm`. A refusal is compared with `reqTerm`,
      not with the node's own term. */
  function OnVoteReply(n: Node, from: Id, reqTerm: nat, reply: VoteReply): Node {
    if reply.granted then
      if n.role == Candidate && n.term == reqTerm then
        var n1 := n.(votes := n.votes + {from});
        if |n1.votes| > (|n.peers| + 1) / 2 then BecomeLeader(n1) else n1
      else n
    else if reply.term > reqTerm then AdoptTerm(n, reply.term)
    else n
  }

  /** `request_votes` on a cluster of one: the own vote is a majority. */
  function WinAlone(n: Node): Node {
    if n.peers == [] && n.role == Candidate then BecomeLeader(n) else n
  }

  // ---------- proposing and committing ----------

  function PushEntry(n: Node, cmd: Command): Node {
    var e := LogEntry(n.term, |n.log| + 1, cmd);
    n.(log := n.log + [e], wal := n.wal + [e])
  }

  function Propose(n: Node, cmd: Command): (Node, bool) {
    if n.role != Leader then (n, false) else (PushEntry(n, cmd), true)
  }

  function Dial(servers: seq<ServerId>, self: Id): seq<Id> {
    if servers == [] then []
    else Dial(servers[..|servers| - 1], self)
         + (if servers[|servers| - 1].nodeId != self then [servers[|servers| - 1].addr] else [])
  }

  predicate FollowsUp(config: Configuration, simple: Configuration) {
    || (config.Joint? && config.after == AllServers(simple))
    || (simple.Simple? && config.Simple? && config.servers == simple.servers)
  }

  /** Installing a configuration; on the leader a matching follow-up entry is appended. */
  function InstallConfig(n: Node, config: Configuration): Node {
    var n1 := n.(config := config, peers := Dial(AllServers(config), n.id));
    if n.role == Leader && n.pendingSimple.Some? then
      var n2 := n1.(pendingSimple := None);
      if FollowsUp(config, n.pendingSimple.value) then PushEntry(n2, InstallConfiguration(n.pendingSimple.value))
      else n2
    else n1
  }

  function ApplyOne(n: Node): Node
    requires n.applied < |n.log|
  {
    var cmd := n.log[n.applied].command;
    if cmd.InstallConfiguration? then
      var n1 := InstallConfig(n, cmd.config); n1.(applied := n1.applied + 1)
    else n.(sm := Apply(n.sm, cmd), applied := n.applied + 1)
  }

  /** `apply_logs`: apply committed entries one by one; the log may grow underneath. */
  function ApplyLogs(n: Node): Node
    decreases n.commit - n.applied
  {
    if n.applied < n.commit && n.applied < |n.log| then ApplyLogs(ApplyOne(n)) else n
  }

  lemma {:induction false} ApplyLogsKeeps(n: Node)
    ensures var r := ApplyLogs(n);
            && r.term == n.term && r.commit == n.commit && r.id == n.id && r.role == n.role
            && r.matchIndex == n.matchIndex && r.probes == n.probes
    decreases n.commit - n.applied
  {
    if n.applied < n.commit && n.applied < |n.log| {
      ApplyLogsKeeps(ApplyOne(n));
    }
  }

  function MaybeCommit(n: Node): Node {
    if n.role != Leader then n
    else
      var highest := Quorum.Highest(n.config, n.matchIndex, n.id, |n.log|, |n.log|);
      if highest > n.commit && n.log[highest - 1].term == n.term then ApplyLogs(n.(commit := highest)) else n
  }

  // ---------- replication ----------

  /** The AppendEntries message `sync_logs` builds for one peer. */
  function BuildAppend(n: Node, peer: Id): AppendArgs {
    var next := if peer in n.nextIndex then n.nextIndex[peer] else 1;
    var prev := if next == 0 then 0 else next - 1;
    var prevTerm := if 0 < prev <= |n.log| then n.log[prev - 1].term else 0;
    AppendArgs(n.term, n.id, prev, prevTerm, if prev <= |n.log| then n.log[prev..] else [], n.commit)
  }

  /** Conflict resolution, one entry at a time. */
  function Resolve(log: seq<LogEntry>, entries: seq<LogEntry>): seq<LogEntry> {
    if entries == [] then log
    else
      var sofar := Resolve(log, entries[..|entries| - 1]);
      var e := entries[|entries| - 1];
      if 0 < e.index <= |sofar| then
        if sofar[e.index - 1].term != e.term then sofar[..e.index - 1] + [e] else sofar
      else sofar + [e]
  }

  /** The entries the same loop appends to the write-ahead log. */
  function Written(log: seq<LogEntry>, entries: seq<LogEntry>): seq<LogEntry> {
    if entries == [] then []
    else
      var rest := entries[..|entries| - 1];
      var sofar := Resolve(log, rest);
      var e := entries[|entries| - 1];
      if 0 < e.index <= |sofar| && sofar[e.index - 1].term == e.term then Written(log, rest)
      else Written(log, rest) + [e]
  }

  predicate Consistent(n: Node, args: AppendArgs) {
    args.prevIndex == 0 || (args.prevIndex <= |n.log| && n.log[args.prevIndex - 1].term == args.prevTerm)
  }

  /** Raising the commit index of a follower to what the leader announced. */
  function FollowCommit(n: Node, leaderCommit: nat): Node {
    if leaderCommit > n.commit
    then ApplyLogs(n.(commit := if leaderCommit <= |n.log| then leaderCommit else |n.log|))
    else n
  }

  function AcceptEntries(n: Node, args: AppendArgs): (Node, AppendReply) {
    if !Consistent(n, args) then (n, AppendReply(n.term, false))
    else
      var n1 := n.(log := Resolve(n.log, args.entries), wal := n.wal + Written(n.log, args.entries));
      (FollowCommit(n1, args.commit), AppendReply(n.term, true))
  }

  function HandleAppend(n: Node, args: AppendArgs): (Node, AppendReply) {
    if args.term < n.term then (n, AppendReply(n.term, false))
    else if args.term == n.term && n.role == Leader then (n, AppendReply(n.term, false))
    else
      var n1 := (if args.term > n.term then AdoptTerm(n, args.term) else n).(role := Follower);
      AcceptEntries(n1, args)
  }

  function RecordMatch(n: Node, peer: Id, last: nat): Node {
    n.(matchIndex := n.matchIndex[peer := last], nextIndex := n.nextIndex[peer := last + 1])
  }

  /** The reply to a message whose last entry had index `last`. */
  function OnAppendReply(n: Node, peer: Id, last: nat, reply: AppendReply): Node {
    if reply.success then MaybeCommit(RecordMatch(n, peer, last))
    else if reply.term > n.term then AdoptTerm(n, reply.term)
    else
      var next := if peer in n.nextIndex then n.nextIndex[peer] else 1;
      if next > 1 then n.(nextIndex := n.nextIndex[peer := next - 1]) else n
  }

  // ---------- the two-phase-commit side channel ----------

  function FastForward(n: Node, index: nat): Node {
    ApplyLogs(if n.commit < index <= |n.log| then n.(commit := index) else n)
  }

  function HandleTxVote(n: Node, req: TxVoteArgs): (Node, TxVoteReply) {
    if req.term < n.term then (n, TxVoteReply(n.term, false))
    else if req.term > n.term then (AdoptTerm(n, req.term), TxVoteReply(req.term, false))
    else if !UpToDate(req.lastTerm, req.lastIndex, n.log) then (n, TxVoteReply(n.term, false))
    else
      var n1 := FastForward(n, req.lastIndex);
      (n1, TxVoteReply(n1.term, req.txId in n1.sm.pending))
  }

  /** The vote request the coordinator sends about the entry at `index`. */
  function BuildTxVote(n: Node, txId: TxId, index: nat): TxVoteArgs {
    TxVoteArgs(n.term, txId, index, if 0 < index <= |n.log| then n.log[index - 1].term else n.term)
  }

  /** The coordinator steps down on a higher term, again compared with the term of the request. */
  function OnTxVoteReply(n: Node, reqTerm: nat, reply: TxVoteReply): Node {
    if reply.term > reqTerm && n.role == Leader then AdoptTerm(n, reply.term) else n
  }

  // ---------- membership changes ----------

  datatype ChangeResult =
    | Proposed(index: nat)
    | NotLeader
    | AlreadyMember
    | NotMember
    | CannotRemoveSelf
    | CannotRemoveLast

  predicate Contains(config: Configuration, id: Id) { id in Ids(AllServers(config)) }

  function Without(servers: seq<ServerId>, id: Id): seq<ServerId> {
    if servers == [] then []
    else Without(servers[..|servers| - 1], id)
         + (if servers[|servers| - 1].nodeId != id then [servers[|servers| - 1]] else [])
  }

  /** Appending the joint entry and remembering the follow-up. */
  function ProposeChange(n: Node, before: seq<ServerId>, after: seq<ServerId>): Node {
    PushEntry(n, InstallConfiguration(Joint(before, after))).(pendingSimple := Some(Simple(after)))
  }

  function ProposeAdd(n: Node, server: ServerId): (Node, ChangeResult) {
    if n.role != Leader then (n, NotLeader)
    else if Contains(n.config, server.nodeId) then (n, AlreadyMember)
    else
      var before := AllServers(n.config);
      (ProposeChange(n, before, before + [server]), Proposed(|n.log| + 1))
  }

  function ProposeRemove(n: Node, id: Id): (Node, ChangeResult) {
    if n.role != Leader then (n, NotLeader)
    else if id == n.id then (n, CannotRemoveSelf)
    else if !Contains(n.config, id) then (n, NotMember)
    else
      var before := AllServers(n.config);
      var after := Without(before, id);
      if after == [] then (n, CannotRemoveLast) else (ProposeChange(n, before, after), Proposed(|n.log| + 1))
  }

  // ---------- restart ----------

  datatype Snapshot = Snapshot(lastIndex: nat, lastTerm: nat, data: map<Key, Value>)

  /** The last configuration in a log, if any. */
  function LastConfig(log: seq<LogEntry>): Option<Configuration> {
    if log == [] then None
    else if log[|log| - 1].command.InstallConfiguration? then Some(log[|log| - 1].command.config)
    else LastConfig(log[..|log| - 1])
  }

  function ReplayEntry(n: Node, cmd: Command): Node {
    if cmd.InstallConfiguration? then n.(config := cmd.config, peers := Dial(AllServers(cmd.config), n.id))
    else n.(sm := Apply(n.sm, cmd))
  }

  /** What replaying `log` does to the state machine, the configuration and the peers. */
  function Replayed(n: Node, log: seq<LogEntry>): Node {
    match LastConfig(log)
    case None => n.(sm := Replay(n.sm, log))
    case Some(config) => n.(sm := Replay(n.sm, log), config := config, peers := Dial(AllServers(config), n.id))
  }

  lemma ReplayedStep(n: Node, i: nat)
    requires i < |n.log|
    ensures Replayed(n, n.log[..i + 1]) == ReplayEntry(Replayed(n, n.log[..i]), n.log[i].command)
  {
    assert n.log[..i + 1][..i] == n.log[..i];
  }

  /** `replay_logs`: everything in the log, committed or not, is applied. */
  function ReplayLogs(n: Node): Node {
    Replayed(n, n.log).(applied := |n.log|)
  }

  function RestoreSnapshot(n: Node, snap: Snapshot): Node {
    n.(sm := KvState(snap.data, map[]),
       commit := if snap.lastIndex > n.commit then snap.lastIndex else n.commit,
       applied := if snap.lastIndex > n.applied then snap.lastIndex else n.applied)
  }

  /** The entries a rewrite keeps. */
  function Retain(wal: seq<LogEntry>, index: nat): seq<LogEntry> {
    if wal == [] then []
    else Retain(wal[..|wal| - 1], index) + (if wal[|wal| - 1].index > index then [wal[|wal| - 1]] else [])
  }

  function TakeSnapshot(n: Node): Snapshot {
    Snapshot(n.commit, if 0 < n.commit <= |n.log| then n.log[n.commit - 1].term else 0, n.sm.kv)
  }
}

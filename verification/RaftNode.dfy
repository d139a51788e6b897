/** A Raft node and its storage as objects: every handler, written as the loop or the sequence of
    field updates it is, does exactly what its step function says. */
module RaftNode {
  import opened Protocol
  import opened Store
  import Quorum
  import S = Steps

  class RaftStorage {
    var wal: seq<LogEntry>
    var savedTerm: nat
    var savedVote: Option<Id>
    var snapshot: Option<S.Snapshot>

    constructor ()
      ensures wal == [] && savedTerm == 0 && savedVote == None && snapshot == None
    {
      wal, savedTerm, savedVote, snapshot := [], 0, None, None;
    }

    method AppendWalLog(entry: LogEntry)
      modifies this`wal
      ensures wal == old(wal) + [entry]
    {
      wal := wal + [entry];
    }

    method SaveMeta(term: nat, vote: Option<Id>)
      modifies this`savedTerm, this`savedVote
      ensures savedTerm == term && savedVote == vote
    {
      savedTerm, savedVote := term, vote;
    }

    /** `restore_wal_log`: entries come back in the order they were appended. */
    method RestoreWalLog() returns (log: seq<LogEntry>)
      ensures log == wal
    {
      log := [];
      for i := 0 to |wal|
        invariant log == wal[..i]
      {
        log := log + [wal[i]];
      }
    }

    /** `rewrite_wal_after_snapshot`: drops the entries up to the snapshot. */
    method RewriteWal(index: nat) returns (kept: nat)
      modifies this`wal
      ensures wal == S.Retain(old(wal), index) && kept == |wal|
    {
      var log := RestoreWalLog();
      var entries := [];
      for i := 0 to |log|
        invariant entries == S.Retain(log[..i], index)
        invariant wal == old(wal)
      {
        assert log[..i + 1][..i] == log[..i];
        if log[i].index > index {
          entries := entries + [log[i]];
        }
      }
      assert log[..|log|] == log;
      wal := entries;
      kept := |entries|;
    }
  }

  class RaftNode {
    const id: Id
    const sm: StateMachine
    const storage: RaftStorage
    var term: nat
    var vote: Option<Id>
    var role: S.Role
    var log: seq<LogEntry>
    var commit: nat
    var applied: nat
    var peers: seq<Id>
    var nextIndex: map<Id, nat>
    var matchIndex: map<Id, nat>
    var config: Configuration
    var pendingSimple: Option<Configuration>
    var votes: set<Id>
    var probes: seq<S.Probe>

    ghost function View(): S.Node
      reads this, sm, storage
    {
      S.Node(id, term, vote, role, log, storage.wal, commit, applied, peers, nextIndex, matchIndex, config,
             pendingSimple, sm.View(), votes, probes)
    }

    /** The term and the vote on disk are the ones in memory. */
    ghost predicate Valid()
      reads this, sm, storage
    {
      sm.Valid() && storage.savedTerm == term && storage.savedVote == vote
    }

    constructor (id: Id, peers: seq<Id>, sm: StateMachine, storage: RaftStorage)
      requires sm.Valid()
      ensures Valid() && this.sm == sm && this.storage == storage
      ensures View() == S.FreshNode(id, peers, storage.savedTerm, storage.savedVote, storage.wal, sm.View())
    {
      var logs := storage.RestoreWalLog();
      var servers := [ServerId(id, id)];
      for i := 0 to |peers|
        invariant servers == S.InitialServers(id, peers[..i])
      {
        assert peers[..i + 1][..i] == peers[..i];
        servers := servers + [ServerId(peers[i], peers[i])];
      }
      assert peers[..|peers|] == peers;
      this.id, this.sm, this.storage, this.peers := id, sm, storage, peers;
      term, vote, role, log := storage.savedTerm, storage.savedVote, S.Follower, logs;
      commit, applied := 0, 0;
      nextIndex, matchIndex := map[], map[];
      config, pendingSimple := Simple(servers), None;
      votes, probes := {}, [];
    }

    /** Adopting a newer term, on disk too. */
    method StepDown(newTerm: nat)
      requires Valid()
      modifies this, storage
      ensures Valid() && View() == S.AdoptTerm(old(View()), newTerm)
    {
      term, role, vote := newTerm, S.Follower, None;
      storage.SaveMeta(term, vote);
    }

    // ---------- elections ----------

    /** A probe is answered without any change of state. */
    method HandlePreVote(args: S.VoteArgs) returns (reply: S.VoteReply)
      requires Valid()
      ensures reply == S.HandlePreVote(View(), args)
    {
      if args.term < term || args.term > term + 1 {
        return S.VoteReply(term, false);
      }
      if args.term == term && role == S.Leader {
        return S.VoteReply(term, false);
      }
      reply := S.VoteReply(term, S.UpToDate(args.lastTerm, args.lastIndex, log));
    }

    method HandleRequestVote(args: S.VoteArgs) returns (reply: S.VoteReply)
      requires Valid()
      modifies this, storage
      ensures Valid() && (View(), reply) == S.HandleRequestVote(old(View()), args)
    {
      if args.term < term {
        return S.VoteReply(term, false);
      }
      if args.term > term {
        StepDown(args.term);
      }
      var canVote := vote == None || vote == Some(args.candidate);
      if canVote && S.UpToDate(args.lastTerm, args.lastIndex, log) {
        vote := Some(args.candidate);
        storage.SaveMeta(term, vote);
        reply := S.VoteReply(term, true);
      } else {
        reply := S.VoteReply(term, false);
      }
    }

    method Promote()
      requires Valid()
      modifies this, storage
      ensures Valid() && View() == S.Promote(old(View()))
    {
      term := term + 1;
      role := S.Candidate;
      vote := Some(id);
      votes := {id};
      storage.SaveMeta(term, vote);
    }

    method BecomePreCandidate()
      requires Valid()
      modifies this
      ensures Valid() && View() == S.BecomePreCandidate(old(View()))
    {
      if role == S.Follower {
        role, probes := S.PreCandidate, probes + [S.Probe(term + 1, |peers| + 1, {})];
      }
    }

    method OnPreVoteReply(round: nat, from: Id, probedTerm: nat, reply: S.VoteReply)
      requires Valid() && round < |probes|
      modifies this, storage
      ensures Valid() && View() == S.OnPreVoteReply(old(View()), round, from, probedTerm, reply)
    {
      if reply.term > probedTerm {
        if role == S.PreCandidate {
          role := S.Follower;
        }
        return;
      }
      if !reply.granted {
        return;
      }
      var probe := probes[round];
      probe := probe.(granted := probe.granted + {from});
      probes := probes[round := probe];
      if |probe.granted| <= probe.total / 2 || role != S.PreCandidate {
        return;
      }
      Promote();
    }

    method BecomeLeader()
      requires Valid()
      modifies this
      ensures Valid() && View() == S.BecomeLeader(old(View()))
    {
      if role == S.Leader {
        return;
      }
      role := S.Leader;
      nextIndex := map p | p in peers :: |log| + 1;
    }

    method OnVoteReply(from: Id, reqTerm: nat, reply: S.VoteReply)
      requires Valid()
      modifies this, storage
      ensures Valid() && View() == S.OnVoteReply(old(View()), from, reqTerm, reply)
    {
      if reply.granted {
        if role == S.Candidate && term == reqTerm {
          votes := votes + {from};
          if |votes| > (|peers| + 1) / 2 {
            BecomeLeader();
          }
        }
      } else if reply.term > reqTerm {
        StepDown(reply.term);
      }
    }

    // ---------- proposing ----------

    method Push(command: Command)
      requires Valid()
      modifies this`log, storage`wal
      ensures Valid() && View() == S.PushEntry(old(View()), command)
    {
      var entry := LogEntry(term, |log| + 1, command);
      storage.AppendWalLog(entry);
      log := log + [entry];
    }

    method Propose(command: Command) returns (ok: bool)
      requires Valid()
      modifies this`log, storage`wal
      ensures Valid() && (View(), ok) == S.Propose(old(View()), command)
    {
      if role != S.Leader {
        return false;
      }
      Push(command);
      ok := true;
    }

    method ProposeChange(before: seq<ServerId>, after: seq<ServerId>)
      requires Valid()
      modifies this`log, this`pendingSimple, storage`wal
      ensures Valid() && View() == S.ProposeChange(old(View()), before, after)
    {
      Push(InstallConfiguration(Joint(before, after)));
      pendingSimple := Some(Simple(after));
    }

    method ProposeAddNode(server: ServerId) returns (r: S.ChangeResult)
      requires Valid()
      modifies this`log, this`pendingSimple, storage`wal
      ensures Valid() && (View(), r) == S.ProposeAdd(old(View()), server)
    {
      if role != S.Leader {
        return S.NotLeader;
      }
      var before := ComputeAllServers(config);
      if server.nodeId in Ids(before) {
        return S.AlreadyMember;
      }
      r := S.Proposed(|log| + 1);
      ProposeChange(before, before + [server]);
    }

    method ProposeRemoveNode(node: Id) returns (r: S.ChangeResult)
      requires Valid()
      modifies this`log, this`pendingSimple, storage`wal
      ensures Valid() && (View(), r) == S.ProposeRemove(old(View()), node)
    {
      if role != S.Leader {
        return S.NotLeader;
      }
      if node == id {
        return S.CannotRemoveSelf;
      }
      var before := ComputeAllServers(config);
      if node !in Ids(before) {
        return S.NotMember;
      }
      var after := [];
      for i := 0 to |before|
        invariant after == S.Without(before[..i], node)
        invariant View() == old(View()) && Valid()
      {
        assert before[..i + 1][..i] == before[..i];
        if before[i].nodeId != node {
          after := after + [before[i]];
        }
      }
      assert before[..|before|] == before;
      if after == [] {
        return S.CannotRemoveLast;
      }
      r := S.Proposed(|log| + 1);
      ProposeChange(before, after);
    }

    // ---------- applying and committing ----------

    method InstallConfig(cfg: Configuration)
      requires Valid()
      modifies this`config, this`peers, this`pendingSimple, this`log, storage`wal
      ensures Valid() && View() == S.InstallConfig(old(View()), cfg)
    {
      var servers := ComputeAllServers(cfg);
      var dial := ComputeDial(servers, id);
      config, peers := cfg, dial;
      if role == S.Leader && pendingSimple.Some? {
        var simple := pendingSimple.value;
        pendingSimple := None;
        if S.FollowsUp(cfg, simple) {
          Push(InstallConfiguration(simple));
        }
      }
    }

    method ApplyNext()
      requires Valid() && applied < |log|
      modifies this, sm, storage
      ensures Valid() && View() == S.ApplyOne(old(View()))
    {
      var cmd := log[applied].command;
      if cmd.InstallConfiguration? {
        InstallConfig(cmd.config);
      } else {
        sm.ApplyCommand(cmd);
      }
      applied := applied + 1;
    }

    /** `apply_logs` */
    method ApplyLogs()
      requires Valid()
      modifies this, sm, storage
      ensures Valid() && View() == S.ApplyLogs(old(View()))
    {
      while applied < commit
        invariant Valid() && S.ApplyLogs(View()) == S.ApplyLogs(old(View()))
        decreases commit - applied
      {
        if applied >= |log| {
          break;
        }
        label next:
        ApplyNext();
        assert S.ApplyLogs(old@next(View())) == S.ApplyLogs(View());
        OneStep(old@next(View()));
      }
    }

    static lemma OneStep(n: S.Node)
      requires n.applied < |n.log|
      ensures S.ApplyOne(n).commit == n.commit && S.ApplyOne(n).applied == n.applied + 1
    {
    }

    /** `maybe_commit` */
    method MaybeCommit()
      requires Valid()
      modifies this, sm, storage
      ensures Valid() && View() == S.MaybeCommit(old(View()))
    {
      if role != S.Leader {
        return;
      }
      var highest := Quorum.SearchHighest(config, matchIndex, id, |log|);
      if highest > commit && log[highest - 1].term == term {
        commit := highest;
        ApplyLogs();
      }
    }

    // ---------- replication ----------

    /** The message `sync_logs` builds for one peer. */
    method BuildAppend(peer: Id) returns (args: S.AppendArgs)
      requires Valid()
      ensures args == S.BuildAppend(View(), peer)
    {
      var next := if peer in nextIndex then nextIndex[peer] else 1;
      var prev := if next == 0 then 0 else next - 1;
      var prevTerm := if prev == 0 || prev > |log| then 0 else log[prev - 1].term;
      var entries := if prev <= |log| then log[prev..] else [];
      args := S.AppendArgs(term, id, prev, prevTerm, entries, commit);
    }

    method OnAppendReply(peer: Id, last: nat, reply: S.AppendReply)
      requires Valid()
      modifies this, sm, storage
      ensures Valid() && View() == S.OnAppendReply(old(View()), peer, last, reply)
    {
      if reply.success {
        matchIndex := matchIndex[peer := last];
        nextIndex := nextIndex[peer := last + 1];
        MaybeCommit();
      } else if reply.term > term {
        StepDown(reply.term);
      } else {
        var next := if peer in nextIndex then nextIndex[peer] else 1;
        if next > 1 {
          nextIndex := nextIndex[peer := next - 1];
        }
      }
    }

    /** The conflict-resolution loop. */
    method MergeEntries(entries: seq<LogEntry>)
      requires Valid()
      modifies this`log, storage`wal
      ensures Valid()
      ensures View() == old(View()).(log := S.Resolve(old(log), entries),
                                     wal := old(storage.wal) + S.Written(old(log), entries))
    {
      assert storage.wal + [] == storage.wal;
      for i := 0 to |entries|
        invariant Valid()
        invariant log == S.Resolve(old(log), entries[..i])
        invariant storage.wal == old(storage.wal) + S.Written(old(log), entries[..i])
      {
        assert entries[..i + 1][..i] == entries[..i];
        var e := entries[i];
        if 0 < e.index <= |log| {
          if log[e.index - 1].term != e.term {
            log := log[..e.index - 1];
            log := log + [e];
            storage.AppendWalLog(e);
          }
        } else {
          log := log + [e];
          storage.AppendWalLog(e);
        }
      }
      assert entries[..|entries|] == entries;
    }

    method FollowCommit(leaderCommit: nat)
      requires Valid()
      modifies this, sm, storage
      ensures Valid() && View() == S.FollowCommit(old(View()), leaderCommit) && term == old(term)
    {
      if leaderCommit > commit {
        commit := if leaderCommit <= |log| then leaderCommit else |log|;
        S.ApplyLogsKeeps(View());
        ApplyLogs();
      }
    }

    /** The part of the handler that runs once the sender is accepted as leader of this term. */
    method AcceptEntries(args: S.AppendArgs) returns (reply: S.AppendReply)
      requires Valid()
      modifies this, sm, storage
      ensures Valid() && (View(), reply) == S.AcceptEntries(old(View()), args)
    {
      reply := S.AppendReply(term, false);
      if args.prevIndex > 0 {
        if args.prevIndex > |log| || log[args.prevIndex - 1].term != args.prevTerm {
          return;
        }
      }
      MergeEntries(args.entries);
      FollowCommit(args.commit);
      reply := S.AppendReply(term, true);
    }

    method HandleAppendEntries(args: S.AppendArgs) returns (reply: S.AppendReply)
      requires Valid()
      modifies this, sm, storage
      ensures Valid() && (View(), reply) == S.HandleAppend(old(View()), args)
    {
      if args.term < term {
        return S.AppendReply(term, false);
      }
      if args.term == term && role == S.Leader {
        return S.AppendReply(term, false);
      }
      if args.term > term {
        StepDown(args.term);
      }
      role := S.Follower;
      reply := AcceptEntries(args);
    }

    // ---------- two-phase commit ----------

    /** The vote handler, with the commit fast-forward. */
    method HandleTxVoteRequest(req: S.TxVoteArgs) returns (reply: S.TxVoteReply)
      requires Valid()
      modifies this, sm, storage
      ensures Valid() && (View(), reply) == S.HandleTxVote(old(View()), req)
      ensures reply.granted ==> req.txId in sm.pendingTxs && id in sm.pendingTxs[req.txId].votes
                                && sm.pendingTxs[req.txId].votes[id] == Yes
    {
      if req.term < term {
        return S.TxVoteReply(term, false);
      }
      if req.term > term {
        StepDown(req.term);
        return S.TxVoteReply(term, false);
      }
      if !S.UpToDate(req.lastTerm, req.lastIndex, log) {
        return S.TxVoteReply(term, false);
      }
      if req.lastIndex > commit && req.lastIndex <= |log| {
        commit := req.lastIndex;
      }
      ApplyLogs();
      if req.txId !in sm.pendingTxs {
        return S.TxVoteReply(term, false);
      }
      sm.RecordVote(req.txId, id, Yes);
      reply := S.TxVoteReply(term, true);
    }

    /** Force-aborting a stuck transaction: only a leader, and only if it is pending. */
    method ProposeAbortTx(txId: TxId) returns (ok: bool)
      requires Valid()
      modifies this`log, storage`wal
      ensures Valid()
      ensures ok == (old(role) == S.Leader && txId in old(View()).sm.pending)
      ensures View() == if ok then S.PushEntry(old(View()), DecideTx(txId, Abort)) else old(View())
    {
      if role != S.Leader {
        return false;
      }
      if txId !in sm.pendingTxs {
        return false;
      }
      Push(DecideTx(txId, Abort));
      ok := true;
    }

    // ---------- restart and snapshots ----------

    method ReplayEntry(cmd: Command)
      requires Valid()
      modifies this`config, this`peers, sm
      ensures Valid() && View() == S.ReplayEntry(old(View()), cmd)
    {
      if cmd.InstallConfiguration? {
        var servers := ComputeAllServers(cmd.config);
        var dial := ComputeDial(servers, id);
        config, peers := cmd.config, dial;
      } else {
        sm.ApplyCommand(cmd);
      }
    }

    /** `replay_logs` */
    method ReplayLogs()
      requires Valid()
      modifies this, sm
      ensures Valid() && View() == S.ReplayLogs(old(View()))
    {
      ghost var n := View();
      for i := 0 to |log|
        invariant Valid() && log == n.log
        invariant View() == S.Replayed(n, n.log[..i])
      {
        S.ReplayedStep(n, i);
        ReplayEntry(log[i].command);
      }
      assert n.log[..|n.log|] == n.log;
      applied := |log|;
    }

    method RestoreFromSnapshot() returns (restored: bool)
      requires Valid()
      modifies this, sm
      ensures Valid() && restored == storage.snapshot.Some? && storage.snapshot == old(storage.snapshot)
      ensures View() == if restored then S.RestoreSnapshot(old(View()), storage.snapshot.value) else old(View())
    {
      if storage.snapshot.None? {
        return false;
      }
      var snap := storage.snapshot.value;
      sm.InstallSnapshot(snap.data);
      commit := if snap.lastIndex > commit then snap.lastIndex else commit;
      applied := if snap.lastIndex > applied then snap.lastIndex else applied;
      restored := true;
    }

    /** `maybe_snapshot`, given the size of the write-ahead log on disk. */
    method MaybeSnapshot(walSize: nat, thresholdBytes: nat) returns (taken: bool)
      requires Valid()
      modifies storage
      ensures Valid()
      ensures taken == (role == S.Leader && walSize > thresholdBytes && commit > 0)
      ensures taken ==> storage.snapshot == Some(S.TakeSnapshot(old(View())))
      ensures View() == if taken then old(View()).(wal := S.Retain(old(storage.wal), commit)) else old(View())
      ensures !taken ==> storage.snapshot == old(storage.snapshot)
    {
      if role != S.Leader {
        return false;
      }
      if walSize <= thresholdBytes {
        return false;
      }
      if commit == 0 {
        return false;
      }
      var data := sm.SnapshotData();
      var snapTerm := if commit <= |log| then log[commit - 1].term else 0;
      storage.snapshot := Some(S.Snapshot(commit, snapTerm, data));
      var kept := storage.RewriteWal(commit);
      taken := true;
    }
  }

  method ComputeDial(servers: seq<ServerId>, self: Id) returns (dial: seq<Id>)
    ensures dial == S.Dial(servers, self)
  {
    dial := [];
    for i := 0 to |servers|
      invariant dial == S.Dial(servers[..i], self)
    {
      assert servers[..i + 1][..i] == servers[..i];
      if servers[i].nodeId != self {
        dial := dial + [servers[i].addr];
      }
    }
    assert servers[..|servers|] == servers;
  }
}

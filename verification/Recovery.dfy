/** Restarting a node: replaying its log over whatever the store had kept, and replaying what a
    snapshot left of the log. */
module Recovery {
  import opened Protocol
  import opened Reference
  import opened Lsm
  import opened Steps
  import opened Membership
  import opened LogRepair
  import Store
  import CrashSafety
  import Tables
  import R = RaftNode

  // ---------- a log as the writes it makes ----------

  /** The writes that applying one command makes. */
  function Emits(pending: map<TxId, seq<TxOp>>, cmd: Command): seq<TxOp> {
    match cmd
    case Set(k, v) => [Put(k, v)]
    case Delete(k) => [Remove(k)]
    case DecideTx(x, decision) => if x in pending && decision == Commit then pending[x] else []
    case _ => []
  }

  function Pending(pending: map<TxId, seq<TxOp>>, log: seq<LogEntry>): map<TxId, seq<TxOp>> {
    Replay(KvState(map[], pending), log).pending
  }

  /** All writes of a log, in order. */
  function WritesOf(pending: map<TxId, seq<TxOp>>, log: seq<LogEntry>): seq<TxOp> {
    if log == [] then []
    else
      var k := |log| - 1;
      WritesOf(pending, log[..k]) + Emits(Pending(pending, log[..k]), log[k].command)
  }

  lemma {:induction false} OpsInTwoParts(kv: map<Key, Value>, a: seq<TxOp>, b: seq<TxOp>)
    ensures ApplyOps(kv, a + b) == ApplyOps(ApplyOps(kv, a), b)
  {
    if b == [] {
      assert a + b == a;
    } else {
      var k := |b| - 1;
      OpsInTwoParts(kv, a, b[..k]);
      assert (a + b)[..|a + b| - 1] == a + b[..k];
    }
  }

  lemma ApplyEmits(st: KvState, cmd: Command)
    ensures Apply(st, cmd).kv == ApplyOps(st.kv, Emits(st.pending, cmd))
  {
    assert forall op :: [op][..0] == [] && ApplyOps(st.kv, [op]) == ApplyOp(st.kv, op);
  }

  /** Replaying is applying the writes; what is staged does not depend on the data. */
  lemma {:induction false} ReplayIsWrites(st: KvState, log: seq<LogEntry>)
    ensures Replay(st, log) == KvState(ApplyOps(st.kv, WritesOf(st.pending, log)), Pending(st.pending, log))
  {
    if log != [] {
      var k := |log| - 1;
      ReplayIsWrites(st, log[..k]);
      var before := Replay(st, log[..k]);
      ApplyEmits(before, log[k].command);
      OpsInTwoParts(st.kv, WritesOf(st.pending, log[..k]), Emits(before.pending, log[k].command));
    }
  }

  // ---------- writing again ----------

  predicate Writes(op: TxOp, key: Key) { op.key == key }

  predicate Touches(ops: seq<TxOp>, key: Key) { exists i :: 0 <= i < |ops| && Writes(ops[i], key) }

  /** A key that is written ends up the same whatever was there before; the others stay. */
  lemma {:induction false} OnlyLastWriteCounts(a: map<Key, Value>, b: map<Key, Value>, ops: seq<TxOp>, key: Key)
    ensures var x, y := ApplyOps(a, ops), ApplyOps(b, ops);
            if Touches(ops, key) then SameAt(x, y, key) else SameAt(x, a, key) && SameAt(y, b, key)
  {
    if ops != [] {
      var k := |ops| - 1;
      OnlyLastWriteCounts(a, b, ops[..k], key);
      if Touches(ops, key) && !Writes(ops[k], key) {
        var i :| 0 <= i < |ops| && Writes(ops[i], key);
        assert Writes(ops[..k][i], key);
      }
      if Touches(ops[..k], key) {
        var i :| 0 <= i < k && Writes(ops[..k][i], key);
        assert Writes(ops[i], key);
      }
      assert Writes(ops[k], key) ==> Touches(ops, key);
    }
  }

  predicate SameAt(a: map<Key, Value>, b: map<Key, Value>, key: Key) {
    (key in a <==> key in b) && (key in a ==> a[key] == b[key])
  }

  /** Writing over leftover data gives what writing from nothing gives exactly when every leftover
      key is written. */
  lemma WritingOverLeftovers(kv: map<Key, Value>, ops: seq<TxOp>)
    ensures ApplyOps(kv, ops) == ApplyOps(map[], ops) <==> forall key | key in kv :: Touches(ops, key)
  {
    var x, y := ApplyOps(kv, ops), ApplyOps(map[], ops);
    if forall key | key in kv :: Touches(ops, key) {
      forall key ensures SameAt(x, y, key) {
        OnlyLastWriteCounts(kv, map[], ops, key);
      }
      SameEverywhere(x, y);
    } else {
      var key :| key in kv && !Touches(ops, key);
      OnlyLastWriteCounts(kv, map[], ops, key);
    }
  }

  lemma SameEverywhere(x: map<Key, Value>, y: map<Key, Value>)
    requires forall key :: SameAt(x, y, key)
    ensures x == y
  {
    forall key ensures key in x <==> key in y {
      assert SameAt(x, y, key);
    }
    forall key | key in x ensures x[key] == y[key] {
      assert SameAt(x, y, key);
    }
  }

  /** Replaying a log over leftover data gives the meaning of the log exactly when the log writes every
      leftover key. */
  lemma ReplayOverLeftovers(kv: map<Key, Value>, log: seq<LogEntry>)
    ensures Replay(KvState(kv, map[]), log) == Replay(EMPTY, log)
        <==> forall key | key in kv :: Touches(WritesOf(map[], log), key)
  {
    ReplayIsWrites(KvState(kv, map[]), log);
    ReplayIsWrites(EMPTY, log);
    WritingOverLeftovers(kv, WritesOf(map[], log));
  }

  /** The store as it is after the first `p` writes of a log, from an empty store. */
  function AfterWrites(log: seq<LogEntry>, p: nat): map<Key, Value>
    requires p <= |WritesOf(map[], log)|
  {
    ApplyOps(map[], WritesOf(map[], log)[..p])
  }

  lemma {:induction false} KeysAreTouched(ops: seq<TxOp>)
    ensures forall key | key in ApplyOps(map[], ops) :: Touches(ops, key)
  {
    forall key | key in ApplyOps(map[], ops) ensures Touches(ops, key) {
      OnlyLastWriteCounts(map[], map[], ops, key);
    }
  }

  /** Recovery is idempotent: with the store left after any prefix of the writes, even inside a
      transaction, and nothing staged, replaying the whole log gives the meaning of the log. */
  lemma RecoveryIdempotent(n: Node, p: nat)
    requires p <= |WritesOf(map[], n.log)| && n.sm == KvState(AfterWrites(n.log, p), map[])
    ensures ReplayLogs(n).sm == Replay(EMPTY, n.log) && ReplayLogs(n).applied == |n.log|
  {
    var ops := WritesOf(map[], n.log);
    KeysAreTouched(ops[..p]);
    forall key | key in n.sm.kv ensures Touches(ops, key) {
      var i :| 0 <= i < p && Writes(ops[..p][i], key);
      assert Writes(ops[i], key);
    }
    ReplayOverLeftovers(n.sm.kv, n.log);
  }

  lemma {:induction false} WritesOfPrefix(log: seq<LogEntry>, k: nat)
    requires k <= |log|
    ensures WritesOf(map[], log[..k]) <= WritesOf(map[], log)
    decreases |log|
  {
    if k == |log| {
      assert log[..k] == log;
    } else {
      var m := |log| - 1;
      assert log[..m][..k] == log[..k];
      WritesOfPrefix(log[..m], k);
    }
  }

  /** A crash while entry `k` is being applied, after `j` of its operations, leaves such a prefix. */
  lemma CrashLeavesPrefix(log: seq<LogEntry>, k: nat, j: nat) returns (p: nat)
    requires k < |log|
    requires j <= |Emits(Replay(EMPTY, log[..k]).pending, log[k].command)|
    ensures p <= |WritesOf(map[], log)|
    ensures AfterWrites(log, p)
         == ApplyOps(Replay(EMPTY, log[..k]).kv, Emits(Replay(EMPTY, log[..k]).pending, log[k].command)[..j])
  {
    var st := Replay(EMPTY, log[..k]);
    var emitted := Emits(st.pending, log[k].command);
    var sofar := WritesOf(map[], log[..k]);
    ReplayIsWrites(EMPTY, log[..k]);
    p := |sofar| + j;
    WritesOfPrefix(log, k + 1);
    assert log[..k + 1][..k] == log[..k];
    assert WritesOf(map[], log[..k + 1]) == sofar + emitted;
    assert WritesOf(map[], log)[..p] == sofar + emitted[..j];
    OpsInTwoParts(map[], sofar, emitted[..j]);
  }

  // ---------- snapshots ----------

  ghost predicate InPlace(log: seq<LogEntry>) { forall x | 0 <= x < |log| :: log[x].index == x + 1 }

  /** The rewrite keeps exactly the entries after the snapshot. */
  lemma {:induction false} RetainIsSuffix(log: seq<LogEntry>, k: nat)
    requires InPlace(log) && k <= |log|
    ensures Retain(log, k) == log[k..]
  {
    if log != [] {
      var m := |log| - 1;
      if k <= m {
        RetainIsSuffix(log[..m], k);
        assert log[k..] == log[..m][k..] + [log[m]];
      } else {
        RetainsNothing(log, k);
      }
    }
  }

  lemma {:induction false} RetainsNothing(log: seq<LogEntry>, k: nat)
    requires forall x | 0 <= x < |log| :: log[x].index <= k
    ensures Retain(log, k) == []
  {
    if log != [] {
      RetainsNothing(log[..|log| - 1], k);
    }
  }

  lemma {:induction false} RetainInTwoParts(a: seq<LogEntry>, b: seq<LogEntry>, k: nat)
    ensures Retain(a + b, k) == Retain(a, k) + Retain(b, k)
  {
    if b == [] {
      assert a + b == a;
    } else {
      var m := |b| - 1;
      RetainInTwoParts(a, b[..m], k);
      assert (a + b)[..|a + b| - 1] == a + b[..m];
    }
  }

  // ---------- the write-ahead log of a node that takes snapshots ----------

  /** The write-ahead log holds the entries after the last snapshot, at `k0`. */
  ghost predicate Trimmed(n: Node, k0: nat) {
    InPlace(n.log) && k0 <= |n.log| && n.wal == n.log[k0..]
  }

  /** Snapshots and proposals keep it so; nothing is trimmed at first. */
  lemma TrimmedStays(n: Node, k0: nat, cmd: Command)
    requires Trimmed(n, k0)
    ensures Trimmed(PushEntry(n, cmd), k0)
    ensures k0 <= n.commit <= |n.log| ==> Trimmed(n.(wal := Retain(n.wal, n.commit)), n.commit)
  {
    if k0 <= n.commit <= |n.log| {
      RetainTrimmed(n, k0);
    }
  }

  /** An accepted AppendEntries keeps it so if and only if no entry of the message conflicts with the log. */
  lemma TrimmedAfterAppend(n: Node, k0: nat, args: AppendArgs)
    requires Trimmed(n, k0) && n.role == Follower && Consistent(n, args) && Contiguous(args.entries, args.prevIndex)
    ensures Trimmed(AcceptEntries(n, args).0, k0)
        <==> forall i | 0 <= i < |args.entries| && args.prevIndex + i < |n.log| ::
               n.log[args.prevIndex + i].term == args.entries[i].term
  {
    var n1 := n.(log := Resolve(n.log, args.entries), wal := n.wal + Written(n.log, args.entries));
    ApplyLogsAsFollower(n1.(commit := if args.commit <= |n1.log| then args.commit else |n1.log|));
    WalTracksLogIffNoConflict(n.log, args.entries, args.prevIndex);
    WalIsSuffix(n.log, args.entries, args.prevIndex, k0);
  }

  lemma WalIsSuffix(log: seq<LogEntry>, entries: seq<LogEntry>, prev: nat, k0: nat)
    requires InPlace(log) && k0 <= |log| && Contiguous(entries, prev) && prev <= |log|
    ensures var merged, written := Resolve(log, entries), Written(log, entries);
            log + written == merged <==> InPlace(merged) && k0 <= |merged| && log[k0..] + written == merged[k0..]
  {
    var merged, written := Resolve(log, entries), Written(log, entries);
    var j := ResolveForm(log, entries, prev);
    WrittenForm(log, entries, prev, j);
    if log + written == merged {
      assert (log + written)[k0..] == log[k0..] + written;
    } else {
      assert |log + written| != |merged|;
      assert k0 <= |merged| ==> |log[k0..] + written| != |merged[k0..]|;
    }
  }

  lemma RetainTrimmed(n: Node, k0: nat)
    requires Trimmed(n, k0) && k0 <= n.commit <= |n.log|
    ensures Retain(n.wal, n.commit) == n.log[n.commit..]
  {
    assert n.log == n.log[..k0] + n.log[k0..];
    RetainInTwoParts(n.log[..k0], n.log[k0..], n.commit);
    RetainsNothing(n.log[..k0], n.commit);
    RetainIsSuffix(n.log, n.commit);
  }

  // ---------- starting from a snapshot ----------

  /** Startup: the snapshot first, if there is one, then everything the log still holds. */
  function Startup(n: Node, snapshot: Option<Snapshot>): Node {
    ReplayLogs(if snapshot.Some? then RestoreSnapshot(n, snapshot.value) else n)
  }

  /** `next` is a node that starts on what `n` left on disk by a snapshot, the first or a later one,
      and wrote since. */
  ghost predicate StartsAfterSnapshot(n: Node, k0: nat, more: seq<LogEntry>, next: Node) {
    && Trimmed(n, k0) && k0 <= n.commit
    && n.applied == n.commit <= |n.log| && n.sm == Replay(EMPTY, n.log[..n.commit])
    && next.log == Retain(n.wal, n.commit) + more
  }

  /** A snapshot and the rest of the log. */
  lemma RestartForm(n: Node, k0: nat, more: seq<LogEntry>, next: Node)
    requires StartsAfterSnapshot(n, k0, more, next)
    ensures var r := Startup(next, Some(TakeSnapshot(n)));
            && r.log == n.log[n.commit..] + more
            && r.applied == |r.log| && r.commit == (if n.commit > next.commit then n.commit else next.commit)
            && r.sm == Replay(KvState(n.sm.kv, map[]), n.log[n.commit..] + more)
            && r.config == (match LastConfig(n.log[n.commit..] + more) case Some(c) => c case None => next.config)
  {
    RetainTrimmed(n, k0);
  }

  /** The indices after a restart, exactly: the kept entries are counted from 1 again, so they are in
      place only if there are none or nothing was dropped; the applied index is the number of kept
      entries, which is the commit index only by coincidence; and the next proposal gets the right
      index only if nothing was dropped. */
  lemma IndicesAfterRestart(n: Node, k0: nat, more: seq<LogEntry>, next: Node, r: Node, cmd: Command)
    requires StartsAfterSnapshot(n, k0, more, next) && next.commit == 0 && InPlace(n.log + more)
    requires r == Startup(next, Some(TakeSnapshot(n)))
    ensures r.applied == r.commit <==> |n.log| + |more| == 2 * n.commit
    ensures InPlace(r.log) <==> n.commit == 0 || n.commit == |n.log| + |more|
    ensures LastIndex(PushEntry(r, cmd).log) == |n.log| + |more| + 1 <==> n.commit == 0
  {
    RestartForm(n, k0, more, next);
    KeptIndices(n.log, more, n.commit, r.log);
    PushedIndex(r, cmd);
  }

  lemma KeptIndices(log: seq<LogEntry>, more: seq<LogEntry>, k: nat, kept: seq<LogEntry>)
    requires InPlace(log + more) && k <= |log| && kept == log[k..] + more
    ensures |kept| == |log| + |more| - k
    ensures InPlace(kept) <==> k == 0 || k == |log| + |more|
  {
    assert kept == (log + more)[k..];
    SuffixInPlace(log + more, k);
  }

  lemma PushedIndex(n: Node, cmd: Command)
    ensures LastIndex(PushEntry(n, cmd).log) == |n.log| + 1
  {
  }

  lemma SuffixInPlace(log: seq<LogEntry>, k: nat)
    requires InPlace(log) && k <= |log|
    ensures InPlace(log[k..]) <==> k == 0 || k == |log|
  {
    if k < |log| {
      assert log[k..][0].index == k + 1;
    }
    if k == 0 {
      assert log[k..] == log;
    }
  }

  /** Without a snapshot everything in the log is applied and nothing is committed. */
  lemma IndicesWithoutSnapshot(next: Node)
    requires next.commit == 0
    ensures Startup(next, None).applied == Startup(next, None).commit <==> next.log == []
    ensures Startup(next, None).log == next.log
  {
  }

  /** Dialled peers after a start, exactly. */
  lemma PeersAfterStartup(id: Id, peers: seq<Id>, term: nat, vote: Option<Id>, wal: seq<LogEntry>, sm: KvState,
                          snapshot: Option<Snapshot>)
    ensures PeersOk(Startup(FreshNode(id, peers, term, vote, wal, sm), snapshot))
        <==> id !in peers || LastConfig(wal).Some?
  {
    var next := FreshNode(id, peers, term, vote, wal, sm);
    PeersAtStart(id, peers, term, vote, wal, sm);
    var n := if snapshot.Some? then RestoreSnapshot(next, snapshot.value) else next;
    PeersAfterReplay(n);
    assert PeersOk(n) <==> PeersOk(next);
  }

  /** Snapshot plus the kept entries equals the whole log, when nothing is staged at the snapshot. */
  lemma SnapshotPlusSuffix(n: Node, k0: nat, more: seq<LogEntry>, next: Node)
    requires StartsAfterSnapshot(n, k0, more, next) && n.sm.pending == map[]
    ensures Startup(next, Some(TakeSnapshot(n))).sm == Replay(EMPTY, n.log + more)
  {
    RestartForm(n, k0, more, next);
    assert n.sm == KvState(n.sm.kv, map[]);
    ReplayFrom(n.log, n.commit, more);
  }

  lemma ReplayFrom(log: seq<LogEntry>, k: nat, more: seq<LogEntry>)
    requires k <= |log|
    ensures Replay(Replay(EMPTY, log[..k]), log[k..] + more) == Replay(EMPTY, log + more)
  {
    ReplayBatches(EMPTY, log[..k], log[k..] + more);
    assert log[..k] + (log[k..] + more) == log + more;
  }

  /** Writing a prefix and then everything is writing everything. */
  lemma WritingAgain(kv: map<Key, Value>, ops: seq<TxOp>, p: nat)
    requires p <= |ops|
    ensures ApplyOps(ApplyOps(kv, ops[..p]), ops) == ApplyOps(kv, ops)
  {
    var part := ApplyOps(kv, ops[..p]);
    forall key ensures SameAt(ApplyOps(part, ops), ApplyOps(kv, ops), key) {
      OnlyLastWriteCounts(part, kv, ops, key);
      OnlyLastWriteCounts(kv, kv, ops[..p], key);
      if Touches(ops[..p], key) {
        var i :| 0 <= i < p && Writes(ops[..p][i], key);
        assert Writes(ops[i], key);
      }
    }
    SameEverywhere(ApplyOps(part, ops), ApplyOps(kv, ops));
  }

  /** A crash after the snapshot is saved and before the write-ahead log is rewritten: the snapshot is replayed
      over with everything since the snapshot before, at `k0`, and gives the whole log's state if nothing was
      staged there. */
  lemma SnapshotBeforeRewrite(n: Node, k0: nat, next: Node)
    requires Trimmed(n, k0) && k0 <= n.commit && n.applied == n.commit <= |n.log|
    requires n.sm == Replay(EMPTY, n.log[..n.commit]) && next.log == n.wal
    requires Replay(EMPTY, n.log[..k0]).pending == map[]
    ensures Startup(next, Some(TakeSnapshot(n))).sm == Replay(EMPTY, n.log)
  {
    ReplayOverNewer(n.log, k0, n.commit);
  }

  lemma ReplayOverNewer(log: seq<LogEntry>, k0: nat, c: nat)
    requires k0 <= c <= |log| && Replay(EMPTY, log[..k0]).pending == map[]
    ensures Replay(KvState(Replay(EMPTY, log[..c]).kv, map[]), log[k0..]) == Replay(EMPTY, log)
  {
    var st, kept := Replay(EMPTY, log[..k0]), log[k0..];
    assert log[..c] == log[..k0] + kept[..c - k0] && log == log[..k0] + kept;
    ReplayBatches(EMPTY, log[..k0], kept[..c - k0]);
    ReplayBatches(EMPTY, log[..k0], kept);
    ReplayAgain(st, kept, c - k0);
  }

  /** Replaying a prefix and then everything, with nothing staged before, is replaying everything. */
  lemma ReplayAgain(st: KvState, log: seq<LogEntry>, k: nat)
    requires k <= |log| && st.pending == map[]
    ensures Replay(KvState(Replay(st, log[..k]).kv, map[]), log) == Replay(st, log)
  {
    var ops, part := WritesOf(map[], log), WritesOf(map[], log[..k]);
    ReplayIsWrites(st, log[..k]);
    ReplayIsWrites(st, log);
    ReplayIsWrites(KvState(Replay(st, log[..k]).kv, map[]), log);
    WritesOfPrefix(log, k);
    assert part == ops[..|part|];
    WritingAgain(st.kv, ops, |part|);
  }

  /** And only then: with a transaction staged at the snapshot, a node without further entries restarts
      into another state. */
  lemma SnapshotSafeIff(n: Node, k0: nat, next: Node)
    requires StartsAfterSnapshot(n, k0, [], next) && n.commit == |n.log|
    ensures Startup(next, Some(TakeSnapshot(n))).sm == Replay(EMPTY, n.log) <==> n.sm.pending == map[]
  {
    RestartForm(n, k0, [], next);
    assert n.log[n.commit..] + [] == [];
    assert n.log[..n.commit] == n.log;
  }

  /** The commit of a transaction that was staged at the snapshot writes nothing after a restart: the
      data differs exactly when its operations would have changed it. */
  lemma StagedCommitIsLost(n: Node, k0: nat, x: TxId, decide: LogEntry, next: Node)
    requires StartsAfterSnapshot(n, k0, [decide], next) && n.commit == |n.log|
    requires x in n.sm.pending && decide.command == DecideTx(x, Commit)
    ensures var r := Startup(next, Some(TakeSnapshot(n)));
            && r.sm.kv == n.sm.kv
            && Replay(EMPTY, n.log + [decide]).kv == ApplyOps(n.sm.kv, n.sm.pending[x])
            && (r.sm.kv == Replay(EMPTY, n.log + [decide]).kv <==> ApplyOps(n.sm.kv, n.sm.pending[x]) == n.sm.kv)
  {
    RestartForm(n, k0, [decide], next);
    assert n.log[n.commit..] + [decide] == [decide];
    assert n.log[..n.commit] == n.log;
    assert (n.log + [decide])[..|n.log|] == n.log;
    assert Replay(KvState(n.sm.kv, map[]), [decide][..0]) == KvState(n.sm.kv, map[]);
  }

  // ---------- the objects ----------

  /** Startup of a node on its storage and its store. */
  method Restart(id: Id, peers: seq<Id>, sm: Store.StateMachine, storage: R.RaftStorage) returns (node: R.RaftNode)
    requires sm.Valid()
    modifies sm
    ensures fresh(node) && node.Valid() && node.sm == sm && node.storage == storage
    ensures node.View() == Startup(
              FreshNode(id, peers, storage.savedTerm, storage.savedVote, storage.wal, old(sm.View())),
              storage.snapshot)
  {
    node := new R.RaftNode(id, peers, sm, storage);
    var restored := node.RestoreFromSnapshot();
    node.ReplayLogs();
  }

  /** A disk state from which replaying `log` recovers: it opens to some prefix of the log's writes. */
  ghost predicate LeftBy(d: Disk, log: seq<LogEntry>, n: nat, p: nat) {
    && Opens(d) && CrashSafety.SidecarsOk(d.files) && (forall id | id in d.files :: id < n)
    && p <= |WritesOf(map[], log)| && Reopened(d, n) == AfterWrites(log, p)
  }

  /** Opening such a disk and starting the node on it. */
  method Recover(id: Id, peers: seq<Id>, threshold: nat, disk: Disk, storage: R.RaftStorage, ghost n: nat, ghost p: nat)
    returns (node: R.RaftNode)
    requires storage.snapshot == None && LeftBy(disk, storage.wal, n, p)
    ensures fresh(node) && node.Valid() && node.log == storage.wal && node.sm.View() == Replay(EMPTY, storage.wal)
  {
    var sm := Store.Open(threshold, disk);
    SameReopened(disk, n, sm.nextSstId);
    RecoveryIdempotent(FreshNode(id, peers, storage.savedTerm, storage.savedVote, storage.wal, sm.View()), p);
    node := Restart(id, peers, sm, storage);
  }

  /** The write an operation makes is the next one of the log. */
  ghost predicate Continues(log: seq<LogEntry>, p: nat, op: CrashSafety.StoreOp) {
    && p <= |WritesOf(map[], log)|
    && (op.Write? ==> p < |WritesOf(map[], log)| && WritesOf(map[], log)[p] == op.op)
  }

  /** A crash in any disk state of an operation, on a store that holds a prefix of the log's writes: either
      the directory does not open, or the restarted node serves the meaning of its log. */
  method RecoverFromCrash(id: Id, peers: seq<Id>, before: Store.StateMachine, op: CrashSafety.StoreOp, k: nat,
                          storage: R.RaftStorage, ghost p: nat)
    returns (node: R.RaftNode?)
    requires before.Valid() && before.Durable() && storage.snapshot == None
    requires Continues(storage.wal, p, op) && before.Contents() == AfterWrites(storage.wal, p)
    requires k < |before.DisksOf(op)|
    ensures node == null <==> !Opens(before.DisksOf(op)[k])
    ensures node != null ==> node.Valid() && node.log == storage.wal && node.sm.View() == Replay(EMPTY, storage.wal)
  {
    var disk := before.DisksOf(op)[k];
    var opens := OpensNow(disk);
    if !opens {
      return null;
    }
    ghost var full := op.Write? && Store.BytesAfter(before.memtable, before.memtableBytes, op.op) >= before.threshold;
    ghost var p' := CrashedAfter(before.files, before.sstables, before.nextSstId, before.memtable, before.wal,
                                 op, full, k,
                                 storage.wal, p);
    node := Recover(id, peers, before.threshold, disk, storage, before.nextSstId + 1, p');
  }

  method OpensNow(disk: Disk) returns (ok: bool)
    ensures ok <==> Opens(disk)
  {
    ok := forall id | id in disk.files :: disk.files[id].meta.Some?;
  }

  lemma CrashedAfter(files: map<nat, File>, metas: seq<Meta>, id: nat, mem: Delta, wal: seq<TxOp>,
                     op: CrashSafety.StoreOp,
                     full: bool, k: nat, log: seq<LogEntry>, p: nat)
    returns (p': nat)
    requires Tables.TablesOk(files, metas, id) && mem == WalMap(wal)
    requires k < |CrashSafety.StepDisks(files, metas, id, mem, wal, op, full)|
    requires Continues(log, p, op) && Live(MergedBelow(files, id) + mem) == AfterWrites(log, p)
    requires Opens(CrashSafety.StepDisks(files, metas, id, mem, wal, op, full)[k])
    ensures LeftBy(CrashSafety.StepDisks(files, metas, id, mem, wal, op, full)[k], log, id + 1, p')
  {
    var d := CrashSafety.StepDisks(files, metas, id, mem, wal, op, full)[k];
    CrashSafety.StepIsSafe(files, metas, id, mem, wal, op, full, k);
    p' := p;
    if op.Write? {
      p' := p + 1;
      Tables.WriteView(MergedBelow(files, id), mem, op.op);
      var ops := WritesOf(map[], log);
      assert ops[..p + 1][..p] == ops[..p];
    }
  }

  /** From an empty store through any mix of flushes and compactions among the first writes of the log, up
      to a crash inside one more operation, or before it if it has no state number `k`. */
  method CrashAndRecover(id: Id, peers: seq<Id>, threshold: nat, ops: seq<CrashSafety.StoreOp>, op: CrashSafety.StoreOp,
                         k: nat, storage: R.RaftStorage)
    returns (before: Store.StateMachine, node: R.RaftNode?)
    requires storage.snapshot == None
    requires Store.Writes(ops) <= WritesOf(map[], storage.wal) && Continues(storage.wal, |Store.Writes(ops)|, op)
    ensures before.Contents() == ApplyOps(map[], Store.Writes(ops))
    ensures node == null <==> k < |before.DisksOf(op)| && !Opens(before.DisksOf(op)[k])
    ensures node != null ==> node.Valid() && node.log == storage.wal && node.sm.View() == Replay(EMPTY, storage.wal)
  {
    before := new Store.StateMachine.Empty(threshold);
    var data := Store.Drive(before, ops);
    ghost var p := |Store.Writes(ops)|;
    assert Store.Writes(ops) == WritesOf(map[], storage.wal)[..p];
    if k < |before.DisksOf(op)| {
      node := RecoverFromCrash(id, peers, before, op, k, storage, p);
    } else {
      CrashSafety.GoodTablesOpen(before.files, before.sstables, before.nextSstId, before.wal);
      node := Recover(id, peers, threshold, Disk(before.files, before.wal), storage, before.nextSstId, p);
    }
  }

  lemma SameReopened(d: Disk, n: nat, m: nat)
    requires (forall id | id in d.files :: id < n) && (forall id | id in d.files :: id < m)
    ensures Reopened(d, n) == Reopened(d, m)
  {
    if n <= m {
      ReopenedBound(d, n, m);
    } else {
      ReopenedBound(d, m, n);
    }
  }
}

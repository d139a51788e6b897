/** The log-structured store that serves as the Raft state machine. */
module Store {
  import opened Protocol
  import opened Reference
  import opened Lsm
  import opened Tables
  import opened CrashSafety

  datatype Vote = Yes | No(reason: string)

  datatype PendingTx = PendingTx(ops: seq<TxOp>, votes: map<Id, Vote>)

  function EstimateEntry(key: Key): nat { |key| + 40 }

  function SaturatingSub(a: nat, b: nat): nat { if a >= b then a - b else 0 }

  function Length(value: Option<Value>): nat { if value.Some? then |value.value| else 0 }

  /** The size estimate after a write. */
  function BytesAfter(mem: Delta, bytes: nat, op: TxOp): nat {
    (if op.key in mem then SaturatingSub(bytes, Length(mem[op.key])) else bytes + EstimateEntry(op.key))
    + (if op.Put? then |op.value| else 0)
  }

  /** The memory the memtable stands for: for each key its length, 40 and the length of its value. */
  ghost function Total(mem: Delta): nat {
    if mem == map[] then 0
    else
      var k :| k in mem;
      |k| + 40 + Length(mem[k]) + Total(mem - {k})
  }

  lemma {:induction false} TotalWithout(mem: Delta, k: Key)
    requires k in mem
    ensures Total(mem) == |k| + 40 + Length(mem[k]) + Total(mem - {k})
    decreases |mem|
  {
    var j :| j in mem && Total(mem) == |j| + 40 + Length(mem[j]) + Total(mem - {j});
    if j != k {
      TotalWithout(mem - {j}, k);
      TotalWithout(mem - {k}, j);
      assert mem - {j} - {k} == mem - {k} - {j};
    }
  }

  /** The estimate is kept exact write by write, without ever saturating. */
  lemma WriteTotal(mem: Delta, op: TxOp)
    ensures BytesAfter(mem, Total(mem), op) == Total(WriteDelta(mem, op))
  {
    var after := WriteDelta(mem, op);
    TotalWithout(after, op.key);
    assert after - {op.key} == mem - {op.key};
    if op.key in mem {
      TotalWithout(mem, op.key);
    } else {
      assert mem - {op.key} == mem;
    }
  }

  function Staged(pending: map<TxId, PendingTx>): map<TxId, seq<TxOp>> {
    map x | x in pending :: pending[x].ops
  }

  class StateMachine {
    const threshold: nat
    var memtable: Delta
    var memtableBytes: nat
    var wal: seq<TxOp>
    /** The table files, by id. */
    var files: map<nat, File>
    /** Handles of the tables, oldest first. */
    var sstables: seq<Meta>
    var nextSstId: nat
    var pendingTxs: map<TxId, PendingTx>

    ghost predicate Valid()
      reads this
    {
      TablesOk(files, sstables, nextSstId)
    }

    /** Everything in the memtable is also in the write-ahead log. */
    ghost predicate Durable()
      reads this
    {
      memtable == WalMap(wal)
    }

    /** The size estimate is what the memtable stands for. */
    ghost predicate Accounted()
      reads this
    {
      memtableBytes == Total(memtable)
    }

    ghost function Contents(): map<Key, Value>
      reads this
    {
      Live(MergedBelow(files, nextSstId) + memtable)
    }

    /** The meaning of the store: its contents and the transactions staged in it. */
    ghost function View(): KvState
      reads this
    {
      KvState(Contents(), Staged(pendingTxs))
    }

    /** The disk states that an operation started now passes through. */
    function DisksOf(op: StoreOp): seq<Disk>
      reads this
    {
      StepDisks(files, sstables, nextSstId, memtable, wal, op,
                op.Write? && BytesAfter(memtable, memtableBytes, op.op) >= threshold)
    }

    constructor Empty(threshold: nat)
      ensures Valid() && Durable() && Accounted() && View() == EMPTY && this.threshold == threshold
      ensures memtable == map[] && memtableBytes == 0 && wal == [] && files == map[] && sstables == [] && nextSstId == 0
    {
      this.threshold := threshold;
      memtable, memtableBytes, wal := map[], 0, [];
      files, sstables, nextSstId := map[], [], 0;
      pendingTxs := map[];
    }

    // ---------- writing ----------

    /** The first half of a write: the log line, the size estimate and the memtable. */
    method Buffer(op: TxOp)
      modifies this`wal, this`memtable, this`memtableBytes
      ensures wal == old(wal) + [op] && memtable == WriteDelta(old(memtable), op)
      ensures memtableBytes == BytesAfter(old(memtable), old(memtableBytes), op)
    {
      wal := wal + [op];
      if op.key in memtable {
        memtableBytes := SaturatingSub(memtableBytes, Length(memtable[op.key]));
      } else {
        memtableBytes := memtableBytes + EstimateEntry(op.key);
      }
      match op
      case Put(k, v) =>
        memtableBytes := memtableBytes + |v|;
        memtable := memtable[k := Some(v)];
      case Remove(k) =>
        memtable := memtable[k := None];
    }

    /** A whole write: what `set` and `delete` do with their operation. */
    method WriteOp(op: TxOp) returns (ghost trace: seq<Disk>)
      requires Valid()
      modifies this
      ensures Valid() && (old(Durable()) ==> Durable())
      ensures Contents() == ApplyOp(old(Contents()), op) && pendingTxs == old(pendingTxs)
      ensures trace == old(DisksOf(Write(op)))
      ensures TraceSafe(trace, nextSstId, old(Durable()), Contents())
      ensures BytesAfter(old(memtable), old(memtableBytes), op) < threshold ==>
                && memtable == WriteDelta(old(memtable), op)
                && memtableBytes == BytesAfter(old(memtable), old(memtableBytes), op)
                && files == old(files) && sstables == old(sstables) && nextSstId == old(nextSstId)
      ensures old(Accounted()) ==> Accounted()
      ensures memtable == map[] || memtableBytes < threshold
    {
      ghost var full := BytesAfter(memtable, memtableBytes, op) >= threshold;
      ghost var disks := WriteDisks(files, nextSstId, memtable, wal, op, full);
      ghost var contents, durable := Live(MergedBelow(files, nextSstId) + WriteDelta(memtable, op)), Durable();
      assert disks == DisksOf(Write(op));
      WriteView(MergedBelow(files, nextSstId), memtable, op);
      WalWrite(wal, op);
      WriteTotal(memtable, op);
      ghost var next := if full then nextSstId + 1 else nextSstId;
      WriteIsSafe(files, sstables, nextSstId, memtable, wal, op, full, next);
      assert TraceSafe(disks, next, durable, contents);
      Buffer(op);
      assert op.key in memtable;
      trace := [Disk(files, wal)];
      ghost var rest := MaybeFlush();
      trace := trace + rest;
      assert trace == disks && nextSstId == next && Contents() == contents;
    }

    method Set(key: Key, value: Value) returns (ghost trace: seq<Disk>)
      requires Valid()
      modifies this
      ensures Valid() && (old(Durable()) ==> Durable())
      ensures Contents() == old(Contents())[key := value] && pendingTxs == old(pendingTxs)
      ensures trace == old(DisksOf(Write(Put(key, value))))
      ensures TraceSafe(trace, nextSstId, old(Durable()), Contents())
      ensures BytesAfter(old(memtable), old(memtableBytes), Put(key, value)) < threshold ==>
                && memtable == old(memtable)[key := Some(value)]
                && memtableBytes == BytesAfter(old(memtable), old(memtableBytes), Put(key, value))
                && files == old(files) && sstables == old(sstables) && nextSstId == old(nextSstId)
      ensures old(Accounted()) ==> Accounted()
      ensures memtable == map[] || memtableBytes < threshold
    {
      trace := WriteOp(Put(key, value));
    }

    method Delete(key: Key) returns (ghost trace: seq<Disk>)
      requires Valid()
      modifies this
      ensures Valid() && (old(Durable()) ==> Durable())
      ensures Contents() == old(Contents()) - {key} && pendingTxs == old(pendingTxs)
      ensures trace == old(DisksOf(Write(Remove(key))))
      ensures TraceSafe(trace, nextSstId, old(Durable()), Contents())
      ensures old(Accounted()) ==> Accounted()
      ensures memtable == map[] || memtableBytes < threshold
    {
      trace := WriteOp(Remove(key));
    }

    /** The automatic flush at the end of a write. */
    method MaybeFlush() returns (ghost trace: seq<Disk>)
      requires Valid() && memtable != map[]
      modifies this
      ensures Valid() && (old(Durable()) ==> Durable())
      ensures Contents() == old(Contents()) && pendingTxs == old(pendingTxs)
      ensures if old(memtableBytes) >= threshold
              then nextSstId == old(nextSstId) + 1 && memtable == map[] && memtableBytes == 0
                   && trace == FlushDisks(old(files), old(nextSstId), old(memtable), old(wal))
              else trace == [] && unchanged(this)
    {
      trace := [];
      if memtableBytes >= threshold {
        trace := Flush();
      }
    }

    /** The memtable becomes a table. Every disk state on the way reopens to the same contents, except
        the second, in which the new table has no sidecar yet: that one does not open at all. */
    method Flush() returns (ghost trace: seq<Disk>)
      requires Valid()
      modifies this
      ensures Valid() && memtable == map[] && (old(Durable()) ==> Durable())
      ensures Contents() == old(Contents()) && pendingTxs == old(pendingTxs)
      ensures trace == if old(memtable) == map[] then []
                       else FlushDisks(old(files), old(nextSstId), old(memtable), old(wal))
      ensures TraceSafe(trace, nextSstId, old(Durable()), old(Contents()))
      ensures old(memtable) == map[] ==> unchanged(this)
      ensures old(memtable) != map[] ==>
                && |trace| == 4 && Disk(files, wal) == trace[3] && memtableBytes == 0 && nextSstId == old(nextSstId) + 1
                && sstables == old(sstables) + [Describe(old(nextSstId), RowsOf(old(memtable)))]
                && forall j | 0 <= j < 4 :: Opens(trace[j]) <==> j != 1
    {
      trace := [];
      if memtable == map[] {
        return;
      }
      FlushIsSafe(files, sstables, nextSstId, memtable, wal);
      trace := FlushMemtable();
    }

    method FlushMemtable() returns (ghost trace: seq<Disk>)
      requires Valid() && memtable != map[]
      modifies this
      ensures trace == FlushDisks(old(files), old(nextSstId), old(memtable), old(wal))
      ensures Disk(files, wal) == trace[3] && memtable == map[] && memtableBytes == 0 && nextSstId == old(nextSstId) + 1
      ensures sstables == old(sstables) + [Describe(old(nextSstId), RowsOf(old(memtable)))]
      ensures pendingTxs == old(pendingTxs)
    {
      trace := [Disk(files, wal)];
      var id := nextSstId;
      var rows, meta := BuildTable(id, memtable);
      nextSstId := nextSstId + 1;
      ghost var written := WriteTable(id, rows, meta);
      trace := trace + written;
      sstables := sstables + [meta];
      memtable := map[];
      memtableBytes := 0;
      wal := [];
      trace := trace + [Disk(files, wal)];
    }

    /** A table file, and then its sidecar. */
    method WriteTable(id: nat, rows: seq<Row>, meta: Meta) returns (ghost trace: seq<Disk>)
      modifies this`files
      ensures files == old(files)[id := File(rows, Some(meta))]
      ensures trace == [Disk(old(files)[id := File(rows, None)], wal), Disk(files, wal)]
    {
      files := files[id := File(rows, None)];
      trace := [Disk(files, wal)];
      files := files[id := File(rows, Some(meta))];
      trace := trace + [Disk(files, wal)];
    }

    /** Merging all tables. Only the first disk state on the way, the merged table without its sidecar,
        does not open; all others, also after each single deletion, reopen to the same contents. */
    method Compact() returns (ghost trace: seq<Disk>)
      requires Valid()
      modifies this
      ensures Valid() && (old(Durable()) ==> Durable())
      ensures Contents() == old(Contents()) && pendingTxs == old(pendingTxs)
      ensures memtable == old(memtable) && memtableBytes == old(memtableBytes) && wal == old(wal)
      ensures trace == if |old(sstables)| < 2 then []
                       else CompactDisks(old(files), old(sstables), old(nextSstId), old(wal))
      ensures TraceSafe(trace, nextSstId, old(Durable()), old(Contents()))
      ensures |old(sstables)| < 2 ==> unchanged(this)
      ensures |old(sstables)| >= 2 ==>
                && |trace| == 2 + |old(sstables)| && Disk(files, wal) == trace[|trace| - 1]
                && sstables == [Describe(old(nextSstId), MergedRows(old(files), old(nextSstId)))]
                && forall j | 0 <= j < |trace| :: Opens(trace[j]) <==> j != 0
      ensures |sstables| <= 1
    {
      trace := [];
      if |sstables| < 2 {
        return;
      }
      trace := CompactTables();
    }

    method CompactTables() returns (ghost trace: seq<Disk>)
      requires Valid()
      modifies this`files, this`sstables, this`nextSstId
      ensures Valid() && Contents() == old(Contents())
      ensures trace == CompactDisks(old(files), old(sstables), old(nextSstId), wal)
      ensures TraceSafe(trace, nextSstId, old(Durable()), old(Contents()))
      ensures |trace| == 2 + |old(sstables)| && Disk(files, wal) == trace[|trace| - 1]
      ensures sstables == [Describe(old(nextSstId), MergedRows(old(files), old(nextSstId)))]
      ensures forall j | 0 <= j < |trace| :: Opens(trace[j]) <==> j != 0
    {
      ghost var all, metas, id, contents, durable := files, sstables, nextSstId, Contents(), Durable();
      trace := MergeAll();
      CompactConcludes(all, metas, id, memtable, wal, files, sstables[0], trace);
      assert Contents() == contents && TraceSafe(trace, nextSstId, durable, contents);
    }

    method MergeAll() returns (ghost trace: seq<Disk>)
      requires Valid()
      modifies this`files, this`sstables, this`nextSstId
      ensures trace == CompactDisks(old(files), old(sstables), old(nextSstId), wal)
      ensures files == LeftAfter(old(files), old(sstables), old(nextSstId), |old(sstables)|)
      ensures nextSstId == old(nextSstId) + 1
      ensures sstables == [Describe(old(nextSstId), MergedRows(old(files), old(nextSstId)))]
    {
      ghost var all := files;
      var doomed, id := sstables, nextSstId;
      var merged := MergeTables(files, sstables, nextSstId);
      var rows, meta := BuildTable(id, Retained(merged));
      nextSstId := nextSstId + 1;
      trace := WriteTable(id, rows, meta);
      sstables := [meta];
      NothingDeleted(all, doomed, id);
      ghost var rest := DeleteTables(doomed, all, id);
      trace := trace[..1] + rest;
    }

    /** The deletions that end a compaction, oldest table first. */
    method DeleteTables(doomed: seq<Meta>, ghost all: map<nat, File>, ghost id: nat) returns (ghost trace: seq<Disk>)
      requires TablesOk(all, doomed, id) && files == LeftAfter(all, doomed, id, 0)
      modifies this`files
      ensures files == LeftAfter(all, doomed, id, |doomed|)
      ensures trace == Deletions(all, doomed, id, wal, |doomed|)
    {
      trace := [Disk(files, wal)];
      for i := 0 to |doomed|
        invariant files == LeftAfter(all, doomed, id, i)
        invariant trace == Deletions(all, doomed, id, wal, i)
      {
        OneMoreDeleted(all, doomed, id, i);
        files := files - {doomed[i].id};
        trace := trace + [Disk(files, wal)];
      }
    }

    /** Any one operation. */
    method Step(op: StoreOp) returns (ghost trace: seq<Disk>)
      requires Valid()
      modifies this
      ensures Valid() && (old(Durable()) ==> Durable())
      ensures Contents() == if op.Write? then ApplyOp(old(Contents()), op.op) else old(Contents())
      ensures trace == old(DisksOf(op))
      ensures TraceSafe(trace, nextSstId, old(Durable()), Contents())
      ensures old(Accounted()) ==> Accounted()
    {
      match op
      case Write(w) => trace := WriteOp(w);
      case FlushNow => trace := Flush();
      case CompactNow => trace := Compact();
    }

    // ---------- reading ----------

    /** `get` finds every current value except one that is passed over. */
    method Get(key: Key) returns (r: Option<Value>)
      requires Valid()
      ensures r.Some? ==> Find(Contents(), key) == r
      ensures r == Find(Contents(), key) <==> key in memtable || !PassedOver(files, sstables, nextSstId, key)
    {
      if key in memtable {
        return memtable[key];
      }
      r := Search(files, sstables, nextSstId, key);
      assert SameFor(key, MergedBelow(files, nextSstId) + memtable, MergedBelow(files, nextSstId));
    }

    /** `snapshot_data` is exactly the contents. */
    method SnapshotData() returns (result: map<Key, Value>)
      requires Valid()
      ensures result == Contents()
    {
      result := FlattenTables(files, sstables, nextSstId);
      RowsRoundTrip(memtable);
      result := OverlayRows(result, MergedBelow(files, nextSstId), RowsOf(memtable));
    }

    // ---------- snapshots ----------

    method ClearForSnapshot()
      modifies this
      ensures Valid() && Durable() && View() == EMPTY && memtable == map[] && wal == [] && files == map[]
      ensures nextSstId == 0 && pendingTxs == map[]
    {
      memtable, memtableBytes, wal := map[], 0, [];
      files, sstables, nextSstId := map[], [], 0;
      pendingTxs := map[];
    }

    /** The contents become the snapshot; they are not in the write-ahead log. */
    method InstallSnapshot(data: map<Key, Value>)
      modifies this
      ensures Valid() && View() == KvState(data, map[])
      ensures Accounted() && (Durable() <==> data == map[])
    {
      ClearForSnapshot();
      memtableBytes := 0;
      var left := data.Keys;
      while left != {}
        invariant left <= data.Keys
        invariant memtable.Keys == data.Keys - left
        invariant forall k | k in memtable :: memtable[k] == Some(data[k])
        invariant Valid() && files == map[] && nextSstId == 0 && pendingTxs == map[] && wal == [] && Accounted()
      {
        var k :| k in left;
        WriteTotal(memtable, Put(k, data[k]));
        memtableBytes := memtableBytes + EstimateEntry(k) + |data[k]|;
        memtable := memtable[k := Some(data[k])];
        left := left - {k};
      }
      OnlyMemtable(memtable, data);
    }

    // ---------- two-phase commit ----------

    method BeginTx(x: TxId, ops: seq<TxOp>)
      requires Valid()
      modifies this
      ensures Valid() && (old(Durable()) ==> Durable())
      ensures View() == Apply(old(View()), Command.BeginTx(x, ops))
      ensures x in pendingTxs && pendingTxs[x].votes == map[]
    {
      pendingTxs := pendingTxs[x := PendingTx(ops, map[])];
      assert Staged(pendingTxs) == old(Staged(pendingTxs))[x := ops];
    }

    /** A vote is recorded on a pending transaction only, and never changes the meaning of the store. */
    method RecordVote(x: TxId, voter: Id, vote: Vote)
      requires Valid()
      modifies this
      ensures Valid() && (old(Durable()) ==> Durable()) && View() == old(View())
      ensures x in pendingTxs <==> x in old(pendingTxs)
      ensures x in pendingTxs ==> pendingTxs[x].votes == old(pendingTxs)[x].votes[voter := vote]
    {
      if x in pendingTxs {
        pendingTxs := pendingTxs[x := pendingTxs[x].(votes := pendingTxs[x].votes[voter := vote])];
        assert Staged(pendingTxs) == old(Staged(pendingTxs));
      }
    }

    method Perform(op: TxOp)
      requires Valid()
      modifies this
      ensures Valid() && (old(Durable()) ==> Durable())
      ensures Contents() == ApplyOp(old(Contents()), op) && pendingTxs == old(pendingTxs)
    {
      match op
      case Put(k, v) => ghost var trace := Set(k, v);
      case Remove(k) => ghost var trace := Delete(k);
    }

    method DecideTx(x: TxId, decision: TxDecision)
      requires Valid()
      modifies this
      ensures Valid() && (old(Durable()) ==> Durable())
      ensures View() == Apply(old(View()), Command.DecideTx(x, decision))
    {
      if x !in pendingTxs {
        return;
      }
      var ops := pendingTxs[x].ops;
      pendingTxs := pendingTxs - {x};
      assert Staged(pendingTxs) == old(Staged(pendingTxs)) - {x};
      if decision == Commit {
        for i := 0 to |ops|
          invariant Valid() && (old(Durable()) ==> Durable())
          invariant Contents() == ApplyOps(old(Contents()), ops[..i])
          invariant pendingTxs == old(pendingTxs) - {x}
        {
          assert ops[..i + 1][..i] == ops[..i];
          Perform(ops[i]);
        }
        assert ops[..|ops|] == ops;
      }
    }

    /** The state machine's share of applying one log entry. */
    method ApplyCommand(cmd: Command)
      requires Valid()
      modifies this
      ensures Valid() && (old(Durable()) ==> Durable())
      ensures View() == Apply(old(View()), cmd)
    {
      match cmd
      case Set(k, v) => ghost var trace := Set(k, v);
      case Delete(k) => ghost var trace := Delete(k);
      case BeginTx(x, ops) => BeginTx(x, ops);
      case DecideTx(x, decision) => DecideTx(x, decision);
      case _ =>
    }
  }

  // ---------- opening ----------

  /** A store whose only contents are `data` in the memtable. */
  lemma OnlyMemtable(memtable: Delta, data: map<Key, Value>)
    requires memtable.Keys == data.Keys && forall k | k in memtable :: memtable[k] == Some(data[k])
    ensures Live(MergedBelow(map[], 0) + memtable) == data
    ensures memtable == WalMap([]) <==> data == map[]
  {
    assert memtable == map[] <==> memtable.Keys == {};
  }

  /** `StateMachine::open`: discover the tables in id order, replay the write-ahead log. */
  method Open(threshold: nat, disk: Disk) returns (sm: StateMachine?)
    requires SidecarsOk(disk.files)
    ensures sm == null <==> !Opens(disk)
    ensures sm != null ==> fresh(sm) && sm.Valid() && sm.Durable() && sm.files == disk.files && sm.wal == disk.wal
    ensures sm != null ==> (forall id | id in disk.files :: id < sm.nextSstId)
    ensures sm != null ==> sm.View() == KvState(Reopened(disk, sm.nextSstId), map[])
  {
    var unread := disk.files.Keys;
    var next: nat := 0;
    while unread != {}
      invariant unread <= disk.files.Keys
      invariant forall id | id in disk.files && id !in unread :: id < next && disk.files[id].meta.Some?
    {
      var id :| id in unread;
      if disk.files[id].meta.None? {
        return null;
      }
      next := if next >= id + 1 then next else id + 1;
      unread := unread - {id};
    }
    var metas := SortById(disk.files, next);
    var mem, bytes := ReplayWal(disk.wal);
    sm := new StateMachine.Empty(threshold);
    sm.memtable, sm.memtableBytes, sm.wal := mem, bytes, disk.wal;
    sm.files, sm.sstables, sm.nextSstId := disk.files, metas, next;
  }

  /** The handles in ascending order of their ids. */
  method SortById(files: map<nat, File>, next: nat) returns (metas: seq<Meta>)
    requires SidecarsOk(files) && forall id | id in files :: id < next && files[id].meta.Some?
    ensures TablesOk(files, metas, next)
  {
    metas := [];
    for id := 0 to next
      invariant forall i | 0 <= i < |metas| ::
                  metas[i].id < id && metas[i].id in files && files[metas[i].id].meta == Some(metas[i])
      invariant forall i, j | 0 <= i < j < |metas| :: metas[i].id < metas[j].id
      invariant forall x | x in files && x < id :: HasHandle(metas, x)
    {
      if id in files {
        AddHandle(files, metas, id);
        metas := metas + [files[id].meta.value];
      }
    }
    forall i: nat | i < |metas| ensures HandleOk(files, metas, next, i) {
    }
    forall i: nat, j: nat | i < j < |metas| ensures Older(metas, i, j) {
    }
  }

  lemma AddHandle(files: map<nat, File>, metas: seq<Meta>, id: nat)
    requires id in files && files[id].meta.Some? && files[id].meta.value.id == id
    requires forall x | x in files && x < id :: HasHandle(metas, x)
    ensures forall x | x in files && x < id + 1 :: HasHandle(metas + [files[id].meta.value], x)
  {
    var metas' := metas + [files[id].meta.value];
    forall x | x in files && x < id + 1 ensures HasHandle(metas', x) {
      if x < id {
        assert HasHandle(metas, x);
        var i :| 0 <= i < |metas| && metas[i].id == x;
        assert metas'[i].id == x;
      } else {
        assert metas'[|metas|].id == x;
      }
    }
  }

  method ReplayWal(wal: seq<TxOp>) returns (mem: Delta, bytes: nat)
    ensures mem == WalMap(wal)
  {
    mem, bytes := map[], 0;
    for i := 0 to |wal|
      invariant mem == WalMap(wal[..i])
    {
      assert wal[..i + 1][..i] == wal[..i];
      match wal[i] {
        case Put(k, v) =>
          bytes := SaturatingSub(bytes, EstimateEntry(k)) + EstimateEntry(k) + |v|;
          mem := mem[k := Some(v)];
        case Remove(k) =>
          bytes := SaturatingSub(bytes, EstimateEntry(k)) + EstimateEntry(k);
          mem := mem[k := None];
      }
    }
    assert wal[..|wal|] == wal;
  }

  // ---------- any sequence of operations ----------

  /** The writes among the operations, in order. */
  function Writes(ops: seq<StoreOp>): seq<TxOp> {
    if ops == [] then []
    else Writes(ops[..|ops| - 1]) + (if ops[|ops| - 1].Write? then [ops[|ops| - 1].op] else [])
  }

  lemma WritesStep(kv: map<Key, Value>, ops: seq<StoreOp>, i: nat)
    requires i < |ops|
    ensures ApplyOps(kv, Writes(ops[..i + 1]))
         == if ops[i].Write? then ApplyOp(ApplyOps(kv, Writes(ops[..i])), ops[i].op) else ApplyOps(kv, Writes(ops[..i]))
  {
    assert ops[..i + 1][..i] == ops[..i];
    var w := Writes(ops[..i]);
    if ops[i].Write? {
      assert (w + [ops[i].op])[..|w|] == w;
    } else {
      assert w + [] == w;
    }
  }

  /** However flushes and compactions are interleaved with them, the writes mean what they mean on a
      plain map, and so does the store after a crash. */
  method Drive(sm: StateMachine, ops: seq<StoreOp>) returns (data: map<Key, Value>)
    requires sm.Valid()
    modifies sm
    ensures sm.Valid() && (old(sm.Durable()) ==> sm.Durable()) && (old(sm.Accounted()) ==> sm.Accounted())
    ensures sm.Contents() == ApplyOps(old(sm.Contents()), Writes(ops))
    ensures data == sm.Contents()
    ensures forall id | id in sm.files :: id < sm.nextSstId
    ensures old(sm.Durable()) ==> Reopened(Disk(sm.files, sm.wal), sm.nextSstId) == data
  {
    for i := 0 to |ops|
      invariant sm.Valid() && (old(sm.Durable()) ==> sm.Durable()) && (old(sm.Accounted()) ==> sm.Accounted())
      invariant sm.Contents() == ApplyOps(old(sm.Contents()), Writes(ops[..i]))
    {
      WritesStep(old(sm.Contents()), ops, i);
      ghost var trace := sm.Step(ops[i]);
    }
    assert ops[..|ops|] == ops;
    IdsBelow(sm.files, sm.sstables, sm.nextSstId);
    data := sm.SnapshotData();
  }

  /** After a compaction, and until the next flush, every lookup is exact. */
  method GetAfterCompaction(sm: StateMachine, keys: seq<Key>) returns (found: seq<Option<Value>>)
    requires sm.Valid()
    modifies sm
    ensures sm.Valid() && sm.Contents() == old(sm.Contents())
    ensures |found| == |keys| && forall i | 0 <= i < |keys| :: found[i] == Find(old(sm.Contents()), keys[i])
  {
    ghost var trace := sm.Compact();
    found := [];
    for i := 0 to |keys|
      invariant sm.Valid() && sm.Contents() == old(sm.Contents()) && |sm.sstables| <= 1
      invariant |found| == i && forall j | 0 <= j < i :: found[j] == Find(old(sm.Contents()), keys[j])
    {
      OneCoveringTableIsExact(sm.files, sm.sstables, sm.nextSstId, keys[i]);
      var r := sm.Get(keys[i]);
      found := found + [r];
    }
  }

  /** One write and a flush. */
  method OneTable(threshold: nat) returns (sm: StateMachine)
    requires threshold > 100
    ensures fresh(sm) && sm.threshold == threshold && sm.Valid() && sm.memtable == map[] && sm.memtableBytes == 0
    ensures sm.sstables == [Meta(0, "b", "b", 1)] && sm.nextSstId == 1
    ensures sm.files == map[0 := File([Row("b", Some("v"))], Some(Meta(0, "b", "b", 1)))]
    ensures "b" in sm.Contents() && sm.Contents()["b"] == "v"
  {
    sm := new StateMachine.Empty(threshold);
    ghost var trace := sm.Set("b", "v");
    assert sm.memtable == map["b" := Some("v")];
    RowsOfOne("b", Some("v"));
    trace := sm.Flush();
  }

  /** Two more writes and a flush: the second table covers the key of the first. */
  method TwoTables(threshold: nat) returns (sm: StateMachine)
    requires threshold > 100
    ensures fresh(sm) && sm.Valid() && sm.memtable == map[] && sm.nextSstId == 2
    ensures sm.sstables == [Meta(0, "b", "b", 1), Meta(1, "a", "c", 2)]
    ensures sm.files == map[0 := File([Row("b", Some("v"))], Some(Meta(0, "b", "b", 1))),
                            1 := File([Row("a", Some("x")), Row("c", Some("y"))], Some(Meta(1, "a", "c", 2)))]
    ensures "b" in sm.Contents() && sm.Contents()["b"] == "v"
  {
    sm := OneTable(threshold);
    TwoWrites(sm);
    RowsOfTwo("a", Some("x"), "c", Some("y"));
    ghost var trace := sm.Flush();
  }

  method TwoWrites(sm: StateMachine)
    requires sm.Valid() && sm.memtable == map[] && sm.memtableBytes == 0 && sm.threshold > 100
    modifies sm
    ensures sm.Valid() && sm.memtable == map["a" := Some("x"), "c" := Some("y")]
    ensures sm.files == old(sm.files) && sm.sstables == old(sm.sstables) && sm.nextSstId == old(sm.nextSstId)
    ensures sm.Contents() == old(sm.Contents())["a" := "x"]["c" := "y"]
  {
    ghost var trace := sm.Set("a", "x");
    assert sm.memtable == map["a" := Some("x")];
    trace := sm.Set("c", "y");
  }

  /** After them the lookup does not find a key that has a value. */
  method MissAfterTwoFlushes(threshold: nat) returns (sm: StateMachine, found: Option<Value>)
    requires threshold > 100
    ensures fresh(sm) && sm.Valid() && Find(sm.Contents(), "b") == Some("v")
    ensures found == None
  {
    sm := TwoTables(threshold);
    LookupCanMiss();
    found := sm.Get("b");
  }

  /** A map written out in key order, with the sidecar that describes the rows. */
  method BuildTable(id: nat, m: Delta) returns (rows: seq<Row>, meta: Meta)
    ensures rows == RowsOf(m) && meta == Describe(id, rows)
  {
    rows := RowsOf(m);
    var first, last := if rows == [] then "" else rows[0].key, if rows == [] then "" else rows[|rows| - 1].key;
    meta := Meta(id, first, last, |rows|);
  }
}

/** The directories a store passes through while it writes, flushes and compacts, and what each of
    them reopens to. */
module CrashSafety {
  import opened Protocol
  import opened Lsm
  import opened Tables

  /** The sidecars that exist describe their tables. */
  ghost predicate SidecarsOk(files: map<nat, File>) {
    forall id | id in files && files[id].meta.Some? ::
      files[id].meta.value.id == id && TableOk(files[id].rows, files[id].meta.value)
  }

  /** A disk state met on the way either does not open, or has good sidecars and, if nothing in the
      memtable was missing from the log, reopens to the given contents. */
  ghost predicate SafeCrash(d: Disk, next: nat, durable: bool, contents: map<Key, Value>) {
    && (forall id | id in d.files :: id < next)
    && (Opens(d) ==> SidecarsOk(d.files))
    && (durable && Opens(d) ==> Reopened(d, next) == contents)
  }

  ghost predicate TraceSafe(trace: seq<Disk>, next: nat, durable: bool, contents: map<Key, Value>) {
    forall d {:trigger SafeCrash(d, next, durable, contents)} | d in trace :: SafeCrash(d, next, durable, contents)
  }

  lemma GoodTablesOpen(files: map<nat, File>, metas: seq<Meta>, next: nat, wal: seq<TxOp>)
    requires TablesOk(files, metas, next)
    ensures Opens(Disk(files, wal)) && SidecarsOk(files)
  {
    forall id | id in files
      ensures files[id].meta.Some? && files[id].meta.value.id == id && TableOk(files[id].rows, files[id].meta.value)
    {
      assert HasHandle(metas, id);
      var i :| 0 <= i < |metas| && metas[i].id == id;
      assert HandleOk(files, metas, next, i);
    }
  }

  /** A new table whose sidecar is missing keeps the store from opening. */
  lemma HalfWritten(files: map<nat, File>, id: nat, rows: seq<Row>, wal: seq<TxOp>)
    ensures !Opens(Disk(files[id := File(rows, None)], wal))
  {
    assert files[id := File(rows, None)][id].meta == None;
  }

  /** The sidecar of a table. */
  function Describe(id: nat, rows: seq<Row>): Meta {
    Meta(id, if rows == [] then "" else rows[0].key, if rows == [] then "" else rows[|rows| - 1].key, |rows|)
  }

  // ---------- a flush ----------

  /** The disk states of a flush: nothing written, table written, sidecar written, log truncated. */
  function FlushDisks(files: map<nat, File>, id: nat, mem: Delta, wal: seq<TxOp>): seq<Disk> {
    var rows := RowsOf(mem);
    var after := files[id := File(rows, Some(Describe(id, rows)))];
    [Disk(files, wal), Disk(files[id := File(rows, None)], wal), Disk(after, wal), Disk(after, [])]
  }

  lemma FlushIsSafe(files: map<nat, File>, metas: seq<Meta>, id: nat, mem: Delta, wal: seq<TxOp>)
    requires TablesOk(files, metas, id)
    ensures var disks, contents := FlushDisks(files, id, mem, wal), Live(MergedBelow(files, id) + mem);
            && TablesOk(disks[3].files, metas + [Describe(id, RowsOf(mem))], id + 1)
            && Live(MergedBelow(disks[3].files, id + 1) + map[]) == contents
            && TraceSafe(disks, id + 1, mem == WalMap(wal), contents)
            && forall j | 0 <= j < 4 :: Opens(disks[j]) <==> j != 1
  {
    var rows := RowsOf(mem);
    RowsRoundTrip(mem);
    NewTableIsSafe(files, metas, id, rows, Describe(id, rows), wal);
  }

  /** The four states for any table that is written, with its proper sidecar. */
  lemma NewTableIsSafe(files: map<nat, File>, metas: seq<Meta>, id: nat, rows: seq<Row>, meta: Meta, wal: seq<TxOp>)
    requires TablesOk(files, metas, id) && meta.id == id && TableOk(rows, meta)
    ensures var mem, after := RowsMap(rows), files[id := File(rows, Some(meta))];
            var contents := Live(MergedBelow(files, id) + mem);
            var disks := [Disk(files, wal), Disk(files[id := File(rows, None)], wal),
                          Disk(after, wal), Disk(after, [])];
            && TablesOk(after, metas + [meta], id + 1)
            && Live(MergedBelow(after, id + 1) + map[]) == contents
            && TraceSafe(disks, id + 1, mem == WalMap(wal), contents)
            && forall j | 0 <= j < 4 :: Opens(disks[j]) <==> j != 1
  {
    var mem, after := RowsMap(rows), files[id := File(rows, Some(meta))];
    AddTable(files, metas, id, rows, meta);
    GoodTablesOpen(files, metas, id, wal);
    GoodTablesOpen(after, metas + [meta], id + 1, wal);
    GoodTablesOpen(after, metas + [meta], id + 1, []);
    HalfWritten(files, id, rows, wal);
    IdsBelow(files, metas, id);
    BeforeTable(files, id, mem, wal);
    AfterTable(after, MergedBelow(files, id), id, mem, wal);
    assert SafeCrash(Disk(files[id := File(rows, None)], wal), id + 1, mem == WalMap(wal),
                     Live(MergedBelow(files, id) + mem));
  }

  /** Before the new table exists, the log alone accounts for the memtable. */
  lemma BeforeTable(files: map<nat, File>, id: nat, mem: Delta, wal: seq<TxOp>)
    requires (forall x | x in files :: x < id) && SidecarsOk(files)
    ensures SafeCrash(Disk(files, wal), id + 1, mem == WalMap(wal), Live(MergedBelow(files, id) + mem))
  {
    GapMerged(files, id, id + 1);
    assert Reopened(Disk(files, wal), id + 1) == Live(MergedBelow(files, id) + WalMap(wal));
  }

  /** Once the new table exists, the log no longer matters. */
  lemma AfterTable(after: map<nat, File>, merged: Delta, id: nat, mem: Delta, wal: seq<TxOp>)
    requires (forall x | x in after :: x < id + 1) && SidecarsOk(after)
    requires MergedBelow(after, id + 1) == merged + mem
    ensures Live(MergedBelow(after, id + 1) + map[]) == Live(merged + mem)
    ensures SafeCrash(Disk(after, wal), id + 1, mem == WalMap(wal), Live(merged + mem))
    ensures SafeCrash(Disk(after, []), id + 1, mem == WalMap(wal), Live(merged + mem))
  {
    assert (merged + mem) + mem == merged + mem;
    assert (merged + mem) + map[] == merged + mem;
    assert WalMap([]) == map[];
  }

  // ---------- a write ----------

  lemma WalWrite(wal: seq<TxOp>, op: TxOp)
    ensures WalMap(wal + [op]) == WriteDelta(WalMap(wal), op)
  {
    assert (wal + [op])[..|wal|] == wal;
  }

  /** A write that makes the memtable exceed its threshold flushes at once. */
  function WriteDisks(files: map<nat, File>, id: nat, mem: Delta, wal: seq<TxOp>, op: TxOp, full: bool): seq<Disk> {
    [Disk(files, wal + [op])] + if full then FlushDisks(files, id, WriteDelta(mem, op), wal + [op]) else []
  }

  lemma TraceWeaken(trace: seq<Disk>, next: nat, strong: bool, weak: bool, contents: map<Key, Value>)
    requires TraceSafe(trace, next, weak, contents) && (strong ==> weak)
    ensures TraceSafe(trace, next, strong, contents)
  {
    forall d | d in trace ensures SafeCrash(d, next, strong, contents) {
      assert SafeCrash(d, next, weak, contents);
    }
  }

  lemma WriteIsSafe(files: map<nat, File>, metas: seq<Meta>, id: nat, mem: Delta, wal: seq<TxOp>, op: TxOp,
                    full: bool, next: nat)
    requires TablesOk(files, metas, id) && next == if full then id + 1 else id
    ensures TraceSafe(WriteDisks(files, id, mem, wal, op, full), next, mem == WalMap(wal),
                      Live(MergedBelow(files, id) + WriteDelta(mem, op)))
  {
    var d, rest := Disk(files, wal + [op]), if full then FlushDisks(files, id, WriteDelta(mem, op), wal + [op]) else [];
    var contents, durable := Live(MergedBelow(files, id) + WriteDelta(mem, op)), mem == WalMap(wal);
    BufferedIsSafe(files, metas, id, mem, wal, op);
    if full {
      SafeLater(d, id, durable, contents);
      FlushAfterWrite(files, metas, id, mem, wal, op);
    }
    TraceFront(d, rest, next, durable, contents);
  }

  lemma FlushAfterWrite(files: map<nat, File>, metas: seq<Meta>, id: nat, mem: Delta, wal: seq<TxOp>, op: TxOp)
    requires TablesOk(files, metas, id)
    ensures TraceSafe(FlushDisks(files, id, WriteDelta(mem, op), wal + [op]), id + 1, mem == WalMap(wal),
                      Live(MergedBelow(files, id) + WriteDelta(mem, op)))
  {
    var mem1, wal1 := WriteDelta(mem, op), wal + [op];
    WalWrite(wal, op);
    FlushIsSafe(files, metas, id, mem1, wal1);
    TraceWeaken(FlushDisks(files, id, mem1, wal1), id + 1, mem == WalMap(wal), mem1 == WalMap(wal1),
                Live(MergedBelow(files, id) + mem1));
  }

  lemma TraceFront(d: Disk, rest: seq<Disk>, next: nat, durable: bool, contents: map<Key, Value>)
    requires SafeCrash(d, next, durable, contents) && TraceSafe(rest, next, durable, contents)
    ensures TraceSafe([d] + rest, next, durable, contents)
  {
    forall e | e in [d] + rest ensures SafeCrash(e, next, durable, contents) {
      assert e == d || e in rest;
    }
  }

  /** Once its log line is written, a write is there. */
  lemma BufferedIsSafe(files: map<nat, File>, metas: seq<Meta>, id: nat, mem: Delta, wal: seq<TxOp>, op: TxOp)
    requires TablesOk(files, metas, id)
    ensures Opens(Disk(files, wal + [op]))
    ensures SafeCrash(Disk(files, wal + [op]), id, mem == WalMap(wal),
                      Live(MergedBelow(files, id) + WriteDelta(mem, op)))
  {
    WalWrite(wal, op);
    IdsBelow(files, metas, id);
    GoodTablesOpen(files, metas, id, wal + [op]);
  }

  // ---------- a compaction ----------

  function MergedRows(files: map<nat, File>, id: nat): seq<Row> { RowsOf(Retained(MergedBelow(files, id))) }

  /** A directory of the merged table and the old tables from `lo` on. */
  function LeftFrom(files: map<nat, File>, lo: nat, id: nat, merged: File): map<nat, File> {
    (map x | x in files && x >= lo :: files[x])[id := merged]
  }

  function MergedFile(files: map<nat, File>, id: nat): File {
    File(MergedRows(files, id), Some(Describe(id, MergedRows(files, id))))
  }

  /** The directory once the merged table is complete and the oldest `i` tables are gone. */
  function LeftAfter(files: map<nat, File>, metas: seq<Meta>, id: nat, i: nat): map<nat, File>
    requires i <= |metas|
  {
    LeftFrom(files, Bound(metas, id, i), id, MergedFile(files, id))
  }

  /** The disk states of a compaction: the merged table alone, with its sidecar, and then one table
      fewer each time. */
  function CompactDisks(files: map<nat, File>, metas: seq<Meta>, id: nat, wal: seq<TxOp>): seq<Disk> {
    [Disk(files[id := File(MergedRows(files, id), None)], wal)] + Deletions(files, metas, id, wal, |metas|)
  }

  /** The disk states after 0, 1, ... up to `i` deletions. */
  function Deletions(files: map<nat, File>, metas: seq<Meta>, id: nat, wal: seq<TxOp>, i: nat): seq<Disk>
    requires i <= |metas|
  {
    (if i == 0 then [] else Deletions(files, metas, id, wal, i - 1)) + [Disk(LeftAfter(files, metas, id, i), wal)]
  }

  lemma {:induction false} DeletionsAt(files: map<nat, File>, metas: seq<Meta>, id: nat, wal: seq<TxOp>, i: nat, j: nat)
    requires j <= i <= |metas|
    ensures |Deletions(files, metas, id, wal, i)| == i + 1
    ensures Deletions(files, metas, id, wal, i)[j] == Disk(LeftAfter(files, metas, id, j), wal)
  {
    if i > 0 {
      DeletionsAt(files, metas, id, wal, i - 1, if j < i then j else 0);
    }
  }

  /** The merged table over any newest part of the old tables shows the same contents. */
  lemma CompactedView(files: map<nat, File>, metas: seq<Meta>, id: nat, i: nat, mem: Delta)
    requires TablesOk(files, metas, id) && i <= |metas|
    ensures var left := LeftAfter(files, metas, id, i);
            && (forall x | x in left :: x < id + 1)
            && Live(MergedBelow(left, id + 1) + mem) == Live(MergedBelow(files, id) + mem)
  {
    IdsBelow(files, metas, id);
    RowsRoundTrip(Retained(MergedBelow(files, id)));
    var left := LeftAfter(files, metas, id, i);
    var suffix := map x | x in files && x >= Bound(metas, id, i) :: files[x];
    SameMerged(suffix, left, id);
    MergedOverSuffix(files, suffix, Bound(metas, id, i), id, mem);
  }

  /** And every such directory opens. */
  lemma CompactedOpens(files: map<nat, File>, metas: seq<Meta>, id: nat, i: nat, wal: seq<TxOp>)
    requires TablesOk(files, metas, id) && i <= |metas|
    ensures var left := LeftAfter(files, metas, id, i); Opens(Disk(left, wal)) && SidecarsOk(left)
  {
    GoodTablesOpen(files, metas, id, wal);
    RowsRoundTrip(Retained(MergedBelow(files, id)));
    LeftOpens(files, Bound(metas, id, i), id, MergedFile(files, id), wal);
  }

  lemma LeftOpens(files: map<nat, File>, lo: nat, id: nat, merged: File, wal: seq<TxOp>)
    requires SidecarsOk(files) && Opens(Disk(files, wal))
    requires merged.meta.Some? && merged.meta.value.id == id && TableOk(merged.rows, merged.meta.value)
    ensures var left := LeftFrom(files, lo, id, merged); Opens(Disk(left, wal)) && SidecarsOk(left)
  {
    var left := LeftFrom(files, lo, id, merged);
    forall x | x in left
      ensures left[x].meta.Some? && left[x].meta.value.id == x && TableOk(left[x].rows, left[x].meta.value)
    {
      if x != id {
        assert x in files && left[x] == files[x];
        assert Disk(files, wal).files[x].meta.Some?;
      }
    }
  }

  lemma CompactIsSafe(files: map<nat, File>, metas: seq<Meta>, id: nat, mem: Delta, wal: seq<TxOp>)
    requires TablesOk(files, metas, id)
    ensures var disks := CompactDisks(files, metas, id, wal);
            && |disks| == 2 + |metas| && disks[|metas| + 1] == Disk(LeftAfter(files, metas, id, |metas|), wal)
            && TraceSafe(disks, id + 1, mem == WalMap(wal), Live(MergedBelow(files, id) + mem))
            && forall j | 0 <= j < |disks| :: Opens(disks[j]) <==> j != 0
  {
    var disks, contents := CompactDisks(files, metas, id, wal), Live(MergedBelow(files, id) + mem);
    CompactLength(files, metas, id, wal);
    StartIsSafe(files, metas, id, mem, wal);
    forall j | 0 <= j < |disks|
      ensures SafeCrash(disks[j], id + 1, mem == WalMap(wal), contents) && (Opens(disks[j]) <==> j != 0)
    {
      if j > 0 {
        CompactAt(files, metas, id, wal, j);
        LeftIsSafe(files, metas, id, j - 1, mem, wal);
      }
    }
    CompactAt(files, metas, id, wal, |metas| + 1);
  }

  lemma CompactLength(files: map<nat, File>, metas: seq<Meta>, id: nat, wal: seq<TxOp>)
    ensures |CompactDisks(files, metas, id, wal)| == 2 + |metas|
  {
    DeletionsAt(files, metas, id, wal, |metas|, 0);
  }

  lemma CompactAt(files: map<nat, File>, metas: seq<Meta>, id: nat, wal: seq<TxOp>, j: nat)
    requires 0 < j <= |metas| + 1
    ensures |CompactDisks(files, metas, id, wal)| == 2 + |metas|
    ensures CompactDisks(files, metas, id, wal)[j] == Disk(LeftAfter(files, metas, id, j - 1), wal)
  {
    DeletionsAt(files, metas, id, wal, |metas|, j - 1);
  }

  lemma StartIsSafe(files: map<nat, File>, metas: seq<Meta>, id: nat, mem: Delta, wal: seq<TxOp>)
    requires TablesOk(files, metas, id)
    ensures var d := Disk(files[id := File(MergedRows(files, id), None)], wal);
            !Opens(d) && SafeCrash(d, id + 1, mem == WalMap(wal), Live(MergedBelow(files, id) + mem))
  {
    IdsBelow(files, metas, id);
    HalfWritten(files, id, MergedRows(files, id), wal);
  }

  lemma LeftIsSafe(files: map<nat, File>, metas: seq<Meta>, id: nat, i: nat, mem: Delta, wal: seq<TxOp>)
    requires TablesOk(files, metas, id) && i <= |metas|
    ensures var d := Disk(LeftAfter(files, metas, id, i), wal);
            Opens(d) && SafeCrash(d, id + 1, mem == WalMap(wal), Live(MergedBelow(files, id) + mem))
  {
    CompactedView(files, metas, id, i, mem);
    CompactedOpens(files, metas, id, i, wal);
  }

  /** All that a compaction leaves behind. */
  lemma CompactConcludes(all: map<nat, File>, metas: seq<Meta>, id: nat, mem: Delta, wal: seq<TxOp>,
                         files: map<nat, File>, merged: Meta, trace: seq<Disk>)
    requires TablesOk(all, metas, id) && files == LeftAfter(all, metas, id, |metas|)
    requires merged == Describe(id, MergedRows(all, id)) && trace == CompactDisks(all, metas, id, wal)
    ensures TablesOk(files, [merged], id + 1)
    ensures Live(MergedBelow(files, id + 1) + mem) == Live(MergedBelow(all, id) + mem)
    ensures TraceSafe(trace, id + 1, mem == WalMap(wal), Live(MergedBelow(all, id) + mem))
    ensures |trace| == 2 + |metas| && trace[|metas| + 1] == Disk(files, wal)
    ensures forall j | 0 <= j < |trace| :: Opens(trace[j]) <==> j != 0
  {
    CompactIsSafe(all, metas, id, mem, wal);
    OnlyMergedLeft(all, metas, id);
    CompactedView(all, metas, id, |metas|, mem);
  }

  /** Nothing is deleted yet once the sidecar is written. */
  lemma NothingDeleted(files: map<nat, File>, metas: seq<Meta>, id: nat)
    requires TablesOk(files, metas, id)
    ensures LeftAfter(files, metas, id, 0) == files[id := MergedFile(files, id)]
  {
    forall x | x in files ensures x >= Bound(metas, id, 0) {
      assert HasHandle(metas, x);
      var j :| 0 <= j < |metas| && metas[j].id == x;
      assert j > 0 ==> Older(metas, 0, j);
    }
  }

  /** Each deletion removes the oldest table that is left. */
  lemma OneMoreDeleted(files: map<nat, File>, metas: seq<Meta>, id: nat, i: nat)
    requires TablesOk(files, metas, id) && i < |metas|
    ensures LeftAfter(files, metas, id, i + 1) == LeftAfter(files, metas, id, i) - {metas[i].id}
  {
    NextDoomed(files, metas, id, i);
    DropOldest(files, metas[i].id, Bound(metas, id, i + 1), id, MergedFile(files, id));
  }

  lemma NextDoomed(files: map<nat, File>, metas: seq<Meta>, id: nat, i: nat)
    requires TablesOk(files, metas, id) && i < |metas|
    ensures metas[i].id in files && metas[i].id < id && metas[i].id < Bound(metas, id, i + 1)
    ensures forall x | x in files && x >= metas[i].id && x != metas[i].id :: x >= Bound(metas, id, i + 1)
  {
    assert HandleOk(files, metas, id, i);
    if i + 1 < |metas| {
      assert Older(metas, i, i + 1);
    }
    forall x | x in files && x >= metas[i].id && x != metas[i].id ensures x >= Bound(metas, id, i + 1) {
      assert HasHandle(metas, x);
      var j :| 0 <= j < |metas| && metas[j].id == x;
      assert j < i ==> Older(metas, j, i);
      assert i + 1 < j ==> Older(metas, i + 1, j);
    }
  }

  lemma DropOldest(files: map<nat, File>, lo: nat, hi: nat, id: nat, merged: File)
    requires lo < hi && lo < id && forall x | x in files && x >= lo && x != lo :: x >= hi
    ensures LeftFrom(files, hi, id, merged) == LeftFrom(files, lo, id, merged) - {lo}
  {
    var a, b := LeftFrom(files, hi, id, merged), LeftFrom(files, lo, id, merged) - {lo};
    assert forall x :: x in a <==> x in b;
  }

  /** In the end only the merged table is left. */
  lemma OnlyMergedLeft(files: map<nat, File>, metas: seq<Meta>, id: nat)
    requires TablesOk(files, metas, id)
    ensures var rows := MergedRows(files, id);
            TablesOk(LeftAfter(files, metas, id, |metas|), [Describe(id, rows)], id + 1)
  {
    IdsBelow(files, metas, id);
    RowsRoundTrip(Retained(MergedBelow(files, id)));
    assert LeftAfter(files, metas, id, |metas|) == map[id := MergedFile(files, id)];
    SingleTableOk(id, MergedRows(files, id), Describe(id, MergedRows(files, id)));
  }

  lemma SingleTableOk(id: nat, rows: seq<Row>, meta: Meta)
    requires meta.id == id && TableOk(rows, meta)
    ensures TablesOk(map[id := File(rows, Some(meta))], [meta], id + 1)
  {
    var files, next := map[id := File(rows, Some(meta))], id + 1;
    assert HandleOk(files, [meta], next, 0);
    forall x | x in files ensures HasHandle([meta], x) {
      assert [meta][0].id == x;
    }
  }

  // ---------- any operation ----------

  datatype StoreOp = Write(op: TxOp) | FlushNow | CompactNow

  /** The disk states of one operation; `full` says that a write makes the memtable exceed its threshold. */
  function StepDisks(files: map<nat, File>, metas: seq<Meta>, id: nat, mem: Delta, wal: seq<TxOp>, op: StoreOp,
                     full: bool)
    : seq<Disk>
  {
    match op
    case Write(w) => WriteDisks(files, id, mem, wal, w, full)
    case FlushNow => if mem == map[] then [] else FlushDisks(files, id, mem, wal)
    case CompactNow => if |metas| < 2 then [] else CompactDisks(files, metas, id, wal)
  }

  lemma SafeLater(d: Disk, n: nat, durable: bool, contents: map<Key, Value>)
    requires SafeCrash(d, n, durable, contents)
    ensures SafeCrash(d, n + 1, durable, contents)
  {
    ReopenedBound(d, n, n + 1);
  }

  /** Whatever the operation, a crash in any of its disk states that opens leaves the contents it makes. */
  lemma StepIsSafe(files: map<nat, File>, metas: seq<Meta>, id: nat, mem: Delta, wal: seq<TxOp>, op: StoreOp,
                   full: bool, k: nat)
    requires TablesOk(files, metas, id) && k < |StepDisks(files, metas, id, mem, wal, op, full)|
    ensures var after := if op.Write? then WriteDelta(mem, op.op) else mem;
            SafeCrash(StepDisks(files, metas, id, mem, wal, op, full)[k], id + 1, mem == WalMap(wal),
                      Live(MergedBelow(files, id) + after))
  {
    var d := StepDisks(files, metas, id, mem, wal, op, full)[k];
    match op
    case Write(w) =>
      var contents := Live(MergedBelow(files, id) + WriteDelta(mem, w));
      WriteIsSafe(files, metas, id, mem, wal, w, full, if full then id + 1 else id);
      if full {
        assert SafeCrash(d, id + 1, mem == WalMap(wal), contents);
      } else {
        assert SafeCrash(d, id, mem == WalMap(wal), contents);
        SafeLater(d, id, mem == WalMap(wal), contents);
      }
    case FlushNow =>
      FlushIsSafe(files, metas, id, mem, wal);
      assert SafeCrash(d, id + 1, mem == WalMap(wal), Live(MergedBelow(files, id) + mem));
    case CompactNow =>
      CompactIsSafe(files, metas, id, mem, wal);
      assert SafeCrash(d, id + 1, mem == WalMap(wal), Live(MergedBelow(files, id) + mem));
  }
}

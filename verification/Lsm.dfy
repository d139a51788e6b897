/** Tables, write-ahead log and their meaning as one map; nothing here depends on the object that
    holds them. */
module Lsm {
  import opened Protocol
  import opened KeyOrder

  /** One row of a table; a missing value is a tombstone. */
  datatype Row = Row(key: Key, value: Option<Value>)

  datatype Meta = Meta(id: nat, firstKey: Key, lastKey: Key, count: nat)

  /** A table file on disk, with its metadata sidecar once that is written. */
  datatype File = File(rows: seq<Row>, meta: Option<Meta>)

  /** What survives a crash. A line of the write-ahead log is a put or a removal. */
  datatype Disk = Disk(files: map<nat, File>, wal: seq<TxOp>)

  type Delta = map<Key, Option<Value>>

  /** The rows of a table as a map. */
  function RowsMap(rows: seq<Row>): Delta {
    if rows == [] then map[] else RowsMap(rows[..|rows| - 1])[rows[|rows| - 1].key := rows[|rows| - 1].value]
  }

  /** A map as sorted rows, as a flush or a compaction writes them. */
  function RowsOf(m: Delta): seq<Row> {
    var keys := SortedKeys(m.Keys);
    SortedKeysAscend(m.Keys);
    assert forall i | 0 <= i < |keys| :: keys[i] in keys;
    seq(|keys|, i requires 0 <= i < |keys| => Row(keys[i], m[keys[i]]))
  }

  ghost predicate SortedRows(rows: seq<Row>) {
    forall i, j | 0 <= i < j < |rows| :: rows[i].key != rows[j].key && Leq(rows[i].key, rows[j].key)
  }

  /** What one write does to a memtable. */
  function WriteDelta(mem: Delta, op: TxOp): Delta {
    match op
    case Put(k, v) => mem[k := Some(v)]
    case Remove(k) => mem[k := None]
  }

  /** The effect of the write-ahead log lines. */
  function WalMap(wal: seq<TxOp>): Delta {
    if wal == [] then map[] else WriteDelta(WalMap(wal[..|wal| - 1]), wal[|wal| - 1])
  }

  /** All tables with an id below `n`, newer ones over older ones. */
  function MergedBelow(files: map<nat, File>, n: nat): Delta {
    if n == 0 then map[]
    else MergedBelow(files, n - 1) + (if n - 1 in files then RowsMap(files[n - 1].rows) else map[])
  }

  /** The keys that are not deleted. */
  function Live(m: Delta): map<Key, Value> {
    map k | k in m && m[k].Some? :: m[k].value
  }

  // ---------- rows ----------

  lemma {:induction false} RowsMapAt(rows: seq<Row>, i: nat)
    requires i < |rows| && SortedRows(rows)
    ensures rows[i].key in RowsMap(rows) && RowsMap(rows)[rows[i].key] == rows[i].value
    decreases |rows|
  {
    if i < |rows| - 1 {
      RowsMapAt(rows[..|rows| - 1], i);
    }
  }

  lemma {:induction false} RowsMapKeys(rows: seq<Row>, k: Key) returns (i: nat)
    requires k in RowsMap(rows)
    ensures i < |rows| && rows[i].key == k
    decreases |rows|
  {
    var n := |rows| - 1;
    if rows[n].key == k {
      i := n;
    } else {
      i := RowsMapKeys(rows[..n], k);
    }
  }

  /** Writing a map as rows and reading the rows back is the identity. */
  lemma RowsRoundTrip(m: Delta)
    ensures SortedRows(RowsOf(m))
    ensures RowsMap(RowsOf(m)) == m
  {
    SortedKeysAscend(m.Keys);
    var rows, keys := RowsOf(m), SortedKeys(m.Keys);
    assert forall i | 0 <= i < |keys| :: keys[i] in keys && rows[i] == Row(keys[i], m[keys[i]]);
    assert SortedRows(rows);
    forall k | k in m ensures k in RowsMap(rows) && RowsMap(rows)[k] == m[k] {
      assert k in keys;
      var i :| 0 <= i < |keys| && keys[i] == k;
      RowsMapAt(rows, i);
    }
    forall k | k in RowsMap(rows) ensures k in m {
      var i := RowsMapKeys(rows, k);
    }
  }

  lemma RowsOfOne(k: Key, v: Option<Value>)
    ensures RowsOf(map[k := v]) == [Row(k, v)]
  {
    var m := map[k := v];
    SortedKeysAscend(m.Keys);
    SortedUnique(SortedKeys(m.Keys), [k]);
  }

  lemma RowsOfTwo(k1: Key, v1: Option<Value>, k2: Key, v2: Option<Value>)
    requires k1 != k2 && Leq(k1, k2)
    ensures RowsOf(map[k1 := v1, k2 := v2]) == [Row(k1, v1), Row(k2, v2)]
  {
    var m := map[k1 := v1, k2 := v2];
    SortedKeysAscend(m.Keys);
    SortedUnique(SortedKeys(m.Keys), [k1, k2]);
  }

  // ---------- gaps, removals and additions ----------

  /** Ids without a table do not matter. */
  lemma {:induction false} GapMerged(files: map<nat, File>, lo: nat, hi: nat)
    requires lo <= hi && forall id | id in files :: id < lo || hi <= id
    ensures MergedBelow(files, hi) == MergedBelow(files, lo)
    decreases hi - lo
  {
    if lo < hi {
      GapMerged(files, lo, hi - 1);
      assert hi - 1 !in files;
    }
  }

  /** Two directories with the same tables below `n`. */
  lemma {:induction false} SameMerged(a: map<nat, File>, b: map<nat, File>, n: nat)
    requires forall id: nat | id < n :: (id in a <==> id in b) && (id in a ==> a[id].rows == b[id].rows)
    ensures MergedBelow(a, n) == MergedBelow(b, n)
  {
    if n > 0 {
      SameMerged(a, b, n - 1);
    }
  }

  /** Without the oldest tables, every key still found has its newest entry. */
  lemma {:induction false} SuffixAgrees(files: map<nat, File>, suffix: map<nat, File>, lo: nat, n: nat)
    requires forall id: nat :: id in suffix <==> id in files && id >= lo
    requires forall id | id in suffix :: suffix[id].rows == files[id].rows
    ensures forall k | k in MergedBelow(suffix, n) ::
              k in MergedBelow(files, n) && MergedBelow(files, n)[k] == MergedBelow(suffix, n)[k]
  {
    if n > 0 {
      SuffixAgrees(files, suffix, lo, n - 1);
      if n - 1 < lo {
        assert forall id | id in suffix :: id < 0 || n <= id;
        GapMerged(suffix, 0, n);
      }
    }
  }

  // ---------- reopening after a crash ----------

  /** `open` succeeds when every table has its sidecar. */
  ghost predicate Opens(d: Disk) {
    forall id | id in d.files :: d.files[id].meta.Some?
  }

  /** What a reopened store contains; `n` is any bound on the table ids. */
  ghost function Reopened(d: Disk, n: nat): map<Key, Value>
    requires forall id | id in d.files :: id < n
  {
    Live(MergedBelow(d.files, n) + WalMap(d.wal))
  }

  lemma ReopenedBound(d: Disk, n: nat, m: nat)
    requires n <= m && forall id | id in d.files :: id < n
    ensures Reopened(d, n) == Reopened(d, m)
  {
    GapMerged(d.files, n, m);
  }

  /** Compaction: the merged table without tombstones, on top of any newest part of the old tables,
      shows what the old tables showed. */
  lemma MergedOverSuffix(files: map<nat, File>, suffix: map<nat, File>, lo: nat, n: nat, mem: Delta)
    requires forall id: nat :: id in suffix <==> id in files && id >= lo
    requires forall id | id in suffix :: suffix[id].rows == files[id].rows
    ensures var m := MergedBelow(files, n);
            Live(MergedBelow(suffix, n) + Retained(m) + mem) == Live(m + mem)
  {
    SuffixAgrees(files, suffix, lo, n);
    TombstonesMayGo(MergedBelow(files, n), MergedBelow(suffix, n), mem);
  }

  /** Tombstones may be dropped over rows that agree with the merged ones. */
  lemma TombstonesMayGo(m: Delta, below: Delta, mem: Delta)
    requires forall k | k in below :: k in m && m[k] == below[k]
    ensures Live(below + Retained(m) + mem) == Live(m + mem)
  {
    var kept := below + Retained(m) + mem;
    forall k ensures k in Live(kept) <==> k in Live(m + mem) {
      assert k in kept && kept[k].Some? <==> k in m + mem && (m + mem)[k].Some?;
    }
  }

  /** Dropping the tombstones. */
  function Retained(m: Delta): Delta {
    map k | k in m && m[k].Some? :: m[k]
  }

  /** The order of the deletions matters: with the newest table gone first, a deleted key comes back. */
  lemma NewestFirstResurrects()
    ensures var older, newer := File([Row("k", Some("v"))], None), File([Row("k", None)], None);
            var files: map<nat, File> := map[0 := older, 1 := newer];
            var left: map<nat, File> := map[0 := older];
            && "k" !in Live(MergedBelow(files, 2))
            && "k" in Live(MergedBelow(left, 2) + Retained(MergedBelow(files, 2)))
  {
    var older, newer := File([Row("k", Some("v"))], None), File([Row("k", None)], None);
    var files: map<nat, File> := map[0 := older, 1 := newer];
    var left: map<nat, File> := map[0 := older];
    assert RowsMap(older.rows) == map["k" := Some("v")] && RowsMap(newer.rows) == map["k" := None];
    assert MergedBelow(files, 1) == RowsMap(older.rows);
    assert MergedBelow(files, 2) == MergedBelow(files, 1) + RowsMap(newer.rows);
    assert MergedBelow(left, 1) == RowsMap(older.rows);
    assert MergedBelow(left, 2) == MergedBelow(left, 1) + map[];
  }
}

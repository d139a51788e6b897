/** The tables of a store: handles in age order over files on disk, and the loops that read them. */
module Tables {
  import opened Protocol
  import opened KeyOrder
  import opened Reference
  import opened Lsm

  /** A handle describes its rows: sorted, with the right key range. */
  ghost predicate TableOk(rows: seq<Row>, meta: Meta) {
    && SortedRows(rows)
    && meta.count == |rows|
    && meta.firstKey == (if rows == [] then "" else rows[0].key)
    && meta.lastKey == (if rows == [] then "" else rows[|rows| - 1].key)
  }

  ghost predicate HandleOk(files: map<nat, File>, metas: seq<Meta>, next: nat, i: nat)
    requires i < |metas|
  {
    && metas[i].id in files && metas[i].id < next
    && files[metas[i].id].meta == Some(metas[i])
    && TableOk(files[metas[i].id].rows, metas[i])
  }

  ghost predicate Older(metas: seq<Meta>, i: nat, j: nat)
    requires i < j < |metas|
  {
    metas[i].id < metas[j].id
  }

  ghost predicate HasHandle(metas: seq<Meta>, id: nat) {
    exists i :: 0 <= i < |metas| && metas[i].id == id
  }

  /** Handles and files correspond, oldest first. */
  ghost predicate TablesOk(files: map<nat, File>, metas: seq<Meta>, next: nat) {
    && (forall i {:trigger HandleOk(files, metas, next, i)} | 0 <= i < |metas| :: HandleOk(files, metas, next, i))
    && (forall i, j {:trigger Older(metas, i, j)} | 0 <= i < j < |metas| :: Older(metas, i, j))
    && (forall id {:trigger HasHandle(metas, id)} | id in files :: HasHandle(metas, id))
  }

  lemma IdsBelow(files: map<nat, File>, metas: seq<Meta>, next: nat)
    requires TablesOk(files, metas, next)
    ensures forall id | id in files :: id < next
  {
    forall id | id in files ensures id < next {
      assert HasHandle(metas, id);
      var i :| 0 <= i < |metas| && metas[i].id == id;
      assert HandleOk(files, metas, next, i);
    }
  }

  /** The tables below `Bound(i)` are the first `i` ones. */
  function Bound(metas: seq<Meta>, next: nat, i: nat): nat
    requires i <= |metas|
  {
    if i < |metas| then metas[i].id else next
  }

  /** Taking one more table into account. */
  lemma NextTable(files: map<nat, File>, metas: seq<Meta>, next: nat, i: nat)
    requires TablesOk(files, metas, next) && i < |metas|
    ensures HandleOk(files, metas, next, i)
    ensures MergedBelow(files, Bound(metas, next, i + 1))
         == MergedBelow(files, Bound(metas, next, i)) + RowsMap(files[metas[i].id].rows)
  {
    assert HandleOk(files, metas, next, i);
    var lo, hi := metas[i].id + 1, Bound(metas, next, i + 1);
    if i + 1 < |metas| {
      assert Older(metas, i, i + 1);
    }
    forall id | id in files ensures id < lo || hi <= id {
      assert HasHandle(metas, id);
      var j :| 0 <= j < |metas| && metas[j].id == id;
      assert j < i ==> Older(metas, j, i);
      assert i + 1 < j ==> Older(metas, i + 1, j);
    }
    GapMerged(files, lo, hi);
  }

  lemma FirstTable(files: map<nat, File>, metas: seq<Meta>, next: nat)
    requires TablesOk(files, metas, next)
    ensures MergedBelow(files, Bound(metas, next, 0)) == map[]
  {
    forall id | id in files ensures Bound(metas, next, 0) <= id {
      assert HasHandle(metas, id);
      var j :| 0 <= j < |metas| && metas[j].id == id;
      assert j > 0 ==> Older(metas, 0, j);
    }
    GapMerged(files, 0, Bound(metas, next, 0));
  }

  // ---------- what a write does to the contents ----------

  lemma PutView(merged: Delta, mem: Delta, key: Key, value: Value)
    ensures Live(merged + mem[key := Some(value)]) == Live(merged + mem)[key := value]
  {
  }

  lemma RemoveView(merged: Delta, mem: Delta, key: Key)
    ensures Live(merged + mem[key := None]) == Live(merged + mem) - {key}
  {
  }

  lemma WriteView(merged: Delta, mem: Delta, op: TxOp)
    ensures Live(merged + WriteDelta(mem, op)) == ApplyOp(Live(merged + mem), op)
  {
    match op
    case Put(key, value) => PutView(merged, mem, key, value);
    case Remove(key) => RemoveView(merged, mem, key);
  }

  // ---------- adding a newest table ----------

  lemma AddTable(files: map<nat, File>, metas: seq<Meta>, next: nat, rows: seq<Row>, meta: Meta)
    requires TablesOk(files, metas, next) && meta.id == next && TableOk(rows, meta)
    ensures TablesOk(files[next := File(rows, Some(meta))], metas + [meta], next + 1)
    ensures MergedBelow(files[next := File(rows, Some(meta))], next + 1) == MergedBelow(files, next) + RowsMap(rows)
  {
    var files', metas' := files[next := File(rows, Some(meta))], metas + [meta];
    IdsBelow(files, metas, next);
    var next' := next + 1;
    forall i: nat | i < |metas'| ensures HandleOk(files', metas', next', i) {
      if i < |metas| {
        assert HandleOk(files, metas, next, i);
      }
    }
    forall i: nat, j: nat | i < j < |metas'| ensures Older(metas', i, j) {
      assert HandleOk(files, metas, next, i);
      if j < |metas| {
        assert Older(metas, i, j);
      }
    }
    forall id | id in files' ensures HasHandle(metas', id) {
      if id in files {
        assert HasHandle(metas, id);
        var i :| 0 <= i < |metas| && metas[i].id == id;
        assert metas'[i].id == id;
      } else {
        assert metas'[|metas|].id == id;
      }
    }
    SameMerged(files, files', next);
  }

  // ---------- flattening ----------

  /** The first loop of `snapshot_data`: all tables, oldest to newest, tombstones removing keys. */
  method FlattenTables(files: map<nat, File>, metas: seq<Meta>, ghost next: nat) returns (result: map<Key, Value>)
    requires TablesOk(files, metas, next)
    ensures result == Live(MergedBelow(files, next))
  {
    result := map[];
    FirstTable(files, metas, next);
    for i := 0 to |metas|
      invariant result == Live(MergedBelow(files, Bound(metas, next, i)))
    {
      NextTable(files, metas, next, i);
      result := OverlayRows(result, MergedBelow(files, Bound(metas, next, i)), files[metas[i].id].rows);
    }
  }

  method OverlayRows(base: map<Key, Value>, ghost merged: Delta, rows: seq<Row>) returns (result: map<Key, Value>)
    requires base == Live(merged)
    ensures result == Live(merged + RowsMap(rows))
  {
    result := base;
    assert merged + map[] == merged;
    for j := 0 to |rows|
      invariant result == Live(merged + RowsMap(rows[..j]))
    {
      assert rows[..j + 1][..j] == rows[..j];
      var sofar := RowsMap(rows[..j]);
      if rows[j].value.None? {
        RemoveView(merged, sofar, rows[j].key);
        result := result - {rows[j].key};
      } else {
        PutView(merged, sofar, rows[j].key, rows[j].value.value);
        result := result[rows[j].key := rows[j].value.value];
      }
    }
    assert rows[..|rows|] == rows;
  }

  /** The merge loop of `compact`: later tables overwrite earlier ones. */
  method MergeTables(files: map<nat, File>, metas: seq<Meta>, ghost next: nat) returns (merged: Delta)
    requires TablesOk(files, metas, next)
    ensures merged == MergedBelow(files, next)
  {
    merged := map[];
    FirstTable(files, metas, next);
    for i := 0 to |metas|
      invariant merged == MergedBelow(files, Bound(metas, next, i))
    {
      NextTable(files, metas, next, i);
      merged := MergeRows(merged, files[metas[i].id].rows);
    }
  }

  method MergeRows(base: Delta, rows: seq<Row>) returns (merged: Delta)
    ensures merged == base + RowsMap(rows)
  {
    merged := base;
    assert base + map[] == base;
    for j := 0 to |rows|
      invariant merged == base + RowsMap(rows[..j])
    {
      assert rows[..j + 1][..j] == rows[..j];
      merged := merged[rows[j].key := rows[j].value];
    }
    assert rows[..|rows|] == rows;
  }

  // ---------- looking up one key ----------

  predicate Covers(meta: Meta, key: Key) {
    Leq(meta.firstKey, key) && Leq(key, meta.lastKey)
  }

  /** Table `i` neither has the key nor stops the search for it. */
  ghost predicate Misses(files: map<nat, File>, metas: seq<Meta>, i: nat, key: Key)
    requires i < |metas| && metas[i].id in files
  {
    && key !in RowsMap(files[metas[i].id].rows)
    && (files[metas[i].id].rows == [] || !Covers(metas[i], key))
  }

  /** Table `i` is the newest non-empty one whose range contains the key, and it lacks the key. */
  ghost predicate StopsAt(files: map<nat, File>, metas: seq<Meta>, next: nat, i: nat, key: Key)
    requires TablesOk(files, metas, next) && i < |metas|
  {
    && HandleOk(files, metas, next, i)
    && files[metas[i].id].rows != [] && Covers(metas[i], key)
    && key !in RowsMap(files[metas[i].id].rows)
    && MissedFrom(files, metas, next, i + 1, key)
  }

  ghost predicate MissedFrom(files: map<nat, File>, metas: seq<Meta>, next: nat, i: nat, key: Key)
    requires TablesOk(files, metas, next) && i <= |metas|
  {
    forall j {:trigger HandleOk(files, metas, next, j)} | i <= j < |metas| ::
      HandleOk(files, metas, next, j) && Misses(files, metas, j, key)
  }

  /** The lookup stops at a table that lacks the key although an older table holds a live value. */
  ghost predicate PassedOver(files: map<nat, File>, metas: seq<Meta>, next: nat, key: Key)
    requires TablesOk(files, metas, next)
  {
    exists i {:trigger StopsAt(files, metas, next, i, key)} :: 0 <= i < |metas| && StopsAt(files, metas, next, i, key)
      && key in Live(MergedBelow(files, metas[i].id))
  }

  ghost predicate SameFor(key: Key, a: Delta, b: Delta) {
    (key in a <==> key in b) && (key in a ==> a[key] == b[key])
  }

  function Find(m: map<Key, Value>, key: Key): Option<Value> { if key in m then Some(m[key]) else None }

  datatype Outcome = Hit(value: Option<Value>) | Stop | Miss

  /** The inner loop of `get` over one table whose range contains the key. */
  method ScanTable(rows: seq<Row>, meta: Meta, key: Key) returns (r: Outcome)
    requires TableOk(rows, meta) && Covers(meta, key)
    ensures r.Hit? ==> key in RowsMap(rows) && RowsMap(rows)[key] == r.value
    ensures r.Stop? ==> rows != [] && key !in RowsMap(rows)
    ensures r.Miss? ==> rows == []
  {
    for j := 0 to |rows|
      invariant forall x | 0 <= x < j :: rows[x].key != key && Leq(rows[x].key, key)
    {
      if rows[j].key == key {
        RowsMapAt(rows, j);
        return Hit(rows[j].value);
      }
      if !Leq(rows[j].key, key) {
        PastTheKey(rows, j, key);
        return Stop;
      }
    }
    if rows != [] {
      LeqAntisymmetric(key, rows[|rows| - 1].key);
    }
    return Miss;
  }

  lemma PastTheKey(rows: seq<Row>, j: nat, key: Key)
    requires SortedRows(rows) && j < |rows| && !Leq(rows[j].key, key)
    requires forall x | 0 <= x < j :: rows[x].key != key
    ensures key !in RowsMap(rows)
  {
    LeqTotal(key, key);
    if key in RowsMap(rows) {
      var x := RowsMapKeys(rows, key);
      assert false;
    }
  }

  lemma OutsideRange(rows: seq<Row>, meta: Meta, key: Key)
    requires TableOk(rows, meta) && !Covers(meta, key)
    ensures key !in RowsMap(rows)
  {
    LeqTotal(key, key);
    if key in RowsMap(rows) {
      var x := RowsMapKeys(rows, key);
      assert false;
    }
  }

  /** The table part of `get`, newest to oldest. */
  method Search(files: map<nat, File>, metas: seq<Meta>, ghost next: nat, key: Key) returns (r: Option<Value>)
    requires TablesOk(files, metas, next)
    ensures r.Some? ==> Find(Live(MergedBelow(files, next)), key) == r
    ensures r == Find(Live(MergedBelow(files, next)), key) <==> !PassedOver(files, metas, next, key)
  {
    var i := |metas|;
    while i > 0
      invariant 0 <= i <= |metas|
      invariant MissedFrom(files, metas, next, i, key)
      invariant SameFor(key, MergedBelow(files, next), MergedBelow(files, Bound(metas, next, i)))
    {
      i := i - 1;
      NextTable(files, metas, next, i);
      var rows := files[metas[i].id].rows;
      if Covers(metas[i], key) {
        var found := ScanTable(rows, metas[i], key);
        match found {
          case Hit(value) =>
            HitIsFinal(files, metas, next, i, key);
            return value;
          case Stop =>
            StopIsFinal(files, metas, next, i, key);
            return None;
          case Miss =>
        }
      } else {
        OutsideRange(rows, metas[i], key);
      }
      MissedMore(files, metas, next, i, key);
    }
    FirstTable(files, metas, next);
    NeverStopped(files, metas, next, key);
    return None;
  }

  lemma MissedMore(files: map<nat, File>, metas: seq<Meta>, next: nat, i: nat, key: Key)
    requires TablesOk(files, metas, next) && i < |metas| && HandleOk(files, metas, next, i)
    requires MissedFrom(files, metas, next, i + 1, key) && Misses(files, metas, i, key)
    ensures MissedFrom(files, metas, next, i, key)
  {
    forall j | i <= j < |metas| ensures HandleOk(files, metas, next, j) && Misses(files, metas, j, key) {
      assert i == j || HandleOk(files, metas, next, j);
    }
  }

  lemma StopUnique(files: map<nat, File>, metas: seq<Meta>, next: nat, i: nat, h: nat, key: Key)
    requires TablesOk(files, metas, next) && i < |metas| && h < |metas|
    requires MissedFrom(files, metas, next, i + 1, key) && StopsAt(files, metas, next, h, key)
    ensures h <= i
  {
    assert HandleOk(files, metas, next, h);
  }

  lemma HitIsFinal(files: map<nat, File>, metas: seq<Meta>, next: nat, i: nat, key: Key)
    requires TablesOk(files, metas, next) && i < |metas| && HandleOk(files, metas, next, i)
    requires MissedFrom(files, metas, next, i + 1, key)
    requires key in RowsMap(files[metas[i].id].rows) && Covers(metas[i], key)
    ensures !PassedOver(files, metas, next, key)
  {
    forall h: nat | h < |metas| ensures !StopsAt(files, metas, next, h, key) {
      assert HandleOk(files, metas, next, h) && HandleOk(files, metas, next, i);
    }
  }

  lemma MissedAt(files: map<nat, File>, metas: seq<Meta>, next: nat, from: nat, i: nat, key: Key)
    requires TablesOk(files, metas, next) && from <= i < |metas| && MissedFrom(files, metas, next, from, key)
    ensures HandleOk(files, metas, next, i) && Misses(files, metas, i, key)
  {
    assert HandleOk(files, metas, next, i);
  }

  lemma StopIsFinal(files: map<nat, File>, metas: seq<Meta>, next: nat, i: nat, key: Key)
    requires TablesOk(files, metas, next) && i < |metas| && HandleOk(files, metas, next, i)
    requires MissedFrom(files, metas, next, i + 1, key)
    requires files[metas[i].id].rows != [] && Covers(metas[i], key) && key !in RowsMap(files[metas[i].id].rows)
    requires SameFor(key, MergedBelow(files, next), MergedBelow(files, Bound(metas, next, i + 1)))
    ensures key in Live(MergedBelow(files, next)) <==> PassedOver(files, metas, next, key)
  {
    NextTable(files, metas, next, i);
    assert StopsAt(files, metas, next, i, key);
    assert SameFor(key, MergedBelow(files, next), MergedBelow(files, metas[i].id));
    if PassedOver(files, metas, next, key) {
      var h :| 0 <= h < |metas| && StopsAt(files, metas, next, h, key) && key in Live(MergedBelow(files, metas[h].id));
      StopUnique(files, metas, next, i, h, key);
      StopUnique(files, metas, next, h, i, key);
    }
  }

  lemma NeverStopped(files: map<nat, File>, metas: seq<Meta>, next: nat, key: Key)
    requires TablesOk(files, metas, next) && MissedFrom(files, metas, next, 0, key)
    ensures !PassedOver(files, metas, next, key)
  {
    forall h: nat | h < |metas| ensures !StopsAt(files, metas, next, h, key) {
      MissedAt(files, metas, next, 0, h, key);
    }
  }

  /** With at most one table whose range contains the key, nothing is passed over. */
  lemma OneCoveringTableIsExact(files: map<nat, File>, metas: seq<Meta>, next: nat, key: Key)
    requires TablesOk(files, metas, next)
    requires forall i, j | 0 <= i < j < |metas| :: !(Covers(metas[i], key) && Covers(metas[j], key))
    ensures !PassedOver(files, metas, next, key)
  {
    if PassedOver(files, metas, next, key) {
      var h :| 0 <= h < |metas| && StopsAt(files, metas, next, h, key) && key in Live(MergedBelow(files, metas[h].id));
      OlderTablesLack(files, metas, next, h, key);
      assert false;
    }
  }

  lemma {:induction false} OlderTablesLack(files: map<nat, File>, metas: seq<Meta>, next: nat, h: nat, key: Key)
    requires TablesOk(files, metas, next) && h <= |metas|
    requires forall i | 0 <= i < h :: !Covers(metas[i], key)
    ensures key !in MergedBelow(files, Bound(metas, next, h))
  {
    if h == 0 {
      FirstTable(files, metas, next);
    } else {
      OlderTablesLack(files, metas, next, h - 1, key);
      NextTable(files, metas, next, h - 1);
      OutsideRange(files[metas[h - 1].id].rows, metas[h - 1], key);
    }
  }

  /** A reachable directory on which the lookup answers nothing for a key that has a value: the key
      lies inside the range of the newer table, which lacks it. */
  lemma LookupCanMiss()
    ensures var rows0, rows1 := [Row("b", Some("v"))], [Row("a", Some("x")), Row("c", Some("y"))];
            var metas := [Meta(0, "b", "b", 1), Meta(1, "a", "c", 2)];
            var files: map<nat, File> := map[0 := File(rows0, Some(metas[0])), 1 := File(rows1, Some(metas[1]))];
            TablesOk(files, metas, 2) && PassedOver(files, metas, 2, "b")
  {
    var rows0, rows1 := [Row("b", Some("v"))], [Row("a", Some("x")), Row("c", Some("y"))];
    var metas := [Meta(0, "b", "b", 1), Meta(1, "a", "c", 2)];
    var files: map<nat, File> := map[0 := File(rows0, Some(metas[0])), 1 := File(rows1, Some(metas[1]))];
    assert Leq("a", "b") && Leq("b", "c") && Leq("a", "c");
    assert HandleOk(files, metas, 2, 0) && HandleOk(files, metas, 2, 1) && Older(metas, 0, 1);
    assert metas[0].id == 0 && metas[1].id == 1;
    assert HasHandle(metas, 0) && HasHandle(metas, 1);
    assert rows1[..1] == [Row("a", Some("x"))] && rows1[..1][..0] == [];
    assert RowsMap(rows1[..1]) == map["a" := Some("x")];
    assert RowsMap(rows1) == map["a" := Some("x"), "c" := Some("y")];
    assert RowsMap(rows0) == map["b" := Some("v")];
    assert MergedBelow(files, 1) == map[] + RowsMap(rows0);
    assert StopsAt(files, metas, 2, 1, "b");
  }
}

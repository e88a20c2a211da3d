/** The telemetry table of src/platform/storage.c: rows with increasing ids and an uploaded flag,
    statements atomic and able to fail. */
module Storage {
  import opened DeviceModel

  datatype Row = Row(id: nat, point: Telemetry, uploaded: bool)

  /** What a fetch hands back. */
  datatype FetchedRow = FetchedRow(id: nat, point: Telemetry)

  type Table = seq<Row>

  // ----- the statements -----

  /** INSERT: AUTOINCREMENT never reuses an id. The source id is not a column. */
  function Insert(t: Table, lastId: nat, point: Telemetry): Table
  {
    t + [Row(lastId + 1, point.(sourceId := 0), false)]
  }

  /** UPDATE ... SET uploaded=1 WHERE id=? */
  function Mark(t: Table, id: nat): (m: Table)
    ensures |m| == |t|
    ensures forall i :: 0 <= i < |t| ==> m[i] == if t[i].id == id then t[i].(uploaded := true) else t[i]
  {
    seq(|t|, i requires 0 <= i < |t| => if t[i].id == id then t[i].(uploaded := true) else t[i])
  }

  /** SELECT ... WHERE uploaded=0 ORDER BY id, on a table kept in id order. */
  function PendingRows(t: Table): Table
  {
    if t == [] then [] else (if t[0].uploaded then [] else [t[0]]) + PendingRows(t[1..])
  }

  function First(t: Table, n: nat): Table { if |t| <= n then t else t[..n] }

  /** The record rebuilt from a row: telemetry_init leaves the quality GOOD and the fetch never
      restores the stored one. */
  function Fetched(r: Row): FetchedRow
  {
    FetchedRow(r.id, r.point.(quality := Good, sourceId := 0))
  }

  /** The columns of the row, the quality set to GOOD, the source id to zero. */
  predicate RebuiltFrom(r: Telemetry, p: Telemetry)
  {
    && r.tsMs == p.tsMs && r.deviceId == p.deviceId && r.pointId == p.pointId
    && r.value == p.value && r.unit == p.unit && r.quality == Good && r.sourceId == 0
  }

  // ----- sorted tables -----

  ghost predicate Sorted(t: Table)
  {
    && (forall i :: 0 <= i < |t| ==> t[i].id >= 1)
    && forall i, j :: 0 <= i < j < |t| ==> t[i].id < t[j].id
  }

  ghost predicate Bounded(t: Table, lastId: nat)
  {
    forall i :: 0 <= i < |t| ==> t[i].id <= lastId
  }

  lemma {:induction false} PendingMembers(t: Table)
    ensures forall r :: r in PendingRows(t) <==> r in t && !r.uploaded
  {
    if t != [] {
      PendingMembers(t[1..]);
      assert t == [t[0]] + t[1..];
    }
  }

  lemma SortedCons(x: Row, p: Table)
    requires Sorted(p) && x.id >= 1 && forall r :: r in p ==> x.id < r.id
    ensures Sorted([x] + p)
  {
    forall i | 0 <= i < |p| ensures x.id < p[i].id {
      assert p[i] in p;
    }
  }

  lemma SortedTail(t: Table)
    requires Sorted(t) && t != []
    ensures Sorted(t[1..]) && t[0].id >= 1 && forall r :: r in t[1..] ==> t[0].id < r.id
  {
  }

  lemma {:induction false} PendingSorted(t: Table)
    requires Sorted(t)
    ensures Sorted(PendingRows(t))
  {
    if t != [] {
      SortedTail(t);
      PendingSorted(t[1..]);
      PendingMembers(t[1..]);
      if !t[0].uploaded {
        SortedCons(t[0], PendingRows(t[1..]));
      } else {
        assert PendingRows(t) == PendingRows(t[1..]);
      }
    }
  }

  lemma BelowInPrefix(p: Table, f: Table, j: nat, r: Row)
    requires Sorted(p) && j < |f| <= |p| && f == p[..|f|]
    requires r in p && r.id < f[j].id
    ensures r in f[..j]
  {
    var k :| 0 <= k < |p| && p[k] == r;
    assert f[j] == p[j];
    assert k < j;
    assert f[..j][k] == r;
  }

  /** A prefix of the pending rows is the lowest ids: a pending row below one of them is among
      the ones before it. */
  lemma PrefixIsLowest(t: Table, n: nat, j: nat, r: Row)
    requires Sorted(t) && j < |First(PendingRows(t), n)|
    requires r in t && !r.uploaded && r.id < First(PendingRows(t), n)[j].id
    ensures r in First(PendingRows(t), n)[..j]
  {
    PendingMembers(t);
    PendingSorted(t);
    BelowInPrefix(PendingRows(t), First(PendingRows(t), n), j, r);
  }

  lemma MarkKeepsOrder(t: Table, id: nat)
    requires Sorted(t)
    ensures Sorted(Mark(t, id))
  {
  }

  /** Marking a pending row removes exactly that row from the pending ones. */
  lemma {:induction false} MarkFirstPending(t: Table)
    requires Sorted(t) && PendingRows(t) != []
    ensures PendingRows(Mark(t, PendingRows(t)[0].id)) == PendingRows(t)[1..]
  {
    var id := PendingRows(t)[0].id;
    var m := Mark(t, id);
    if t[0].uploaded {
      assert m[1..] == Mark(t[1..], id);
      MarkFirstPending(t[1..]);
    } else {
      assert m[1..] == t[1..];
    }
  }

  // ----- the context -----

  class StorageContext {
    /** Whether a database is open (use_sqlite and db non-null); without one only the audit file
        is written. */
    const open: bool
    var rows: Table
    var lastId: nat

    constructor (open: bool)
      ensures Valid() && this.open == open && rows == [] && lastId == 0
    {
      this.open := open;
      rows, lastId := [], 0;
    }

    ghost predicate Valid()
      reads this
    {
      Sorted(rows) && Bounded(rows, lastId)
    }

    /** storage_append_telemetry; ok is whether the INSERT succeeds. */
    method Append(point: Telemetry, ok: bool) returns (rc: int, rowId: nat)
      requires Valid()
      modifies this
      ensures Valid()
      ensures !open ==> rc == 0 && rowId == 0 && rows == old(rows) && lastId == old(lastId)
      ensures open && !ok ==> rc == -1 && rowId == 0 && rows == old(rows) && lastId == old(lastId)
      ensures open && ok ==> rc == 0 && rowId == lastId == old(lastId) + 1
                             && rows == Insert(old(rows), old(lastId), point)
    {
      if !open {
        return 0, 0;
      }
      if !ok {
        return -1, 0;
      }
      rows := rows + [Row(lastId + 1, point.(sourceId := 0), false)];
      lastId := lastId + 1;
      return 0, lastId;
    }

    /** storage_fetch_pending_telemetry; prepared is whether the statement compiles, answers how
        many times sqlite3_step yields a row before it stops. */
    method FetchPending(out: array<FetchedRow>, max: nat, prepared: bool, answers: nat)
      returns (rc: int, count: nat)
      requires max <= out.Length
      modifies out
      ensures open && max > 0 && !prepared ==> rc == -1 && count == 0
      ensures open && max > 0 && prepared ==>
        var found := First(PendingRows(rows), if answers < max then answers else max);
        && rc == count == |found|
        && (forall i :: 0 <= i < count ==> out[i] == Fetched(found[i]))
        && forall i :: 0 <= i < count ==> out[i].id == found[i].id && RebuiltFrom(out[i].point, found[i].point)
      ensures !open || max == 0 ==> rc == count == 0
    {
      count := 0;
      if max == 0 || !open {
        return 0, 0;
      }
      if !prepared {
        return -1, 0;
      }
      var cursor := First(PendingRows(rows), max);
      while count < |cursor| && count < answers && count < max
        invariant count <= |cursor| && count <= answers && count <= max
        invariant forall i :: 0 <= i < count ==> out[i] == Fetched(cursor[i])
      {
        out[count] := Fetched(cursor[count]);
        count := count + 1;
      }
      rc := count;
    }

    /** storage_mark_telemetry_uploaded; ok is whether the UPDATE succeeds. */
    method MarkUploaded(rowId: nat, ok: bool) returns (rc: int)
      requires Valid()
      modifies this`rows
      ensures Valid()
      ensures rc == if rowId > 0 && open && ok then 0 else -1
      ensures rows == if rc == 0 then Mark(old(rows), rowId) else old(rows)
    {
      if rowId == 0 || !open {
        return -1;
      }
      if !ok {
        return -1;
      }
      rows := Mark(rows, rowId);
      return 0;
    }
  }
}

/** The log of replayed ids against the table and the snapshot being replayed: rows go out
    lowest first, so an id in the log is above all ids before it or repeats one of them. */
module ReplayLog {
  import opened Storage

  /** Rows keep their ids and points; flags only rise; new rows come last with new ids. */
  ghost predicate Grows(t: Table, lastId: nat, u: Table, newLast: nat)
  {
    && |t| <= |u| && lastId <= newLast
    && (forall k :: 0 <= k < |t| ==> u[k].id == t[k].id && u[k].point == t[k].point)
    && (forall k :: 0 <= k < |t| ==> t[k].uploaded ==> u[k].uploaded)
    && (forall k :: |t| <= k < |u| ==> u[k].id > lastId && !u[k].uploaded)
  }

  /** Every row below a replayed id was uploaded or replayed before it. */
  ghost predicate Covered(t: Table, log: seq<nat>, a: nat)
    requires a < |log|
  {
    forall k :: 0 <= k < |t| && t[k].id < log[a] ==> t[k].uploaded || t[k].id in log[..a]
  }

  /** Every row below a snapshot row is uploaded or before it in the snapshot. */
  ghost predicate Lowest(t: Table, rows: Table, j: nat)
    requires j < |rows|
  {
    forall k :: 0 <= k < |t| && t[k].id < rows[j].id ==> t[k].uploaded || IdIn(rows[..j], t[k].id)
  }

  ghost predicate IdIn(rows: Table, id: nat) { exists i :: 0 <= i < |rows| && rows[i].id == id }

  /** An id about to be replayed is above everything replayed so far, or a repetition. */
  ghost predicate InOrder(log: seq<nat>, id: nat)
  {
    forall a :: 0 <= a < |log| ==> log[a] < id || id in log[..a + 1]
  }

  /** The first next rows of the snapshot are in the log, the others are lowest and in order. */
  ghost predicate Ahead(t: Table, log: seq<nat>, rows: Table, next: nat)
  {
    && (forall j :: next <= j < |rows| ==> Lowest(t, rows, j))
    && (forall j :: next <= j < |rows| ==> InOrder(log, rows[j].id))
    && (forall i :: 0 <= i < next && i < |rows| ==> rows[i].id in log)
  }

  lemma CoveredStays(t: Table, lastId: nat, u: Table, newLast: nat, log: seq<nat>, a: nat)
    requires a < |log| && log[a] <= lastId && Grows(t, lastId, u, newLast) && Covered(t, log, a)
    ensures Covered(u, log, a)
  {
    forall k | 0 <= k < |u| && u[k].id < log[a] ensures u[k].uploaded || u[k].id in log[..a] {
      assert k < |t|;
      assert t[k].uploaded || t[k].id in log[..a];
    }
  }

  lemma LowestStays(t: Table, lastId: nat, u: Table, newLast: nat, rows: Table, j: nat)
    requires j < |rows| && rows[j].id <= lastId && Grows(t, lastId, u, newLast) && Lowest(t, rows, j)
    ensures Lowest(u, rows, j)
  {
    forall k | 0 <= k < |u| && u[k].id < rows[j].id ensures u[k].uploaded || IdIn(rows[..j], u[k].id) {
      assert k < |t|;
      assert t[k].uploaded || IdIn(rows[..j], t[k].id);
    }
  }

  lemma FetchedLowest(t: Table, n: nat, j: nat)
    requires Sorted(t) && j < |First(PendingRows(t), n)|
    ensures Lowest(t, First(PendingRows(t), n), j)
  {
    var rows := First(PendingRows(t), n);
    forall k | 0 <= k < |t| && t[k].id < rows[j].id && !t[k].uploaded ensures IdIn(rows[..j], t[k].id) {
      PrefixIsLowest(t, n, j, t[k]);
      var i :| 0 <= i < j && rows[..j][i] == t[k];
    }
  }

  lemma FetchedInOrder(t: Table, log: seq<nat>, r: Row)
    requires r in t && !r.uploaded
    requires forall a :: 0 <= a < |log| ==> Covered(t, log, a)
    ensures InOrder(log, r.id)
  {
    forall a | 0 <= a < |log| && log[a] >= r.id ensures r.id in log[..a + 1] {
      assert log[..a + 1][a] == log[a];
      if log[a] > r.id {
        var k :| 0 <= k < |t| && t[k] == r;
        assert Covered(t, log, a);
        assert t[k].id in log[..a];
        assert log[..a + 1][..a] == log[..a];
      }
    }
  }

  lemma InOrderNext(log: seq<nat>, x: nat, id: nat)
    requires InOrder(log, id) && x < id
    ensures InOrder(log + [x], id)
  {
    forall a | 0 <= a < |log + [x]| ensures (log + [x])[a] < id || id in (log + [x])[..a + 1] {
      if a < |log| {
        assert (log + [x])[..a + 1] == log[..a + 1];
      }
    }
  }

  lemma CoveredNext(t: Table, rows: Table, log: seq<nat>, at: nat)
    requires at < |rows| && Lowest(t, rows, at)
    requires forall i :: 0 <= i < at ==> rows[i].id in log
    ensures Covered(t, log + [rows[at].id], |log|)
  {
    var more := log + [rows[at].id];
    forall k | 0 <= k < |t| && t[k].id < rows[at].id && !t[k].uploaded ensures t[k].id in more[..|log|] {
      assert IdIn(rows[..at], t[k].id);
      var i :| 0 <= i < at && rows[..at][i].id == t[k].id;
      assert more[..|log|] == log;
    }
  }

  /** Order facts about a log concern its prefixes, so a longer log keeps them. */
  lemma OldOrderStays(t: Table, log: seq<nat>, more: seq<nat>, a: nat)
    requires a < |log| && log <= more && Covered(t, log, a) && InOrder(log[..a], log[a])
    ensures Covered(t, more, a) && InOrder(more[..a], more[a])
  {
    assert more[..a] == log[..a];
  }

  lemma LogNext(t: Table, rows: Table, log: seq<nat>, at: nat)
    requires at < |rows| && Lowest(t, rows, at) && InOrder(log, rows[at].id)
    requires forall i :: 0 <= i < at ==> rows[i].id in log
    requires forall a :: 0 <= a < |log| ==> Covered(t, log, a) && InOrder(log[..a], log[a])
    ensures var more := log + [rows[at].id];
      forall a :: 0 <= a < |more| ==> Covered(t, more, a) && InOrder(more[..a], more[a])
  {
    var more := log + [rows[at].id];
    CoveredNext(t, rows, log, at);
    assert more[..|log|] == log;
    forall a | 0 <= a < |log| ensures Covered(t, more, a) && InOrder(more[..a], more[a]) {
      OldOrderStays(t, log, more, a);
    }
  }

  lemma AheadNext(t: Table, log: seq<nat>, rows: Table, at: nat)
    requires at < |rows| && Sorted(rows) && Ahead(t, log, rows, at)
    ensures Ahead(t, log + [rows[at].id], rows, at + 1)
  {
    var more := log + [rows[at].id];
    forall j | at + 1 <= j < |rows| ensures InOrder(more, rows[j].id) {
      InOrderNext(log, rows[at].id, rows[j].id);
    }
    forall i | 0 <= i < at + 1 ensures rows[i].id in more {
      if i < at { assert rows[i].id in log; } else { assert more[|log|] == rows[at].id; }
    }
  }
}

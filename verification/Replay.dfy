/** One call of mqtt_session_replay_pending that no worker step interrupts, and what repeated
    calls achieve. Delivery has the interleaved version; RoundIsRun ties the two together. */
module Replay {
  import opened DeviceModel
  import opened MqttCodec
  import opened MqttLink
  import opened Storage
  import opened Delivery

  /** What happens to one row: the kernel's answers to its write, and whether its mark succeeds. */
  datatype Try = Try(replies: seq<Reply>, mark: bool)

  const EMPTY: Telemetry := Telemetry(0, "", "", 0.0, "", Good, 0)

  datatype Outcome = Outcome(link: Link, table: Table, published: seq<nat>, marked: nat)

  /** The loop over the fetched rows, marked counting the successes so far. */
  function Loop(setup: Setup, l: Link, t: Table, rows: Table, tries: seq<Try>, marked: nat): Outcome
    requires Usable(l) && |tries| == |rows|
    decreases |rows|
  {
    if rows == [] then Outcome(l, t, [], marked)
    else
      var (m, ok) := Send(l, Message(setup, Fetched(rows[0]).point), tries[0].replies);
      if !ok then Outcome(Shutdown(m), t, [], marked)
      else
        var done := tries[0].mark && rows[0].id > 0;
        var rest := Loop(setup, m, if done then Mark(t, rows[0].id) else t, rows[1..], tries[1..],
                         if done then marked + 1 else marked);
        rest.(published := [rows[0].id] + rest.published)
  }

  /** The whole call; open is whether there is a database. */
  function Round(setup: Setup, open: bool, l: Link, t: Table, answers: nat, opening: Opening, tries: seq<Try>): Outcome
    requires LinkShape(l) && |tries| == 64
  {
    var rows := Fetchable(setup, open, t, answers);
    var (m, up) := Ensure(l, setup.who, opening);
    if !up then Outcome(m, t, [], 0) else Loop(setup, m, t, rows, tries[..|rows|], 0)
  }

  // ----- an uninterrupted round is a run of the interleaved machine -----

  function LoopSteps(setup: Setup, l: Link, rows: Table, tries: seq<Try>): seq<Step>
    requires Usable(l) && |tries| == |rows|
    decreases |rows|
  {
    if rows == [] then []
    else
      var (m, ok) := Send(l, Message(setup, Fetched(rows[0]).point), tries[0].replies);
      if !ok then [ReplaySend(tries[0].replies)]
      else [ReplaySend(tries[0].replies), ReplayMark(tries[0].mark)] + LoopSteps(setup, m, rows[1..], tries[1..])
  }

  function RoundSteps(setup: Setup, l: Link, t: Table, answers: nat, opening: Opening, tries: seq<Try>): seq<Step>
    requires LinkShape(l) && |tries| == 64
  {
    var rows := Fetchable(setup, setup.sqlite, t, answers);
    var (m, up) := Ensure(l, setup.who, opening);
    [FetchRows(answers), TakeLock(opening)] + if up then LoopSteps(setup, m, rows, tries[..|rows|]) else []
  }

  lemma RunTwo(setup: Setup, s: State, a: Step, b: Step, rest: seq<Step>)
    requires Enabled(s, a) && Enabled(Next(setup, s, a), b)
    requires CanRun(setup, Next(setup, Next(setup, s, a), b), rest)
    ensures CanRun(setup, s, [a, b] + rest)
    ensures Run(setup, s, [a, b] + rest) == Run(setup, Next(setup, Next(setup, s, a), b), rest)
  {
    assert ([a, b] + rest)[1..] == [b] + rest;
    assert ([b] + rest)[1..] == rest;
  }

  /** Where the monitor stands with the first at rows of the snapshot dealt with. */
  function At(rows: Table, at: nat): Monitor
  {
    if at < |rows| then Ready(rows, at) else Resting
  }

  /** Running the steps from s ends where the outcome says, with the worker untouched. */
  ghost predicate Agrees(setup: Setup, s: State, steps: seq<Step>, r: Outcome)
  {
    CanRun(setup, s, steps) && Ends(s, Run(setup, s, steps), r)
  }

  /** e is s after the outcome r. */
  ghost predicate Ends(s: State, e: State, r: Outcome)
  {
    && e.table == r.table && e.link == r.link && e.replayed == s.replayed + r.published
    && e.monitor == Resting && e.worker == s.worker && e.live == s.live && e.lastId == s.lastId
  }

  lemma EndsAfter(s: State, s2: State, e: State, r: Outcome, id: nat)
    requires Ends(s2, e, r) && s2.replayed == s.replayed + [id]
    requires s2.worker == s.worker && s2.live == s.live && s2.lastId == s.lastId
    ensures Ends(s, e, r.(published := [id] + r.published))
  {
    assert s.replayed + ([id] + r.published) == s.replayed + [id] + r.published;
  }

  lemma AgreesAfterTwo(setup: Setup, s: State, a: Step, b: Step, rest: seq<Step>, r: Outcome, id: nat)
    requires Enabled(s, a) && Enabled(Next(setup, s, a), b)
    requires var s2 := Next(setup, Next(setup, s, a), b);
      && Agrees(setup, s2, rest, r) && s2.replayed == s.replayed + [id]
      && s2.worker == s.worker && s2.live == s.live && s2.lastId == s.lastId
    ensures Agrees(setup, s, [a, b] + rest, r.(published := [id] + r.published))
  {
    var s2 := Next(setup, Next(setup, s, a), b);
    RunTwo(setup, s, a, b, rest);
    EndsAfter(s, s2, Run(setup, s2, rest), r, id);
  }

  lemma AgreesAfterFailure(setup: Setup, s: State, replies: seq<Reply>, r: Outcome)
    requires Enabled(s, ReplaySend(replies)) && r.published == []
    requires var s1 := Next(setup, s, ReplaySend(replies));
      s1.monitor == Resting && s1.table == r.table && s1.link == r.link && s1.replayed == s.replayed
    ensures Agrees(setup, s, [ReplaySend(replies)], r)
  {
    assert [ReplaySend(replies)][1..] == [];
  }

  /** One row written and marked. */
  lemma TwoSteps(setup: Setup, s: State, rows: Table, at: nat, first: Try)
    requires Usable(s.link) && at < |rows| && s.monitor == Ready(rows, at) && rows[at].id > 0
    requires Send(s.link, Message(setup, Fetched(rows[at]).point), first.replies).1
    ensures Enabled(s, ReplaySend(first.replies))
    ensures Enabled(Next(setup, s, ReplaySend(first.replies)), ReplayMark(first.mark))
    ensures var s2 := Next(setup, Next(setup, s, ReplaySend(first.replies)), ReplayMark(first.mark));
      && s2.monitor == At(rows, at + 1) && s2.replayed == s.replayed + [rows[at].id]
      && s2.link == Send(s.link, Message(setup, Fetched(rows[at]).point), first.replies).0
      && s2.table == (if first.mark then Mark(s.table, rows[at].id) else s.table)
      && s2.worker == s.worker && s2.live == s.live && s2.lastId == s.lastId
  {
  }

  lemma {:induction false} LoopIsRun(setup: Setup, s: State, rows: Table, at: nat, tries: seq<Try>, marked: nat)
    requires Usable(s.link) && Sorted(rows) && at <= |rows| && |tries| == |rows| - at
    requires s.monitor == At(rows, at)
    ensures Agrees(setup, s, LoopSteps(setup, s.link, rows[at..], tries),
                   Loop(setup, s.link, s.table, rows[at..], tries, marked))
    decreases |rows| - at
  {
    if at < |rows| {
      var row, first, more := rows[at], tries[0], rows[at + 1..];
      assert rows[at..][0] == row && rows[at..][1..] == more;
      var (m, ok) := Send(s.link, Message(setup, Fetched(row).point), first.replies);
      if ok {
        TwoSteps(setup, s, rows, at, first);
        var s2 := Next(setup, Next(setup, s, ReplaySend(first.replies)), ReplayMark(first.mark));
        var marked2 := if first.mark then marked + 1 else marked;
        LoopIsRun(setup, s2, rows, at + 1, tries[1..], marked2);
        AgreesAfterTwo(setup, s, ReplaySend(first.replies), ReplayMark(first.mark),
                       LoopSteps(setup, m, more, tries[1..]),
                       Loop(setup, m, s2.table, more, tries[1..], marked2), row.id);
      } else {
        AgreesAfterFailure(setup, s, first.replies, Loop(setup, s.link, s.table, rows[at..], tries, marked));
      }
    }
  }

  /** The call is one of the runs that Delivery quantifies over. */
  lemma RoundIsRun(setup: Setup, s: State, answers: nat, opening: Opening, tries: seq<Try>)
    requires TableInv(s) && LinkShape(s.link) && s.monitor.Resting? && |tries| == 64
    ensures Agrees(setup, s, RoundSteps(setup, s.link, s.table, answers, opening, tries),
                   Round(setup, setup.sqlite, s.link, s.table, answers, opening, tries))
  {
    var rows := Fetchable(setup, setup.sqlite, s.table, answers);
    PendingSorted(s.table);
    var s1 := Next(setup, s, FetchRows(answers));
    var s2 := Next(setup, s1, TakeLock(opening));
    var (m, up) := Ensure(s.link, setup.who, opening);
    if up {
      LoopIsRun(setup, s2, rows, 0, tries[..|rows|], 0);
      assert rows[0..] == rows;
      RunTwo(setup, s, FetchRows(answers), TakeLock(opening), LoopSteps(setup, m, rows, tries[..|rows|]));
    } else {
      RunTwo(setup, s, FetchRows(answers), TakeLock(opening), []);
    }
  }

  // ----- what a round achieves -----

  function Ids(rows: Table): seq<nat> { seq(|rows|, i requires 0 <= i < |rows| => rows[i].id) }

  /** Marking a pending row lowers the number of pending rows by one. */
  lemma {:induction false} MarkCounts(t: Table, k: nat)
    requires Sorted(t) && k < |t| && !t[k].uploaded
    ensures |PendingRows(Mark(t, t[k].id))| == |PendingRows(t)| - 1
  {
    var u := Mark(t, t[k].id);
    if k == 0 {
      assert u[1..] == t[1..];
    } else {
      assert u[1..] == Mark(t[1..], t[k].id);
      MarkCounts(t[1..], k - 1);
    }
  }

  lemma MarkMembers(t: Table, id: nat)
    ensures forall r :: r in Mark(t, id) && !r.uploaded <==> r in t && !r.uploaded && r.id != id
  {
    forall r | r in t && !r.uploaded && r.id != id ensures r in Mark(t, id) {
      var k :| 0 <= k < |t| && t[k] == r;
      assert Mark(t, id)[k] == r;
    }
  }

  lemma MarkOnePending(t: Table, r: Row)
    requires Sorted(t) && r in PendingRows(t)
    ensures |PendingRows(Mark(t, r.id))| == |PendingRows(t)| - 1
    ensures forall q :: q in PendingRows(Mark(t, r.id)) <==> q in PendingRows(t) && q.id != r.id
  {
    PendingMembers(t);
    PendingMembers(Mark(t, r.id));
    MarkMembers(t, r.id);
    var k :| 0 <= k < |t| && t[k] == r;
    MarkCounts(t, k);
  }

  ghost predicate AmongPending(t: Table, rows: Table) { forall r :: r in rows ==> r in PendingRows(t) }

  /** Marking the first fetched row leaves the others pending. */
  lemma RestStaysPending(t: Table, rows: Table)
    requires Sorted(t) && Sorted(rows) && rows != [] && AmongPending(t, rows)
    ensures var u := Mark(t, rows[0].id);
      && Sorted(u) && |PendingRows(u)| == |PendingRows(t)| - 1
      && Sorted(rows[1..]) && AmongPending(u, rows[1..]) && AmongPending(t, rows[1..])
  {
    SortedTail(rows);
    assert rows[0] in rows;
    MarkOnePending(t, rows[0]);
    MarkKeepsOrder(t, rows[0].id);
    forall r | r in rows[1..] ensures r in PendingRows(t) && r.id != rows[0].id {
      assert r in rows;
    }
  }

  lemma {:induction false} LoopCountsMarks(setup: Setup, l: Link, t: Table, rows: Table, tries: seq<Try>, marked: nat)
    requires Usable(l) && |tries| == |rows| && Sorted(t) && Sorted(rows) && AmongPending(t, rows)
    ensures var r := Loop(setup, l, t, rows, tries, marked);
      |PendingRows(t)| - |PendingRows(r.table)| == r.marked - marked <= |rows|
    decreases |rows|
  {
    if rows != [] {
      var (m, ok) := Send(l, Message(setup, Fetched(rows[0]).point), tries[0].replies);
      if ok {
        RestStaysPending(t, rows);
        var u, marked2 := t, marked;
        if tries[0].mark {
          u, marked2 := Mark(t, rows[0].id), marked + 1;
        }
        LoopCountsMarks(setup, m, u, rows[1..], tries[1..], marked2);
      }
    }
  }

  lemma FetchedArePending(t: Table, n: nat)
    requires Sorted(t)
    ensures Sorted(First(PendingRows(t), n)) && AmongPending(t, First(PendingRows(t), n))
  {
    PendingSorted(t);
  }

  /** The value the call returns is exactly by how much it lowered the number of pending rows,
      whatever failed along the way. */
  lemma ReturnValueIsProgress(setup: Setup, open: bool, l: Link, t: Table, answers: nat, opening: Opening,
                              tries: seq<Try>)
    requires LinkShape(l) && |tries| == 64 && Sorted(t)
    ensures var r := Round(setup, open, l, t, answers, opening, tries);
      r.marked == |PendingRows(t)| - |PendingRows(r.table)| <= Batch(setup.replayBatch)
  {
    var rows := Fetchable(setup, open, t, answers);
    FetchedArePending(t, FetchLimit(setup, answers));
    var (m, up) := Ensure(l, setup.who, opening);
    if up { LoopCountsMarks(setup, m, t, rows, tries[..|rows|], 0); }
  }

  /** The first of the pending rows is dealt with; the others move up. */
  lemma MarkHead(t: Table, rows: Table)
    requires Sorted(t) && rows != [] && |rows| <= |PendingRows(t)| && rows == PendingRows(t)[..|rows|]
    ensures var u := Mark(t, rows[0].id);
      && Sorted(u) && |rows[1..]| <= |PendingRows(u)| == |PendingRows(t)| - 1
      && rows[1..] == PendingRows(u)[..|rows[1..]|]
      && PendingRows(u)[|rows[1..]|..] == PendingRows(t)[|rows|..]
    ensures rows[0].id > 0
  {
    PendingSorted(t);
    assert rows[0] == PendingRows(t)[0];
    MarkFirstPending(t);
    MarkKeepsOrder(t, rows[0].id);
  }

  /** A loop that marks as many rows as it was given marked each of them. */
  lemma FullLoopHead(setup: Setup, l: Link, t: Table, rows: Table, tries: seq<Try>, marked: nat)
    requires Usable(l) && |tries| == |rows| && rows != []
    requires Loop(setup, l, t, rows, tries, marked).marked == marked + |rows|
    ensures Send(l, Message(setup, Fetched(rows[0]).point), tries[0].replies).1
    ensures tries[0].mark && rows[0].id > 0
  {
    var (m, ok) := Send(l, Message(setup, Fetched(rows[0]).point), tries[0].replies);
    if ok && !(tries[0].mark && rows[0].id > 0) {
      LoopMarksAtMost(setup, m, t, rows[1..], tries[1..], marked);
    }
  }

  lemma IdsCons(rows: Table)
    requires rows != []
    ensures Ids(rows) == [rows[0].id] + Ids(rows[1..])
  {
  }

  /** If every fetched row was written and marked, exactly the lowest pending ids were published,
      in order, and they are no longer pending. */
  lemma {:induction false} FullLoop(setup: Setup, l: Link, t: Table, rows: Table, tries: seq<Try>, marked: nat)
    requires Usable(l) && |tries| == |rows| && Sorted(t)
    requires |rows| <= |PendingRows(t)| && rows == PendingRows(t)[..|rows|]
    requires Loop(setup, l, t, rows, tries, marked).marked == marked + |rows|
    ensures var r := Loop(setup, l, t, rows, tries, marked);
      && r.published == Ids(rows)
      && PendingRows(r.table) == PendingRows(t)[|rows|..]
      && Sorted(r.table)
    decreases |rows|
  {
    if rows != [] {
      FullLoopHead(setup, l, t, rows, tries, marked);
      MarkHead(t, rows);
      var m := Send(l, Message(setup, Fetched(rows[0]).point), tries[0].replies).0;
      FullLoop(setup, m, Mark(t, rows[0].id), rows[1..], tries[1..], marked + 1);
      IdsCons(rows);
    }
  }

  lemma {:induction false} LoopMarksAtMost(setup: Setup, l: Link, t: Table, rows: Table, tries: seq<Try>, marked: nat)
    requires Usable(l) && |tries| == |rows|
    ensures marked <= Loop(setup, l, t, rows, tries, marked).marked <= marked + |rows|
    decreases |rows|
  {
    if rows != [] {
      var (m, ok) := Send(l, Message(setup, Fetched(rows[0]).point), tries[0].replies);
      if ok {
        var done := tries[0].mark && rows[0].id > 0;
        LoopMarksAtMost(setup, m, if done then Mark(t, rows[0].id) else t, rows[1..], tries[1..],
                        if done then marked + 1 else marked);
      }
    }
  }

  /** A round's scripted surroundings. */
  datatype Script = Script(opening: Opening, tries: seq<Try>)

  ghost predicate Complete(scripts: seq<Script>) { forall i :: 0 <= i < |scripts| ==> |scripts[i].tries| == 64 }

  /** One outcome after another. */
  function Then(r: Outcome, rest: Outcome): Outcome
  {
    Outcome(rest.link, rest.table, r.published + rest.published, r.marked + rest.marked)
  }

  /** One round after the other, the fetch never cut short, with no new rows in between. */
  ghost function Repeat(setup: Setup, l: Link, t: Table, scripts: seq<Script>): Outcome
    requires LinkShape(l) && Complete(scripts)
    decreases |scripts|
  {
    if scripts == [] then Outcome(l, t, [], 0)
    else
      var r := FullyFetched(setup, l, t, scripts[0]);
      Then(r, Repeat(setup, r.link, r.table, scripts[1..]))
  }

  lemma {:induction false} LoopShape(setup: Setup, l: Link, t: Table, rows: Table, tries: seq<Try>, marked: nat)
    requires Usable(l) && |tries| == |rows|
    ensures LinkShape(Loop(setup, l, t, rows, tries, marked).link)
    decreases |rows|
  {
    if rows != [] {
      var (m, ok) := Send(l, Message(setup, Fetched(rows[0]).point), tries[0].replies);
      if ok {
        var done := tries[0].mark && rows[0].id > 0;
        LoopShape(setup, m, if done then Mark(t, rows[0].id) else t, rows[1..], tries[1..],
                  if done then marked + 1 else marked);
      }
    }
  }

  /** A round whose fetch gets every row it asks for. */
  ghost function FullyFetched(setup: Setup, l: Link, t: Table, script: Script): (r: Outcome)
    requires LinkShape(l) && |script.tries| == 64
    ensures LinkShape(r.link)
  {
    var rows := First(PendingRows(t), Batch(setup.replayBatch));
    var (m, up) := Ensure(l, setup.who, script.opening);
    if up then LoopShape(setup, m, t, rows, script.tries[..|rows|], 0);
      Round(setup, true, l, t, 64, script.opening, script.tries)
    else Round(setup, true, l, t, 64, script.opening, script.tries)
  }

  function Min(a: nat, b: nat): nat { if a <= b then a else b }

  /** The round wrote and marked all there was to fetch. */
  ghost predicate Full(setup: Setup, t: Table, r: Outcome)
  {
    r.marked == Min(Batch(setup.replayBatch), |PendingRows(t)|)
  }

  ghost predicate AllFull(setup: Setup, l: Link, t: Table, scripts: seq<Script>)
    requires LinkShape(l) && Complete(scripts)
    decreases |scripts|
  {
    scripts != [] ==>
      var r := FullyFetched(setup, l, t, scripts[0]);
      Full(setup, t, r) && AllFull(setup, r.link, r.table, scripts[1..])
  }

  /** Exactly the first n pending rows were published, in order, and are pending no more. */
  ghost predicate Drained(t: Table, r: Outcome, n: nat)
  {
    && n <= |PendingRows(t)| && Sorted(r.table)
    && r.published == Ids(PendingRows(t)[..n])
    && PendingRows(r.table) == PendingRows(t)[n..]
  }

  /** A full round publishes the min(batch, pending) lowest pending ids. */
  lemma FullRound(setup: Setup, l: Link, t: Table, script: Script)
    requires LinkShape(l) && |script.tries| == 64 && Sorted(t)
    requires Full(setup, t, FullyFetched(setup, l, t, script))
    ensures Drained(t, FullyFetched(setup, l, t, script), Min(Batch(setup.replayBatch), |PendingRows(t)|))
  {
    var rows := First(PendingRows(t), Batch(setup.replayBatch));
    var n := Min(Batch(setup.replayBatch), |PendingRows(t)|);
    assert rows == PendingRows(t)[..n];
    var (m, up) := Ensure(l, setup.who, script.opening);
    if up {
      FullLoop(setup, m, t, rows, script.tries[..|rows|], 0);
    } else {
      assert PendingRows(t)[0..] == PendingRows(t);
    }
  }

  lemma Chunks(p: Table, n: nat, k: nat)
    requires n + k <= |p|
    ensures p[n..][k..] == p[n + k..]
    ensures Ids(p[..n]) + Ids(p[n..][..k]) == Ids(p[..n + k])
  {
  }

  /** How many of p pending rows k rounds of b rows get through. */
  function Through(k: nat, b: nat, p: nat): (n: nat)
    ensures n <= p
    decreases k
  {
    if k == 0 then 0 else Min(b, p) + Through(k - 1, b, p - Min(b, p))
  }

  lemma {:induction false} ThroughIsMin(k: nat, b: nat, p: nat)
    ensures Through(k, b, p) == Min(k * b, p)
    decreases k
  {
    if k > 0 {
      ThroughIsMin(k - 1, b, p - Min(b, p));
      assert k * b == (k - 1) * b + b;
    }
  }

  lemma DrainedNone(l: Link, t: Table)
    requires Sorted(t)
    ensures Drained(t, Outcome(l, t, [], 0), 0)
  {
    assert PendingRows(t)[0..] == PendingRows(t);
  }

  lemma DrainedThen(t: Table, r: Outcome, n: nat, rest: Outcome, k: nat)
    requires Drained(t, r, n) && Drained(r.table, rest, k)
    ensures Drained(t, Then(r, rest), n + k)
  {
    Chunks(PendingRows(t), n, k);
  }

  lemma RepeatNext(setup: Setup, l: Link, t: Table, scripts: seq<Script>)
    requires LinkShape(l) && Complete(scripts) && scripts != []
    ensures Complete(scripts[1..])
    ensures var r := FullyFetched(setup, l, t, scripts[0]);
      Repeat(setup, l, t, scripts) == Then(r, Repeat(setup, r.link, r.table, scripts[1..]))
  {
  }

  lemma DrainedNext(t: Table, r: Outcome, rest: Outcome, all: Outcome, b: nat, k: nat)
    requires k > 0 && all == Then(r, rest)
    requires Drained(t, r, Min(b, |PendingRows(t)|))
    requires Drained(r.table, rest, Through(k - 1, b, |PendingRows(r.table)|))
    ensures Drained(t, all, Through(k, b, |PendingRows(t)|))
  {
    var p := |PendingRows(t)|;
    DrainedThen(t, r, Min(b, p), rest, Through(k - 1, b, |PendingRows(r.table)|));
  }

  lemma {:induction false} DrainedAfter(setup: Setup, l: Link, t: Table, scripts: seq<Script>, all: Outcome, k: nat)
    requires LinkShape(l) && Complete(scripts) && Sorted(t) && AllFull(setup, l, t, scripts)
    requires all == Repeat(setup, l, t, scripts) && k == |scripts|
    ensures Drained(t, all, Through(k, Batch(setup.replayBatch), |PendingRows(t)|))
    decreases |scripts|
  {
    if scripts == [] {
      DrainedNone(l, t);
    } else {
      var r := FullyFetched(setup, l, t, scripts[0]);
      RepeatNext(setup, l, t, scripts);
      FullRound(setup, l, t, scripts[0]);
      var rest := Repeat(setup, r.link, r.table, scripts[1..]);
      DrainedAfter(setup, r.link, r.table, scripts[1..], rest, k - 1);
      DrainedNext(t, r, rest, all, Batch(setup.replayBatch), k);
    }
  }

  /** How many rows k rounds can hold. */
  function Capacity(setup: Setup, k: nat): nat { k * Batch(setup.replayBatch) }

  /** The backlog drains: after k full rounds exactly the first k * batch pending ids (or all of
      them) have been published, in id order, and the rest are pending; so ceil(pending / batch)
      rounds empty it and no fewer do. */
  lemma BacklogDrains(setup: Setup, l: Link, t: Table, scripts: seq<Script>)
    requires LinkShape(l) && Complete(scripts) && Sorted(t) && AllFull(setup, l, t, scripts)
    ensures var r := Repeat(setup, l, t, scripts);
      && Drained(t, r, Min(Capacity(setup, |scripts|), |PendingRows(t)|))
      && (PendingRows(r.table) == [] <==> |PendingRows(t)| <= Capacity(setup, |scripts|))
  {
    DrainedAfter(setup, l, t, scripts, Repeat(setup, l, t, scripts), |scripts|);
    ThroughIsMin(|scripts|, Batch(setup.replayBatch), |PendingRows(t)|);
  }

  // ----- a healthy broker and database make every round full -----

  /** The kernel takes at least as many bytes as the largest buffer holds. */
  predicate Completes(replies: seq<Reply>) { Accepted(replies) >= 1024 }

  /** The broker accepts connections and takes every write, every mark succeeds. */
  ghost predicate Healthy(script: Script)
  {
    && script.opening.tcp && script.opening.connack && Completes(script.opening.writes)
    && forall i :: 0 <= i < |script.tries| ==> script.tries[i].mark && Completes(script.tries[i].replies)
  }

  lemma CompletesSends(l: Link, p: Packet, replies: seq<Reply>)
    requires Usable(l) && Fits(p) && Completes(replies)
    ensures Send(l, p, replies).1
  {
    SendAddsAccepted(l, p, replies);
    assert |Encode(p)| <= 1024;
  }

  lemma HealthyEnsures(setup: Setup, l: Link, opening: Opening)
    requires LinkShape(l) && |setup.who.clientId| <= 63
    requires opening.tcp && opening.connack && Completes(opening.writes)
    ensures Ensure(l, setup.who, opening).1
  {
    ConfiguredPacketsFit([], [], setup.who.clientId, setup.who.keepalive);
    if !(l.connected && l.fd >= 0) {
      CompletesSends(Open(Shutdown(l)), Connect(setup.who.clientId, setup.who.keepalive % 0x1_0000), opening.writes);
    }
  }

  lemma {:induction false} HealthyLoop(setup: Setup, l: Link, t: Table, rows: Table, tries: seq<Try>, marked: nat)
    requires Usable(l) && |tries| == |rows| && |setup.topic| <= 127 && Sorted(rows)
    requires forall i :: 0 <= i < |tries| ==> tries[i].mark && Completes(tries[i].replies)
    ensures Loop(setup, l, t, rows, tries, marked).marked == marked + |rows|
    decreases |rows|
  {
    if rows != [] {
      var p := Fetched(rows[0]).point;
      MessageFits(setup, p);
      CompletesSends(l, Message(setup, p), tries[0].replies);
      HealthyLoop(setup, Send(l, Message(setup, p), tries[0].replies).0, Mark(t, rows[0].id), rows[1..], tries[1..],
                  marked + 1);
    }
  }

  lemma HealthyRound(setup: Setup, l: Link, t: Table, script: Script)
    requires LinkShape(l) && |script.tries| == 64 && Sorted(t) && Healthy(script)
    requires |setup.who.clientId| <= 63 && |setup.topic| <= 127
    ensures Full(setup, t, FullyFetched(setup, l, t, script))
  {
    var rows := First(PendingRows(t), Batch(setup.replayBatch));
    FetchedArePending(t, Batch(setup.replayBatch));
    HealthyEnsures(setup, l, script.opening);
    HealthyLoop(setup, Ensure(l, setup.who, script.opening).0, t, rows, script.tries[..|rows|], 0);
  }

  lemma {:induction false} HealthyIsFull(setup: Setup, l: Link, t: Table, scripts: seq<Script>)
    requires LinkShape(l) && Complete(scripts) && Sorted(t)
    requires |setup.who.clientId| <= 63 && |setup.topic| <= 127
    requires forall i :: 0 <= i < |scripts| ==> Healthy(scripts[i])
    ensures AllFull(setup, l, t, scripts)
    decreases |scripts|
  {
    if scripts != [] {
      var r := FullyFetched(setup, l, t, scripts[0]);
      HealthyRound(setup, l, t, scripts[0]);
      FullRound(setup, l, t, scripts[0]);
      HealthyIsFull(setup, r.link, r.table, scripts[1..]);
    }
  }

  /** With a reachable broker, a working database and names of configured length, any number of
      rounds from ceil(pending / batch) on leaves nothing pending, every pending id published
      once and in order; from any state of the connection. */
  lemma HealthyBacklogDrains(setup: Setup, l: Link, t: Table, scripts: seq<Script>)
    requires LinkShape(l) && Complete(scripts) && Sorted(t)
    requires |setup.who.clientId| <= 63 && |setup.topic| <= 127
    requires forall i :: 0 <= i < |scripts| ==> Healthy(scripts[i])
    ensures var r := Repeat(setup, l, t, scripts);
      && (PendingRows(r.table) == [] <==> |PendingRows(t)| <= Capacity(setup, |scripts|))
      && (PendingRows(r.table) == [] ==> r.published == Ids(PendingRows(t)))
  {
    HealthyIsFull(setup, l, t, scripts);
    BacklogDrains(setup, l, t, scripts);
    var p := PendingRows(t);
    assert p[..|p|] == p;
  }

  /** What one healthy round does, by the configured batch size: it publishes, marks and returns the
      lowest pending ids, up to that many from 1 to 64, up to 50 for 0, up to 64 above that. */
  lemma HealthyRoundByConfiguration(setup: Setup, l: Link, t: Table, script: Script)
    requires LinkShape(l) && |script.tries| == 64 && Sorted(t) && Healthy(script)
    requires |setup.who.clientId| <= 63 && |setup.topic| <= 127
    ensures var r := FullyFetched(setup, l, t, script);
      var c, p := setup.replayBatch, PendingRows(t);
      && (1 <= c <= 64 ==> Drained(t, r, Min(c, |p|)) && r.marked == Min(c, |p|))
      && (c == 0 ==> Drained(t, r, Min(50, |p|)) && r.marked == Min(50, |p|))
      && (c > 64 ==> Drained(t, r, Min(64, |p|)) && r.marked == Min(64, |p|))
  {
    HealthyRound(setup, l, t, script);
    FullRound(setup, l, t, script);
  }

  /** And how many healthy rounds it takes to empty the backlog. */
  lemma HealthyRoundsByConfiguration(setup: Setup, l: Link, t: Table, scripts: seq<Script>)
    requires LinkShape(l) && Complete(scripts) && Sorted(t)
    requires |setup.who.clientId| <= 63 && |setup.topic| <= 127
    requires forall i :: 0 <= i < |scripts| ==> Healthy(scripts[i])
    ensures var left := PendingRows(Repeat(setup, l, t, scripts).table);
      var c, p, k := setup.replayBatch, |PendingRows(t)|, |scripts|;
      && (1 <= c <= 64 ==> (left == [] <==> p <= k * c))
      && (c == 0 ==> (left == [] <==> p <= k * 50))
      && (c > 64 ==> (left == [] <==> p <= k * 64))
  {
    HealthyBacklogDrains(setup, l, t, scripts);
  }
}

/** The outbox table and the relay that drains it to the broker. */
module Outbox {
  import opened Domain

  datatype Row = Row(id: nat, env: Envelope)

  /** Ids are assigned in commit order, so the table is kept in id order. */
  ghost predicate Ordered(rows: seq<Row>, next: nat) {
    && (forall i, j :: 0 <= i < j < |rows| ==> rows[i].id < rows[j].id)
    && (forall i :: 0 <= i < |rows| ==> rows[i].id < next)
  }

  /** Rows appended by one transaction. */
  function Insert(rows: seq<Row>, next: nat, envs: seq<Envelope>): (r: seq<Row>)
    ensures |r| == |rows| + |envs|
    ensures r[..|rows|] == rows
    ensures forall i :: 0 <= i < |envs| ==> r[|rows| + i] == Row(next + i, envs[i])
    ensures Ordered(rows, next) ==> Ordered(r, next + |envs|)
  {
    rows + seq(|envs|, i requires 0 <= i < |envs| => Row(next + i, envs[i]))
  }

  lemma InsertNone(rows: seq<Row>, next: nat)
    ensures Insert(rows, next, []) == rows
  {
    assert rows + [] == rows;
  }

  lemma NewIdsKnown(rows: seq<Row>, next: nat, envs: seq<Envelope>, id: nat)
    requires id < next + |envs|
    ensures id in Ids(rows) || id >= next ==> id in Ids(Insert(rows, next, envs))
  {
    var r := Insert(rows, next, envs);
    if id >= next { assert r[|rows| + (id - next)].id == id; }
    if id in Ids(rows) {
      var i :| 0 <= i < |rows| && rows[i].id == id;
      assert r[..|rows|][i] == rows[i];
    }
  }

  /** The table without the row of the given id. */
  function Without(rows: seq<Row>, id: nat): (r: seq<Row>)
    ensures forall x :: x in r <==> x in rows && x.id != id
    ensures |r| <= |rows|
    ensures (exists x :: x in rows && x.id == id) ==> |r| < |rows|
  {
    if rows == [] then []
    else if rows[0].id == id then Without(rows[1..], id)
    else [rows[0]] + Without(rows[1..], id)
  }

  lemma {:induction false} NoneWithout(rows: seq<Row>, id: nat)
    requires forall x :: x in rows ==> x.id != id
    ensures Without(rows, id) == rows
  {
    if rows != [] { NoneWithout(rows[1..], id); }
  }

  lemma {:induction false} WithoutMiddle(before: seq<Row>, row: Row, after: seq<Row>)
    requires forall x :: x in before ==> x.id != row.id
    requires forall x :: x in after ==> x.id != row.id
    ensures Without(before + [row] + after, row.id) == before + after
  {
    var all := before + [row] + after;
    if before == [] {
      assert all[0] == row && all[1..] == after && [] + after == after;
      NoneWithout(after, row.id);
    } else {
      assert before[0] in before && forall x :: x in before[1..] ==> x in before;
      WithoutMiddle(before[1..], row, after);
      MiddleSplits(before, row, after);
    }
  }

  lemma MiddleSplits(before: seq<Row>, row: Row, after: seq<Row>)
    requires before != []
    ensures (before + [row] + after)[0] == before[0]
    ensures (before + [row] + after)[1..] == before[1..] + [row] + after
    ensures [before[0]] + (before[1..] + after) == before + after
  {
  }

  lemma OrderedWithout(before: seq<Row>, row: Row, after: seq<Row>, next: nat)
    requires Ordered(before + [row] + after, next)
    ensures Ordered(before + after, next)
    ensures forall x :: x in before ==> x.id < row.id
    ensures forall x :: x in after ==> row.id < x.id
  {
    var all, r := before + [row] + after, before + after;
    var b := |before|;
    assert all[b] == row;
    forall x | x in before ensures x.id < row.id {
      var i :| 0 <= i < b && before[i] == x;
      assert all[i] == x;
    }
    forall x | x in after ensures row.id < x.id {
      var i :| 0 <= i < |after| && after[i] == x;
      assert all[b + 1 + i] == x;
    }
    forall i, j | 0 <= i < j < |r| ensures r[i].id < r[j].id {
      assert r[i] == all[if i < b then i else i + 1];
      assert r[j] == all[if j < b then j else j + 1];
    }
    forall i | 0 <= i < |r| ensures r[i].id < next {
      assert r[i] == all[if i < b then i else i + 1];
    }
  }

  lemma IdBefore(before: seq<Row>, row: Row, after: seq<Row>, next: nat, id: nat)
    requires Ordered(before + [row] + after, next)
    requires id < row.id && id in Ids(before + [row] + after)
    ensures id in Ids(before)
  {
    var all := before + [row] + after;
    var k :| 0 <= k < |all| && all[k].id == id;
    assert all[|before|] == row;
    assert k < |before| && before[k] == all[k];
  }

  ghost predicate Preceded(log: seq<nat>, i: nat)
    requires i < |log|
  {
    forall r: nat :: r < log[i] ==> r in log[..i]
  }

  /** Every id below a published one was published before it. */
  ghost predicate InOrder(log: seq<nat>) {
    forall i :: 0 <= i < |log| ==> Preceded(log, i)
  }

  lemma InOrderAppend(log: seq<nat>, id: nat)
    requires InOrder(log) && forall r: nat :: r < id ==> r in log
    ensures InOrder(log + [id])
  {
    var l := log + [id];
    forall i | 0 <= i < |l| ensures Preceded(l, i) {
      if i < |log| {
        assert Preceded(log, i) && l[..i] == log[..i] && l[i] == log[i];
      } else {
        assert l[..i] == log;
      }
    }
  }

  /** The ids of the log in order of first occurrence. */
  function Firsts(log: seq<nat>): (f: seq<nat>) {
    if log == [] then []
    else
      var f := Firsts(log[..|log| - 1]);
      if log[|log| - 1] in log[..|log| - 1] then f else f + [log[|log| - 1]]
  }

  /** The order property in the form a subscriber sees it: once repeats are dropped,
      the broker received exactly rows 0, 1, 2, ... in insertion order. */
  lemma {:induction false} FirstsAreAPrefix(log: seq<nat>)
    requires InOrder(log)
    ensures forall i :: 0 <= i < |Firsts(log)| ==> Firsts(log)[i] == i
    ensures forall r: nat :: r in log <==> r < |Firsts(log)|
  {
    if log != [] {
      var n := |log| - 1;
      var front := log[..n];
      forall i | 0 <= i < |front| ensures Preceded(front, i) {
        assert Preceded(log, i) && log[..i] == front[..i] && log[i] == front[i];
      }
      FirstsAreAPrefix(front);
      var last := log[n];
      assert Preceded(log, n);
      assert log == front + [last];
      if last !in front {
        var f := Firsts(front);
        assert last >= |f|;
        assert last > |f| ==> |f| in front;
      }
    }
  }

  /** What happens to one row of a batch: its publish is confirmed and the delete then
      succeeds or fails, its publish fails, or the process dies right after the confirm. */
  datatype Fate = Confirmed(deleted: bool) | Failed(landed: bool) | CrashAfterConfirm

  /** What one call can change: the table, the broker's log, and the ids the relay saw confirmed. */
  datatype Table = Table(rows: seq<Row>, log: seq<nat>, confirmed: set<nat>)

  ghost function AfterRow(t: Table, kept: seq<Row>, row: Row, after: seq<Row>, fate: Fate): Table {
    Table(if fate == Confirmed(true) then kept + after else t.rows,
          if fate == Failed(false) then t.log else t.log + [row.id],
          if fate.Failed? then t.confirmed else t.confirmed + {row.id})
  }

  /** The row is in the table between those of the batch confirmed so far and those after it. */
  ghost predicate AtRow(t: Table, kept: seq<Row>, row: Row, after: seq<Row>) {
    t.rows == kept + [row] + after && Ids(kept) <= t.confirmed
  }

  function BatchLength(rows: seq<Row>, batchSize: nat): nat {
    if |rows| < batchSize then |rows| else batchSize
  }

  /** The rows a batch leaves in the table: those confirmed whose delete failed. */
  ghost function Kept(kept: seq<Row>, row: Row, fate: Fate): seq<Row> {
    if fate == Confirmed(false) then kept + [row] else kept
  }

  class Relay {
    var rows: seq<Row>
    var nextId: nat
    const batchSize: nat
    ghost var log: seq<nat>
    ghost var confirmed: set<nat>

    constructor (batchSize: nat)
      requires batchSize >= 1
      ensures Valid() && this.batchSize == batchSize && rows == [] && log == []
    {
      this.batchSize := batchSize;
      rows, nextId := [], 0;
      log, confirmed := [], {};
    }

    /** Deleted rows were confirmed, confirmed rows reached the broker, and the broker
        saw rows for the first time in insertion order. */
    ghost predicate Valid() reads this {
      && batchSize >= 1
      && Ordered(rows, nextId)
      && InOrder(log)
      && (forall r :: r in confirmed ==> r in log)
      && (forall r: nat :: r < nextId && r !in Ids(rows) ==> r in confirmed)
      && (forall r :: r in log ==> r < nextId)
    }

    /** Rows committed by other transactions. */
    method Append(envs: seq<Envelope>)
      requires Valid()
      modifies this`rows, this`nextId
      ensures Valid() && nextId == old(nextId) + |envs|
      ensures rows == Insert(old(rows), old(nextId), envs)
    {
      ghost var was := rows;
      rows := Insert(rows, nextId, envs);
      nextId := nextId + |envs|;
      forall r: nat | r < nextId && r !in Ids(rows) ensures r in confirmed {
        NewIdsKnown(was, old(nextId), envs, r);
      }
    }

    /** deliver: drain the table in batches ordered by id and stop at the first failed query or
        publish. `fates(round, i)` is what happens to the i-th row of a round's batch,
        `arrivals(round)` the rows other transactions commit before that round's query, and
        `queryOk(round)` whether the query succeeds. The source's outer loop never ends while a
        full batch deletes nothing, so `rounds` bounds the batches looked at: the contract
        holds of every finite part of a run. `drained` says that the loop ended because a
        short batch was completed. */
    method Deliver(fates: (nat, nat) -> Fate, arrivals: nat -> seq<Envelope>, queryOk: nat -> bool, rounds: nat)
      returns (drained: bool, stopped: bool)
      requires Valid()
      modifies this
      ensures Valid()
      ensures old(log) <= log && old(confirmed) <= confirmed
      ensures drained ==> !stopped
      // Every full batch that deletes nothing postpones the end by one round, and nothing else does:
      // the loop goes on for `rounds` batches only if that many, less one for each row, were idle.
      ensures (forall k :: arrivals(k) == []) && !drained && !stopped
              ==> rounds <= |old(rows)| + IdleRounds(fates, batchSize, rounds)
      // And it does not end while full batches delete nothing.
      ensures (forall k :: arrivals(k) == [] && queryOk(k)) && AlwaysIdle(fates, batchSize) && |old(rows)| >= batchSize
              ==> !drained && !stopped && rows == old(rows)
      // Without failures every pending row is published once, in order, and deleted.
      ensures rounds > |old(rows)| && (forall k :: arrivals(k) == [] && queryOk(k)) && Smooth(fates)
              ==> drained && rows == [] && log == old(log) + SeqIds(old(rows))
    {
      hide *;
      Viewed();
      ghost var start := View();
      ghost var quiet := forall k :: arrivals(k) == [];
      DrainStarts(fates, batchSize, start);
      var round := 0;
      while round < rounds
        invariant Valid() && round <= rounds
        invariant start.log <= log && start.confirmed <= confirmed
        invariant quiet ==> InDrain(fates, batchSize, round, start, View())
      {
        InsertNone(rows, nextId);
        Append(arrivals(round));
        Viewed();
        ghost var held := View();
        if !queryOk(round) {
          drained, stopped := false, true;
          return;
        }
        if rows == [] {
          drained, stopped := true, false;
          if quiet { DrainEmpty(fates, batchSize, round, start, held); }
          return;
        }
        var full := |rows| >= batchSize;
        stopped := DeliverBatch(fates, round);
        Viewed();
        BatchGrows(fates, batchSize, round, held, View(), stopped);
        if quiet { DrainNext(fates, batchSize, round, start, held, View(), stopped); }
        if stopped {
          drained := false;
          return;
        }
        if !full {
          drained := true;
          return;
        }
        round := round + 1;
      }
      drained, stopped := false, false;
      Viewed();
      if quiet { DrainUnfinished(fates, batchSize, rounds, start, View()); }
    }

    lemma Viewed()
      requires Valid()
      ensures View() == Table(rows, log, confirmed) && batchSize >= 1
      ensures BatchLength(rows, batchSize) <= |rows|
    {
    }

    ghost function View(): Table reads this {
      Table(rows, log, confirmed)
    }

    /** The inner loop of deliver: publish and delete the rows of one batch. */
    method DeliverBatch(fates: (nat, nat) -> Fate, round: nat) returns (stopped: bool)
      requires Valid() && rows != []
      modifies this`rows, this`log, this`confirmed
      ensures Valid()
      ensures BatchDone(fates, batchSize, round, old(View()), View(), stopped)
    {
      hide *;
      Viewed();
      ghost var start := View();
      var n := BatchLength(rows, batchSize);
      var batch := rows[..n];
      ghost var kept, after := [], start.rows;
      var i := 0;
      assert |batch| == n;
      BatchStarts(fates, round, batch, start);
      while i < n
        invariant 0 <= i <= n && Valid() && InBatch(fates, round, batch, i, kept, after, start, View())
      {
        var row := batch[i];
        var fate := fates(round, i);
        BatchNext(fates, round, batch, i, kept, after, start, View());
        BatchStops(fates, batchSize, round, batch, i, kept, after, start, View());
        stopped := DeliverRow(kept, row, after[1..], fate);
        if stopped { return; }
        kept, after := Kept(kept, row, fate), after[1..];
        i := i + 1;
      }
      assert i == |batch|;
      BatchEnds(fates, batchSize, round, batch, kept, after, start, View());
      return false;
    }

    /** One row: publish it, and delete it once the publish is confirmed. */
    method DeliverRow(ghost kept: seq<Row>, row: Row, ghost after: seq<Row>, fate: Fate) returns (stopped: bool)
      requires Valid() && AtRow(View(), kept, row, after)
      modifies this`rows, this`log, this`confirmed
      ensures Valid() && stopped == !fate.Confirmed?
      ensures View() == AfterRow(old(View()), kept, row, after, fate)
    {
      hide Valid;
      if fate == Failed(false) { return true; }
      Publish(kept, row, after, if fate.Failed? then {} else {row.id});
      if fate == Confirmed(true) { Delete(kept, row, after); }
      stopped := !fate.Confirmed?;
    }

    /** One publish that reached the broker; `confirm` holds its id if the relay learns so. */
    ghost method Publish(kept: seq<Row>, row: Row, after: seq<Row>, confirm: set<nat>)
      requires confirm <= {row.id}
      requires Valid() && rows == kept + [row] + after
      requires Ids(kept) <= confirmed
      modifies this`log, this`confirmed
      ensures Valid() && log == old(log) + [row.id] && confirmed == old(confirmed) + confirm
    {
      OrderedWithout(kept, row, after, nextId);
      assert rows[|kept|] == row;
      forall r: nat | r < row.id ensures r in log {
        assert r < nextId;
        if r in Ids(rows) {
          IdBefore(kept, row, after, nextId, r);
        }
      }
      InOrderAppend(log, row.id);
      log := log + [row.id];
      confirmed := confirmed + confirm;
    }

    method Delete(ghost before: seq<Row>, row: Row, ghost after: seq<Row>)
      requires Valid() && row.id in confirmed && rows == before + [row] + after
      modifies this`rows
      ensures Valid() && rows == before + after
    {
      ghost var was := rows;
      OrderedWithout(before, row, after, nextId);
      WithoutMiddle(before, row, after);
      rows := Without(rows, row.id);
      forall r: nat | r < nextId && r !in Ids(rows) ensures r in confirmed {
        if r in Ids(was) {
          var k :| 0 <= k < |was| && was[k].id == r;
          assert was[k] in rows || r == row.id;
        }
      }
    }
  }

  /** From `start` a first part of the rows was published once each and deleted. */
  ghost predicate DrainedSoFar(rows: seq<Row>, log: seq<nat>, start: Table) {
    && |rows| <= |start.rows| && rows == start.rows[|start.rows| - |rows|..]
    && log == start.log + SeqIds(start.rows[..|start.rows| - |rows|])
  }

  lemma DrainEnds(start: Table, log: seq<nat>)
    ensures DrainedSoFar(start.rows, start.log, start)
    ensures DrainedSoFar([], log, start) ==> log == start.log + SeqIds(start.rows)
  {
    var rows := start.rows;
    assert rows == rows[0..] && rows[..0] == [] && rows[..|rows|] == rows && start.log == start.log + [];
  }

  lemma DrainRow(held: seq<Row>, log: seq<nat>, start: Table)
    requires held != []
    ensures DrainedSoFar(held, log, start) ==> DrainedSoFar(held[1..], log + [held[0].id], start)
  {
    if DrainedSoFar(held, log, start) {
      SeqIdsNext(start.rows, |start.rows| - |held|);
      assert held[1..] == start.rows[|start.rows| - |held| + 1..];
    }
  }

  lemma DrainRound(held: Table, rows: seq<Row>, log: seq<nat>, start: Table)
    requires DrainedSoFar(held.rows, held.log, start) && DrainedSoFar(rows, log, held)
    ensures DrainedSoFar(rows, log, start)
  {
    var done, n := |start.rows| - |held.rows|, |held.rows| - |rows|;
    SeqIdsConcat(start.rows[..done], held.rows[..n]);
    hide SeqIds;
    Slices(start.rows, done, n);
  }

  lemma Slices(rows: seq<Row>, done: nat, n: nat)
    requires done + n <= |rows|
    ensures rows[..done] + rows[done..][..n] == rows[..done + n]
    ensures rows[done..][n..] == rows[done + n..]
  {
  }

  /** Where a batch stands after its first `i` rows: `kept` were confirmed but not deleted,
      `after` were not looked at. */
  ghost predicate InBatch(fates: (nat, nat) -> Fate, round: nat, batch: seq<Row>, i: nat,
                          kept: seq<Row>, after: seq<Row>, start: Table, t: Table)
  {
    && t.rows == kept + after && Ids(kept) <= t.confirmed && start.log <= t.log && start.confirmed <= t.confirmed
    && i <= |batch| && batch[i..] <= after && |after| + i == |start.rows| && |kept| <= i
    && AllConfirmed(fates, i, round)
    && (Progress(fates, i, round) <==> |kept| < i)
    && (|kept| == i ==> t.rows == start.rows)
    && (SmoothRow(fates, round) ==> kept == [] && DrainedSoFar(after, t.log, start))
  }

  /** What a batch leaves: it is stopped exactly by a publish that is not confirmed, and an
      unstopped batch shrinks the table exactly if one of its deletes succeeds. */
  ghost predicate BatchDone(fates: (nat, nat) -> Fate, batchSize: nat, round: nat, start: Table, t: Table,
                            stopped: bool) {
    var n := BatchLength(start.rows, batchSize);
    && start.log <= t.log && start.confirmed <= t.confirmed && |t.rows| <= |start.rows|
    && (!stopped <==> AllConfirmed(fates, n, round))
    && (!stopped ==> (|t.rows| < |start.rows| <==> Progress(fates, n, round)))
    && (!stopped && |t.rows| == |start.rows| ==> t.rows == start.rows)
    && (SmoothRow(fates, round) ==> |t.rows| == |start.rows| - n && DrainedSoFar(t.rows, t.log, start))
  }

  lemma BatchStarts(fates: (nat, nat) -> Fate, round: nat, batch: seq<Row>, start: Table)
    requires batch <= start.rows
    ensures InBatch(fates, round, batch, 0, [], start.rows, start, start)
  {
    assert batch[0..] == batch && [] + start.rows == start.rows;
    FatesSoFar(fates, round, 0);
    DrainEnds(start, start.log);
  }

  lemma BatchStops(fates: (nat, nat) -> Fate, batchSize: nat, round: nat, batch: seq<Row>, i: nat,
                   kept: seq<Row>, after: seq<Row>, start: Table, t: Table)
    requires |batch| == BatchLength(start.rows, batchSize)
    requires i < |batch| && InBatch(fates, round, batch, i, kept, after, start, t)
    ensures var fate := fates(round, i);
            !fate.Confirmed? ==>
              BatchDone(fates, batchSize, round, start, AfterRow(t, kept, batch[i], after[1..], fate), true)
  {
    hide Progress, DrainedSoFar, Ids;
    if !fates(round, i).Confirmed? {
      assert !AllConfirmed(fates, |batch|, round) && !SmoothRow(fates, round);
    }
  }

  lemma BatchSplits(kept: seq<Row>, batch: seq<Row>, i: nat, after: seq<Row>)
    requires i < |batch| && batch[i..] <= after
    ensures after != [] && after[0] == batch[i] && kept + after == kept + [batch[i]] + after[1..]
    ensures batch[i + 1..] <= after[1..]
    ensures Ids(kept + [batch[i]]) == Ids(kept) + {batch[i].id}
  {
    assert batch[i..][0] == after[0] && batch[i + 1..] == batch[i..][1..];
    var more := kept + [batch[i]];
    assert more[|kept|] == batch[i] && forall j :: 0 <= j < |kept| ==> more[j] == kept[j];
  }

  lemma BatchNext(fates: (nat, nat) -> Fate, round: nat, batch: seq<Row>, i: nat,
                  kept: seq<Row>, after: seq<Row>, start: Table, t: Table)
    requires i < |batch| && InBatch(fates, round, batch, i, kept, after, start, t)
    ensures after != [] && AtRow(t, kept, batch[i], after[1..])
    ensures var fate := fates(round, i);
            fate.Confirmed? ==>
              InBatch(fates, round, batch, i + 1, Kept(kept, batch[i], fate), after[1..], start,
                      AfterRow(t, kept, batch[i], after[1..], fate))
  {
    hide SmoothRow, Progress, DrainedSoFar, AllConfirmed, Ids;
    FatesSoFar(fates, round, i);
    BatchSplits(kept, batch, i, after);
    DrainRow(after, t.log, start);
  }

  lemma BatchEnds(fates: (nat, nat) -> Fate, batchSize: nat, round: nat, batch: seq<Row>, kept: seq<Row>,
                  after: seq<Row>, start: Table, t: Table)
    requires |batch| == BatchLength(start.rows, batchSize)
    requires InBatch(fates, round, batch, |batch|, kept, after, start, t)
    ensures BatchDone(fates, batchSize, round, start, t, false)
  {
    assert [] + after == after;
  }

  // ---- The outer loop ----

  lemma BatchGrows(fates: (nat, nat) -> Fate, batchSize: nat, round: nat, start: Table, t: Table, stopped: bool)
    requires BatchDone(fates, batchSize, round, start, t, stopped)
    ensures start.log <= t.log && start.confirmed <= t.confirmed
  {
  }

  /** Where a drain without arrivals stands before a round. */
  ghost predicate InDrain(fates: (nat, nat) -> Fate, batchSize: nat, round: nat, start: Table, t: Table) {
    && |t.rows| + round <= |start.rows| + IdleRounds(fates, batchSize, round)
    && (AlwaysIdle(fates, batchSize) && |start.rows| >= batchSize ==> t.rows == start.rows)
    && (Smooth(fates) ==> DrainedSoFar(t.rows, t.log, start))
  }

  lemma DrainStarts(fates: (nat, nat) -> Fate, batchSize: nat, start: Table)
    ensures InDrain(fates, batchSize, 0, start, start)
  {
    DrainEnds(start, start.log);
  }

  lemma DrainEmpty(fates: (nat, nat) -> Fate, batchSize: nat, round: nat, start: Table, t: Table)
    requires batchSize >= 1 && t.rows == [] && InDrain(fates, batchSize, round, start, t)
    ensures AlwaysIdle(fates, batchSize) ==> |start.rows| < batchSize
    ensures Smooth(fates) ==> t.log == start.log + SeqIds(start.rows)
  {
    DrainEnds(start, t.log);
  }

  lemma DrainNext(fates: (nat, nat) -> Fate, batchSize: nat, round: nat, start: Table, held: Table, t: Table,
                  stopped: bool)
    requires batchSize >= 1 && InDrain(fates, batchSize, round, start, held)
    requires BatchDone(fates, batchSize, round, held, t, stopped)
    ensures stopped || |held.rows| < batchSize ==> !(AlwaysIdle(fates, batchSize) && |start.rows| >= batchSize)
    ensures Smooth(fates) ==> !stopped
    ensures Smooth(fates) && |held.rows| < batchSize ==> t.rows == [] && t.log == start.log + SeqIds(start.rows)
    ensures !stopped && |held.rows| >= batchSize ==> InDrain(fates, batchSize, round + 1, start, t)
  {
    RoundFates(fates, batchSize, round);
    assert Smooth(fates) ==> SmoothRow(fates, round);
    assert AlwaysIdle(fates, batchSize) ==> Idle(fates, batchSize, round);
    if Smooth(fates) {
      SmoothConfirms(fates, round, |held.rows|);
      SmoothConfirms(fates, round, batchSize);
      DrainRound(held, t.rows, t.log, start);
      DrainEnds(start, t.log);
    }
    hide Smooth, SmoothRow, AlwaysIdle, DrainedSoFar, Idle, IdleRounds, Progress, AllConfirmed;
  }

  lemma SmoothConfirms(fates: (nat, nat) -> Fate, round: nat, n: nat)
    requires SmoothRow(fates, round)
    ensures AllConfirmed(fates, n, round)
  {
  }

  lemma DrainUnfinished(fates: (nat, nat) -> Fate, batchSize: nat, rounds: nat, start: Table, t: Table)
    requires batchSize >= 1 && InDrain(fates, batchSize, rounds, start, t)
    ensures rounds <= |start.rows| + IdleRounds(fates, batchSize, rounds)
    ensures rounds > |start.rows| ==> !Smooth(fates)
    ensures AlwaysIdle(fates, batchSize) && |start.rows| >= batchSize ==> t.rows == start.rows
  {
    if Smooth(fates) { SmoothIsBusy(fates, batchSize, rounds); }
  }

  ghost predicate Progress(fates: (nat, nat) -> Fate, batchSize: nat, round: nat) {
    exists i: nat :: i < batchSize && fates(round, i) == Confirmed(true)
  }

  /** Every row of the batch is confirmed. */
  ghost predicate AllConfirmed(fates: (nat, nat) -> Fate, n: nat, round: nat) {
    forall i: nat :: i < n ==> fates(round, i).Confirmed?
  }

  /** Every row of a full batch is confirmed and every delete fails. */
  ghost predicate Idle(fates: (nat, nat) -> Fate, batchSize: nat, round: nat) {
    forall i: nat :: i < batchSize ==> fates(round, i) == Confirmed(false)
  }

  lemma FatesSoFar(fates: (nat, nat) -> Fate, round: nat, i: nat)
    ensures !Progress(fates, 0, round) && AllConfirmed(fates, 0, round) && SeqIds([]) == []
    ensures AllConfirmed(fates, i + 1, round) <==> AllConfirmed(fates, i, round) && fates(round, i).Confirmed?
    ensures Progress(fates, i + 1, round) <==> Progress(fates, i, round) || fates(round, i) == Confirmed(true)
    ensures SmoothRow(fates, round) ==> fates(round, i) == Confirmed(true)
  {
  }

  ghost predicate SmoothRow(fates: (nat, nat) -> Fate, round: nat) {
    forall i: nat :: fates(round, i) == Confirmed(true)
  }

  ghost predicate Smooth(fates: (nat, nat) -> Fate) {
    forall k: nat :: SmoothRow(fates, k)
  }

  ghost predicate AlwaysIdle(fates: (nat, nat) -> Fate, batchSize: nat) {
    forall k: nat :: Idle(fates, batchSize, k)
  }

  /** How many of the first full batches delete nothing. */
  ghost function IdleRounds(fates: (nat, nat) -> Fate, batchSize: nat, rounds: nat): nat {
    if rounds == 0 then 0
    else IdleRounds(fates, batchSize, rounds - 1) + if Idle(fates, batchSize, rounds - 1) then 1 else 0
  }

  lemma {:induction false} SmoothIsBusy(fates: (nat, nat) -> Fate, batchSize: nat, rounds: nat)
    requires Smooth(fates) && batchSize >= 1
    ensures IdleRounds(fates, batchSize, rounds) == 0
  {
    if rounds > 0 {
      SmoothIsBusy(fates, batchSize, rounds - 1);
      assert SmoothRow(fates, rounds - 1) && fates(rounds - 1, 0) == Confirmed(true);
    }
  }

  lemma RoundFates(fates: (nat, nat) -> Fate, batchSize: nat, round: nat)
    ensures IdleRounds(fates, batchSize, round + 1)
            == IdleRounds(fates, batchSize, round) + if Idle(fates, batchSize, round) then 1 else 0
    ensures Idle(fates, batchSize, round)
            <==> AllConfirmed(fates, batchSize, round) && !Progress(fates, batchSize, round)
  {
    forall i: nat | i < batchSize && AllConfirmed(fates, batchSize, round) && !Progress(fates, batchSize, round)
      ensures fates(round, i) == Confirmed(false)
    {
      assert fates(round, i).Confirmed? && fates(round, i) != Confirmed(true);
    }
  }

  ghost function Ids(rows: seq<Row>): set<nat> {
    set i | 0 <= i < |rows| :: rows[i].id
  }

  function SeqIds(rows: seq<Row>): seq<nat> {
    if rows == [] then [] else [rows[0].id] + SeqIds(rows[1..])
  }

  lemma {:induction false} SeqIdsConcat(a: seq<Row>, b: seq<Row>)
    ensures SeqIds(a + b) == SeqIds(a) + SeqIds(b)
  {
    if a == [] {
      assert a + b == b;
    } else {
      assert (a + b)[1..] == a[1..] + b;
      SeqIdsConcat(a[1..], b);
    }
  }

  lemma SeqIdsNext(rows: seq<Row>, i: nat)
    requires i < |rows|
    ensures SeqIds(rows[..i + 1]) == SeqIds(rows[..i]) + [rows[i].id]
  {
    assert rows[..i + 1] == rows[..i] + [rows[i]];
    SeqIdsConcat(rows[..i], [rows[i]]);
    assert SeqIds([rows[i]]) == [rows[i].id];
  }
}

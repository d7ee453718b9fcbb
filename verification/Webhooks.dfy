/** `WebhookService.process`: the ordered at-least-once outbox. */
module Webhooks {
  import opened Base
  import opened Tables
  import opened World

  /** The receiver's answer to one delivery; AckLost: it accepted, but the sender sees an error. */
  datatype Answer = Acked | AckLost | Refused

  predicate RowsOf(db: Db, rows: seq<nat>) {
    forall i :: 0 <= i < |rows| ==> rows[i] < |db.webhooks|
  }

  ghost predicate SortedByTime(db: Db, rows: seq<nat>)
    requires RowsOf(db, rows)
  {
    forall i, j :: 0 <= i < j < |rows| ==> db.webhooks[rows[i]].createdAt <= db.webhooks[rows[j]].createdAt
  }

  ghost predicate Distinct(rows: seq<nat>) {
    forall i, j :: 0 <= i < j < |rows| ==> rows[i] != rows[j]
  }

  /** The rows of a pass: all unsent webhooks, oldest creation time first, ties in any order. */
  ghost predicate IsSnapshot(db: Db, rows: seq<nat>) {
    && RowsOf(db, rows)
    && (forall i :: 0 <= i < |rows| ==> !db.webhooks[rows[i]].sent)
    && (forall x: nat :: x < |db.webhooks| && !db.webhooks[x].sent ==> x in rows)
    && Distinct(rows)
    && SortedByTime(db, rows)
  }

  // ---------------------------------------------------------------- a snapshot always exists

  function InsertByTime(db: Db, rows: seq<nat>, x: nat): (r: seq<nat>)
    requires x < |db.webhooks| && RowsOf(db, rows)
    ensures RowsOf(db, r) && |r| == |rows| + 1
  {
    if rows == [] then [x]
    else if db.webhooks[x].createdAt < db.webhooks[rows[0]].createdAt then [x] + rows
    else [rows[0]] + InsertByTime(db, rows[1..], x)
  }

  lemma {:induction false} InsertHas(db: Db, rows: seq<nat>, x: nat)
    requires x < |db.webhooks| && RowsOf(db, rows)
    ensures forall y: nat :: y in InsertByTime(db, rows, x) <==> y == x || y in rows
  {
    if rows != [] && db.webhooks[x].createdAt >= db.webhooks[rows[0]].createdAt {
      InsertHas(db, rows[1..], x);
      assert rows == [rows[0]] + rows[1..];
    }
  }

  lemma {:induction false} InsertSorts(db: Db, rows: seq<nat>, x: nat)
    requires x < |db.webhooks| && x !in rows && RowsOf(db, rows) && SortedByTime(db, rows) && Distinct(rows)
    ensures SortedByTime(db, InsertByTime(db, rows, x)) && Distinct(InsertByTime(db, rows, x))
  {
    if rows != [] && db.webhooks[x].createdAt >= db.webhooks[rows[0]].createdAt {
      var rest := InsertByTime(db, rows[1..], x);
      InsertSorts(db, rows[1..], x);
      InsertHas(db, rows[1..], x);
      forall i | 0 <= i < |rest|
        ensures rest[i] != rows[0] && db.webhooks[rows[0]].createdAt <= db.webhooks[rest[i]].createdAt
      {
        assert rest[i] in rest;
      }
    }
  }

  function UnsentByTime(db: Db, n: nat): (r: seq<nat>)
    requires n <= |db.webhooks|
    ensures RowsOf(db, r)
  {
    if n == 0 then []
    else if db.webhooks[n - 1].sent then UnsentByTime(db, n - 1)
    else InsertByTime(db, UnsentByTime(db, n - 1), n - 1)
  }

  lemma {:induction false} UnsentHas(db: Db, n: nat)
    requires n <= |db.webhooks|
    ensures forall x: nat :: x in UnsentByTime(db, n) <==> x < n && !db.webhooks[x].sent
  {
    if n > 0 {
      UnsentHas(db, n - 1);
      InsertHas(db, UnsentByTime(db, n - 1), n - 1);
    }
  }

  lemma {:induction false} UnsentSorted(db: Db, n: nat)
    requires n <= |db.webhooks|
    ensures SortedByTime(db, UnsentByTime(db, n)) && Distinct(UnsentByTime(db, n))
  {
    if n > 0 {
      UnsentSorted(db, n - 1);
      UnsentHas(db, n - 1);
      if !db.webhooks[n - 1].sent {
        InsertSorts(db, UnsentByTime(db, n - 1), n - 1);
      }
    }
  }

  lemma SnapshotExists(db: Db)
    ensures IsSnapshot(db, UnsentByTime(db, |db.webhooks|))
  {
    var rows := UnsentByTime(db, |db.webhooks|);
    UnsentSorted(db, |db.webhooks|);
    UnsentHas(db, |db.webhooks|);
    forall i | 0 <= i < |rows| ensures !db.webhooks[rows[i]].sent {
      assert rows[i] in rows;
    }
  }

  // ---------------------------------------------------------------- the pass

  function Ids(db: Db, rows: seq<nat>): (ids: seq<nat>)
    requires RowsOf(db, rows)
    ensures |ids| == |rows|
    ensures forall i :: 0 <= i < |rows| ==> ids[i] == db.webhooks[rows[i]].id
  {
    if rows == [] then [] else [db.webhooks[rows[0]].id] + Ids(db, rows[1..])
  }

  /** Every webhook marked as sent has been acknowledged at least once. */
  ghost predicate SentAreAcked(db: Db, log: seq<nat>) {
    forall i :: 0 <= i < |db.webhooks| && db.webhooks[i].sent ==> db.webhooks[i].id in log
  }

  /** The ids of the deliveries attempted and of those the receiver acknowledged, in order. */
  datatype Trace = Trace(tried: seq<nat>, log: seq<nat>)

  /**
   How far a pass over the snapshot `rows` has come: the first `marked` rows have been acknowledged and
   marked, the first `acked` acknowledged, the first `attempted` attempted.
   */
  datatype Pass = Pass(rows: seq<nat>, marked: nat, acked: nat, attempted: nat)

  /**
   The pass x over a snapshot of `snap` has taken the tables to b and the trace from t to u: the rows before the one
   attempted are marked, and if no other sender was at work these are exactly the rows newly sent.
   */
  ghost predicate Passed(sq: Sequences, sole: bool, snap: Db, b: Db, t: Trace, u: Trace, x: Pass) {
    && IsSnapshot(snap, x.rows)
    && Inv(sq, b) && Evolves(snap, b)
    && x.marked <= x.acked <= x.attempted <= |x.rows| && x.attempted <= x.marked + 1
    && u.tried == t.tried + Ids(snap, x.rows[..x.attempted])
    && u.log == t.log + Ids(snap, x.rows[..x.acked])
    && (forall i :: 0 <= i < x.marked ==> b.webhooks[x.rows[i]].sent)
    && (sole ==> NewlySent(snap, b, x.rows, x.marked))
  }

  /** Of the rows of b, those sent already in `snap` and the first n of the snapshot are sent. */
  ghost predicate NewlySent(snap: Db, b: Db, rows: seq<nat>, n: nat)
    requires n <= |rows|
  {
    forall i :: 0 <= i < |b.webhooks| ==>
      (b.webhooks[i].sent <==> i in rows[..n] || (i < |snap.webhooks| && snap.webhooks[i].sent))
  }

  lemma PassKeepsSentAcked(sq: Sequences, a: Db, snap: Db, b: Db, t: Trace, u: Trace, x: Pass)
    requires Passed(sq, true, snap, b, t, u, x)
    requires SentAreAcked(a, t.log) && SendsNothing(a, snap)
    ensures SentAreAcked(b, u.log)
  {
    forall i | 0 <= i < |snap.webhooks| && snap.webhooks[i].sent ensures snap.webhooks[i].id in t.log {
      assert a.webhooks[i] == snap.webhooks[i];
    }
    forall i | 0 <= i < |b.webhooks| && b.webhooks[i].sent ensures b.webhooks[i].id in u.log {
      if i in x.rows[..x.marked] {
        var j :| 0 <= j < x.marked && x.rows[j] == i;
        assert Ids(snap, x.rows[..x.acked])[j] == snap.webhooks[i].id;
        assert u.log[|t.log| + j] == b.webhooks[i].id;
      } else {
        assert snap.webhooks[i].id in t.log;
      }
    }
  }

  lemma KeepSentAcked(sq: Sequences, sole: bool, a: Db, snap: Db, b: Db, t: Trace, u: Trace, x: Pass)
    requires Passed(sq, sole, snap, b, t, u, x) && (sole ==> SendsNothing(a, snap))
    ensures sole && SentAreAcked(a, t.log) ==> SentAreAcked(b, u.log)
  {
    if sole && SentAreAcked(a, t.log) {
      PassKeepsSentAcked(sq, a, snap, b, t, u, x);
    }
  }

  /** Others commit, sending nothing unless there are other senders, in the middle of a pass. */
  lemma PassedStays(sq: Sequences, sole: bool, snap: Db, b: Db, c: Db, t: Trace, u: Trace, x: Pass)
    requires Passed(sq, sole, snap, b, t, u, x)
    requires Inv(sq, c) && Evolves(b, c) && (sole ==> SendsNothing(b, c))
    ensures Passed(sq, sole, snap, c, t, u, x)
  {
    EvolvesTransitive(snap, b, c);
    if sole {
      SentStay(snap, b, c, x.rows, x.marked);
    }
  }

  lemma SentStay(snap: Db, b: Db, c: Db, rows: seq<nat>, n: nat)
    requires n <= |rows| && RowsOf(b, rows) && |snap.webhooks| <= |b.webhooks|
    requires NewlySent(snap, b, rows, n) && SendsNothing(b, c)
    ensures NewlySent(snap, c, rows, n)
  {
    forall i | 0 <= i < |c.webhooks|
      ensures c.webhooks[i].sent <==> i in rows[..n] || (i < |snap.webhooks| && snap.webhooks[i].sent)
    {
      if i < |b.webhooks| {
        assert c.webhooks[i] == b.webhooks[i];
      } else {
        forall j | 0 <= j < n ensures rows[j] != i {
        }
      }
    }
  }

  lemma PassedTry(sq: Sequences, sole: bool, snap: Db, b: Db, t: Trace, u: Trace, rows: seq<nat>, i: nat)
    requires i < |rows| && RowsOf(snap, rows) && Passed(sq, sole, snap, b, t, u, Pass(rows, i, i, i))
    ensures var id := snap.webhooks[rows[i]].id;
            && Passed(sq, sole, snap, b, t, Trace(u.tried + [id], u.log), Pass(rows, i, i, i + 1))
            && Passed(sq, sole, snap, b, t, Trace(u.tried + [id], u.log + [id]), Pass(rows, i, i + 1, i + 1))
  {
    NextId(snap, rows, i);
    var id := snap.webhooks[rows[i]].id;
    assert u.tried + [id] == t.tried + Ids(snap, rows[..i + 1]) by {
      Regroup(t.tried, Ids(snap, rows[..i]), id, u.tried, Ids(snap, rows[..i + 1]));
    }
    assert u.log + [id] == t.log + Ids(snap, rows[..i + 1]) by {
      Regroup(t.log, Ids(snap, rows[..i]), id, u.log, Ids(snap, rows[..i + 1]));
    }
  }

  lemma Regroup(front: seq<nat>, mid: seq<nat>, id: nat, sofar: seq<nat>, next: seq<nat>)
    requires sofar == front + mid && next == mid + [id]
    ensures sofar + [id] == front + next
  {
  }

  lemma NextId(db: Db, rows: seq<nat>, i: nat)
    requires i < |rows| && RowsOf(db, rows)
    ensures Ids(db, rows[..i + 1]) == Ids(db, rows[..i]) + [db.webhooks[rows[i]].id]
  {
  }

  lemma PassedMark(sq: Sequences, sole: bool, snap: Db, b: Db, t: Trace, u: Trace, rows: seq<nat>, i: nat)
    requires i < |rows| && Passed(sq, sole, snap, b, t, u, Pass(rows, i, i + 1, i + 1))
    ensures Passed(sq, sole, snap, MarkSent(b, snap.webhooks[rows[i]].id), t, u, Pass(rows, i + 1, i + 1, i + 1))
  {
    var r := rows[i];
    assert r in rows;
    assert b.webhooks[r].id == snap.webhooks[r].id;
    var b' := MarkSent(b, b.webhooks[r].id);
    MarkSentKeepsInv(sq, b, r);
    EvolvesTransitive(snap, b, b');
    if sole {
      MarkedRows(snap, b, b', rows, i);
    }
  }

  lemma MarkedRows(snap: Db, b: Db, b': Db, rows: seq<nat>, i: nat)
    requires i < |rows| && rows[i] < |b.webhooks|
    requires b'.webhooks == b.webhooks[rows[i] := b.webhooks[rows[i]].(sent := true)]
    requires NewlySent(snap, b, rows, i)
    ensures NewlySent(snap, b', rows, i + 1)
  {
    assert rows[..i + 1] == rows[..i] + [rows[i]];
  }

  class WebhookService {
    /** What the receiver answers at each tick, and how the database orders a snapshot. */
    const answer: nat -> Answer
    const order: (nat, Db) -> seq<nat>

    ghost var trace: Trace

    constructor (answer: nat -> Answer, order: (nat, Db) -> seq<nat>)
      requires forall t, db :: IsSnapshot(db, order(t, db))
      ensures Orders() && trace == Trace([], [])
      ensures this.answer == answer && this.order == order
    {
      this.answer, this.order := answer, order;
      trace := Trace([], []);
    }

    ghost predicate Orders() {
      forall t, db :: IsSnapshot(db, order(t, db))
    }

    /** The receiver accepts everything sent in this stretch of ticks. */
    ghost predicate Accepts(from: nat, to: nat) {
      forall t :: from <= t < to ==> answer(t) == Acked
    }

    method SendMessage(w: World, id: nat) returns (ok: bool)
      requires w.Valid()
      modifies w, this
      ensures w.Valid() && w.clock == old(w.clock) + 1
      ensures Evolves(old(w.db), w.db) && (w.SoleSender() ==> SendsNothing(old(w.db), w.db))
      ensures ok == (answer(old(w.clock)) == Acked)
      ensures trace.tried == old(trace.tried) + [id]
      ensures trace.log == if answer(old(w.clock)) == Refused then old(trace.log) else old(trace.log) + [id]
    {
      var tick := w.clock;
      var f := w.Tick();
      trace := Trace(trace.tried + [id], if answer(tick) == Refused then trace.log else trace.log + [id]);
      ok := answer(tick) == Acked;
    }

    /**
     One pass. A webhook is attempted only when all rows before it in the pass's snapshot have been
     acknowledged and marked during the pass; what the pass did is a front part of the snapshot,
     and all of it when no call of the pass fails.
     */
    method Process(w: World) returns (ok: bool, ghost snap: Db, ghost x: Pass)
      requires w.Valid() && Orders()
      modifies w, this
      ensures w.Valid()
      ensures Evolves(old(w.db), snap) && (w.SoleSender() ==> SendsNothing(old(w.db), snap))
      ensures Passed(w.sq, w.SoleSender(), snap, w.db, old(trace), trace, x)
      ensures ok ==> x.marked == |x.rows|
      ensures w.Calm(old(w.clock), w.clock) && Accepts(old(w.clock), w.clock) ==> ok
      ensures w.SoleSender() && SentAreAcked(old(w.db), old(trace.log)) ==> SentAreAcked(w.db, trace.log)
    {
      ghost var start, t := w.db, trace;
      var tick := w.clock;
      var f := w.Tick();
      snap := w.db;
      ghost var rows := order(tick, w.db);
      x := Pass(rows, 0, 0, 0);
      assert Ids(snap, rows[..0]) == [];
      if f != Fine {
        ok := false;
        KeepSentAcked(w.sq, w.SoleSender(), start, snap, w.db, t, trace, x);
        return;
      }
      var webhooks := order(tick, w.db);
      var ids := Ids(w.db, webhooks);
      for i := 0 to |webhooks|
        invariant w.Valid() && rows == webhooks && ids == Ids(snap, rows)
        invariant x == Pass(rows, i, i, i) && w.clock > old(w.clock)
        invariant Passed(w.sq, w.SoleSender(), snap, w.db, t, trace, x)
      {
        // try
        ok, x := SendRow(w, ids[i], snap, rows, i, t);
        if !ok {
          // catch
          KeepSentAcked(w.sq, w.SoleSender(), start, snap, w.db, t, trace, x);
          return;
        }
      }
      ok := true;
      KeepSentAcked(w.sq, w.SoleSender(), start, snap, w.db, t, trace, x);
    }

    /** The try block for row i of the snapshot. */
    method SendRow(w: World, id: nat, ghost snap: Db, ghost rows: seq<nat>, ghost i: nat, ghost t: Trace)
        returns (ok: bool, ghost x: Pass)
      requires w.Valid() && i < |rows|
      requires Passed(w.sq, w.SoleSender(), snap, w.db, t, trace, Pass(rows, i, i, i))
      requires id == snap.webhooks[rows[i]].id
      modifies w, this
      ensures w.Valid() && w.clock > old(w.clock)
      ensures Passed(w.sq, w.SoleSender(), snap, w.db, t, trace, x) && x.rows == rows
      ensures ok ==> x == Pass(rows, i + 1, i + 1, i + 1)
      ensures !ok ==> x.attempted == i + 1
      ensures !ok ==> !(w.Calm(old(w.clock), w.clock) && Accepts(old(w.clock), w.clock))
    {
      ghost var before, u, tick := w.db, trace, w.clock;
      PassedTry(w.sq, w.SoleSender(), snap, before, t, u, rows, i);
      ok := SendMessage(w, id);
      x := Pass(rows, i, if answer(tick) == Refused then i else i + 1, i + 1);
      PassedStays(w.sq, w.SoleSender(), snap, before, w.db, t, trace, x);
      if ok {
        ghost var done, tick' := true, w.clock;
        ok, done := Update(w, id, snap, rows, i, t);
        x := Pass(rows, if done then i + 1 else i, i + 1, i + 1);
        assert !ok ==> w.fault(tick') != Fine;
      }
    }

    /** The update that marks row i of the snapshot; `done` tells whether it took effect. */
    method Update(w: World, id: nat, ghost snap: Db, ghost rows: seq<nat>, ghost i: nat, ghost t: Trace)
        returns (ok: bool, ghost done: bool)
      requires w.Valid() && i < |rows|
      requires Passed(w.sq, w.SoleSender(), snap, w.db, t, trace, Pass(rows, i, i + 1, i + 1))
      requires id == snap.webhooks[rows[i]].id
      modifies w
      ensures w.Valid() && w.clock == old(w.clock) + 1
      ensures ok == (w.fault(old(w.clock)) == Fine) && done == (w.fault(old(w.clock)) != Lost)
      ensures Passed(w.sq, w.SoleSender(), snap, w.db, t, trace, Pass(rows, if done then i + 1 else i, i + 1, i + 1))
    {
      ghost var before := w.db;
      var f := w.Tick();
      PassedStays(w.sq, w.SoleSender(), snap, before, w.db, t, trace, Pass(rows, i, i + 1, i + 1));
      done := f != Lost;
      if f != Lost {
        PassedMark(w.sq, w.SoleSender(), snap, w.db, t, trace, rows, i);
        w.db := MarkSent(w.db, id);
      }
      ok := f == Fine;
    }
  }
}

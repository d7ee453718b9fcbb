/** The order in which the receiver acknowledges webhooks, with one sender. */
module Delivery {
  import opened Base
  import opened Tables
  import opened World
  import opened Webhooks
  import opened System
  import opened Invariants

  /** Creation times are distinct and follow the order of the commits. */
  ghost predicate Chronological(sq: Sequences) {
    forall i, j :: i < j ==> sq.webhook(i).createdAt < sq.webhook(j).createdAt
  }

  /** The log without immediate repeats. */
  function Unstutter(log: seq<nat>): seq<nat> {
    if log == [] then []
    else
      var last := |log| - 1;
      var front := Unstutter(log[..last]);
      if last > 0 && log[last - 1] == log[last] then front else front + [log[last]]
  }

  lemma {:induction false} UnstutterLast(log: seq<nat>)
    requires log != []
    ensures Unstutter(log) != [] && Unstutter(log)[|Unstutter(log)| - 1] == log[|log| - 1]
    decreases |log|
  {
    var last := |log| - 1;
    if last > 0 && log[last - 1] == log[last] {
      UnstutterLast(log[..last]);
    }
  }

  lemma UnstutterStep(log: seq<nat>, x: nat)
    ensures Unstutter(log + [x]) == if log != [] && log[|log| - 1] == x then Unstutter(log) else Unstutter(log) + [x]
  {
    assert (log + [x])[..|log|] == log;
  }

  function AllIds(db: Db): (ids: seq<nat>)
    ensures |ids| == |db.webhooks|
    ensures forall i :: 0 <= i < |ids| ==> ids[i] == db.webhooks[i].id
  {
    seq(|db.webhooks|, i requires 0 <= i < |db.webhooks| => db.webhooks[i].id)
  }

  /** The sent rows are the first n, and the log without repeats is the first n ids, or n + 1 with an unmarked one. */
  ghost predicate Ordered(db: Db, log: seq<nat>, n: nat) {
    && n <= |db.webhooks|
    && (forall i :: 0 <= i < |db.webhooks| ==> (db.webhooks[i].sent <==> i < n))
    && (Unstutter(log) == AllIds(db)[..n] || (n < |db.webhooks| && Unstutter(log) == AllIds(db)[..n + 1]))
  }

  ghost predicate Consecutive(rows: seq<nat>, n: nat) {
    forall i :: 0 <= i < |rows| ==> rows[i] == n + i
  }

  ghost predicate OrderInv(s: Sys, n: nat) {
    && Ordered(s.db, s.log, n)
    && (s.sender.Sending? ==> Consecutive(s.sender.rows, n))
    && (s.sender.Marking? ==>
          Consecutive(s.sender.rows, n) && n < |s.db.webhooks| && Unstutter(s.log) == AllIds(s.db)[..n + 1])
  }

  /** With distinct times in commit order the snapshot is the unsent rows in table order. */
  lemma SnapshotConsecutive(sq: Sequences, db: Db, rows: seq<nat>, n: nat)
    requires Inv(sq, db) && Chronological(sq) && IsSnapshot(db, rows)
    requires n <= |db.webhooks| && forall i :: 0 <= i < |db.webhooks| ==> (db.webhooks[i].sent <==> i < n)
    ensures Consecutive(rows, n)
  {
    forall i, j | 0 <= i < j < |rows| ensures rows[i] < rows[j] {
      var x, y := rows[i], rows[j];
      assert x != y && db.webhooks[x].createdAt <= db.webhooks[y].createdAt;
    }
    forall x: nat | n <= x < |db.webhooks| ensures x in rows {
    }
    ConsecutiveUpTo(db, rows, n, |rows|);
  }

  lemma {:induction false} ConsecutiveUpTo(db: Db, rows: seq<nat>, n: nat, m: nat)
    requires m <= |rows| && (forall i :: 0 <= i < |rows| ==> n <= rows[i] < |db.webhooks|)
    requires forall i, j :: 0 <= i < j < |rows| ==> rows[i] < rows[j]
    requires forall x: nat :: n <= x < |db.webhooks| ==> x in rows
    ensures forall i :: 0 <= i < m ==> rows[i] == n + i
  {
    if m > 0 {
      ConsecutiveUpTo(db, rows, n, m - 1);
      var x := n + m - 1;
      assert m > 1 ==> rows[m - 2] == n + m - 2;
      assert rows[m - 1] >= x;
      assert x in rows;
      var i :| 0 <= i < |rows| && rows[i] == x;
      assert i >= m - 1;
    }
  }

  /** New unsent rows at the end change nothing about the order so far. */
  lemma OrderedStays(a: Db, b: Db, log: seq<nat>, n: nat)
    requires Ordered(a, log, n) && SendsNothing(a, b)
    ensures Ordered(b, log, n)
    ensures n < |a.webhooks| ==> AllIds(b)[..n + 1] == AllIds(a)[..n + 1]
  {
    assert AllIds(a) <= AllIds(b);
    assert AllIds(b)[..n] == AllIds(a)[..n];
  }

  lemma DeliverOrdered(s: Sys, n: nat, x: nat)
    requires Ordered(s.db, s.log, n) && n < |s.db.webhooks| && x == s.db.webhooks[n].id
    requires forall i, j :: 0 <= i < j < |s.db.webhooks| ==> s.db.webhooks[i].id != s.db.webhooks[j].id
    ensures Ordered(s.db, s.log + [x], n) && Unstutter(s.log + [x]) == AllIds(s.db)[..n + 1]
  {
    UnstutterStep(s.log, x);
    var ids := AllIds(s.db);
    assert ids[..n + 1] == ids[..n] + [x];
    if s.log != [] {
      UnstutterLast(s.log);
      if Unstutter(s.log) == ids[..n] {
        assert s.log[|s.log| - 1] == ids[n - 1];
      }
    } else {
      assert Unstutter(s.log) == [];
    }
  }

  lemma ConfirmOrdered(sq: Sequences, s: Sys, n: nat)
    requires Inv(sq, s.db) && Ordered(s.db, s.log, n) && n < |s.db.webhooks| && Unstutter(s.log) == AllIds(s.db)[..n + 1]
    ensures Ordered(MarkSent(s.db, s.db.webhooks[n].id), s.log, n + 1)
  {
    MarkSentKeepsInv(sq, s.db, n);
    assert AllIds(MarkSent(s.db, s.db.webhooks[n].id)) == AllIds(s.db);
  }

  lemma GoSendsNothing(c: Config, s: Sys, id: nat, f: Fault)
    requires SysInv(c, s) && id in s.workers
    ensures SendsNothing(s.db, Step(c, s, Go(id, f)).db)
  {
    WorkerKeeps(c, s.chain, s.db, s.workers[id], f);
  }

  lemma OthersKeepOrder(c: Config, s: Sys, a: Action, n: nat)
    requires SysInv(c, s) && OrderInv(s, n) && (a.Create? || (a.Go? && a.id in s.workers))
    ensures OrderInv(Step(c, s, a), n)
  {
    match a
    case Create(payload) =>
      if AddCharge(c.sq, s.db, payload).Some? {
        AddChargeKeepsInv(c.sq, s.db, payload);
        OrderedStays(s.db, Step(c, s, a).db, s.log, n);
      }
    case Go(id, f) =>
      GoSendsNothing(c, s, id, f);
      OrderedStays(s.db, Step(c, s, a).db, s.log, n);
  }

  lemma DeliverKeepsOrder(c: Config, s: Sys, answer: Answer, n: nat)
    requires SysInv(c, s) && OrderInv(s, n) && s.sender.Sending?
    ensures OrderInv(Step(c, s, Deliver(answer)), n)
  {
    OneWebhook(c.sq, s.db);
    assert s.sender.rows[0] == n;
    DeliverOrdered(s, n, s.db.webhooks[n].id);
  }

  lemma StepKeepsOrder(c: Config, s: Sys, a: Action, n: nat) returns (n': nat)
    requires SysInv(c, s) && Chronological(c.sq) && OrderInv(s, n)
    ensures n <= n' <= n + 1 && OrderInv(Step(c, s, a), n')
  {
    n' := n;
    match a
    case Create(_) => OthersKeepOrder(c, s, a, n);
    case Go(id, f) =>
      if id in s.workers {
        OthersKeepOrder(c, s, a, n);
      }
    case Snapshot(rows) =>
      if s.sender == Resting && IsSnapshot(s.db, rows) {
        SnapshotConsecutive(c.sq, s.db, rows, n);
      }
    case Deliver(answer) =>
      if s.sender.Sending? {
        DeliverKeepsOrder(c, s, answer, n);
      }
    case Confirm(f) =>
      if s.sender.Marking? && f != Lost {
        assert s.sender.rows[0] == n;
        ConfirmOrdered(c.sq, s, n);
        n' := n + 1;
      }
    case _ =>
  }

  /**
   With one sender and creation times that follow the commits, in every reachable state the sent webhooks are
   the first n, and the acknowledged deliveries, repeats removed, are exactly the first n webhooks or n + 1.
   */
  lemma {:induction false} InOrder(c: Config, actions: seq<Action>) returns (n: nat)
    requires ValidConfig(c) && Chronological(c.sq)
    ensures OrderInv(Run(c, actions), n)
    decreases |actions|
  {
    if actions == [] {
      n := 0;
    } else {
      var init := actions[..|actions| - 1];
      var m := InOrder(c, init);
      Reachable(c, init);
      n := StepKeepsOrder(c, Run(c, init), actions[|actions| - 1], m);
    }
  }

  // ---------------------------------------------------------------- pairs, with no assumption on creation times

  /** Row i was committed before row j and was created before it. */
  ghost predicate Precedes(db: Db, i: int, j: int) {
    0 <= i < j < |db.webhooks| && db.webhooks[i].createdAt < db.webhooks[j].createdAt
  }

  /** Of two such rows the second is neither sent nor acknowledged unless the first is. */
  ghost predicate PairsInOrder(db: Db, log: seq<nat>) {
    forall i, j {:trigger Precedes(db, i, j)} :: Precedes(db, i, j) ==>
      && (db.webhooks[j].sent ==> db.webhooks[i].sent)
      && (db.webhooks[j].id in log ==> db.webhooks[i].id in log)
  }

  /** What is left of a pass: a row's predecessors are sent or come before it. */
  ghost predicate RowsInOrder(db: Db, rows: seq<nat>) {
    && RowsOf(db, rows)
    && forall i, x {:trigger Precedes(db, i, rows[x])} :: 0 <= x < |rows| && Precedes(db, i, rows[x]) ==>
         db.webhooks[i].sent || i in rows[..x]
  }

  ghost predicate PairInv(s: Sys) {
    && PairsInOrder(s.db, s.log)
    && (s.sender.Sending? ==> RowsInOrder(s.db, s.sender.rows))
    && (s.sender.Marking? ==> RowsInOrder(s.db, s.sender.rows))
  }

  lemma SnapshotInOrder(db: Db, rows: seq<nat>)
    requires IsSnapshot(db, rows)
    ensures RowsInOrder(db, rows)
  {
    forall i, x | 0 <= x < |rows| && Precedes(db, i, rows[x]) ensures db.webhooks[i].sent || i in rows[..x] {
      if !db.webhooks[i].sent {
        var y :| 0 <= y < |rows| && rows[y] == i;
        assert y < x;
        assert rows[..x][y] == i;
      }
    }
  }

  /** Rows added at the end precede nothing that was there. */
  lemma PairsStay(a: Db, b: Db, log: seq<nat>, rows: seq<nat>)
    requires SendsNothing(a, b) && PairsInOrder(a, log)
    requires forall x :: x in log ==> exists i :: 0 <= i < |a.webhooks| && a.webhooks[i].id == x
    requires forall i, j :: 0 <= i < j < |b.webhooks| ==> b.webhooks[i].id != b.webhooks[j].id
    ensures PairsInOrder(b, log)
    ensures RowsInOrder(a, rows) ==> RowsInOrder(b, rows)
  {
    assert forall k :: 0 <= k < |a.webhooks| ==> b.webhooks[k] == a.webhooks[k];
    forall i, j | Precedes(b, i, j)
      ensures (b.webhooks[j].sent ==> b.webhooks[i].sent) && (b.webhooks[j].id in log ==> b.webhooks[i].id in log)
    {
      if j < |a.webhooks| {
        assert Precedes(a, i, j);
      } else {
        assert b.webhooks[j].id !in log;
      }
    }
    if RowsInOrder(a, rows) {
      forall i, x | 0 <= x < |rows| && Precedes(b, i, rows[x]) ensures b.webhooks[i].sent || i in rows[..x] {
        assert Precedes(a, i, rows[x]);
      }
    }
  }

  lemma DeliverPairs(s: Sys)
    requires PairInv(s) && SenderOk(s) && s.sender.Sending?
    requires forall i, j :: 0 <= i < j < |s.db.webhooks| ==> s.db.webhooks[i].id != s.db.webhooks[j].id
    ensures PairsInOrder(s.db, s.log + [s.db.webhooks[s.sender.rows[0]].id])
  {
    var r := s.sender.rows[0];
    var log := s.log + [s.db.webhooks[r].id];
    forall i, j | Precedes(s.db, i, j) ensures s.db.webhooks[j].id in log ==> s.db.webhooks[i].id in log {
      if s.db.webhooks[j].id in log && s.db.webhooks[j].id !in s.log {
        assert j == r;
        assert Precedes(s.db, i, s.sender.rows[0]);
        assert s.db.webhooks[i].sent;
      }
    }
  }

  lemma ConfirmPairs(sq: Sequences, s: Sys)
    requires Inv(sq, s.db) && PairInv(s) && SenderOk(s) && s.sender.Marking?
    ensures var b := MarkSent(s.db, s.db.webhooks[s.sender.rows[0]].id);
            PairsInOrder(b, s.log) && RowsInOrder(b, s.sender.rows[1..])
  {
    var rows := s.sender.rows;
    var b := MarkSent(s.db, s.db.webhooks[rows[0]].id);
    MarkSentKeepsInv(sq, s.db, rows[0]);
    forall i, j | Precedes(b, i, j)
      ensures (b.webhooks[j].sent ==> b.webhooks[i].sent) && (b.webhooks[j].id in s.log ==> b.webhooks[i].id in s.log)
    {
      assert Precedes(s.db, i, j);
      if j == rows[0] {
        assert Precedes(s.db, i, rows[0]);
      }
    }
    forall i, x | 0 <= x < |rows[1..]| && Precedes(b, i, rows[1..][x]) ensures b.webhooks[i].sent || i in rows[1..][..x] {
      assert Precedes(s.db, i, rows[x + 1]);
      if !s.db.webhooks[i].sent {
        var y :| 0 <= y < x + 1 && rows[..x + 1][y] == i;
        if y > 0 {
          assert rows[1..][..x][y - 1] == i;
        }
      }
    }
  }

  /** Any step that sends nothing and leaves the sender alone. */
  lemma QuietStepKeepsPairs(c: Config, s: Sys, s': Sys)
    requires SysInv(c, s) && PairInv(s) && Inv(c.sq, s'.db)
    requires SendsNothing(s.db, s'.db) && s'.log == s.log && s'.sender == s.sender
    ensures PairInv(s')
  {
    OneWebhook(c.sq, s'.db);
    PairsStay(s.db, s'.db, s.log, if s.sender.Resting? then [] else s.sender.rows);
  }

  lemma SenderStepKeepsPairs(c: Config, s: Sys, a: Action)
    requires SysInv(c, s) && PairInv(s) && (a.Snapshot? || a.Deliver? || a.Confirm?)
    ensures PairInv(Step(c, s, a))
  {
    match a
    case Snapshot(rows) =>
      if s.sender == Resting && IsSnapshot(s.db, rows) {
        SnapshotInOrder(s.db, rows);
      }
    case Deliver(answer) =>
      if s.sender.Sending? {
        OneWebhook(c.sq, s.db);
        DeliverPairs(s);
      }
    case Confirm(f) =>
      if s.sender.Marking? && f != Lost {
        ConfirmPairs(c.sq, s);
      }
  }

  lemma StepKeepsPairs(c: Config, s: Sys, a: Action)
    requires SysInv(c, s) && PairInv(s)
    ensures PairInv(Step(c, s, a))
  {
    match a
    case Create(payload) =>
      if AddCharge(c.sq, s.db, payload).Some? {
        AddChargeKeepsInv(c.sq, s.db, payload);
        QuietStepKeepsPairs(c, s, Step(c, s, a));
      }
    case Go(id, f) =>
      if id in s.workers {
        GoSendsNothing(c, s, id, f);
        StepKeeps(c, s, a);
        QuietStepKeepsPairs(c, s, Step(c, s, a));
      }
    case Snapshot(rows) => SenderStepKeepsPairs(c, s, a);
    case Deliver(answer) => SenderStepKeepsPairs(c, s, a);
    case Confirm(f) => SenderStepKeepsPairs(c, s, a);
    case _ =>
  }

  /**
   Whatever the creation times: in every reachable state, of two webhooks of which one was both committed and
   created before the other, the later one has been sent only if the earlier one has, and acknowledged only if
   the earlier one was; so their first acknowledgements come in that order.
   */
  lemma {:induction false} EarlierFirst(c: Config, actions: seq<Action>)
    requires ValidConfig(c)
    ensures PairInv(Run(c, actions))
    decreases |actions|
  {
    if actions != [] {
      var init := actions[..|actions| - 1];
      EarlierFirst(c, init);
      Reachable(c, init);
      StepKeepsPairs(c, Run(c, init), actions[|actions| - 1]);
    }
  }
}

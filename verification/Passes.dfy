/**
 The sender of the composed system against `WebhookService.process`: whatever else happens in between, a pass there
 goes through its snapshot row by row, and ends as the method's contract says.
 */
module Passes {
  import opened Base
  import opened Tables
  import opened World
  import opened Webhooks
  import opened System
  import opened Invariants
  import Delivery

  predicate IsSenders(a: Action) {
    a.Snapshot? || a.Deliver? || a.Confirm? || a.SenderCrash?
  }

  /** The sender's own actions in a list. */
  function SenderPart(actions: seq<Action>): seq<Action> {
    if actions == [] then []
    else
      var last := actions[|actions| - 1];
      SenderPart(actions[..|actions| - 1]) + if IsSenders(last) then [last] else []
  }

  /** n rows delivered, acknowledged and marked. */
  function Rounds(n: nat): seq<Action> {
    if n == 0 then [] else Rounds(n - 1) + [Deliver(Acked)] + [Confirm(Fine)]
  }

  /** The same, and if `marking` the next row acknowledged. */
  function Sent(n: nat, marking: bool): seq<Action> {
    if marking then Rounds(n) + [Deliver(Acked)] else Rounds(n)
  }

  /** How the work on a row can fail, and with it the pass. */
  datatype Failure =
    | Unreached          // the receiver refuses
    | Unanswered         // it accepts, but the sender does not learn of it
    | Unmarked           // the update has no effect
    | Unconfirmed        // it has, but the sender does not learn of it
    | Crashed
    | CrashedUnmarked    // after the acknowledgement

  function Before(failure: Failure): seq<Action> {
    if failure in {Unmarked, Unconfirmed, CrashedUnmarked} then [Deliver(Acked)] else []
  }

  function Failing(failure: Failure): Action {
    match failure
    case Unreached => Deliver(Refused)
    case Unanswered => Deliver(AckLost)
    case Unmarked => Confirm(Lost)
    case Unconfirmed => Confirm(Unseen)
    case Crashed => SenderCrash
    case CrashedUnmarked => SenderCrash
  }

  /** The rows marked, acknowledged and attempted by a pass that fails at row n. */
  function Broken(rows: seq<nat>, n: nat, failure: Failure): Pass {
    match failure
    case Unreached => Pass(rows, n, n, n + 1)
    case Unanswered => Pass(rows, n, n + 1, n + 1)
    case Unmarked => Pass(rows, n, n + 1, n + 1)
    case Unconfirmed => Pass(rows, n + 1, n + 1, n + 1)
    case Crashed => Pass(rows, n, n, n)
    case CrashedUnmarked => Pass(rows, n, n + 1, n + 1)
  }

  /** The pass x over a snapshot of the tables of s0 has led to these tables and this log. */
  ghost predicate PassedTo(c: Config, s0: Sys, db: Db, log: seq<nat>, x: Pass) {
    && IsSnapshot(s0.db, x.rows) && x.attempted <= |x.rows|
    && Passed(c.sq, true, s0.db, db, Trace([], s0.log), Trace(Ids(s0.db, x.rows[..x.attempted]), log), x)
  }

  /** In the middle of a pass: n rows are done, and if `marking` the next one is acknowledged. */
  function Upto(rows: seq<nat>, n: nat, marking: bool): Pass {
    if marking then Pass(rows, n, n + 1, n + 1) else Pass(rows, n, n, n)
  }

  function Next(rows: seq<nat>, n: nat, marking: bool): Sender
    requires n <= |rows|
  {
    if marking then Marking(rows[n..]) else if n == |rows| then Resting else Sending(rows[n..])
  }

  ghost predicate Passing(c: Config, s0: Sys, s: Sys, rows: seq<nat>, n: nat, marking: bool) {
    && n <= |rows| && (marking ==> n < |rows|)
    && PassedTo(c, s0, s.db, s.log, Upto(rows, n, marking))
    && s.sender == Next(rows, n, marking)
  }

  lemma PassStarts(c: Config, s: Sys, rows: seq<nat>)
    requires SysInv(c, s) && s.sender == Resting && IsSnapshot(s.db, rows) && rows != []
    ensures Passing(c, s, Step(c, s, Snapshot(rows)), rows, 0, false)
  {
    assert rows[0..] == rows;
    assert Ids(s.db, rows[..0]) == [];
    assert s.log + [] == s.log;
  }

  /** The row in hand. */
  lemma AtRow(c: Config, s0: Sys, s: Sys, rows: seq<nat>, n: nat, marking: bool) returns (id: nat)
    requires n < |rows| && Passing(c, s0, s, rows, n, marking)
    ensures rows[n] < |s0.db.webhooks| && rows[n] < |s.db.webhooks|
    ensures id == s0.db.webhooks[rows[n]].id == s.db.webhooks[rows[n]].id
    ensures rows[n..][0] == rows[n] && rows[n..][1..] == rows[n + 1..]
  {
    id := s0.db.webhooks[rows[n]].id;
  }

  lemma DeliverStep(c: Config, s: Sys, todo: seq<nat>, id: nat, answer: Answer)
    requires s.sender == Sending(todo) && todo != [] && todo[0] < |s.db.webhooks| && s.db.webhooks[todo[0]].id == id
    ensures Step(c, s, Deliver(answer))
            == s.(log := if answer == Refused then s.log else s.log + [id],
                  sender := if answer == Acked then Marking(todo) else Resting)
  {
  }

  lemma ConfirmStep(c: Config, s: Sys, todo: seq<nat>, id: nat, f: Fault)
    requires s.sender == Marking(todo) && todo != [] && todo[0] < |s.db.webhooks| && s.db.webhooks[todo[0]].id == id
    ensures Step(c, s, Confirm(f))
            == s.(db := if f == Lost then s.db else MarkSent(s.db, id),
                  sender := if f == Fine && |todo| > 1 then Sending(todo[1..]) else Resting)
  {
  }

  lemma PassDelivers(c: Config, s0: Sys, s: Sys, rows: seq<nat>, n: nat, answer: Answer)
    requires n < |rows| && Passing(c, s0, s, rows, n, false)
    ensures var s' := Step(c, s, Deliver(answer));
            && PassedTo(c, s0, s'.db, s'.log, Pass(rows, n, if answer == Refused then n else n + 1, n + 1))
            && s'.sender == if answer == Acked then Marking(rows[n..]) else Resting
  {
    var id := AtRow(c, s0, s, rows, n, false);
    DeliverStep(c, s, rows[n..], id, answer);
    PassedTry(c.sq, true, s0.db, s.db, Trace([], s0.log), Trace(Ids(s0.db, rows[..n]), s.log), rows, n);
    NextId(s0.db, rows, n);
  }

  lemma PassMarks(c: Config, s0: Sys, s: Sys, rows: seq<nat>, n: nat, f: Fault)
    requires n < |rows| && Passing(c, s0, s, rows, n, true)
    ensures var s' := Step(c, s, Confirm(f));
            && PassedTo(c, s0, s'.db, s'.log, Pass(rows, if f == Lost then n else n + 1, n + 1, n + 1))
            && s'.sender == if f == Fine && n + 1 < |rows| then Sending(rows[n + 1..]) else Resting
  {
    var id := AtRow(c, s0, s, rows, n, true);
    ConfirmStep(c, s, rows[n..], id, f);
    PassedMark(c.sq, true, s0.db, s.db, Trace([], s0.log), Trace(Ids(s0.db, rows[..n + 1]), s.log), rows, n);
  }

  /** The next of the calls that take a pass on. */
  lemma PassStep(c: Config, s0: Sys, s: Sys, rows: seq<nat>, n: nat, marking: bool)
    requires n < |rows| && Passing(c, s0, s, rows, n, marking)
    ensures if marking then Passing(c, s0, Step(c, s, Confirm(Fine)), rows, n + 1, false)
            else Passing(c, s0, Step(c, s, Deliver(Acked)), rows, n, true)
  {
    if marking {
      PassMarks(c, s0, s, rows, n, Fine);
    } else {
      PassDelivers(c, s0, s, rows, n, Acked);
    }
  }

  /** A call that fails. */
  lemma BreakStep(c: Config, s0: Sys, s: Sys, rows: seq<nat>, n: nat, failure: Failure)
    requires n < |rows| && Passing(c, s0, s, rows, n, failure in {Unmarked, Unconfirmed, CrashedUnmarked})
    ensures var s' := Step(c, s, Failing(failure));
            s'.sender == Resting && PassedTo(c, s0, s'.db, s'.log, Broken(rows, n, failure))
  {
    match failure
    case Unreached => PassDelivers(c, s0, s, rows, n, Refused);
    case Unanswered => PassDelivers(c, s0, s, rows, n, AckLost);
    case Unmarked => PassMarks(c, s0, s, rows, n, Lost);
    case Unconfirmed => PassMarks(c, s0, s, rows, n, Unseen);
    case Crashed => assert Step(c, s, SenderCrash) == s.(sender := Resting);
    case CrashedUnmarked => assert Step(c, s, SenderCrash) == s.(sender := Resting);
  }

  /** Nobody else marks webhooks or delivers them. */
  ghost predicate Aside(c: Config, s: Sys, s': Sys) {
    && Inv(c.sq, s'.db) && Evolves(s.db, s'.db) && SendsNothing(s.db, s'.db)
    && s'.log == s.log && s'.sender == s.sender
  }

  lemma OthersStep(c: Config, s: Sys, a: Action)
    requires SysInv(c, s) && !IsSenders(a)
    ensures Aside(c, s, Step(c, s, a))
  {
    StepKeeps(c, s, a);
    if a.Create? && AddCharge(c.sq, s.db, a.payload).Some? {
      AddChargeKeepsInv(c.sq, s.db, a.payload);
    }
    if a.Go? && a.id in s.workers {
      Delivery.GoSendsNothing(c, s, a.id, a.fault);
    }
  }

  /** So what they do leaves a pass as it is. */
  lemma OthersPass(c: Config, s0: Sys, s: Sys, s': Sys, x: Pass)
    requires PassedTo(c, s0, s.db, s.log, x) && Aside(c, s, s')
    ensures PassedTo(c, s0, s'.db, s'.log, x)
  {
    PassedStays(c.sq, true, s0.db, s.db, s'.db, Trace([], s0.log), Trace(Ids(s0.db, x.rows[..x.attempted]), s.log), x);
  }

  /** Two lists with the same last action. */
  lemma SameInit(x: seq<Action>, a: Action, y: seq<Action>, b: Action)
    requires x + [a] == y + [b]
    ensures x == y && a == b
  {
    assert (x + [a])[..|x + [a]| - 1] == x && (y + [b])[..|y + [b]| - 1] == y;
    assert (x + [a])[|x|] == a && (y + [b])[|y|] == b;
  }

  lemma LastSent(init: seq<Action>, a: Action, n: nat, marking: bool) returns (m: nat)
    requires init + [a] == Sent(n, marking)
    ensures init == Sent(m, !marking) && n == if marking then m else m + 1
    ensures a == if marking then Deliver(Acked) else Confirm(Fine)
  {
    if marking {
      m := n;
      SameInit(init, a, Rounds(n), Deliver(Acked));
    } else {
      assert n > 0;
      m := n - 1;
      SameInit(init, a, Rounds(m) + [Deliver(Acked)], Confirm(Fine));
    }
  }

  /**
   From every reachable state with a resting sender, for every snapshot and however the actions of others come in
   between: after the snapshot and n rows acknowledged and marked the log has the ids of the first n rows, in order,
   exactly these rows are newly sent, and the pass is at row n, or at its end after the last row.
   */
  lemma {:induction false} PassGoesOn(c: Config, actions: seq<Action>, rows: seq<nat>, more: seq<Action>, n: nat,
                                      marking: bool)
    requires ValidConfig(c) && rows != [] && n <= |rows| && (marking ==> n < |rows|)
    requires Run(c, actions).sender == Resting && IsSnapshot(Run(c, actions).db, rows)
    requires SenderPart(more) == Sent(n, marking)
    ensures Passing(c, Run(c, actions), Run(c, actions + [Snapshot(rows)] + more), rows, n, marking)
    decreases |more|
  {
    var s0, front := Run(c, actions), actions + [Snapshot(rows)];
    if more == [] {
      assert n == 0 && !marking;
      assert front + more == front && front[..|actions|] == actions;
      Reachable(c, actions);
      PassStarts(c, s0, rows);
    } else {
      var init, a := LastStep(c, front, more);
      var s := Run(c, front + init);
      if !IsSenders(a) {
        PassGoesOn(c, actions, rows, init, n, marking);
        OthersStep(c, s, a);
        OthersPass(c, s0, s, Step(c, s, a), Upto(rows, n, marking));
      } else {
        var m := LastSent(SenderPart(init), a, n, marking);
        PassGoesOn(c, actions, rows, init, m, !marking);
        PassStep(c, s0, s, rows, m, !marking);
      }
    }
  }

  /**
   And a pass that fails at row n, in any way, ends there: nothing after row n is attempted, and of row n what the
   kind of failure leaves.
   */
  lemma {:induction false} PassBreaksOff(c: Config, actions: seq<Action>, rows: seq<nat>, more: seq<Action>, n: nat,
                                         failure: Failure)
    requires ValidConfig(c) && n < |rows|
    requires Run(c, actions).sender == Resting && IsSnapshot(Run(c, actions).db, rows)
    requires SenderPart(more) == Rounds(n) + Before(failure) + [Failing(failure)]
    ensures var s := Run(c, actions + [Snapshot(rows)] + more);
            s.sender == Resting && PassedTo(c, Run(c, actions), s.db, s.log, Broken(rows, n, failure))
    decreases |more|
  {
    var s0, front := Run(c, actions), actions + [Snapshot(rows)];
    var init, a := LastStep(c, front, more);
    var s := Run(c, front + init);
    if !IsSenders(a) {
      PassBreaksOff(c, actions, rows, init, n, failure);
      OthersStep(c, s, a);
      OthersPass(c, s0, s, Step(c, s, a), Broken(rows, n, failure));
    } else {
      SameInit(SenderPart(init), a, Rounds(n) + Before(failure), Failing(failure));
      assert Rounds(n) + [] == Rounds(n);
      PassGoesOn(c, actions, rows, init, n, failure in {Unmarked, Unconfirmed, CrashedUnmarked});
      BreakStep(c, s0, s, rows, n, failure);
    }
  }

  /** A pass left to itself, to its end. */
  lemma WholePass(c: Config, actions: seq<Action>, rows: seq<nat>)
    requires ValidConfig(c) && rows != []
    requires Run(c, actions).sender == Resting && IsSnapshot(Run(c, actions).db, rows)
    ensures var s, after := Run(c, actions), Run(c, actions + [Snapshot(rows)] + Rounds(|rows|));
            && after.sender == Resting && after.log == s.log + Ids(s.db, rows)
            && Evolves(s.db, after.db) && NewlySent(s.db, after.db, rows, |rows|)
            && forall i :: 0 <= i < |s.db.webhooks| ==> after.db.webhooks[i].sent
  {
    RoundsAreSenders(|rows|);
    PassGoesOn(c, actions, rows, Rounds(|rows|), |rows|, false);
    assert rows[..|rows|] == rows;
    var s, after := Run(c, actions), Run(c, actions + [Snapshot(rows)] + Rounds(|rows|));
    forall i: nat | i < |s.db.webhooks| ensures after.db.webhooks[i].sent {
      assert s.db.webhooks[i].sent || i in rows;
    }
  }

  lemma {:induction false} RoundsAreSenders(n: nat)
    ensures SenderPart(Rounds(n)) == Rounds(n)
  {
    if n > 0 {
      RoundsAreSenders(n - 1);
      var front := Rounds(n - 1) + [Deliver(Acked)];
      assert front[..|front| - 1] == Rounds(n - 1);
      assert Rounds(n)[..|Rounds(n)| - 1] == front;
    }
  }
}

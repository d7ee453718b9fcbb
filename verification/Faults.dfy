/**
 Failing calls of a daemon run in the composed system, one transaction at a time: each catch of the source makes up
 for one failure and leaves its own note, and only more failures than catches leave the transaction unrecorded.
 */
module Faults {
  import opened Base
  import opened Ledger
  import opened Tables
  import opened Screening
  import opened World
  import opened Verdicts
  import opened System
  import Daemons
  import Solo
  import Tracks

  const PARSING: string := "Invalid transaction, parsing error"

  function DecisionOn(c: Config, token: Token, tx: Tx): Decision {
    Screen(c.daemon(token), c.wallets, tx)
  }

  /** A payment the crediting transaction accepts. */
  predicate Accepted(c: Config, token: Token, tx: Tx) {
    var decision := DecisionOn(c, token, tx);
    decision.Pay? && !Invalid(tx.hash, decision.amount, decision.memo)
  }

  /** The failures that the catches make up for: the one around crediting, and for jettons the outer one. */
  function Tolerance(c: Config, token: Token, tx: Tx): nat {
    (if Accepted(c, token, tx) then 1 else 0)
    + if Guarded(token, DecisionOn(c, token, tx)) && DecisionOn(c, token, tx) != Note(PARSING) then 1 else 0
  }

  /** Recorded, after n failures: as decided, or by a catch, the outer one only if the inner one has failed. */
  ghost predicate Ended(c: Config, token: Token, a: Db, b: Db, tx: Tx, n: nat) {
    var decision := DecisionOn(c, token, tx);
    && IsProcessed(b, tx.hash)
    && (|| Apply(c.sq, c.daemon(token), a, tx, decision) == Some(b)
        || (decision.Pay? && n >= 1 && b == Marked(a, tx.hash, "invalid memo"))
        || (Guarded(token, decision) && n >= Tolerance(c, token, tx) >= 1 && b == Marked(a, tx.hash, PARSING)))
  }

  /** Where the handling of a new transaction can stand after n failures. */
  ghost predicate Stands(c: Config, token: Token, a: Db, b: Db, tx: Tx, todo: Todo, n: nat) {
    var decision := DecisionOn(c, token, tx);
    match todo
    case Begin(amount, memo) => b == a && n == 0 && decision == Pay(amount, memo)
    case Reading(amount, memo) =>
      b == a && n == 0 && decision == Pay(amount, memo) && tx.hash != "" && amount > 0 && memo > 0
    case Found(amount, memo, charge) =>
      b == a && n == 0 && decision == Pay(amount, memo) && Accepted(c, token, tx) && FindCharge(a.charges, memo) == Some(charge)
    case CommitCredit(amount, memo, charge) =>
      b == a && n == 0 && decision == Pay(amount, memo) && Accepted(c, token, tx) && FindCharge(a.charges, memo) == Some(charge)
    case CommitUnmatched =>
      b == a && n == 0 && Accepted(c, token, tx) && FindCharge(a.charges, decision.memo) == None
    case Mark(note, retry) =>
      && (b == a || Ended(c, token, a, b, tx, n))
      && (|| (b == a && n == 0 && decision == Note(note) && retry == InsideTry(token, note))
          || (decision.Pay? && note == "invalid memo" && retry == InsideTry(token, note)
              && (Accepted(c, token, tx) ==> n >= 1))
          || (Guarded(token, decision) && note == PARSING && !retry && (b == a ==> n >= Tolerance(c, token, tx) >= 1)))
    case _ => false
  }

  /** The transaction is no longer in hand: it is recorded, or there were more failures than catches. */
  ghost predicate Gone(c: Config, token: Token, a: Db, b: Db, tx: Tx, n: nat) {
    Ended(c, token, a, b, tx, n) || (b == a && n > Tolerance(c, token, tx))
  }

  predicate InHand(it: Cursors, rest: seq<Tx>, pc: Pc) {
    pc.Handling? && pc.it == it && pc.rest == rest
  }

  function Count(n: nat, f: Fault): nat {
    if f == Fine then n else n + 1
  }

  ghost predicate Next(c: Config, token: Token, a: Db, it: Cursors, rest: seq<Tx>, n: nat, b: Db, pc: Pc)
    requires rest != []
  {
    if InHand(it, rest, pc) then Stands(c, token, a, b, rest[0], pc.todo, n)
    else (pc == Idle || pc == StartPage(it, rest[1..])) && Gone(c, token, a, b, rest[0], n)
  }

  lemma ReadNext(c: Config, token: Token, a: Db, it: Cursors, rest: seq<Tx>, todo: Todo, f: Fault)
    requires Inv(c.sq, a) && rest != [] && !IsProcessed(a, rest[0].hash)
    requires (todo.Begin? || todo.Reading? || todo.Found?) && Stands(c, token, a, a, rest[0], todo, 0)
    ensures var (b, pc) := HandleStep(c, a, token, it, rest, todo, f);
            Next(c, token, a, it, rest, Count(0, f), b, pc)
  {
    CreditedIsProcessed(c.sq, a, rest[0].hash);
  }

  /** On a new transaction, what is about to be committed is what its decision asks for. */
  lemma CommitIsApply(c: Config, token: Token, a: Db, tx: Tx, todo: Todo)
    requires Inv(c.sq, a) && !IsProcessed(a, tx.hash)
    requires (todo.CommitCredit? || todo.CommitUnmatched?) && Stands(c, token, a, a, tx, todo, 0)
    ensures var rows := CommitRowsOf(tx, token, todo);
            && Commit(c.sq, a, rows).Some?
            && Apply(c.sq, c.daemon(token).(token := token), a, tx, DecisionOn(c, token, tx)) == Commit(c.sq, a, rows)
            && IsProcessed(Commit(c.sq, a, rows).value, tx.hash)
  {
    var decision := DecisionOn(c, token, tx);
    CreditedIsProcessed(c.sq, a, tx.hash);
    if todo.CommitCredit? {
      OnlyCredit(c.sq, a, a, Credit(tx.hash, decision.amount, token, todo.charge.id), todo.charge);
    } else {
      MarkCommit(c.sq, a, tx.hash, Some("no associated charge"));
    }
    assert Enter(c.sq, a, tx.hash, decision.amount, token, decision.memo) == Commit(c.sq, a, CommitRowsOf(tx, token, todo));
    EnterKeepsInv(c.sq, a, tx.hash, decision.amount, token, decision.memo);
  }

  lemma CommitNext(c: Config, token: Token, a: Db, it: Cursors, rest: seq<Tx>, todo: Todo, f: Fault)
    requires ValidConfig(c) && Inv(c.sq, a) && rest != [] && !IsProcessed(a, rest[0].hash)
    requires (todo.CommitCredit? || todo.CommitUnmatched?) && Stands(c, token, a, a, rest[0], todo, 0)
    ensures var (b, pc) := HandleStep(c, a, token, it, rest, todo, f);
            Next(c, token, a, it, rest, Count(0, f), b, pc)
  {
    CommitIsApply(c, token, a, rest[0], todo);
    assert c.daemon(token).(token := token) == c.daemon(token);
  }

  lemma MarkNext(c: Config, token: Token, a: Db, b: Db, it: Cursors, rest: seq<Tx>, todo: Todo, n: nat, f: Fault)
    requires Inv(c.sq, a) && rest != [] && !IsProcessed(a, rest[0].hash)
    requires todo.Mark? && Stands(c, token, a, b, rest[0], todo, n)
    ensures var (b', pc) := HandleStep(c, b, token, it, rest, todo, f);
            Next(c, token, a, it, rest, Count(n, f), b', pc)
  {
    var tx := rest[0];
    MarkCommit(c.sq, b, tx.hash, Some(todo.note));
    KeysGrow(a, Marked(a, tx.hash, todo.note), Processed(tx.hash, Some(todo.note)));
  }

  // ---------------------------------------------------------------- all calls on a transaction

  /** The calls made on the transaction in hand, with these outcomes, nothing else moving; `n` counts those that fail. */
  function HandleWith(c: Config, token: Token, db: Db, it: Cursors, rest: seq<Tx>, todo: Todo, outcomes: seq<Fault>, n: nat)
      : (Db, Pc, nat)
    requires rest != []
    decreases |outcomes|
  {
    if outcomes == [] then (db, Handling(it, rest, todo), n)
    else
      var (db', pc) := HandleStep(c, db, token, it, rest, todo, outcomes[0]);
      if InHand(it, rest, pc) then HandleWith(c, token, db', it, rest, pc.todo, outcomes[1..], Count(n, outcomes[0]))
      else (db', pc, Count(n, outcomes[0]))
  }

  lemma OneLess(c: Config, token: Token, db: Db, it: Cursors, rest: seq<Tx>, todo: Todo, f: Fault)
    requires rest != []
    ensures var pc := HandleStep(c, db, token, it, rest, todo, f).1;
            InHand(it, rest, pc) ==> Tracks.Weight(pc.todo) < Tracks.Weight(todo)
  {
  }

  lemma StandsOn(c: Config, token: Token, a: Db, b: Db, it: Cursors, rest: seq<Tx>, todo: Todo, n: nat, f: Fault)
    requires ValidConfig(c) && Inv(c.sq, a) && rest != [] && !IsProcessed(a, rest[0].hash)
    requires Stands(c, token, a, b, rest[0], todo, n)
    ensures var (b', pc) := HandleStep(c, b, token, it, rest, todo, f);
            Next(c, token, a, it, rest, Count(n, f), b', pc)
  {
    match todo
    case Mark(_, _) => MarkNext(c, token, a, b, it, rest, todo, n, f);
    case CommitCredit(_, _, _) => CommitNext(c, token, a, it, rest, todo, f);
    case CommitUnmatched => CommitNext(c, token, a, it, rest, todo, f);
    case _ => ReadNext(c, token, a, it, rest, todo, f);
  }

  lemma {:induction false} HandledWith(c: Config, token: Token, a: Db, b: Db, it: Cursors, rest: seq<Tx>, todo: Todo,
                                       outcomes: seq<Fault>, n: nat)
    requires ValidConfig(c) && Inv(c.sq, a) && rest != [] && !IsProcessed(a, rest[0].hash)
    requires Stands(c, token, a, b, rest[0], todo, n)
    ensures var (b', pc, m) := HandleWith(c, token, b, it, rest, todo, outcomes, n);
            && Next(c, token, a, it, rest, m, b', pc)
            && (|outcomes| >= Tracks.Weight(todo) ==> !InHand(it, rest, pc))
    decreases |outcomes|
  {
    if outcomes != [] {
      var (b', pc) := HandleStep(c, b, token, it, rest, todo, outcomes[0]);
      StandsOn(c, token, a, b, it, rest, todo, n, outcomes[0]);
      OneLess(c, token, b, it, rest, todo, outcomes[0]);
      if InHand(it, rest, pc) {
        HandledWith(c, token, a, b', it, rest, pc.todo, outcomes[1..], Count(n, outcomes[0]));
      }
    }
  }

  /**
   Once the screening of a new transaction has an answer, whatever the outcomes of its calls: after six at the most
   it is no longer in hand; it is then recorded as decided, or with the note of a catch that had a failure to make up
   for, or not at all after more failures than there are catches.
   */
  lemma FaultyHandling(c: Config, token: Token, a: Db, it: Cursors, rest: seq<Tx>, outcomes: seq<Fault>)
    requires ValidConfig(c) && Inv(c.sq, a) && rest != [] && !IsProcessed(a, rest[0].hash)
    requires LookStep(c, a, token, rest[0]).Some? && |outcomes| >= 6
    ensures var (b, pc, n) := HandleWith(c, token, a, it, rest, LookStep(c, a, token, rest[0]).value, outcomes, 0);
            && (pc == Idle || pc == StartPage(it, rest[1..]))
            && (Ended(c, token, a, b, rest[0], n) || (b == a && n > Tolerance(c, token, rest[0])))
  {
    var todo := LookStep(c, a, token, rest[0]).value;
    assert Stands(c, token, a, a, rest[0], todo, 0);
    HandledWith(c, token, a, a, it, rest, todo, outcomes, 0);
  }

  // ---------------------------------------------------------------- what a failed commit leaves behind

  /** No mark goes through on a recorded transaction, so the catches end the run. */
  lemma {:induction false} MarksRefused(c: Config, token: Token, b: Db, it: Cursors, rest: seq<Tx>, note: string, retry: bool,
                                        outcomes: seq<Fault>, n: nat)
    requires rest != [] && IsProcessed(b, rest[0].hash) && |outcomes| >= if retry then 2 else 1
    ensures var (b', pc, _) := HandleWith(c, token, b, it, rest, Mark(note, retry), outcomes, n);
            b' == b && pc == Idle
    decreases retry
  {
    MarkCommit(c.sq, b, rest[0].hash, Some(note));
    if retry {
      MarksRefused(c, token, b, it, rest, PARSING, false, outcomes[1..], Count(n, outcomes[0]));
    }
  }

  /** A commit whose success the caller does not learn of stands, and the run ends. */
  lemma UnseenCommit(c: Config, token: Token, a: Db, it: Cursors, rest: seq<Tx>, todo: Todo, more: seq<Fault>)
    requires ValidConfig(c) && Inv(c.sq, a) && rest != [] && !IsProcessed(a, rest[0].hash) && |more| >= 2
    requires (todo.CommitCredit? || todo.CommitUnmatched?) && Stands(c, token, a, a, rest[0], todo, 0)
    ensures var (b, pc, _) := HandleWith(c, token, a, it, rest, todo, [Unseen] + more, 0);
            pc == Idle && Commit(c.sq, a, CommitRowsOf(rest[0], token, todo)) == Some(b)
  {
    CommitIsApply(c, token, a, rest[0], todo);
    var b := Commit(c.sq, a, CommitRowsOf(rest[0], token, todo)).value;
    var outcomes := [Unseen] + more;
    assert outcomes[0] == Unseen && outcomes[1..] == more;
    var caught := InsideTry(token, "invalid memo");
    assert HandleStep(c, a, token, it, rest, todo, Unseen) == (b, Handling(it, rest, Mark("invalid memo", caught)));
    MarksRefused(c, token, b, it, rest, "invalid memo", caught, more, 1);
  }

  /** A transaction that others record after the look is left as they recorded it, and the run goes on. */
  lemma RecordedMeanwhile(c: Config, token: Token, b: Db, it: Cursors, rest: seq<Tx>, amount: nat, memo: nat)
    requires rest != [] && IsProcessed(b, rest[0].hash) && rest[0].hash != "" && amount > 0 && memo > 0
    ensures HandleWith(c, token, b, it, rest, Begin(amount, memo), [Fine, Fine], 0) == (b, StartPage(it, rest[1..]), 0)
  {
    assert [Fine, Fine][1..] == [Fine];
  }
}

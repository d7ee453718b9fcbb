/** How far a daemon has come with a list of transactions, as a relation between two states of the tables. */
module Progress {
  import opened Base
  import opened Ledger
  import opened Tables
  import opened Screening
  import opened World
  import opened Verdicts

  /** What stays fixed over a run. */
  datatype Setting = Setting(p: Peers, d: Daemon, wallets: Wallets)

  /** A list to handle, how many of its transactions have been recorded, and whether it was got through. */
  datatype Course = Course(plan: seq<Tx>, handled: nat, ok: bool)

  /** The course z is x followed by y. */
  predicate Joined(x: Course, y: Course, z: Course) {
    z == Course(x.plan + y.plan, |x.plan| + y.handled, y.ok)
  }

  /** Recorded as its own checks decide or by a catch, so not one whose wallet query is not answered. */
  ghost predicate Judged(e: Setting, a: Db, b: Db, tx: Tx, calm: bool) {
    && !Screen(e.d, e.wallets, tx).Unanswered?
    && CreditsMatch(b, e.d.token, tx.hash, Screen(e.d, e.wallets, tx))
    && (Carried(a, b, e.d.token, tx.hash, Screen(e.d, e.wallets, tx)) || Failed(b, e.d.token, tx.hash, Screen(e.d, e.wallets, tx)))
    && (calm ==> Carried(a, b, e.d.token, tx.hash, Screen(e.d, e.wallets, tx)))
  }

  /** What others leave alone and is newly recorded is on the list, and credited or noted as its own checks decide. */
  ghost predicate Gained(e: Setting, a: Db, b: Db, txs: seq<Tx>, calm: bool) {
    forall h :: h in e.p.still && IsProcessed(b, h) && !IsProcessed(a, h) ==>
      exists i :: 0 <= i < |txs| && txs[i].hash == h && Judged(e, a, b, txs[i], calm)
  }

  /**
   On the way from a to b, whoever else wrote and whatever failed: the first `handled` transactions are recorded, all
   of them if the course is ok; nothing else is, of what others leave alone; and each is credited as its own checks
   decide or not at all. Without faults each decision is carried out, the course breaks off only where it stalls, and
   alone the tables are exactly as settled.
   */
  ghost predicate Left(e: Setting, a: Db, b: Db, x: Course, calm: bool) {
    && Sound(e.p.sq, a, b)
    && x.handled <= |x.plan|
    && (x.ok ==> x.handled == |x.plan|)
    && (forall i :: 0 <= i < x.handled ==> IsProcessed(b, x.plan[i].hash))
    && Gained(e, a, b, x.plan[..x.handled], calm)
    && (calm && !x.ok ==> Stalled(e, b, x))
    && (e.p.alone && calm ==> SettleAll(e.p.sq, e.d, e.wallets, a, x.plan) == (b, x.ok))
  }

  /** Someone else records the transaction, or its wallet query is not answered and it is not recorded. */
  ghost predicate Stuck(e: Setting, b: Db, tx: Tx) {
    tx.hash !in e.p.still || (Screen(e.d, e.wallets, tx) == Unanswered && !IsProcessed(b, tx.hash))
  }

  /** The course ended at such a transaction. */
  ghost predicate Stalled(e: Setting, b: Db, x: Course) {
    || (x.handled < |x.plan| && Stuck(e, b, x.plan[x.handled]))
    || (0 < x.handled <= |x.plan| && x.plan[x.handled - 1].hash !in e.p.still)
  }

  /** Undisturbed and without faults, handling ends exactly as settled. */
  ghost predicate Outcome(e: Setting, a: Db, b: Db, ok: bool, tx: Tx) {
    match Settle(e.p.sq, e.d, e.wallets, a, tx)
    case Some(settled) => ok && b == settled
    case None => !ok && b == a
  }

  // ---------------------------------------------------------------- pieces of a course

  lemma LeftNothing(e: Setting, a: Db, b: Db, calm: bool)
    requires Moved(e.p, a, b)
    ensures Left(e, a, b, Course([], 0, true), calm)
  {
  }

  lemma LeftOne(e: Setting, a: Db, b: Db, tx: Tx, ok: bool, calm: bool) returns (handled: nat)
    requires Sound(e.p.sq, a, b) && (ok ==> IsProcessed(b, tx.hash))
    requires RecordsOnly(e.p, a, b, tx.hash)
    requires tx.hash in e.p.still && !IsProcessed(a, tx.hash) && IsProcessed(b, tx.hash) ==> Judged(e, a, b, tx, calm)
    requires calm && !ok ==> Stuck(e, b, tx)
    requires e.p.alone && calm ==> Outcome(e, a, b, ok, tx)
    ensures Left(e, a, b, Course([tx], handled, ok), calm)
  {
    handled := if IsProcessed(b, tx.hash) then 1 else 0;
    forall h | h in e.p.still && IsProcessed(b, h) && !IsProcessed(a, h)
      ensures exists i :: 0 <= i < |[tx][..handled]| && [tx][..handled][i].hash == h
                          && Judged(e, a, b, [tx][..handled][i], calm)
    {
      assert h == tx.hash && [tx][..handled][0] == tx;
    }
    if e.p.alone && calm {
      assert [tx][1..] == [];
    }
  }

  lemma JudgedStays(e: Setting, a: Db, b: Db, c: Db, tx: Tx, calm: bool, whole: bool)
    requires Inv(e.p.sq, b) && Sound(e.p.sq, b, c) && IsProcessed(b, tx.hash)
    requires Judged(e, a, b, tx, calm) && (whole ==> calm)
    ensures Judged(e, a, c, tx, whole)
  {
    MatchStays(e.p.sq, b, c, e.d.token, tx.hash, Screen(e.d, e.wallets, tx));
    if Carried(a, b, e.d.token, tx.hash, Screen(e.d, e.wallets, tx)) {
      CarriedStays(e.p.sq, a, b, c, e.d.token, tx.hash, Screen(e.d, e.wallets, tx));
    } else {
      FailedStays(b, c, e.d.token, tx.hash, Screen(e.d, e.wallets, tx));
    }
  }

  lemma JudgedSince(e: Setting, a: Db, b: Db, c: Db, tx: Tx, calm: bool, whole: bool)
    requires Inv(e.p.sq, a) && Sound(e.p.sq, a, b)
    requires Judged(e, b, c, tx, calm) && (whole ==> calm)
    ensures Judged(e, a, c, tx, whole)
  {
    if Carried(b, c, e.d.token, tx.hash, Screen(e.d, e.wallets, tx)) {
      CarriedSince(e.p.sq, a, b, c, e.d.token, tx.hash, Screen(e.d, e.wallets, tx));
    }
  }

  lemma JudgedEarlier(e: Setting, a: Db, b: Db, c: Db, txs: seq<Tx>, h: Hash, calm: bool, whole: bool) returns (i: nat)
    requires Inv(e.p.sq, a) && Sound(e.p.sq, a, b) && Sound(e.p.sq, b, c) && (whole ==> calm)
    requires Gained(e, a, b, txs, calm) && h in e.p.still && !IsProcessed(a, h) && IsProcessed(b, h)
    ensures i < |txs| && txs[i].hash == h && Judged(e, a, c, txs[i], whole)
  {
    i :| 0 <= i < |txs| && txs[i].hash == h && Judged(e, a, b, txs[i], calm);
    JudgedStays(e, a, b, c, txs[i], calm, whole);
  }

  lemma JudgedLater(e: Setting, a: Db, b: Db, c: Db, txs: seq<Tx>, h: Hash, calm: bool, whole: bool) returns (i: nat)
    requires Inv(e.p.sq, a) && Sound(e.p.sq, a, b) && Sound(e.p.sq, b, c) && (whole ==> calm)
    requires Gained(e, b, c, txs, calm) && h in e.p.still && !IsProcessed(b, h) && IsProcessed(c, h)
    ensures i < |txs| && txs[i].hash == h && Judged(e, a, c, txs[i], whole)
  {
    i :| 0 <= i < |txs| && txs[i].hash == h && Judged(e, b, c, txs[i], calm);
    JudgedSince(e, a, b, c, txs[i], calm, whole);
  }

  lemma GainedThen(e: Setting, a: Db, b: Db, c: Db, front: seq<Tx>, rest: seq<Tx>, calm1: bool, calm2: bool, whole: bool)
    requires Inv(e.p.sq, a) && Sound(e.p.sq, a, b) && Sound(e.p.sq, b, c) && (whole ==> calm1 && calm2)
    requires Gained(e, a, b, front, calm1) && Gained(e, b, c, rest, calm2)
    ensures Gained(e, a, c, front + rest, whole)
  {
    var txs := front + rest;
    forall h | h in e.p.still && IsProcessed(c, h) && !IsProcessed(a, h)
      ensures exists i :: 0 <= i < |txs| && txs[i].hash == h && Judged(e, a, c, txs[i], whole)
    {
      var i: nat;
      if IsProcessed(b, h) {
        i := JudgedEarlier(e, a, b, c, front, h, calm1, whole);
        assert txs[i] == front[i];
      } else {
        i := JudgedLater(e, a, b, c, rest, h, calm2, whole);
        assert txs[|front| + i] == rest[i];
      }
    }
  }

  lemma RecordedStays(a: Db, b: Db, txs: seq<Tx>, n: nat)
    requires Evolves(a, b) && n <= |txs| && forall i :: 0 <= i < n ==> IsProcessed(a, txs[i].hash)
    ensures forall i :: 0 <= i < n ==> IsProcessed(b, txs[i].hash)
  {
    forall i | 0 <= i < n ensures IsProcessed(b, txs[i].hash) {
      EvolvesKeeps(a, b, txs[i].hash);
    }
  }

  /** Two courses one after the other, the first of which was got through. */
  lemma LeftThen(e: Setting, a: Db, b: Db, c: Db, x: Course, y: Course, z: Course, calm1: bool, calm2: bool, whole: bool)
    requires Inv(e.p.sq, a) && x.ok && Joined(x, y, z) && (whole ==> calm1 && calm2)
    requires Left(e, a, b, x, calm1) && Left(e, b, c, y, calm2)
    ensures Left(e, a, c, z, whole)
  {
    SoundTransitive(e.p.sq, a, b, c);
    RecordedStays(b, c, x.plan, x.handled);
    assert x.plan[..x.handled] == x.plan;
    assert z.plan[..z.handled] == x.plan + y.plan[..y.handled];
    GainedThen(e, a, b, c, x.plan, y.plan[..y.handled], calm1, calm2, whole);
    SettleAllConcat(e.p.sq, e.d, e.wallets, a, x.plan, y.plan);
    StallThen(e, c, x, y, z);
  }

  lemma StallThen(e: Setting, c: Db, x: Course, y: Course, z: Course)
    requires Joined(x, y, z)
    ensures Stalled(e, c, y) ==> Stalled(e, c, z)
  {
  }

  /** A course that broke off within the front part of a longer plan. */
  lemma LeftEarly(e: Setting, a: Db, b: Db, x: Course, plan: seq<Tx>, calm: bool)
    requires Left(e, a, b, x, calm) && !x.ok && x.plan <= plan
    ensures Left(e, a, b, x.(plan := plan), calm)
  {
    var rest := plan[|x.plan|..];
    assert plan[..x.handled] == x.plan[..x.handled];
    assert plan == x.plan + rest;
    SettleAllConcat(e.p.sq, e.d, e.wallets, a, x.plan, rest);
    assert Gained(e, a, b, plan[..x.handled], calm);
  }

  /** A course broken off by a fault before anything of it was handled. */
  lemma LeftUnstarted(e: Setting, a: Db, b: Db, plan: seq<Tx>)
    requires Moved(e.p, a, b)
    ensures Left(e, a, b, Course(plan, 0, false), false)
  {
  }

  /** A course that started after others had written. */
  lemma LeftSince(e: Setting, a: Db, b: Db, c: Db, x: Course, calm: bool, whole: bool)
    requires Inv(e.p.sq, a) && Moved(e.p, a, b) && Left(e, b, c, x, calm) && (whole ==> calm)
    ensures Left(e, a, c, x, whole)
  {
    LeftNothing(e, a, b, true);
    assert [] + x.plan == x.plan;
    LeftThen(e, a, b, c, Course([], 0, true), x, x, true, calm, whole);
  }

  // ---------------------------------------------------------------- what a course means

  /** Nobody else records these transactions, and none of them leaves its wallet query unanswered. */
  ghost predicate Clear(e: Setting, txs: seq<Tx>) {
    forall i :: 0 <= i < |txs| ==> txs[i].hash in e.p.still && Screen(e.d, e.wallets, txs[i]) != Unanswered
  }

  lemma ClearThrough(e: Setting, a: Db, b: Db, x: Course, calm: bool)
    requires Left(e, a, b, x, calm)
    ensures calm && Clear(e, x.plan) ==> x.ok
  {
  }

  /** A list on which a page handler breaks off. */
  lemma BreaksOff(e: Setting, a: Db, b: Db, x: Course, plan: seq<Tx>, calm: bool)
    requires Left(e, a, b, x, calm) && !x.ok && x.plan <= plan
    ensures Left(e, a, b, x.(plan := plan), calm) && !(calm && Clear(e, plan))
  {
    LeftEarly(e, a, b, x, plan, calm);
    ClearThrough(e, a, b, x.(plan := plan), calm);
  }

  /** Of the transactions that others leave alone, exactly the handled ones are newly recorded. */
  lemma LeftRecords(e: Setting, a: Db, b: Db, x: Course, calm: bool, h: Hash)
    requires Left(e, a, b, x, calm)
    ensures h in e.p.still ==> (IsProcessed(b, h) <==> IsProcessed(a, h) || h in Hashes(x.plan[..x.handled]))
    ensures h in Hashes(x.plan[..x.handled]) ==> IsProcessed(b, h)
  {
    EvolvesKeeps(a, b, h);
    var front := x.plan[..x.handled];
    if h in e.p.still && IsProcessed(b, h) && !IsProcessed(a, h) {
      var i :| 0 <= i < |front| && front[i].hash == h && Judged(e, a, b, front[i], calm);
    }
    if h in Hashes(front) {
      var i :| 0 <= i < |front| && front[i].hash == h;
      assert IsProcessed(b, x.plan[i].hash);
    }
  }

  /**
   Without faults, on transactions that nobody else records: the course is got through iff none of them blocks, and
   otherwise it handles exactly those before the first that blocks.
   */
  lemma LeftReaches(e: Setting, a: Db, b: Db, x: Course)
    requires Left(e, a, b, x, true) && Consistent(x.plan) && forall i :: 0 <= i < |x.plan| ==> x.plan[i].hash in e.p.still
    ensures x.handled == Reach(e.d, e.wallets, Keys(a), x.plan)
    ensures x.ok <==> x.handled == |x.plan|
  {
    var n := Reach(e.d, e.wallets, Keys(a), x.plan);
    forall i | 0 <= i < x.handled ensures !Blocks(e.d, e.wallets, Keys(a), x.plan[i]) {
      HandledAnswers(e, a, b, x, i);
    }
    if !x.ok {
      var tx := x.plan[x.handled];
      assert Stuck(e, b, tx);
      EvolvesKeeps(a, b, tx.hash);
      KeysAreProcessed(a, tx.hash);
      assert Blocks(e.d, e.wallets, Keys(a), tx);
    }
  }

  lemma HandledAnswers(e: Setting, a: Db, b: Db, x: Course, i: nat)
    requires Left(e, a, b, x, true) && Consistent(x.plan) && i < x.handled && x.plan[i].hash in e.p.still
    ensures !Blocks(e.d, e.wallets, Keys(a), x.plan[i])
  {
    var h := x.plan[i].hash;
    KeysAreProcessed(a, h);
    if !IsProcessed(a, h) {
      var front := x.plan[..x.handled];
      var j :| 0 <= j < |front| && front[j].hash == h && Judged(e, a, b, front[j], true);
      assert x.plan[j] == x.plan[i];
    }
  }

  /** So with nobody else writing the processed transactions are known exactly. */
  lemma LeftKeys(e: Setting, a: Db, b: Db, x: Course, calm: bool)
    requires Left(e, a, b, x, calm) && forall h :: h in e.p.still
    ensures Keys(b) == Keys(a) + Hashes(x.plan[..x.handled])
  {
    forall h ensures h in Keys(b) <==> h in Keys(a) + Hashes(x.plan[..x.handled]) {
      LeftRecords(e, a, b, x, calm, h);
      KeysAreProcessed(a, h);
      KeysAreProcessed(b, h);
    }
  }
}

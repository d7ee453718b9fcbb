/**
 Which transactions a run without faults, undisturbed, really records. Nothing catches what the wallet query of a
 jetton daemon throws, so a transaction from an address that does not answer it ends the run; the plan behind it is
 left. The exact conditions for runs that get through are completed here by what that costs.
 */
module Completion {
  import opened Base
  import opened Ledger
  import opened Tables
  import opened Screening
  import opened Crawl
  import opened Coverage
  import opened Recovery

  /** The tables after a run that met `head` first and `tail` last. */
  function RunTables(sq: Sequences, d: Daemon, wallets: Wallets, db: Db, head: seq<Tx>, tail: seq<Tx>): Db {
    SettleAll(sq, d, wallets, db, Itinerary(Keys(db), head, tail, d.limit)).0
  }

  /** No unrecorded transaction of the ledger blocks. */
  ghost predicate NoneBlocks(d: Daemon, wallets: Wallets, done: set<Hash>, ledger: seq<Tx>) {
    forall i :: 0 <= i < |ledger| ==> !Blocks(d, wallets, done, Nth(ledger, i))
  }

  // ---------------------------------------------------------------- plans and what blocks on them

  lemma PlanConsistent(stop: Option<nat>, head: seq<Tx>, tail: seq<Tx>, limit: nat)
    requires head <= tail && ValidLedger(tail)
    ensures Consistent(Plan(stop, head, tail, limit))
  {
    var plan := Plan(stop, head, tail, limit);
    PlanOnLedger(stop, head, tail, limit);
    forall i, j | 0 <= i < |plan| && 0 <= j < |plan| && plan[i].hash == plan[j].hash ensures plan[i] == plan[j] {
      assert plan[i] in plan && plan[j] in plan;
      SameOnLedger(tail, plan[i], plan[j]);
    }
  }

  lemma SameOnLedger(ledger: seq<Tx>, x: Tx, y: Tx)
    requires ValidLedger(ledger) && x in ledger && y in ledger && x.hash == y.hash
    ensures x == y
  {
    var i :| 0 <= i < |ledger| && ledger[i] == x;
    var j :| 0 <= j < |ledger| && ledger[j] == y;
  }

  lemma IndexOf(ledger: seq<Tx>, tx: Tx) returns (i: nat)
    requires tx in ledger
    ensures i < |ledger| && Nth(ledger, i) == tx
  {
    var p :| 0 <= p < |ledger| && ledger[p] == tx;
    i := |ledger| - 1 - p;
  }

  /** A transaction that blocks is not among those before the first that blocks, under any of its listings. */
  lemma BlockedUnhandled(d: Daemon, wallets: Wallets, done: set<Hash>, plan: seq<Tx>, ledger: seq<Tx>, x: nat)
    requires ValidLedger(ledger) && x < |ledger| && Blocks(d, wallets, done, Nth(ledger, x))
    requires forall t :: t in plan ==> t in ledger
    ensures Nth(ledger, x).hash !in done + Hashes(plan[..Reach(d, wallets, done, plan)])
  {
    var front := plan[..Reach(d, wallets, done, plan)];
    forall i | 0 <= i < |front| ensures front[i].hash != Nth(ledger, x).hash {
      assert plan[i] in plan;
      if front[i].hash == Nth(ledger, x).hash {
        SameOnLedger(ledger, plan[i], Nth(ledger, x));
        assert false;
      }
    }
  }

  /** If nothing on the ledger blocks, nothing on the plan does. */
  lemma NothingInTheWay(d: Daemon, wallets: Wallets, done: set<Hash>, plan: seq<Tx>, ledger: seq<Tx>)
    requires NoneBlocks(d, wallets, done, ledger) && forall t :: t in plan ==> t in ledger
    ensures Reach(d, wallets, done, plan) == |plan|
  {
    var n := Reach(d, wallets, done, plan);
    if n < |plan| {
      assert plan[n] in plan;
      var i := IndexOf(ledger, plan[n]);
      assert false;
    }
  }

  // ---------------------------------------------------------------- one run

  /**
   A run gets through iff nothing on its plan blocks, and records exactly what comes before the first that does.
   */
  lemma RunReaches(sq: Sequences, d: Daemon, wallets: Wallets, db: Db, head: seq<Tx>, tail: seq<Tx>)
    requires Inv(sq, db) && head <= tail && ValidLedger(tail)
    ensures var plan := Itinerary(Keys(db), head, tail, d.limit);
            var n := Reach(d, wallets, Keys(db), plan);
            && SettleAll(sq, d, wallets, db, plan).1 == (n == |plan|)
            && Keys(RunTables(sq, d, wallets, db, head, tail)) == Keys(db) + Hashes(plan[..n])
            && Inv(sq, RunTables(sq, d, wallets, db, head, tail))
  {
    PlanConsistent(StopPage(Keys(db), head, d.limit), head, tail, d.limit);
    SettleReach(sq, d, wallets, db, Itinerary(Keys(db), head, tail, d.limit));
    SettleAllKeepsInv(sq, d, wallets, db, Itinerary(Keys(db), head, tail, d.limit));
  }

  /** A run leaves the whole ledger recorded iff nothing on it blocks and a run that gets through would. */
  lemma CompleteIff(sq: Sequences, d: Daemon, wallets: Wallets, db: Db, head: seq<Tx>, tail: seq<Tx>)
    requires Inv(sq, db) && head <= tail && ValidLedger(tail)
    ensures Complete(Keys(RunTables(sq, d, wallets, db, head, tail)), tail) <==>
            && NoneBlocks(d, wallets, Keys(db), tail)
            && Complete(AfterRun(Keys(db), head, tail, d.limit), tail)
  {
    var plan := Itinerary(Keys(db), head, tail, d.limit);
    RunReaches(sq, d, wallets, db, head, tail);
    PlanOnLedger(StopPage(Keys(db), head, d.limit), head, tail, d.limit);
    if NoneBlocks(d, wallets, Keys(db), tail) {
      NothingInTheWay(d, wallets, Keys(db), plan, tail);
      assert plan[..|plan|] == plan;
    } else {
      var x :| 0 <= x < |tail| && Blocks(d, wallets, Keys(db), Nth(tail, x));
      BlockedUnhandled(d, wallets, Keys(db), plan, tail, x);
      assert Nth(tail, x).hash !in Keys(RunTables(sq, d, wallets, db, head, tail));
    }
  }

  /** On a ledger at rest: iff nothing blocks and every unrecorded transaction lies on a page no older than the stop page. */
  lemma QuietRunComplete(sq: Sequences, d: Daemon, wallets: Wallets, db: Db, ledger: seq<Tx>)
    requires Inv(sq, db) && d.limit > 0 && ValidLedger(ledger)
    ensures Complete(Keys(RunTables(sq, d, wallets, db, ledger, ledger)), ledger) <==>
            && NoneBlocks(d, wallets, Keys(db), ledger)
            && match StopPage(Keys(db), ledger, d.limit)
               case None => true
               case Some(k) =>
                 forall i :: 0 <= i < |ledger| && Nth(ledger, i).hash !in Keys(db) ==> i < k * d.limit + d.limit
  {
    CompleteIff(sq, d, wallets, db, ledger, ledger);
    QuietComplete(Keys(db), ledger, d.limit);
  }

  /** Without holes: iff nothing blocks. */
  lemma HolelessRunComplete(sq: Sequences, d: Daemon, wallets: Wallets, db: Db, ledger: seq<Tx>)
    requires Inv(sq, db) && d.limit > 0 && ValidLedger(ledger) && NoHoles(Keys(db), ledger)
    ensures Complete(Keys(RunTables(sq, d, wallets, db, ledger, ledger)), ledger) <==> NoneBlocks(d, wallets, Keys(db), ledger)
  {
    CompleteIff(sq, d, wallets, db, ledger, ledger);
    QuietNoHoles(Keys(db), ledger, d.limit);
  }

  /** With arrivals during the run: iff nothing blocks and the arrivals fit. */
  lemma GrowingRunComplete(sq: Sequences, d: Daemon, wallets: Wallets, db: Db, head: seq<Tx>, tail: seq<Tx>)
    requires Inv(sq, db) && d.limit > 0 && head <= tail && ValidLedger(tail)
    requires NoHoles(Keys(db), head) && ArrivedSince(Keys(db), head, tail)
    ensures Complete(Keys(RunTables(sq, d, wallets, db, head, tail)), tail) <==>
            && NoneBlocks(d, wallets, Keys(db), tail)
            && var arrivals := |tail| - |head|;
               if StopPage(Keys(db), head, d.limit) == Some(0) then arrivals <= d.limit
               else arrivals == 0 || |tail| <= d.limit
  {
    CompleteIff(sq, d, wallets, db, head, tail);
    GrowingComplete(Keys(db), head, tail, d.limit);
  }

  /**
   From any tables: iff nothing blocks and the oldest unrecorded transaction lies on no older page than the newest
   recorded one.
   */
  lemma RecoveringRunComplete(sq: Sequences, d: Daemon, wallets: Wallets, db: Db, ledger: seq<Tx>, m: nat, h: nat)
    requires Inv(sq, db) && d.limit > 0 && ValidLedger(ledger)
    requires NewestProcessed(Keys(db), ledger, m) && OldestUnprocessed(Keys(db), ledger, h)
    ensures Complete(Keys(RunTables(sq, d, wallets, db, ledger, ledger)), ledger) <==>
            NoneBlocks(d, wallets, Keys(db), ledger) && h / d.limit <= m / d.limit
  {
    CompleteIff(sq, d, wallets, db, ledger, ledger);
    RecoveryIff(Keys(db), ledger, d.limit, m, h);
  }

  /** After an abort anywhere, `db` being what it left, and any arrivals: iff nothing blocks and no hole is out of reach. */
  lemma RunAfterAbort(sq: Sequences, d: Daemon, wallets: Wallets, done: set<Hash>, db: Db, ledger: seq<Tx>, later: seq<Tx>,
                      handled: nat) returns (p: nat, j: nat, b: nat)
    requires Inv(sq, db) && d.limit > 0 && ledger <= later && ValidLedger(later) && NoHoles(done, ledger)
    requires handled <= |Itinerary(done, ledger, ledger, d.limit)|
    requires Keys(db) == done + Hashes(Itinerary(done, ledger, ledger, d.limit)[..handled])
    requires ArrivedSince(Keys(db), ledger, later)
    ensures Aborted(done, Keys(db), ledger, later, d.limit, p, j, b)
    ensures Complete(Keys(RunTables(sq, d, wallets, db, later, later)), later) <==>
            && NoneBlocks(d, wallets, Keys(db), later)
            && (!HasHole(d.limit, p, j, b)
                || (|later| - |ledger|) % d.limit + HoleEnd(d.limit, p, j) <= j * d.limit + d.limit)
  {
    CompleteIff(sq, d, wallets, db, later, later);
    p, j, b := AbortThenRun(done, ledger, later, d.limit, handled);
  }

  /** After an abort anywhere and whole pages of arrivals: iff nothing blocks. */
  lemma AlignedRunComplete(sq: Sequences, d: Daemon, wallets: Wallets, done: set<Hash>, db: Db, ledger: seq<Tx>, later: seq<Tx>,
                           handled: nat)
    requires Inv(sq, db) && d.limit > 0 && ledger <= later && ValidLedger(later) && NoHoles(done, ledger)
    requires handled <= |Itinerary(done, ledger, ledger, d.limit)|
    requires Keys(db) == done + Hashes(Itinerary(done, ledger, ledger, d.limit)[..handled])
    requires ArrivedSince(Keys(db), ledger, later) && (|later| - |ledger|) % d.limit == 0
    ensures Complete(Keys(RunTables(sq, d, wallets, db, later, later)), later) <==> NoneBlocks(d, wallets, Keys(db), later)
  {
    CompleteIff(sq, d, wallets, db, later, later);
    AlignedRecovery(done, ledger, later, d.limit, handled);
  }

  // ---------------------------------------------------------------- one run after another

  /** The tables after one run on each ledger in turn. */
  function RunsTables(sq: Sequences, d: Daemon, wallets: Wallets, db: Db, ledgers: seq<seq<Tx>>): Db {
    if ledgers == [] then db
    else
      var ledger := ledgers[|ledgers| - 1];
      RunTables(sq, d, wallets, RunsTables(sq, d, wallets, db, ledgers[..|ledgers| - 1]), ledger, ledger)
  }

  lemma FewerBlock(d: Daemon, wallets: Wallets, done: set<Hash>, now: set<Hash>, older: seq<Tx>, ledger: seq<Tx>)
    requires done <= now && older <= ledger && NoneBlocks(d, wallets, done, ledger)
    ensures NoneBlocks(d, wallets, now, older)
  {
    forall i | 0 <= i < |older| ensures !Blocks(d, wallets, now, Nth(older, i)) {
      assert Nth(older, i) == Nth(ledger, i + (|ledger| - |older|));
    }
  }

  /** If nothing on the last ledger blocks, every run gets through. */
  lemma {:induction false} RunsGetThrough(sq: Sequences, d: Daemon, wallets: Wallets, db: Db, ledgers: seq<seq<Tx>>)
    requires Inv(sq, db) && Growing(ledgers)
    requires ledgers != [] ==> NoneBlocks(d, wallets, Keys(db), ledgers[|ledgers| - 1])
    ensures Keys(RunsTables(sq, d, wallets, db, ledgers)) == AfterRuns(Keys(db), ledgers, d.limit)
    ensures Keys(db) <= AfterRuns(Keys(db), ledgers, d.limit) && Inv(sq, RunsTables(sq, d, wallets, db, ledgers))
    decreases |ledgers|
  {
    if ledgers != [] {
      var last := |ledgers| - 1;
      var ledger, init := ledgers[last], ledgers[..last];
      if init != [] {
        assert init[|init| - 1] == ledgers[last - 1] <= ledger;
        FewerBlock(d, wallets, Keys(db), Keys(db), init[|init| - 1], ledger);
      }
      RunsGetThrough(sq, d, wallets, db, init);
      var before := RunsTables(sq, d, wallets, db, init);
      FewerBlock(d, wallets, Keys(db), Keys(before), ledger, ledger);
      LastRunThrough(sq, d, wallets, before, ledger);
    }
  }

  lemma LastRunThrough(sq: Sequences, d: Daemon, wallets: Wallets, db: Db, ledger: seq<Tx>)
    requires Inv(sq, db) && ValidLedger(ledger) && NoneBlocks(d, wallets, Keys(db), ledger)
    ensures Keys(RunTables(sq, d, wallets, db, ledger, ledger)) == AfterRun(Keys(db), ledger, ledger, d.limit)
    ensures Inv(sq, RunTables(sq, d, wallets, db, ledger, ledger))
  {
    var plan := Itinerary(Keys(db), ledger, ledger, d.limit);
    RunReaches(sq, d, wallets, db, ledger, ledger);
    PlanOnLedger(StopPage(Keys(db), ledger, d.limit), ledger, ledger, d.limit);
    NothingInTheWay(d, wallets, Keys(db), plan, ledger);
    assert plan[..|plan|] == plan;
  }

  lemma BlockedStays(sq: Sequences, d: Daemon, wallets: Wallets, db: Db, now: seq<Tx>, ledger: seq<Tx>, x: nat)
    requires Inv(sq, db) && ValidLedger(now) && ValidLedger(ledger) && now <= ledger
    requires x < |ledger| && Blocks(d, wallets, Keys(db), Nth(ledger, x))
    ensures Blocks(d, wallets, Keys(RunTables(sq, d, wallets, db, now, now)), Nth(ledger, x))
    ensures Inv(sq, RunTables(sq, d, wallets, db, now, now))
  {
    RunReaches(sq, d, wallets, db, now, now);
    PlanOnLedger(StopPage(Keys(db), now, d.limit), now, now, d.limit);
    BlockedUnhandled(d, wallets, Keys(db), Itinerary(Keys(db), now, now, d.limit), ledger, x);
  }

  /** No run ever records a transaction that blocks. */
  lemma {:induction false} BlockedForGood(sq: Sequences, d: Daemon, wallets: Wallets, db: Db, ledgers: seq<seq<Tx>>,
                                          ledger: seq<Tx>, x: nat)
    requires Inv(sq, db) && Growing(ledgers) && ValidLedger(ledger)
    requires forall i :: 0 <= i < |ledgers| ==> ledgers[i] <= ledger
    requires x < |ledger| && Blocks(d, wallets, Keys(db), Nth(ledger, x))
    ensures Blocks(d, wallets, Keys(RunsTables(sq, d, wallets, db, ledgers)), Nth(ledger, x))
    ensures Inv(sq, RunsTables(sq, d, wallets, db, ledgers))
    decreases |ledgers|
  {
    if ledgers != [] {
      var init := ledgers[..|ledgers| - 1];
      BlockedForGood(sq, d, wallets, db, init, ledger, x);
      BlockedStays(sq, d, wallets, RunsTables(sq, d, wallets, db, init), ledgers[|ledgers| - 1], ledger, x);
    }
  }

  /**
   As long as transactions arrive only between runs, any run leaves the ledger recorded as a whole iff nothing on it
   blocks.
   */
  lemma RunsComplete(sq: Sequences, d: Daemon, wallets: Wallets, db: Db, ledgers: seq<seq<Tx>>)
    requires Inv(sq, db) && d.limit > 0 && ledgers != [] && Growing(ledgers) && NoHoles(Keys(db), ledgers[0])
    requires ArrivedSince(Keys(db), ledgers[0], ledgers[|ledgers| - 1])
    ensures var ledger := ledgers[|ledgers| - 1];
            Complete(Keys(RunsTables(sq, d, wallets, db, ledgers)), ledger) <==> NoneBlocks(d, wallets, Keys(db), ledger)
  {
    var ledger := ledgers[|ledgers| - 1];
    if NoneBlocks(d, wallets, Keys(db), ledger) {
      RunsGetThrough(sq, d, wallets, db, ledgers);
      EveryRunCompletes(Keys(db), ledgers, d.limit);
    } else {
      var x :| 0 <= x < |ledger| && Blocks(d, wallets, Keys(db), Nth(ledger, x));
      BlockedForGood(sq, d, wallets, db, ledgers, ledger, x);
      assert Nth(ledger, x).hash !in Keys(RunsTables(sq, d, wallets, db, ledgers));
    }
  }

  // ---------------------------------------------------------------- what is recorded all the same

  /** In the order a quiet run handles them, index i comes before index x: on an older page, or newer on the same one. */
  predicate Ahead(limit: nat, i: nat, x: nat)
    requires limit > 0
  {
    i / limit > x / limit || (i / limit == x / limit && i < x)
  }

  /** No transaction that blocks comes before index i or stands there. */
  ghost predicate AheadOfAll(d: Daemon, wallets: Wallets, done: set<Hash>, ledger: seq<Tx>, i: nat)
    requires d.limit > 0
  {
    forall x :: 0 <= x < |ledger| && Blocks(d, wallets, done, Nth(ledger, x)) ==> Ahead(d.limit, i, x)
  }

  /** What lies in the shape that the break left is ahead of everything outside it that may block, and the reverse. */
  lemma ShapeIsAhead(limit: nat, j: nat, b: nat, i: nat, x: nat)
    requires limit > 0 && b <= limit
    ensures InShape(limit, j, b, i) && !InShape(limit, j, b, x) ==> Ahead(limit, i, x)
    ensures b < limit && x == j * limit + b && Ahead(limit, i, x) ==> InShape(limit, j, b, i)
  {
    PageEnd(i, j, limit);
    PageEnd(x, j, limit);
    if j > 0 {
      PageEnd(x, j - 1, limit);
    }
  }

  /**
   From a state without holes, a quiet run records exactly the transactions ahead of all that block, besides what was
   recorded before.
   */
  lemma ReachedIndices(d: Daemon, wallets: Wallets, done: set<Hash>, ledger: seq<Tx>, i: nat)
    requires d.limit > 0 && ValidLedger(ledger) && NoHoles(done, ledger) && i < |ledger|
    ensures var plan := Itinerary(done, ledger, ledger, d.limit);
            Nth(ledger, i).hash in done + Hashes(plan[..Reach(d, wallets, done, plan)]) <==>
            Nth(ledger, i).hash in done || AheadOfAll(d, wallets, done, ledger, i)
  {
    var plan := Itinerary(done, ledger, ledger, d.limit);
    var n := Reach(d, wallets, done, plan);
    PlanOnLedger(StopPage(done, ledger, d.limit), ledger, ledger, d.limit);
    var j, b := AbortShape(done, ledger, d.limit, n);
    forall x | 0 <= x < |ledger| && Blocks(d, wallets, done, Nth(ledger, x))
      ensures !InShape(d.limit, j, b, x) && (InShape(d.limit, j, b, i) ==> Ahead(d.limit, i, x))
    {
      BlockedUnhandled(d, wallets, done, plan, ledger, x);
      ShapeIsAhead(d.limit, j, b, i, x);
    }
    if n == |plan| {
      assert plan[..n] == plan;
      QuietNoHoles(done, ledger, d.limit);
    } else {
      var x := FirstBlocked(d, wallets, done, ledger, plan, n, j, b);
      ShapeIsAhead(d.limit, j, b, i, x);
    }
  }

  /** Without holes a run gets through iff nothing on the ledger blocks. */
  lemma ReachesAll(d: Daemon, wallets: Wallets, done: set<Hash>, ledger: seq<Tx>)
    requires d.limit > 0 && ValidLedger(ledger) && NoHoles(done, ledger)
    ensures var plan := Itinerary(done, ledger, ledger, d.limit);
            Reach(d, wallets, done, plan) == |plan| <==> NoneBlocks(d, wallets, done, ledger)
  {
    var plan := Itinerary(done, ledger, ledger, d.limit);
    PlanOnLedger(StopPage(done, ledger, d.limit), ledger, ledger, d.limit);
    if NoneBlocks(d, wallets, done, ledger) {
      NothingInTheWay(d, wallets, done, plan, ledger);
    } else {
      var x :| 0 <= x < |ledger| && Blocks(d, wallets, done, Nth(ledger, x));
      BlockedUnhandled(d, wallets, done, plan, ledger, x);
      QuietNoHoles(done, ledger, d.limit);
      assert plan[..|plan|] == plan;
    }
  }

  lemma FirstBlocked(d: Daemon, wallets: Wallets, done: set<Hash>, ledger: seq<Tx>, plan: seq<Tx>, n: nat, j: nat, b: nat)
      returns (x: nat)
    requires ValidLedger(ledger) && n == Reach(d, wallets, done, plan) < |plan| && forall t :: t in plan ==> t in ledger
    requires plan[n].hash in Hashes(plan[..n]) || BehindBlock(ledger, d.limit, j, b, plan, n)
    ensures b < d.limit && x == j * d.limit + b < |ledger| && Nth(ledger, x) == plan[n]
    ensures Blocks(d, wallets, done, Nth(ledger, x))
  {
    assert plan[n] in plan;
    var i := IndexOf(ledger, plan[n]);
    BlockedUnhandled(d, wallets, done, plan, ledger, i);
    x := j * d.limit + b;
  }

  /** The same on tables. */
  lemma RecordedIndices(sq: Sequences, d: Daemon, wallets: Wallets, db: Db, ledger: seq<Tx>, i: nat)
    requires Inv(sq, db) && d.limit > 0 && ValidLedger(ledger) && NoHoles(Keys(db), ledger) && i < |ledger|
    ensures Nth(ledger, i).hash in Keys(RunTables(sq, d, wallets, db, ledger, ledger)) <==>
            Nth(ledger, i).hash in Keys(db) || AheadOfAll(d, wallets, Keys(db), ledger, i)
  {
    RunReaches(sq, d, wallets, db, ledger, ledger);
    ReachedIndices(d, wallets, Keys(db), ledger, i);
  }

  // ---------------------------------------------------------------- trying again does not help

  /** Recorded transactions and then one that blocks: the tables stay as they are. */
  lemma StopsThere(sq: Sequences, d: Daemon, wallets: Wallets, db: Db, pre: seq<Tx>, rest: seq<Tx>, plan: seq<Tx>)
    requires plan == pre + rest && Hashes(pre) <= Keys(db) && rest != [] && Blocks(d, wallets, Keys(db), rest[0])
    ensures SettleAll(sq, d, wallets, db, plan) == (db, false)
  {
    SettleAllConcat(sq, d, wallets, db, pre, rest);
    SettleAllIdempotent(sq, d, wallets, db, pre);
    SettleBlocks(sq, d, wallets, db, rest[0]);
  }

  /** A ledger with nothing recorded whose oldest page starts with index j * limit. */
  lemma OldestFirst(done: set<Hash>, ledger: seq<Tx>, limit: nat, j: nat)
    requires limit > 0 && j * limit < |ledger| <= j * limit + limit
    requires forall i :: 0 <= i < |ledger| ==> Nth(ledger, i).hash !in done
    ensures Itinerary(done, ledger, ledger, limit) == Pages(ledger, limit, j)
  {
    NoStop(done, ledger, limit);
    var last := LastPage(ledger, limit);
    PlanFrom(None, ledger, ledger, limit, last);
    assert [] + Pages(ledger, limit, last) == Pages(ledger, limit, last);
    PageFits(ledger, limit, j);
    PageFits(ledger, limit, j + 1);
    assert (j + 1) * limit == j * limit + limit;
    PageFits(ledger, limit, j + 2);
    assert (j + 2) * limit == (j + 1) * limit + limit;
    if last > j {
      PagesUnfold(ledger, limit, last);
      assert PageNo(ledger, limit, last) == [];
    }
  }

  lemma FirstOfPages(ledger: seq<Tx>, limit: nat, j: nat)
    requires limit > 0 && j * limit < |ledger|
    ensures Pages(ledger, limit, j) != [] && Pages(ledger, limit, j)[0] == Nth(ledger, j * limit)
  {
    PagesUnfold(ledger, limit, j);
    PageAt(ledger, limit, j, 0);
  }

  /** The tables of a broken run, as seen from the start of the next. */
  ghost predicate Broken(d: Daemon, wallets: Wallets, now: set<Hash>, ledger: seq<Tx>, p: nat, j: nat, b: nat) {
    && d.limit > 0 && ValidLedger(ledger) && b < d.limit && p <= |ledger| && j * d.limit + b < p
    && (forall i :: 0 <= i < |ledger| ==> (Nth(ledger, i).hash in now <==> i >= p || InShape(d.limit, j, b, i)))
    && Blocks(d, wallets, now, Nth(ledger, j * d.limit + b))
  }

  lemma BlockRecorded(done: set<Hash>, ledger: seq<Tx>, limit: nat, j: nat, n: nat)
    requires limit > 0 && n <= |PageNo(ledger, limit, j)|
    requires forall i :: j * limit <= i < j * limit + n && i < |ledger| ==> Nth(ledger, i).hash in done
    ensures Hashes(PageNo(ledger, limit, j)[..n]) <= done
  {
    var pre := PageNo(ledger, limit, j)[..n];
    forall h | h in Hashes(pre) ensures h in done {
      var t :| 0 <= t < |pre| && pre[t].hash == h;
      PageAt(ledger, limit, j, t);
    }
  }

  /** A plan whose stop page, `page`, holds the break at position b. */
  lemma StopsOnPage(sq: Sequences, d: Daemon, wallets: Wallets, db: Db, page: seq<Tx>, b: nat, pages: seq<Tx>, plan: seq<Tx>)
    requires b < |page| && Hashes(page[..b]) <= Keys(db) && Blocks(d, wallets, Keys(db), page[b]) && plan == page + pages
    ensures SettleAll(sq, d, wallets, db, plan) == (db, false)
  {
    var pre, rest := page[..b], page[b..] + pages;
    assert plan == pre + rest;
    StopsThere(sq, d, wallets, db, pre, rest, plan);
  }

  lemma PlanAt(done: set<Hash>, ledger: seq<Tx>, limit: nat, k: nat)
    requires StopPage(done, ledger, limit) == Some(k)
    ensures Itinerary(done, ledger, ledger, limit) == PageNo(ledger, limit, k) + Pages(ledger, limit, k)
  {
    PlanFrom(Some(k), ledger, ledger, limit, k);
  }

  lemma PagesAfter(ledger: seq<Tx>, limit: nat, j: nat, k: nat)
    requires k == j + 1
    ensures Pages(ledger, limit, k) == PageNo(ledger, limit, k) + Pages(ledger, limit, j)
  {
    PagesUnfold(ledger, limit, k);
  }

  lemma BehindRecorded(d: Daemon, wallets: Wallets, now: set<Hash>, ledger: seq<Tx>, p: nat, j: nat, b: nat)
    requires Broken(d, wallets, now, ledger, p, j, b)
    ensures var page := PageNo(ledger, d.limit, j);
            b < |page| && Hashes(page[..b]) <= now && Blocks(d, wallets, now, page[b])
  {
    assert b < |PageNo(ledger, d.limit, j)|;
    PageAt(ledger, d.limit, j, b);
    BlockRecorded(now, ledger, d.limit, j, b);
  }

  /** The next run finds the break on its stop page, behind recorded transactions. */
  lemma NextOnPage(sq: Sequences, d: Daemon, wallets: Wallets, db: Db, ledger: seq<Tx>, p: nat, j: nat, b: nat, m: nat)
    requires Broken(d, wallets, Keys(db), ledger, p, j, b)
    requires NewestProcessed(Keys(db), ledger, m) && m / d.limit == j
    ensures SettleAll(sq, d, wallets, db, Itinerary(Keys(db), ledger, ledger, d.limit)) == (db, false)
  {
    StopIsNewest(Keys(db), ledger, d.limit, m);
    PlanAt(Keys(db), ledger, d.limit, j);
    BehindRecorded(d, wallets, Keys(db), ledger, p, j, b);
    StopsOnPage(sq, d, wallets, db, PageNo(ledger, d.limit, j), b, Pages(ledger, d.limit, j),
                Itinerary(Keys(db), ledger, ledger, d.limit));
  }

  /** A plan that goes twice through a recorded page and then meets the break. */
  lemma StopsAfterPage(sq: Sequences, d: Daemon, wallets: Wallets, db: Db, page: seq<Tx>, pages: seq<Tx>,
                       both: seq<Tx>, plan: seq<Tx>)
    requires Hashes(page) <= Keys(db) && plan == page + both && both == page + pages
    requires pages != [] && Blocks(d, wallets, Keys(db), pages[0])
    ensures SettleAll(sq, d, wallets, db, plan) == (db, false)
  {
    HashesOfConcat(page, page);
    assert plan == (page + page) + pages;
    StopsThere(sq, d, wallets, db, page + page, pages, plan);
  }

  lemma BreakFirst(d: Daemon, wallets: Wallets, now: set<Hash>, ledger: seq<Tx>, p: nat, j: nat)
    requires Broken(d, wallets, now, ledger, p, j, 0)
    ensures Pages(ledger, d.limit, j) != [] && Blocks(d, wallets, now, Pages(ledger, d.limit, j)[0])
  {
    FirstOfPages(ledger, d.limit, j);
  }

  /** The next run stops on the page before it, all of which is recorded. */
  lemma NextAfterPage(sq: Sequences, d: Daemon, wallets: Wallets, db: Db, ledger: seq<Tx>, p: nat, j: nat, k: nat, m: nat)
    requires Broken(d, wallets, Keys(db), ledger, p, j, 0) && k == j + 1 && m == k * d.limit == j * d.limit + d.limit
    requires m < |ledger| && m <= p
    ensures SettleAll(sq, d, wallets, db, Itinerary(Keys(db), ledger, ledger, d.limit)) == (db, false)
  {
    StopsBefore(d, wallets, Keys(db), ledger, p, j, k, m);
    PlanAt(Keys(db), ledger, d.limit, k);
    PagesAfter(ledger, d.limit, j, k);
    BreakFirst(d, wallets, Keys(db), ledger, p, j);
    StopsAfterPage(sq, d, wallets, db, PageNo(ledger, d.limit, k), Pages(ledger, d.limit, j), Pages(ledger, d.limit, k),
                   Itinerary(Keys(db), ledger, ledger, d.limit));
  }

  lemma StopsBefore(d: Daemon, wallets: Wallets, now: set<Hash>, ledger: seq<Tx>, p: nat, j: nat, k: nat, m: nat)
    requires Broken(d, wallets, now, ledger, p, j, 0) && m == k * d.limit == j * d.limit + d.limit
    requires m < |ledger| && m <= p
    ensures StopPage(now, ledger, d.limit) == Some(k) && Hashes(PageNo(ledger, d.limit, k)) <= now
  {
    var page := PageNo(ledger, d.limit, k);
    assert NewestProcessed(now, ledger, m);
    StopIsNewest(now, ledger, d.limit, m);
    DivPage(k, d.limit, 0);
    BlockRecorded(now, ledger, d.limit, k, |page|);
    assert page[..|page|] == page;
  }

  /** Nothing at all has been recorded, and the first transaction blocks. */
  lemma NextFromScratch(sq: Sequences, d: Daemon, wallets: Wallets, db: Db, ledger: seq<Tx>, j: nat)
    requires d.limit > 0 && j * d.limit < |ledger| <= j * d.limit + d.limit
    requires forall i :: 0 <= i < |ledger| ==> Nth(ledger, i).hash !in Keys(db)
    requires Blocks(d, wallets, Keys(db), Nth(ledger, j * d.limit))
    ensures SettleAll(sq, d, wallets, db, Itinerary(Keys(db), ledger, ledger, d.limit)) == (db, false)
  {
    var pages := Pages(ledger, d.limit, j);
    OldestFirst(Keys(db), ledger, d.limit, j);
    FirstOfPages(ledger, d.limit, j);
    assert [] + pages == pages;
    StopsThere(sq, d, wallets, db, [], pages, pages);
  }

  lemma NextBreaks(sq: Sequences, d: Daemon, wallets: Wallets, db: Db, ledger: seq<Tx>, p: nat, j: nat, b: nat)
    requires Broken(d, wallets, Keys(db), ledger, p, j, b)
    ensures SettleAll(sq, d, wallets, db, Itinerary(Keys(db), ledger, ledger, d.limit)) == (db, false)
  {
    if b > 0 || (p < |ledger| && p < j * d.limit + d.limit) {
      var m := NewestOnPage(d, wallets, Keys(db), ledger, p, j, b);
      NextOnPage(sq, d, wallets, db, ledger, p, j, b, m);
    } else if j * d.limit + d.limit < |ledger| {
      assert (j + 1) * d.limit == j * d.limit + d.limit;
      NextAfterPage(sq, d, wallets, db, ledger, p, j, j + 1, (j + 1) * d.limit);
    } else {
      NextFromScratch(sq, d, wallets, db, ledger, j);
    }
  }

  lemma NewestOnPage(d: Daemon, wallets: Wallets, now: set<Hash>, ledger: seq<Tx>, p: nat, j: nat, b: nat) returns (m: nat)
    requires Broken(d, wallets, now, ledger, p, j, b) && (b > 0 || (p < |ledger| && p < j * d.limit + d.limit))
    ensures NewestProcessed(now, ledger, m) && m / d.limit == j
  {
    m := if b > 0 then j * d.limit else p;
    DivPage(j, d.limit, m - j * d.limit);
  }

  /**
   If a quiet run from a state without holes breaks off, running again on the same ledger breaks off again and
   leaves all four tables as they are.
   */
  lemma TryingAgain(sq: Sequences, d: Daemon, wallets: Wallets, db: Db, ledger: seq<Tx>)
    requires Inv(sq, db) && d.limit > 0 && ValidLedger(ledger) && NoHoles(Keys(db), ledger)
    requires !SettleAll(sq, d, wallets, db, Itinerary(Keys(db), ledger, ledger, d.limit)).1
    ensures var after := RunTables(sq, d, wallets, db, ledger, ledger);
            SettleAll(sq, d, wallets, after, Itinerary(Keys(after), ledger, ledger, d.limit)) == (after, false)
  {
    var after := RunTables(sq, d, wallets, db, ledger, ledger);
    RunReaches(sq, d, wallets, db, ledger, ledger);
    var p, j, b := BreakShape(d, wallets, Keys(db), Keys(after), ledger);
    NextBreaks(sq, d, wallets, after, ledger, p, j, b);
  }

  lemma BreakShape(d: Daemon, wallets: Wallets, done: set<Hash>, now: set<Hash>, ledger: seq<Tx>)
      returns (p: nat, j: nat, b: nat)
    requires d.limit > 0 && ValidLedger(ledger) && NoHoles(done, ledger)
    requires var plan := Itinerary(done, ledger, ledger, d.limit);
             var n := Reach(d, wallets, done, plan);
             n < |plan| && now == done + Hashes(plan[..n])
    ensures Broken(d, wallets, now, ledger, p, j, b)
  {
    var plan := Itinerary(done, ledger, ledger, d.limit);
    var n := Reach(d, wallets, done, plan);
    PlanOnLedger(StopPage(done, ledger, d.limit), ledger, ledger, d.limit);
    j, b := AbortShape(done, ledger, d.limit, n);
    var x := FirstBlocked(d, wallets, done, ledger, plan, n, j, b);
    BlockedUnhandled(d, wallets, done, plan, ledger, x);
    p := FirstRecorded(done, ledger, 0);
    IsBroken(d, wallets, done, now, ledger, p, j, b, x);
  }

  lemma IsBroken(d: Daemon, wallets: Wallets, done: set<Hash>, now: set<Hash>, ledger: seq<Tx>, p: nat, j: nat, b: nat, x: nat)
    requires d.limit > 0 && ValidLedger(ledger) && b < d.limit && x == j * d.limit + b < |ledger|
    requires RecordedFrom(done, ledger, p) && done <= now && Nth(ledger, x).hash !in now
    requires Blocks(d, wallets, done, Nth(ledger, x))
    requires forall i :: 0 <= i < |ledger| ==>
               (Nth(ledger, i).hash in now <==> Nth(ledger, i).hash in done || InShape(d.limit, j, b, i))
    ensures Broken(d, wallets, now, ledger, p, j, b)
  {
    assert x < p;
  }
}

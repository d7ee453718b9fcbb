/** What the exact plan of a run means for the tables: no-ops, and which payments are credited. */
module Runs {
  import opened Base
  import opened Ledger
  import opened Tables
  import opened Screening
  import opened Rules
  import opened Verdicts
  import opened Progress
  import opened Crawl
  import opened Coverage
  import opened Recovery
  import opened Completion

  /** A run on a ledger at rest that follows a run which got through leaves all four tables as they are. */
  lemma SecondRunChangesNothing(sq: Sequences, d: Daemon, wallets: Wallets, a: Db, b: Db, head: seq<Tx>, tail: seq<Tx>)
    requires Inv(sq, a) && d.limit > 0 && head <= tail && ValidLedger(tail)
    requires SettleAll(sq, d, wallets, a, Itinerary(Keys(a), head, tail, d.limit)) == (b, true)
    ensures SettleAll(sq, d, wallets, b, Itinerary(Keys(b), tail, tail, d.limit)) == (b, true)
  {
    SettleAllKeepsInv(sq, d, wallets, a, Itinerary(Keys(a), head, tail, d.limit));
    SecondRun(Keys(a), head, tail, d.limit);
    SettleAllIdempotent(sq, d, wallets, b, Itinerary(Keys(b), tail, tail, d.limit));
  }

  /** The stop page is handled as first fetched and again in the replay; on a ledger at rest once would do. */
  lemma StopPageOnceIsEnough(sq: Sequences, d: Daemon, wallets: Wallets, db: Db, ledger: seq<Tx>, k: nat)
    requires Inv(sq, db) && StopPage(Keys(db), ledger, d.limit) == Some(k)
    ensures SettleAll(sq, d, wallets, db, Itinerary(Keys(db), ledger, ledger, d.limit))
            == SettleAll(sq, d, wallets, db, Pages(ledger, d.limit, k))
  {
    var page := PageNo(ledger, d.limit, k);
    PlanFrom(Some(k), ledger, ledger, d.limit, k);
    PagesUnfold(ledger, d.limit, k);
    assert page + [] == page;
    TwiceThenRest(sq, d, wallets, db, page, if k == 0 then [] else Pages(ledger, d.limit, k - 1),
                  Itinerary(Keys(db), ledger, ledger, d.limit), Pages(ledger, d.limit, k));
  }

  lemma TwiceThenRest(sq: Sequences, d: Daemon, wallets: Wallets, db: Db, page: seq<Tx>, rest: seq<Tx>,
                      plan: seq<Tx>, pages: seq<Tx>)
    requires Inv(sq, db) && plan == page + pages && pages == page + rest
    ensures SettleAll(sq, d, wallets, db, plan) == SettleAll(sq, d, wallets, db, pages)
  {
    SettleTwice(sq, d, wallets, db, page);
    SettleAllConcat(sq, d, wallets, db, page, rest);
    SettleAllConcat(sq, d, wallets, db, page + page, rest);
    assert page + (page + rest) == (page + page) + rest;
  }

  /** The credit row a creditable payment is due. */
  function Due(d: Daemon, wallets: Wallets, db: Db, tx: Tx): Credit
    requires Screen(d, wallets, tx).Pay? && FindCharge(db.charges, Screen(d, wallets, tx).memo).Some?
  {
    var Pay(amount, memo) := Screen(d, wallets, tx);
    Credit(tx.hash, amount, d.token, FindCharge(db.charges, memo).value.id)
  }

  /** A new transaction whose fields make it a payment of `credit.amount` for the memo of an existing charge. */
  ghost predicate NewPayment(d: Daemon, wallets: Wallets, db: Db, tx: Tx, charge: Charge, credit: Credit) {
    && tx.hash != "" && !IsProcessed(db, tx.hash) && charge in db.charges
    && Payment(d, wallets, tx, credit.amount, charge.memo)
    && credit == Credit(tx.hash, credit.amount, d.token, charge.id) && credit.amount > 0
  }

  /** Those are the creditable ones, and this credit is what they are due. */
  lemma CreditableByFields(sq: Sequences, d: Daemon, wallets: Wallets, db: Db, tx: Tx)
    requires Inv(sq, db)
    ensures Creditable(d, wallets, db, tx) <==> exists charge, credit :: NewPayment(d, wallets, db, tx, charge, credit)
    ensures Creditable(d, wallets, db, tx) ==>
              forall charge, credit :: NewPayment(d, wallets, db, tx, charge, credit) ==> credit == Due(d, wallets, db, tx)
  {
    if Creditable(d, wallets, db, tx) {
      var Pay(amount, memo) := Screen(d, wallets, tx);
      var charge := FindCharge(db.charges, memo).value;
      Decides(d, wallets, tx, Pay(amount, memo));
      assert NewPayment(d, wallets, db, tx, charge, Credit(tx.hash, amount, d.token, charge.id));
    }
    forall charge, credit | NewPayment(d, wallets, db, tx, charge, credit)
      ensures Creditable(d, wallets, db, tx) && credit == Due(d, wallets, db, tx)
    {
      Decides(d, wallets, tx, Pay(credit.amount, charge.memo));
      FoundByMemo(sq, db, charge);
    }
  }

  /** A charge is found under its own memo. */
  lemma FoundByMemo(sq: Sequences, db: Db, charge: Charge)
    requires Inv(sq, db) && charge in db.charges
    ensures FindCharge(db.charges, charge.memo) == Some(charge) && 0 < charge.memo <= MAX_BIGINT
  {
    var k :| 0 <= k < |db.charges| && db.charges[k] == charge;
    assert Serial(charge.id, charge.memo) == sq.charge(k);
    var found := FindCharge(db.charges, charge.memo).value;
    var j :| 0 <= j < |db.charges| && db.charges[j] == found;
    assert Serial(found.id, found.memo) == sq.charge(j);
  }

  /** A creditable payment that an undisturbed, faultless run handles is credited, in its own amount, to its charge. */
  lemma {:induction false} RunCredits(sq: Sequences, d: Daemon, wallets: Wallets, db: Db, todo: seq<Tx>, tx: Tx)
    requires Inv(sq, db) && SettleAll(sq, d, wallets, db, todo).1 && tx in todo
    requires forall t :: t in todo && t.hash == tx.hash ==> t == tx
    requires Creditable(d, wallets, db, tx)
    ensures var db' := SettleAll(sq, d, wallets, db, todo).0;
            Due(d, wallets, db, tx) in db'.credits && IsPaid(db', tx.hash)
    decreases |todo|
  {
    var first, rest := todo[0], todo[1..];
    var db1 := Settle(sq, d, wallets, db, first).value;
    SettleKeepsInv(sq, d, wallets, db, first);
    SettleAllKeepsInv(sq, d, wallets, db1, rest);
    if first == tx {
      CreditedIff(sq, d, wallets, db, tx);
      var db' := SettleAll(sq, d, wallets, db1, rest).0;
      EvolvesKeeps(db1, db', tx.hash);
      assert db1.credits[|db.credits|] == Due(d, wallets, db, tx);
      assert db'.credits[|db.credits|] == Due(d, wallets, db, tx);
    } else {
      assert tx in rest && first.hash != tx.hash;
      KeysAreProcessed(db, tx.hash);
      KeysAreProcessed(db1, tx.hash);
      FindChargeStable(sq, db, db1, Screen(d, wallets, tx).memo);
      RunCredits(sq, d, wallets, db1, rest, tx);
    }
  }

  /**
   From a state without holes, a faultless run on a ledger at rest credits a creditable payment iff no transaction
   that blocks is handled before it; so if none blocks it credits every one.
   */
  lemma QuietRunCredits(sq: Sequences, d: Daemon, wallets: Wallets, db: Db, ledger: seq<Tx>, i: nat)
    requires Inv(sq, db) && d.limit > 0 && ValidLedger(ledger) && NoHoles(Keys(db), ledger) && i < |ledger|
    requires Creditable(d, wallets, db, Nth(ledger, i))
    ensures var db' := RunTables(sq, d, wallets, db, ledger, ledger);
            && (AheadOfAll(d, wallets, Keys(db), ledger, i) <==> Due(d, wallets, db, Nth(ledger, i)) in db'.credits)
            && (AheadOfAll(d, wallets, Keys(db), ledger, i) <==> IsPaid(db', Nth(ledger, i).hash))
  {
    var tx, db' := Nth(ledger, i), RunTables(sq, d, wallets, db, ledger, ledger);
    KeysAreProcessed(db, tx.hash);
    KeysAreProcessed(db', tx.hash);
    RunReaches(sq, d, wallets, db, ledger, ledger);
    RecordedIndices(sq, d, wallets, db, ledger, i);
    if tx.hash in Keys(db') {
      FrontCredits(sq, d, wallets, db, ledger, tx);
    } else {
      CreditedIsProcessed(sq, db', tx.hash);
      NotCredited(sq, db', tx.hash);
    }
  }

  /** The same by the fields of the transaction: it is credited to the charge of the memo it carries. */
  lemma QuietRunPays(sq: Sequences, d: Daemon, wallets: Wallets, db: Db, ledger: seq<Tx>, i: nat, charge: Charge, credit: Credit)
    requires Inv(sq, db) && d.limit > 0 && ValidLedger(ledger) && NoHoles(Keys(db), ledger) && i < |ledger|
    requires NewPayment(d, wallets, db, Nth(ledger, i), charge, credit)
    ensures AheadOfAll(d, wallets, Keys(db), ledger, i) <==> credit in RunTables(sq, d, wallets, db, ledger, ledger).credits
  {
    CreditableByFields(sq, d, wallets, db, Nth(ledger, i));
    QuietRunCredits(sq, d, wallets, db, ledger, i);
  }

  /** And what blocks is an unrecorded notification from a sender that does not answer, on a jetton's ledger. */
  lemma BlocksByFields(d: Daemon, wallets: Wallets, done: set<Hash>, tx: Tx)
    ensures Blocks(d, wallets, done, tx) <==> tx.hash !in done && d.token != TON && JettonUnanswered(d, wallets, tx)
  {
    Decides(d, wallets, tx, Unanswered);
  }

  lemma FrontCredits(sq: Sequences, d: Daemon, wallets: Wallets, db: Db, ledger: seq<Tx>, tx: Tx)
    requires Inv(sq, db) && d.limit > 0 && ValidLedger(ledger) && tx in ledger && Creditable(d, wallets, db, tx)
    requires tx.hash in Keys(RunTables(sq, d, wallets, db, ledger, ledger))
    ensures var db' := RunTables(sq, d, wallets, db, ledger, ledger);
            Due(d, wallets, db, tx) in db'.credits && IsPaid(db', tx.hash)
  {
    var plan := Itinerary(Keys(db), ledger, ledger, d.limit);
    var n := Reach(d, wallets, Keys(db), plan);
    KeysAreProcessed(db, tx.hash);
    RunReaches(sq, d, wallets, db, ledger, ledger);
    PlanConsistent(StopPage(Keys(db), ledger, d.limit), ledger, ledger, d.limit);
    PlanOnLedger(StopPage(Keys(db), ledger, d.limit), ledger, ledger, d.limit);
    SettleFront(sq, d, wallets, db, plan, n);
    assert forall t :: t in plan[..n] ==> t in plan;
    OnlyOne(plan[..n], ledger, tx);
    RunCredits(sq, d, wallets, db, plan[..n], tx);
  }

  lemma OnlyOne(plan: seq<Tx>, ledger: seq<Tx>, tx: Tx)
    requires ValidLedger(ledger) && tx in ledger && tx.hash in Hashes(plan) && forall t :: t in plan ==> t in ledger
    ensures tx in plan && forall t :: t in plan && t.hash == tx.hash ==> t == tx
  {
    forall t | t in plan && t.hash == tx.hash ensures t == tx {
      var x :| 0 <= x < |ledger| && ledger[x] == t;
      var y :| 0 <= y < |ledger| && ledger[y] == tx;
    }
    var p :| 0 <= p < |plan| && plan[p].hash == tx.hash;
    assert plan[p] in plan;
  }

  // ---------------------------------------------------------------- runs on a database that others write to

  /** Index i of the ledger at the end of a run that stopped on page `stop` and had `arrivals` transactions arrive. */
  predicate Covers(stop: Option<nat>, head: seq<Tx>, tail: seq<Tx>, limit: nat, i: nat) {
    i < limit || (i >= |tail| - |head| && |tail| >= |head| && Reached(stop, limit, i - (|tail| - |head|)))
  }

  /** A run that got through, whoever else wrote and whatever failed on the way. */
  ghost predicate Through(e: Setting, a: Db, b: Db, stop: Option<nat>, head: seq<Tx>, tail: seq<Tx>, calm: bool) {
    && Inv(e.p.sq, a) && e.d.limit > 0 && head <= tail && ValidLedger(tail)
    && Left(e, a, b, Course(Plan(stop, head, tail, e.d.limit), |Plan(stop, head, tail, e.d.limit)|, true), calm)
  }

  /**
   Exact coverage on a shared database: what the run covers is recorded, and a transaction that nobody else records
   is recorded at the end iff it was at the start or the run covers it.
   */
  lemma SharedCoverage(e: Setting, a: Db, b: Db, stop: Option<nat>, head: seq<Tx>, tail: seq<Tx>, calm: bool, i: nat)
    requires Through(e, a, b, stop, head, tail, calm) && i < |tail|
    ensures Covers(stop, head, tail, e.d.limit, i) ==> IsProcessed(b, Nth(tail, i).hash)
    ensures Nth(tail, i).hash in e.p.still ==>
              (IsProcessed(b, Nth(tail, i).hash) <==>
               IsProcessed(a, Nth(tail, i).hash) || Covers(stop, head, tail, e.d.limit, i))
  {
    var plan := Plan(stop, head, tail, e.d.limit);
    PlanCovers(stop, head, tail, e.d.limit, i);
    assert plan[..|plan|] == plan;
    LeftRecords(e, a, b, Course(plan, |plan|, true), calm, Nth(tail, i).hash);
  }

  /**
   What becomes of it there: a new transaction that nobody else records is credited, if at all, in its own amount and
   token to the charge its own comment names; and without faults its checks' decision is carried out.
   */
  lemma SharedVerdict(e: Setting, a: Db, b: Db, stop: Option<nat>, head: seq<Tx>, tail: seq<Tx>, calm: bool, i: nat)
    requires Through(e, a, b, stop, head, tail, calm) && i < |tail| && Covers(stop, head, tail, e.d.limit, i)
    requires Nth(tail, i).hash in e.p.still && !IsProcessed(a, Nth(tail, i).hash)
    ensures Judged(e, a, b, Nth(tail, i), calm)
  {
    var plan := Plan(stop, head, tail, e.d.limit);
    SharedCoverage(e, a, b, stop, head, tail, calm, i);
    assert plan[..|plan|] == plan;
    var j :| 0 <= j < |plan| && plan[j].hash == Nth(tail, i).hash && Judged(e, a, b, plan[j], calm);
    PlanOnLedger(stop, head, tail, e.d.limit);
    assert plan[j] in plan;
    assert Nth(tail, i).hash in Hashes(plan);
    OnlyOne(plan, tail, Nth(tail, i));
  }

  /** Where a run has judged a transaction, by its fields: each credit row of it is that of a payment it is. */
  lemma JudgedCredits(e: Setting, a: Db, b: Db, tx: Tx, calm: bool, credit: Credit) returns (charge: Charge)
    requires Judged(e, a, b, tx, calm) && credit in b.credits && credit.txid == tx.hash
    ensures charge in b.charges && credit == Credit(tx.hash, credit.amount, e.d.token, charge.id) && credit.amount > 0
    ensures Payment(e.d, e.wallets, tx, credit.amount, charge.memo)
  {
    var decision := Screen(e.d, e.wallets, tx);
    assert Grants(b.charges, e.d.token, decision, credit);
    charge :| charge in b.charges && charge.id == credit.chargeId && charge.memo == decision.memo;
    Decides(e.d, e.wallets, tx, decision);
  }

  predicate Acceptable(tx: Tx, amount: nat, memo: nat) {
    tx.hash != "" && amount > 0 && memo <= MAX_BIGINT
  }

  /** And without faults: credited to a charge that was there, noted if there is none for it, or noted as its fields say. */
  lemma JudgedByFields(e: Setting, a: Db, b: Db, tx: Tx)
    requires Inv(e.p.sq, a) && Judged(e, a, b, tx, true)
    ensures forall amount, memo, charge ::
              Payment(e.d, e.wallets, tx, amount, memo) && Acceptable(tx, amount, memo) && charge in a.charges && charge.memo == memo ==>
                Credit(tx.hash, amount, e.d.token, charge.id) in b.credits
    ensures forall amount, memo ::
              Payment(e.d, e.wallets, tx, amount, memo) && Acceptable(tx, amount, memo) && FindCharge(b.charges, memo) == None ==>
                Processed(tx.hash, Some("no associated charge")) in b.processed
    ensures forall note :: Rule(e.d, e.wallets, tx, Note(note)) ==> Processed(tx.hash, Some(note)) in b.processed
  {
    OneRule(e.d, e.wallets, tx);
    forall amount: nat, memo: nat | Payment(e.d, e.wallets, tx, amount, memo) && Acceptable(tx, amount, memo)
      ensures forall charge :: charge in a.charges && charge.memo == memo ==>
                Credit(tx.hash, amount, e.d.token, charge.id) in b.credits
      ensures FindCharge(b.charges, memo) == None ==> Processed(tx.hash, Some("no associated charge")) in b.processed
    {
      assert Rule(e.d, e.wallets, tx, Pay(amount, memo));
      forall charge | charge in a.charges && charge.memo == memo ensures FindCharge(a.charges, memo) == Some(charge) {
        FoundByMemo(e.p.sq, a, charge);
      }
    }
  }

  /** A faultless run from a state without holes on a ledger at rest that nobody else records from; it may break off. */
  ghost predicate SharedQuiet(e: Setting, a: Db, b: Db, ledger: seq<Tx>, x: Course) {
    && Inv(e.p.sq, a) && e.d.limit > 0 && ValidLedger(ledger) && NoHoles(Keys(a), ledger)
    && (forall h :: h in Hashes(ledger) ==> h in e.p.still)
    && x.plan == Itinerary(Keys(a), ledger, ledger, e.d.limit) && Left(e, a, b, x, true)
  }

  /** Such a run handles exactly what comes before the first transaction that blocks. */
  lemma SharedReach(e: Setting, a: Db, b: Db, ledger: seq<Tx>, x: Course)
    requires SharedQuiet(e, a, b, ledger, x)
    ensures x.handled == Reach(e.d, e.wallets, Keys(a), x.plan) && (x.ok <==> x.handled == |x.plan|)
  {
    var stop := StopPage(Keys(a), ledger, e.d.limit);
    PlanConsistent(stop, ledger, ledger, e.d.limit);
    PlanOnLedger(stop, ledger, ledger, e.d.limit);
    forall i | 0 <= i < |x.plan| ensures x.plan[i].hash in e.p.still {
      assert x.plan[i] in ledger;
      var p :| 0 <= p < |ledger| && ledger[p] == x.plan[i];
      assert ledger[p].hash in Hashes(ledger);
    }
    LeftReaches(e, a, b, x);
  }

  /**
   It returns normally iff nothing on the ledger blocks, and records of the ledger exactly what was recorded or is
   ahead of all that block.
   */
  lemma SharedRunEnds(e: Setting, a: Db, b: Db, ledger: seq<Tx>, x: Course)
    requires SharedQuiet(e, a, b, ledger, x)
    ensures x.ok <==> NoneBlocks(e.d, e.wallets, Keys(a), ledger)
    ensures forall i :: 0 <= i < |ledger| ==>
              (IsProcessed(b, Nth(ledger, i).hash) <==>
               IsProcessed(a, Nth(ledger, i).hash) || AheadOfAll(e.d, e.wallets, Keys(a), ledger, i))
    ensures Complete(Keys(b), ledger) <==> NoneBlocks(e.d, e.wallets, Keys(a), ledger)
  {
    SharedReach(e, a, b, ledger, x);
    ReachesAll(e.d, e.wallets, Keys(a), ledger);
    forall i | 0 <= i < |ledger|
      ensures IsProcessed(b, Nth(ledger, i).hash) <==>
              IsProcessed(a, Nth(ledger, i).hash) || AheadOfAll(e.d, e.wallets, Keys(a), ledger, i)
      ensures IsProcessed(b, Nth(ledger, i).hash) <==> Nth(ledger, i).hash in Keys(b)
    {
      SharedIndex(e, a, b, ledger, x, i);
    }
    if !NoneBlocks(e.d, e.wallets, Keys(a), ledger) {
      var y :| 0 <= y < |ledger| && Blocks(e.d, e.wallets, Keys(a), Nth(ledger, y));
      KeysAreProcessed(a, Nth(ledger, y).hash);
      assert !Ahead(e.d.limit, y, y);
      assert !IsProcessed(b, Nth(ledger, y).hash);
    }
  }

  lemma SharedIndex(e: Setting, a: Db, b: Db, ledger: seq<Tx>, x: Course, i: nat)
    requires SharedQuiet(e, a, b, ledger, x) && i < |ledger|
    ensures IsProcessed(b, Nth(ledger, i).hash) <==>
            IsProcessed(a, Nth(ledger, i).hash) || AheadOfAll(e.d, e.wallets, Keys(a), ledger, i)
    ensures IsProcessed(b, Nth(ledger, i).hash) <==> Nth(ledger, i).hash in Keys(b)
  {
    var h := Nth(ledger, i).hash;
    assert h in Hashes(ledger) by { assert ledger[|ledger| - 1 - i].hash == h; }
    SharedReach(e, a, b, ledger, x);
    LeftRecords(e, a, b, x, true, h);
    ReachedIndices(e.d, e.wallets, Keys(a), ledger, i);
    KeysAreProcessed(a, h);
    KeysAreProcessed(b, h);
  }

  /** And it credits a payment whose charge existed at its start iff that is ahead of all that block, whatever others write. */
  lemma SharedQuietRun(e: Setting, a: Db, b: Db, ledger: seq<Tx>, x: Course, i: nat)
    requires SharedQuiet(e, a, b, ledger, x) && i < |ledger| && Creditable(e.d, e.wallets, a, Nth(ledger, i))
    ensures AheadOfAll(e.d, e.wallets, Keys(a), ledger, i) <==> Due(e.d, e.wallets, a, Nth(ledger, i)) in b.credits
  {
    var tx := Nth(ledger, i);
    SharedIndex(e, a, b, ledger, x, i);
    if IsProcessed(b, tx.hash) {
      assert tx.hash in e.p.still by { assert ledger[|ledger| - 1 - i].hash in Hashes(ledger); }
      var front := x.plan[..x.handled];
      var k :| 0 <= k < |front| && front[k].hash == tx.hash && Judged(e, a, b, front[k], true);
      assert front[k] in x.plan;
      PlanOnLedger(StopPage(Keys(a), ledger, e.d.limit), ledger, ledger, e.d.limit);
      SameOnLedger(ledger, front[k], tx);
      FoundHasMemo(e.p.sq, a, Screen(e.d, e.wallets, tx).memo);
    } else {
      NotCredited(e.p.sq, b, tx.hash);
    }
  }

  /** The same by fields. */
  lemma SharedQuietRunPays(e: Setting, a: Db, b: Db, ledger: seq<Tx>, x: Course, i: nat, charge: Charge, credit: Credit)
    requires SharedQuiet(e, a, b, ledger, x) && i < |ledger|
    requires NewPayment(e.d, e.wallets, a, Nth(ledger, i), charge, credit)
    ensures AheadOfAll(e.d, e.wallets, Keys(a), ledger, i) <==> credit in b.credits
  {
    CreditableByFields(e.p.sq, e.d, e.wallets, a, Nth(ledger, i));
    SharedQuietRun(e, a, b, ledger, x, i);
  }

  /** Memos of charges are positive. */
  lemma FoundHasMemo(sq: Sequences, db: Db, memo: nat)
    requires Inv(sq, db) && FindCharge(db.charges, memo).Some?
    ensures 0 < memo <= MAX_BIGINT
  {
    var charge := FindCharge(db.charges, memo).value;
    var k :| 0 <= k < |db.charges| && db.charges[k] == charge;
    assert Serial(charge.id, charge.memo) == sq.charge(k);
  }
}

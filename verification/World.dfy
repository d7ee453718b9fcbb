/**
 The environment of one gateway process: the database it shares with others, the growing
 ledger, and the faults. What the environment does is a function of a clock that ticks at
 every awaited call, so a statement about any World is one about every behaviour of it.
 */
module World {
  import opened Base
  import opened Ledger
  import opened Tables
  import opened Screening

  /** Fine; Lost: an error and no effect; Unseen: the effect took place but the caller sees an error. */
  datatype Fault = Fine | Lost | Unseen

  /**
   What is known of everyone else who writes to the database: whether nobody does, and `still`,
   the transactions that nobody else records.
   */
  datatype Peers = Peers(sq: Sequences, alone: bool, still: iset<Hash>)

  /** Others may have brought the database from a to b. */
  ghost predicate Moved(p: Peers, a: Db, b: Db) {
    && Inv(p.sq, b) && Evolves(a, b)
    && (p.alone ==> b == a)
    && (forall h :: h in p.still && IsProcessed(b, h) ==> IsProcessed(a, h))
  }

  lemma MovedTransitive(p: Peers, a: Db, b: Db, c: Db)
    requires Moved(p, a, b) && Moved(p, b, c)
    ensures Moved(p, a, c)
  {
    EvolvesTransitive(a, b, c);
  }

  class World {
    const sq: Sequences
    const wallets: Wallets
    /** The ledger as a call made at a given tick sees it. */
    const ledgerAt: nat -> seq<Tx>
    const fault: nat -> Fault
    /** What others have committed by a given tick, seen from the state this process left. */
    const rival: (nat, Db) -> Db

    var clock: nat
    var db: Db

    constructor (sq: Sequences, wallets: Wallets, ledgerAt: nat -> seq<Tx>, fault: nat -> Fault, rival: (nat, Db) -> Db)
      requires ValidSequences(sq)
      requires forall t :: ValidLedger(ledgerAt(t))
      requires forall t, t' :: t <= t' ==> ledgerAt(t) <= ledgerAt(t')
      requires forall t, d :: Inv(sq, d) ==> Inv(sq, rival(t, d)) && Evolves(d, rival(t, d))
      ensures Valid() && db == EMPTY && clock == 0
      ensures this.sq == sq && this.wallets == wallets && this.ledgerAt == ledgerAt
      ensures this.fault == fault && this.rival == rival
    {
      this.sq, this.wallets, this.ledgerAt, this.fault, this.rival := sq, wallets, ledgerAt, fault, rival;
      clock, db := 0, EMPTY;
      EmptyInv(sq);
    }

    /** The ledger only grows; others keep the invariant, delete nothing and take back no sent flag. */
    ghost predicate Env() {
      && ValidSequences(sq)
      && (forall t :: ValidLedger(ledgerAt(t)))
      && (forall t, t' :: t <= t' ==> ledgerAt(t) <= ledgerAt(t'))
      && (forall t, d :: Inv(sq, d) ==> Inv(sq, rival(t, d)) && Evolves(d, rival(t, d)))
    }

    ghost predicate Valid()
      reads this
    {
      Env() && Inv(sq, db)
    }

    /** Nobody else writes. */
    ghost predicate Alone() {
      forall t, d :: rival(t, d) == d
    }

    ghost predicate OthersLeave(h: Hash) {
      forall t, d :: Inv(sq, d) && IsProcessed(rival(t, d), h) ==> IsProcessed(d, h)
    }

    /** The transactions that nobody else records. */
    ghost function Untouched(): iset<Hash> {
      iset h | OthersLeave(h)
    }

    ghost function Others(): Peers {
      Peers(sq, Alone(), Untouched())
    }

    lemma AloneUntouched()
      ensures Alone() ==> forall h :: h in Untouched()
    {
    }

    /** No other webhook sender is at work. */
    ghost predicate SoleSender() {
      forall t, d :: Inv(sq, d) ==> SendsNothing(d, rival(t, d))
    }

    /** No call made in this stretch of ticks fails. */
    ghost predicate Calm(from: nat, to: nat) {
      forall t :: from <= t < to ==> fault(t) == Fine
    }

    /** At most one call made in this stretch of ticks fails. */
    ghost predicate OneFault(from: nat, to: nat) {
      forall t, u :: from <= t < u < to ==> fault(t) == Fine || fault(u) == Fine
    }

    /** One tick: others move, then the call meets its fault. */
    method Tick() returns (f: Fault)
      requires Valid()
      modifies this
      ensures Valid() && clock == old(clock) + 1 && f == fault(old(clock))
      ensures db == rival(old(clock), old(db)) && Moved(Others(), old(db), db)
      ensures SoleSender() ==> SendsNothing(old(db), db)
    {
      f := fault(clock);
      db := rival(clock, db);
      clock := clock + 1;
    }

    method GetTransactions(cursor: Cursor, limit: nat) returns (r: Result<seq<Tx>>)
      requires Valid()
      modifies this
      ensures Valid() && clock == old(clock) + 1 && Moved(Others(), old(db), db)
      ensures r == if fault(old(clock)) == Fine then Ok(Fetch(ledgerAt(old(clock)), cursor, limit)) else Err(Network)
    {
      var f := Tick();
      r := if f == Fine then Ok(Fetch(ledgerAt(clock - 1), cursor, limit)) else Err(Network);
    }

    /** The get_wallet_data query; it also throws for an address that does not answer. */
    method QueryWallet(src: Address) returns (r: Result<Address>)
      requires Valid()
      modifies this
      ensures Valid() && clock == old(clock) + 1 && Moved(Others(), old(db), db)
      ensures r == if fault(old(clock)) == Fine && src in wallets then Ok(wallets[src]) else Err(Network)
    {
      var f := Tick();
      r := if f == Fine && src in wallets then Ok(wallets[src]) else Err(Network);
    }

    /** Whether some listed transaction has a processed row. */
    method ExistsProcessed(txids: seq<Hash>) returns (r: Result<bool>)
      requires Valid()
      modifies this
      ensures Valid() && clock == old(clock) + 1 && Moved(Others(), old(db), db)
      ensures r == if fault(old(clock)) == Fine then Ok(exists i :: 0 <= i < |txids| && IsProcessed(db, txids[i]))
                   else Err(Database)
    {
      var f := Tick();
      r := if f == Fine then Ok(exists i :: 0 <= i < |txids| && IsProcessed(db, txids[i])) else Err(Database);
    }

    /** The charge under a memo; a memo beyond the column's 64 bits makes the query fail. */
    method FindByMemo(memo: nat) returns (r: Result<Option<Charge>>)
      requires Valid()
      modifies this
      ensures Valid() && clock == old(clock) + 1 && Moved(Others(), old(db), db)
      ensures r == if fault(old(clock)) == Fine && memo <= MAX_BIGINT then Ok(FindCharge(db.charges, memo))
                   else Err(Database)
    {
      var f := Tick();
      r := if f == Fine && memo <= MAX_BIGINT then Ok(FindCharge(db.charges, memo)) else Err(Database);
    }

    method ExistsCredit(txid: Hash) returns (r: Result<bool>)
      requires Valid()
      modifies this
      ensures Valid() && clock == old(clock) + 1 && Moved(Others(), old(db), db)
      ensures r == if fault(old(clock)) == Fine then Ok(IsCredited(db, txid)) else Err(Database)
    {
      var f := Tick();
      r := if f == Fine then Ok(IsCredited(db, txid)) else Err(Database);
    }

    /** `mid` is the committed state the rows meet; they are applied to it all together or not at all. */
    method CommitRows(rows: seq<Insert>) returns (ok: bool, ghost mid: Db)
      requires Valid()
      modifies this
      ensures Env() && clock == old(clock) + 1 && Moved(Others(), old(db), mid)
      ensures db == mid || Commit(sq, mid, rows) == Some(db)
      ensures ok ==> Commit(sq, mid, rows) == Some(db)
      ensures fault(old(clock)) == Fine ==> ok == Commit(sq, mid, rows).Some? && (!ok ==> db == mid)
    {
      var f := Tick();
      mid := db;
      ok := false;
      if f != Lost {
        match Commit(sq, db, rows)
        case None =>
        case Some(db') =>
          db := db';
          ok := f == Fine;
      }
    }

    /** `ChargeService.create`; `mid` is the committed state the row meets. */
    method CreateCharge(payload: Option<string>) returns (r: Result<Charge>, ghost mid: Db)
      requires Valid()
      modifies this
      ensures Valid() && clock == old(clock) + 1 && Moved(Others(), old(db), mid)
      ensures db == mid || AddCharge(sq, mid, payload) == Some(db)
      ensures r.Ok? <==> fault(old(clock)) == Fine && AddCharge(sq, mid, payload).Some?
      ensures r.Ok? ==>
                && db != mid
                && r.value.payload == payload && r.value.memo <= MAX_BIGINT
                && FindCharge(db.charges, r.value.memo) == Some(r.value)
                && forall c :: c in mid.charges ==> c.id != r.value.id && c.memo != r.value.memo
    {
      var f := Tick();
      mid := db;
      r := Err(Database);
      if f != Lost {
        match AddCharge(sq, db, payload)
        case None =>
        case Some(db') =>
          var charge := db'.charges[|db'.charges| - 1];
          Created(sq, db, payload, db', charge);
          db := db';
          if f == Fine {
            r := Ok(charge);
          }
      }
    }
  }

  lemma Created(sq: Sequences, a: Db, payload: Option<string>, b: Db, charge: Charge)
    requires Inv(sq, a) && AddCharge(sq, a, payload) == Some(b) && charge == b.charges[|a.charges|]
    ensures Inv(sq, b) && b != a
    ensures charge.payload == payload && charge.memo <= MAX_BIGINT && FindCharge(b.charges, charge.memo) == Some(charge)
    ensures forall other :: other in a.charges ==> other.id != charge.id && other.memo != charge.memo
  {
    AddChargeKeepsInv(sq, a, payload);
    var last := |a.charges|;
    assert Serial(charge.id, charge.memo) == sq.charge(last);
    forall k | 0 <= k < last ensures b.charges[k].id != charge.id && b.charges[k].memo != charge.memo {
      assert Serial(b.charges[k].id, b.charges[k].memo) == sq.charge(k);
    }
    var found := FindCharge(b.charges, charge.memo).value;
    var k :| 0 <= k < |b.charges| && b.charges[k] == found;
    assert k == last;
  }
}

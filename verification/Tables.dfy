/**
 The four tables, their unique keys, and what a committed transaction may do to them.
 Rows are kept in commit order; nothing deletes a row.
 */
module Tables {
  import opened Base
  import opened Ledger
  import opened Amount
  import Memo

  datatype Charge = Charge(id: nat, memo: nat, payload: Option<string>)

  /** A row of charge_transaction. */
  datatype Credit = Credit(txid: Hash, amount: nat, token: Token, chargeId: nat)

  /** A row of processed_transaction; the note is None (null) for a credited transaction. */
  datatype Processed = Processed(txid: Hash, note: Option<string>)

  /** The data of a "payment:new" webhook. */
  datatype Notice = Notice(chargeId: nat, txid: Hash, amount: Double, token: Token, memo: string, payload: Option<string>)

  datatype Webhook = Webhook(id: nat, createdAt: nat, data: Notice, sent: bool)

  datatype Db = Db(charges: seq<Charge>, credits: seq<Credit>, processed: seq<Processed>, webhooks: seq<Webhook>)

  /**
   What the database generates for a new row: a function of the row's commit rank, so any assignment is covered.
   `charges` is how many charges the BIGSERIAL columns of that table can serve before `nextval` fails.
   */
  datatype Serial = Serial(id: nat, memo: nat)
  datatype Stamp = Stamp(id: nat, createdAt: nat)
  datatype Sequences = Sequences(charges: nat, charge: nat -> Serial, webhook: nat -> Stamp)

  /** BIGSERIAL columns: distinct values, starting at 1, within a signed 64-bit integer. */
  const MAX_BIGINT: nat := 0x7FFF_FFFF_FFFF_FFFF

  ghost predicate ValidSequences(sq: Sequences) {
    && (forall i, j :: 0 <= i < j < sq.charges ==> sq.charge(i).id != sq.charge(j).id && sq.charge(i).memo != sq.charge(j).memo)
    && (forall i :: 0 <= i < sq.charges ==> 0 < sq.charge(i).memo <= MAX_BIGINT)
    && (forall i, j :: i != j ==> sq.webhook(i).id != sq.webhook(j).id)
  }

  datatype Insert =
    | InsertCredit(credit: Credit)
    | InsertProcessed(row: Processed)
    | InsertWebhook(data: Notice)

  const EMPTY: Db := Db([], [], [], [])

  // ---------------------------------------------------------------- reads

  predicate IsProcessed(db: Db, txid: Hash) {
    exists i :: 0 <= i < |db.processed| && db.processed[i].txid == txid
  }

  predicate IsCredited(db: Db, txid: Hash) {
    exists i :: 0 <= i < |db.credits| && db.credits[i].txid == txid
  }

  function Keys(db: Db): set<Hash> {
    set i | 0 <= i < |db.processed| :: db.processed[i].txid
  }

  /** Transactions whose processed row carries no note. */
  predicate IsPaid(db: Db, txid: Hash) {
    Processed(txid, None) in db.processed
  }

  predicate HasChargeId(db: Db, id: nat) {
    exists k :: 0 <= k < |db.charges| && db.charges[k].id == id
  }

  /** The charge found under a memo. */
  function FindCharge(charges: seq<Charge>, memo: nat): (r: Option<Charge>)
    ensures r.Some? ==> r.value in charges && r.value.memo == memo
    ensures r.None? ==> forall k :: 0 <= k < |charges| ==> charges[k].memo != memo
  {
    if charges == [] then None
    else if charges[0].memo == memo then Some(charges[0])
    else FindCharge(charges[1..], memo)
  }

  // ---------------------------------------------------------------- writes

  /** One insert; None when it violates a unique key or the foreign key of charge_transaction. */
  function InsertRow(sq: Sequences, db: Db, row: Insert): Option<Db> {
    match row
    case InsertCredit(c) =>
      if IsCredited(db, c.txid) || !HasChargeId(db, c.chargeId) then None
      else Some(db.(credits := db.credits + [c]))
    case InsertProcessed(p) =>
      if IsProcessed(db, p.txid) then None
      else Some(db.(processed := db.processed + [p]))
    case InsertWebhook(data) =>
      var stamp := sq.webhook(|db.webhooks|);
      Some(db.(webhooks := db.webhooks + [Webhook(stamp.id, stamp.createdAt, data, false)]))
  }

  /** All inserts of a transaction, or none of them. */
  function Commit(sq: Sequences, db: Db, rows: seq<Insert>): Option<Db>
    decreases |rows|
  {
    if rows == [] then Some(db)
    else match InsertRow(sq, db, rows[0])
      case None => None
      case Some(db') => Commit(sq, db', rows[1..])
  }

  function NoticeOf(credit: Credit, charge: Charge): Notice {
    Notice(charge.id, credit.txid, Format(credit.amount, credit.token), credit.token,
           Memo.Print(charge.memo), charge.payload)
  }

  /** The writes of a successful crediting transaction, in the order of the source. */
  function CreditRows(credit: Credit, charge: Charge): seq<Insert> {
    [InsertCredit(credit), InsertProcessed(Processed(credit.txid, None)), InsertWebhook(NoticeOf(credit, charge))]
  }

  function MarkRows(txid: Hash, note: Option<string>): seq<Insert> {
    [InsertProcessed(Processed(txid, note))]
  }

  /** The insert of a charge; None once the sequences are used up. */
  function AddCharge(sq: Sequences, db: Db, payload: Option<string>): Option<Db> {
    if |db.charges| >= sq.charges then None
    else
      var s := sq.charge(|db.charges|);
      Some(db.(charges := db.charges + [Charge(s.id, s.memo, payload)]))
  }

  /** `update({ id }, { sent: true })`. */
  function MarkSent(db: Db, id: nat): Db {
    db.(webhooks := seq(|db.webhooks|, i requires 0 <= i < |db.webhooks| =>
      if db.webhooks[i].id == id then db.webhooks[i].(sent := true) else db.webhooks[i]))
  }

  // ---------------------------------------------------------------- invariant

  ghost predicate UniqueProcessed(rows: seq<Processed>) {
    forall i, j :: 0 <= i < j < |rows| ==> rows[i].txid != rows[j].txid
  }

  ghost predicate UniqueCredits(rows: seq<Credit>) {
    forall i, j :: 0 <= i < j < |rows| ==> rows[i].txid != rows[j].txid
  }

  /** Webhook row i announces exactly credit row i, in the words of an existing charge. */
  ghost predicate Announces(db: Db, i: nat)
    requires i < |db.credits| && i < |db.webhooks|
  {
    exists charge :: charge in db.charges
      && charge.id == db.credits[i].chargeId
      && db.webhooks[i].data == NoticeOf(db.credits[i], charge)
  }

  ghost predicate Inv(sq: Sequences, db: Db) {
    && ValidSequences(sq)
    && UniqueProcessed(db.processed)
    && UniqueCredits(db.credits)
    && |db.charges| <= sq.charges
    && (forall k :: 0 <= k < |db.charges| ==> Serial(db.charges[k].id, db.charges[k].memo) == sq.charge(k))
    && |db.webhooks| == |db.credits|
    && (forall i :: 0 <= i < |db.webhooks| ==> Stamp(db.webhooks[i].id, db.webhooks[i].createdAt) == sq.webhook(i))
    && (forall i :: 0 <= i < |db.credits| ==> Announces(db, i))
    && (forall txid :: IsPaid(db, txid) <==> IsCredited(db, txid))
  }

  /** Rows are only added; apart from the sent flag, which only rises, none is changed. */
  ghost predicate Evolves(a: Db, b: Db) {
    && a.charges <= b.charges
    && a.credits <= b.credits
    && a.processed <= b.processed
    && |a.webhooks| <= |b.webhooks|
    && (forall i :: 0 <= i < |a.webhooks| ==>
          b.webhooks[i] == a.webhooks[i].(sent := b.webhooks[i].sent) && (a.webhooks[i].sent ==> b.webhooks[i].sent))
  }

  /** No webhook is marked as sent between a and b. */
  ghost predicate SendsNothing(a: Db, b: Db) {
    && a.webhooks <= b.webhooks
    && forall i :: |a.webhooks| <= i < |b.webhooks| ==> !b.webhooks[i].sent
  }

  lemma EvolvesTransitive(a: Db, b: Db, c: Db)
    requires Evolves(a, b) && Evolves(b, c)
    ensures Evolves(a, c)
    ensures SendsNothing(a, b) && SendsNothing(b, c) ==> SendsNothing(a, c)
  {
  }

  lemma EvolvesKeeps(a: Db, b: Db, txid: Hash)
    requires Evolves(a, b)
    ensures IsProcessed(a, txid) ==> IsProcessed(b, txid)
    ensures IsCredited(a, txid) ==> IsCredited(b, txid)
    ensures IsPaid(a, txid) ==> IsPaid(b, txid)
  {
    if IsProcessed(a, txid) {
      var i :| 0 <= i < |a.processed| && a.processed[i].txid == txid;
      assert b.processed[i].txid == txid;
    }
    if IsCredited(a, txid) {
      var i :| 0 <= i < |a.credits| && a.credits[i].txid == txid;
      assert b.credits[i].txid == txid;
    }
    if IsPaid(a, txid) {
      var i :| 0 <= i < |a.processed| && a.processed[i] == Processed(txid, None);
      assert b.processed[i] == Processed(txid, None);
    }
  }

  lemma KeysAreProcessed(db: Db, txid: Hash)
    ensures txid in Keys(db) <==> IsProcessed(db, txid)
  {
  }

  /** A paid transaction is processed, so an unprocessed one has no credit row in any consistent state. */
  lemma CreditedIsProcessed(sq: Sequences, db: Db, txid: Hash)
    requires Inv(sq, db)
    ensures IsCredited(db, txid) ==> IsProcessed(db, txid)
  {
    if IsCredited(db, txid) {
      assert IsPaid(db, txid);
      var i :| 0 <= i < |db.processed| && db.processed[i] == Processed(txid, None);
      assert db.processed[i].txid == txid;
    }
  }

  /** Once a transaction is recorded, credited or not, no credit row for it is added any more. */
  lemma CreditsStay(sq: Sequences, a: Db, b: Db, txid: Hash)
    requires Inv(sq, a) && Inv(sq, b) && Evolves(a, b) && IsProcessed(a, txid)
    ensures forall c :: c in b.credits && c.txid == txid ==> c in a.credits
  {
    var i :| 0 <= i < |a.processed| && a.processed[i].txid == txid;
    forall c | c in b.credits && c.txid == txid ensures c in a.credits {
      assert IsPaid(b, txid) by { assert IsCredited(b, txid); }
      var j :| 0 <= j < |b.processed| && b.processed[j] == Processed(txid, None);
      assert b.processed[i] == a.processed[i] && i == j;
      assert IsPaid(a, txid);
      var k :| 0 <= k < |a.credits| && a.credits[k].txid == txid;
      var m :| 0 <= m < |b.credits| && b.credits[m] == c;
      assert b.credits[k] == a.credits[k] && k == m;
    }
  }

  /** In a consistent state a transaction has one processed row at most, so a noted one is not paid. */
  lemma OneNote(sq: Sequences, db: Db, txid: Hash, note: Option<string>)
    requires Inv(sq, db) && Processed(txid, note) in db.processed
    ensures IsPaid(db, txid) <==> note == None
  {
    var i :| 0 <= i < |db.processed| && db.processed[i] == Processed(txid, note);
    if IsPaid(db, txid) {
      var j :| 0 <= j < |db.processed| && db.processed[j] == Processed(txid, None);
      assert i == j;
    }
  }

  // ---------------------------------------------------------------- commits keep the invariant

  lemma MarkCommit(sq: Sequences, db: Db, txid: Hash, note: Option<string>)
    ensures Commit(sq, db, MarkRows(txid, note)) ==
            if IsProcessed(db, txid) then None
            else Some(db.(processed := db.processed + [Processed(txid, note)]))
  {
    var rows := MarkRows(txid, note);
    assert rows[1..] == [];
  }

  lemma CreditCommit(sq: Sequences, db: Db, credit: Credit, charge: Charge)
    ensures Commit(sq, db, CreditRows(credit, charge)) ==
            if IsCredited(db, credit.txid) || !HasChargeId(db, credit.chargeId) || IsProcessed(db, credit.txid) then None
            else Some(Db(db.charges, db.credits + [credit], db.processed + [Processed(credit.txid, None)],
                         db.webhooks + [Webhook(sq.webhook(|db.webhooks|).id, sq.webhook(|db.webhooks|).createdAt,
                                                NoticeOf(credit, charge), false)]))
  {
    var rows := CreditRows(credit, charge);
    assert rows[1..] == [InsertProcessed(Processed(credit.txid, None)), InsertWebhook(NoticeOf(credit, charge))];
    assert rows[1..][1..] == [InsertWebhook(NoticeOf(credit, charge))];
    var db1 := db.(credits := db.credits + [credit]);
    assert IsProcessed(db1, credit.txid) == IsProcessed(db, credit.txid);
    var db2 := db1.(processed := db1.processed + [Processed(credit.txid, None)]);
    assert rows[1..][1..][1..] == [];
    assert Commit(sq, db2, rows[1..][1..]) == InsertRow(sq, db2, rows[2]);
    assert Commit(sq, db1, rows[1..]) ==
           if IsProcessed(db1, credit.txid) then None else Commit(sq, db2, rows[1..][1..]);
  }

  lemma MarkKeepsInv(sq: Sequences, db: Db, txid: Hash, note: string)
    requires Inv(sq, db) && !IsProcessed(db, txid)
    ensures var db' := db.(processed := db.processed + [Processed(txid, Some(note))]);
            Inv(sq, db') && Evolves(db, db') && SendsNothing(db, db')
  {
    var db' := db.(processed := db.processed + [Processed(txid, Some(note))]);
    forall i | 0 <= i < |db'.credits| ensures Announces(db', i) {
      assert Announces(db, i);
    }
    forall h ensures IsPaid(db', h) <==> IsCredited(db', h) {
      assert IsPaid(db', h) <==> IsPaid(db, h);
      assert IsCredited(db', h) <==> IsCredited(db, h);
    }
  }

  lemma CreditKeepsInv(sq: Sequences, db: Db, credit: Credit, charge: Charge, db': Db)
    requires Inv(sq, db) && charge in db.charges && credit.chargeId == charge.id
    requires Commit(sq, db, CreditRows(credit, charge)) == Some(db')
    ensures Inv(sq, db') && Evolves(db, db') && SendsNothing(db, db')
  {
    CreditCommit(sq, db, credit, charge);
    var n := |db.credits|;
    forall i | 0 <= i < |db'.credits| ensures Announces(db', i) {
      if i < n {
        assert Announces(db, i);
      } else {
        assert db'.webhooks[i].data == NoticeOf(db'.credits[i], charge);
      }
    }
    forall h ensures IsPaid(db', h) <==> IsCredited(db', h) {
      assert IsPaid(db', h) <==> IsPaid(db, h) || h == credit.txid;
      if IsCredited(db, h) {
        var i :| 0 <= i < n && db.credits[i].txid == h;
        assert db'.credits[i].txid == h;
      }
      assert db'.credits[n].txid == credit.txid;
      assert IsCredited(db', h) <==> IsCredited(db, h) || h == credit.txid;
    }
  }

  lemma AddChargeKeepsInv(sq: Sequences, db: Db, payload: Option<string>)
    requires Inv(sq, db) && AddCharge(sq, db, payload).Some?
    ensures var db' := AddCharge(sq, db, payload).value;
            Inv(sq, db') && Evolves(db, db') && SendsNothing(db, db')
  {
    var db' := AddCharge(sq, db, payload).value;
    forall i | 0 <= i < |db'.credits| ensures Announces(db', i) {
      assert Announces(db, i);
    }
    forall h ensures IsPaid(db', h) <==> IsCredited(db', h) {
      assert IsPaid(db', h) <==> IsPaid(db, h);
      assert IsCredited(db', h) <==> IsCredited(db, h);
    }
  }

  lemma EmptyInv(sq: Sequences)
    requires ValidSequences(sq)
    ensures Inv(sq, EMPTY)
  {
    forall h ensures IsPaid(EMPTY, h) <==> IsCredited(EMPTY, h) {
    }
  }

  /** The charge a memo names is the only one, and a charge keeps being found. */
  lemma FindChargeStable(sq: Sequences, a: Db, b: Db, memo: nat)
    requires Inv(sq, a) && Inv(sq, b) && Evolves(a, b) && FindCharge(a.charges, memo).Some?
    ensures FindCharge(b.charges, memo) == FindCharge(a.charges, memo)
  {
    var charge := FindCharge(a.charges, memo).value;
    var k :| 0 <= k < |a.charges| && a.charges[k] == charge;
    assert b.charges[k] == charge;
    var found := FindCharge(b.charges, memo).value;
    var k' :| 0 <= k' < |b.charges| && b.charges[k'] == found;
    assert k == k';
  }

  /** The webhooks have no unique key of their own, and yet no transaction has two, nor do two share an id. */
  lemma OneWebhook(sq: Sequences, db: Db)
    requires Inv(sq, db)
    ensures forall i, j :: 0 <= i < j < |db.webhooks| ==> db.webhooks[i].data.txid != db.webhooks[j].data.txid
    ensures forall i, j :: 0 <= i < j < |db.webhooks| ==> db.webhooks[i].id != db.webhooks[j].id
  {
    forall i | 0 <= i < |db.webhooks| ensures db.webhooks[i].data.txid == db.credits[i].txid {
      assert Announces(db, i);
    }
  }

  lemma MarkSentKeepsInv(sq: Sequences, db: Db, r: nat)
    requires Inv(sq, db) && r < |db.webhooks|
    ensures var db' := MarkSent(db, db.webhooks[r].id);
            Inv(sq, db') && Evolves(db, db')
            && db'.webhooks == db.webhooks[r := db.webhooks[r].(sent := true)]
  {
    var db' := MarkSent(db, db.webhooks[r].id);
    forall i | 0 <= i < |db.webhooks| && i != r ensures db.webhooks[i].id != db.webhooks[r].id {
      assert Stamp(db.webhooks[i].id, db.webhooks[i].createdAt) == sq.webhook(i);
      assert Stamp(db.webhooks[r].id, db.webhooks[r].createdAt) == sq.webhook(r);
    }
    assert db'.webhooks == db.webhooks[r := db.webhooks[r].(sent := true)];
    forall i | 0 <= i < |db'.credits| ensures Announces(db', i) {
      assert Announces(db, i);
    }
    forall h ensures IsPaid(db', h) <==> IsCredited(db', h) {
      assert IsPaid(db', h) <==> IsPaid(db, h);
      assert IsCredited(db', h) <==> IsCredited(db, h);
    }
  }
}

/** What a daemon's work on one transaction does to tables that others write to at the same time. */
module Verdicts {
  import opened Base
  import opened Ledger
  import opened Tables
  import opened Screening
  import opened World

  ghost predicate Sound(sq: Sequences, a: Db, b: Db) {
    Inv(sq, b) && Evolves(a, b)
  }

  lemma SoundTransitive(sq: Sequences, a: Db, b: Db, c: Db)
    requires Sound(sq, a, b) && Sound(sq, b, c)
    ensures Sound(sq, a, c)
  {
    EvolvesTransitive(a, b, c);
  }

  /** The credit row is what the decision asks for: its amount, the daemon's token, the charge under its memo. */
  ghost predicate Grants(charges: seq<Charge>, token: Token, decision: Decision, credit: Credit) {
    && decision.Pay? && credit.amount == decision.amount > 0 && credit.token == token
    && exists charge :: charge in charges && charge.id == credit.chargeId && charge.memo == decision.memo
  }

  ghost predicate CreditsMatch(b: Db, token: Token, txid: Hash, decision: Decision) {
    forall credit :: credit in b.credits && credit.txid == txid ==> Grants(b.charges, token, decision, credit)
  }

  /** What the crediting transaction refuses to look at. */
  predicate Invalid(txid: Hash, amount: nat, memo: nat) {
    txid == "" || amount == 0 || memo == 0 || memo > MAX_BIGINT
  }

  /** The decision was carried out between a and b. A payment whose charge appeared meanwhile may go either way. */
  ghost predicate Carried(a: Db, b: Db, token: Token, txid: Hash, decision: Decision) {
    match decision
    case Unanswered => !IsProcessed(b, txid)
    case Note(note) => Processed(txid, Some(note)) in b.processed
    case Pay(amount, memo) =>
      if Invalid(txid, amount, memo) then Processed(txid, Some("invalid memo")) in b.processed
      else
        && (FindCharge(a.charges, memo).Some? ==>
              Credit(txid, amount, token, FindCharge(a.charges, memo).value.id) in b.credits)
        && (FindCharge(b.charges, memo).None? ==> Processed(txid, Some("no associated charge")) in b.processed)
  }

  /** A decision that is carried out inside the outer try block of a jetton daemon. */
  predicate Guarded(token: Token, decision: Decision) {
    token != TON && (decision.Pay? || (decision.Note? && decision.note in
                     {"memo isn't exists", "invalid memo", "Invalid transaction, parsing error"}))
  }

  /** The note that a catch leaves when carrying out the decision fails. */
  predicate CatchNote(token: Token, decision: Decision, note: string) {
    || (note == "invalid memo" && decision.Pay?)
    || (note == "Invalid transaction, parsing error" && Guarded(token, decision))
  }

  predicate Failed(b: Db, token: Token, txid: Hash, decision: Decision) {
    exists i :: 0 <= i < |b.processed| && b.processed[i].txid == txid && b.processed[i].note.Some?
                && CatchNote(token, decision, b.processed[i].note.value)
  }

  /** Of the transactions that others leave alone, only `txid` may have been recorded between a and b. */
  ghost predicate RecordsOnly(p: Peers, a: Db, b: Db, txid: Hash) {
    forall h :: h in p.still && h != txid && IsProcessed(b, h) ==> IsProcessed(a, h)
  }

  /**
   Work on one transaction, whoever else writes and whatever fails: nothing else is recorded; if others leave the
   transaction alone and it is new, it is credited as decided or not at all, and not even recorded if the wallet query
   is not answered; if it is recorded, the decision has been carried out or a catch has left its note; and without
   faults the decision is carried out.
   */
  ghost predicate Decided(p: Peers, a: Db, b: Db, token: Token, txid: Hash, decision: Decision, calm: bool) {
    && RecordsOnly(p, a, b, txid)
    && (txid in p.still && !IsProcessed(a, txid) ==>
          && CreditsMatch(b, token, txid, decision)
          && (decision.Unanswered? ==> !IsProcessed(b, txid))
          && (IsProcessed(b, txid) ==> Carried(a, b, token, txid, decision) || Failed(b, token, txid, decision))
          && (calm ==> Carried(a, b, token, txid, decision)))
  }

  // ---------------------------------------------------------------- verdicts last

  lemma GrantsStay(a: Db, b: Db, token: Token, decision: Decision, credit: Credit)
    requires a.charges <= b.charges && Grants(a.charges, token, decision, credit)
    ensures Grants(b.charges, token, decision, credit)
  {
    var charge :| charge in a.charges && charge.id == credit.chargeId && charge.memo == decision.memo;
    assert charge in b.charges;
  }

  /** Once the transaction is recorded, later commits change nothing about how it was credited. */
  lemma MatchStays(sq: Sequences, b: Db, c: Db, token: Token, txid: Hash, decision: Decision)
    requires Inv(sq, b) && Sound(sq, b, c) && IsProcessed(b, txid) && CreditsMatch(b, token, txid, decision)
    ensures CreditsMatch(c, token, txid, decision)
  {
    CreditsStay(sq, b, c, txid);
    forall credit | credit in c.credits && credit.txid == txid ensures Grants(c.charges, token, decision, credit) {
      GrantsStay(b, c, token, decision, credit);
    }
  }

  lemma ChargeStays(a: Db, b: Db, memo: nat)
    requires a.charges <= b.charges
    ensures FindCharge(a.charges, memo).Some? ==> FindCharge(b.charges, memo).Some?
  {
    if FindCharge(a.charges, memo).Some? {
      assert FindCharge(a.charges, memo).value in b.charges;
    }
  }

  lemma FailedStays(b: Db, c: Db, token: Token, txid: Hash, decision: Decision)
    requires Evolves(b, c) && Failed(b, token, txid, decision)
    ensures Failed(c, token, txid, decision)
  {
    var i :| 0 <= i < |b.processed| && b.processed[i].txid == txid && b.processed[i].note.Some?
             && CatchNote(token, decision, b.processed[i].note.value);
    assert c.processed[i] == b.processed[i];
  }

  lemma CarriedStays(sq: Sequences, a: Db, b: Db, c: Db, token: Token, txid: Hash, decision: Decision)
    requires Sound(sq, b, c) && IsProcessed(b, txid) && Carried(a, b, token, txid, decision)
    ensures Carried(a, c, token, txid, decision)
  {
    if decision.Pay? {
      ChargeStays(b, c, decision.memo);
    }
  }

  /** The charge that was there earlier is the one found later. */
  lemma CarriedSince(sq: Sequences, a: Db, b: Db, c: Db, token: Token, txid: Hash, decision: Decision)
    requires Inv(sq, a) && Sound(sq, a, b) && Carried(b, c, token, txid, decision)
    ensures Carried(a, c, token, txid, decision)
  {
    if decision.Pay? && FindCharge(a.charges, decision.memo).Some? {
      FindChargeStable(sq, a, b, decision.memo);
    }
  }

  lemma DecidedSince(p: Peers, a: Db, b: Db, c: Db, token: Token, txid: Hash, decision: Decision, calm: bool, whole: bool)
    requires Inv(p.sq, a) && Moved(p, a, b) && Sound(p.sq, b, c)
    requires Decided(p, b, c, token, txid, decision, calm) && (whole ==> calm)
    ensures Sound(p.sq, a, c) && Decided(p, a, c, token, txid, decision, whole)
  {
    SoundTransitive(p.sq, a, b, c);
    if txid in p.still && !IsProcessed(a, txid) && Carried(b, c, token, txid, decision) {
      CarriedSince(p.sq, a, b, c, token, txid, decision);
    }
  }

  /** A transaction nobody recorded has no credit row. */
  lemma NotCredited(sq: Sequences, b: Db, txid: Hash)
    requires Inv(sq, b) && !IsProcessed(b, txid)
    ensures forall credit :: credit in b.credits ==> credit.txid != txid
  {
    CreditedIsProcessed(sq, b, txid);
    forall credit | credit in b.credits ensures credit.txid != txid {
      var i :| 0 <= i < |b.credits| && b.credits[i] == credit;
      assert b.credits[i].txid == txid ==> IsCredited(b, txid);
    }
  }

  // ---------------------------------------------------------------- commit attempts

  /** `b` is where one commit attempt of `rows` may leave a database that others brought to `mid`. */
  ghost predicate Attempted(p: Peers, a: Db, mid: Db, b: Db, rows: seq<Insert>) {
    Moved(p, a, mid) && (b == mid || Commit(p.sq, mid, rows) == Some(b))
  }

  /** A new transaction that others leave alone has this note, if it is recorded. */
  ghost predicate NotedAs(p: Peers, a: Db, b: Db, txid: Hash, note: string) {
    txid in p.still && !IsProcessed(a, txid) && IsProcessed(b, txid) ==> Processed(txid, Some(note)) in b.processed
  }

  lemma MarkAttempt(p: Peers, a: Db, mid: Db, b: Db, token: Token, txid: Hash, note: string, calm: bool)
    requires Attempted(p, a, mid, b, MarkRows(txid, Some(note)))
    requires calm && Commit(p.sq, mid, MarkRows(txid, Some(note))).Some? ==> b != mid
    ensures Sound(p.sq, a, b)
    ensures b == mid || (!IsProcessed(mid, txid) && b == Marked(mid, txid, note))
    ensures Commit(p.sq, mid, MarkRows(txid, Some(note))) == Some(b) ==> IsProcessed(b, txid)
    ensures NotedAs(p, a, b, txid, note) && Decided(p, a, b, token, txid, Note(note), calm)
  {
    var row := Processed(txid, Some(note));
    MarkCommit(p.sq, mid, txid, Some(note));
    if b != mid {
      MarkKeepsInv(p.sq, mid, txid, note);
      EvolvesTransitive(a, mid, b);
      KeysGrow(mid, b, row);
      OneMore(mid, b, row);
    } else if Commit(p.sq, mid, MarkRows(txid, Some(note))) == Some(b) {
      KeysGrow(mid, b, row);
    }
    if txid in p.still && !IsProcessed(a, txid) {
      NotCredited(p.sq, mid, txid);
    }
  }

  /** Recording one row records nothing else. */
  lemma OneMore(a: Db, b: Db, row: Processed)
    requires b.processed == a.processed + [row]
    ensures row in b.processed
    ensures forall h :: h != row.txid && IsProcessed(b, h) ==> IsProcessed(a, h)
  {
    assert b.processed[|a.processed|] == row;
    forall h | h != row.txid && IsProcessed(b, h) ensures IsProcessed(a, h) {
      var i :| 0 <= i < |b.processed| && b.processed[i].txid == h;
      assert a.processed[i].txid == h;
    }
  }

  lemma CreditAttempt(p: Peers, a: Db, mid: Db, b: Db, credit: Credit, charge: Charge)
    requires Attempted(p, a, mid, b, CreditRows(credit, charge)) && credit.amount > 0
    requires charge in a.charges && credit.chargeId == charge.id
    ensures Sound(p.sq, a, b)
    ensures Commit(p.sq, mid, CreditRows(credit, charge)) == Some(b) ==> IsProcessed(b, credit.txid) && credit in b.credits
    ensures RecordsOnly(p, a, b, credit.txid)
    ensures credit.txid in p.still && !IsProcessed(a, credit.txid) ==>
              && CreditsMatch(b, credit.token, credit.txid, Pay(credit.amount, charge.memo))
              && Commit(p.sq, mid, CreditRows(credit, charge)).Some?
  {
    CreditCommit(p.sq, mid, credit, charge);
    if b != mid {
      CreditKeepsInv(p.sq, mid, credit, charge, b);
      EvolvesTransitive(a, mid, b);
      OneMore(mid, b, Processed(credit.txid, None));
    }
    if Commit(p.sq, mid, CreditRows(credit, charge)) == Some(b) {
      KeysGrow(mid, b, Processed(credit.txid, None));
      assert b.credits[|mid.credits|] == credit;
    }
    if credit.txid in p.still && !IsProcessed(a, credit.txid) {
      OnlyCredit(p.sq, mid, b, credit, charge);
    }
  }

  /** With the charge in place, only a recorded transaction makes the crediting commit fail. */
  lemma CreditRefused(sq: Sequences, mid: Db, credit: Credit, charge: Charge)
    requires Inv(sq, mid) && charge in mid.charges && credit.chargeId == charge.id
    ensures Commit(sq, mid, CreditRows(credit, charge)) == None ==> IsProcessed(mid, credit.txid)
  {
    CreditCommit(sq, mid, credit, charge);
    CreditedIsProcessed(sq, mid, credit.txid);
    var k :| 0 <= k < |mid.charges| && mid.charges[k] == charge;
    assert HasChargeId(mid, charge.id);
  }

  lemma OnlyCredit(sq: Sequences, mid: Db, b: Db, credit: Credit, charge: Charge)
    requires Inv(sq, mid) && !IsProcessed(mid, credit.txid) && credit.amount > 0
    requires charge in mid.charges && credit.chargeId == charge.id
    requires b == mid || Commit(sq, mid, CreditRows(credit, charge)) == Some(b)
    ensures CreditsMatch(b, credit.token, credit.txid, Pay(credit.amount, charge.memo))
    ensures Commit(sq, mid, CreditRows(credit, charge)).Some?
  {
    CreditCommit(sq, mid, credit, charge);
    CreditedIsProcessed(sq, mid, credit.txid);
    NotCredited(sq, mid, credit.txid);
    var k :| 0 <= k < |mid.charges| && mid.charges[k] == charge;
    assert HasChargeId(mid, charge.id);
    forall other | other in b.credits && other.txid == credit.txid
      ensures Grants(b.charges, credit.token, Pay(credit.amount, charge.memo), other)
    {
      assert other == credit && charge in b.charges;
    }
  }

  /**
   The branch for a charge transaction without a processed row: a credited transaction is
   always processed, so its insert can only be refused by the unique key.
   */
  lemma CreditedUnprocessedRefused(sq: Sequences, mid: Db, txid: Hash)
    requires Inv(sq, mid) && IsCredited(mid, txid)
    ensures Commit(sq, mid, MarkRows(txid, None)) == None
  {
    CreditedIsProcessed(sq, mid, txid);
    MarkCommit(sq, mid, txid, None);
  }
}

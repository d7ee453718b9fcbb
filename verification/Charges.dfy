/** `ChargeService.process`: the crediting transaction, with everyone else's commits between its reads. */
module Charges {
  import opened Base
  import opened Ledger
  import opened Tables
  import opened Screening
  import opened World
  import opened Verdicts

  /** What the caller asks to be credited. */
  datatype Ask = Ask(txid: Hash, amount: nat, token: Token, memo: nat)

  predicate Refused(ask: Ask) {
    Invalid(ask.txid, ask.amount, ask.memo)
  }

  /**
   The crediting transaction, whoever else writes and whatever fails: as `Decided`, but it leaves no failure notes; an
   input it refuses makes it throw and leaves the transaction to the caller. Without faults it throws for nothing else.
   */
  ghost predicate Entered(p: Peers, a: Db, b: Db, ask: Ask, ok: bool, calm: bool) {
    && RecordsOnly(p, a, b, ask.txid)
    && (ask.txid in p.still && !IsProcessed(a, ask.txid) ==>
          && CreditsMatch(b, ask.token, ask.txid, Pay(ask.amount, ask.memo))
          && (IsProcessed(b, ask.txid) ==> !Refused(ask) && Carried(a, b, ask.token, ask.txid, Pay(ask.amount, ask.memo)))
          && (calm ==> ok == IsProcessed(b, ask.txid) == !Refused(ask)))
  }

  lemma EnteredNothing(p: Peers, a: Db, b: Db, ask: Ask, calm: bool)
    requires Moved(p, a, b) && (calm ==> Refused(ask))
    ensures Entered(p, a, b, ask, false, calm)
  {
    if ask.txid in p.still && !IsProcessed(a, ask.txid) {
      NotCredited(p.sq, b, ask.txid);
    }
  }

  /** The credit of a known charge: recorded as this row or not at all, and without faults recorded. */
  ghost predicate RecordedAs(p: Peers, a: Db, b: Db, credit: Credit, memo: nat, ok: bool, calm: bool) {
    && RecordsOnly(p, a, b, credit.txid)
    && (credit.txid in p.still && !IsProcessed(a, credit.txid) ==>
          && CreditsMatch(b, credit.token, credit.txid, Pay(credit.amount, memo))
          && (IsProcessed(b, credit.txid) ==> credit in b.credits)
          && (calm ==> ok && IsProcessed(b, credit.txid)))
  }

  /** From the moment the charge is known. */
  lemma EnteredSince(p: Peers, a: Db, b: Db, c: Db, ask: Ask, credit: Credit, ok: bool, calm: bool, whole: bool)
    requires Inv(p.sq, a) && Moved(p, a, b) && Sound(p.sq, b, c) && FindCharge(b.charges, ask.memo).Some?
    requires credit == Credit(ask.txid, ask.amount, ask.token, FindCharge(b.charges, ask.memo).value.id)
    requires RecordedAs(p, b, c, credit, ask.memo, ok, calm) && (whole ==> calm) && !Refused(ask)
    ensures Entered(p, a, c, ask, ok, whole)
  {
    if ask.txid in p.still && !IsProcessed(a, ask.txid) {
      ChargeStays(b, c, ask.memo);
      if FindCharge(a.charges, ask.memo).Some? {
        FindChargeStable(p.sq, a, b, ask.memo);
      }
    }
  }

  function UnmatchedRows(txid: Hash): seq<Insert> {
    MarkRows(txid, Some("no associated charge"))
  }

  lemma EnteredUnmatched(p: Peers, a: Db, b: Db, mid: Db, c: Db, ask: Ask, ok: bool, calm: bool)
    requires Inv(p.sq, a) && Moved(p, a, b) && FindCharge(b.charges, ask.memo) == None && !Refused(ask)
    requires Attempted(p, b, mid, c, UnmatchedRows(ask.txid))
    requires ok ==> Commit(p.sq, mid, UnmatchedRows(ask.txid)) == Some(c)
    requires calm ==> ok == Commit(p.sq, mid, UnmatchedRows(ask.txid)).Some?
    ensures Sound(p.sq, a, c) && (ok || calm ==> IsProcessed(c, ask.txid))
    ensures Entered(p, a, c, ask, ok, calm)
  {
    MarkCommit(p.sq, mid, ask.txid, Some("no associated charge"));
    MarkAttempt(p, b, mid, c, ask.token, ask.txid, "no associated charge", false);
    SoundTransitive(p.sq, a, b, c);
    ChargeStays(a, b, ask.memo);
    if c != mid {
      OneMore(mid, c, Processed(ask.txid, Some("no associated charge")));
    }
  }

  class ChargeService {
    constructor () {
    }

    method Process(w: World, txid: Hash, amount: nat, token: Token, memo: nat) returns (ok: bool)
      requires w.Valid()
      modifies w
      ensures w.Valid() && w.clock >= old(w.clock)
      ensures Sound(w.sq, old(w.db), w.db)
      ensures ok || (w.Calm(old(w.clock), w.clock) && !Refused(Ask(txid, amount, token, memo))) ==> IsProcessed(w.db, txid)
      ensures w.Calm(old(w.clock), w.clock) && IsProcessed(old(w.db), txid) && txid != "" && amount > 0 && memo > 0 ==> ok
      ensures Entered(w.Others(), old(w.db), w.db, Ask(txid, amount, token, memo), ok, w.Calm(old(w.clock), w.clock))
      ensures w.Alone() ==>
                && (w.db == old(w.db) || Enter(w.sq, old(w.db), txid, amount, token, memo) == Some(w.db))
                && (ok ==> Enter(w.sq, old(w.db), txid, amount, token, memo) == Some(w.db))
      ensures w.Alone() && w.Calm(old(w.clock), w.clock) ==>
                ok == Enter(w.sq, old(w.db), txid, amount, token, memo).Some?
    {
      ghost var p, before, start := w.Others(), w.db, w.clock;
      ghost var ask := Ask(txid, amount, token, memo);
      if txid == "" || amount == 0 || memo == 0 {
        EnteredNothing(p, before, before, ask, true);
        return false;
      }
      var seen := w.ExistsProcessed([txid]);
      if seen.Err? {
        EnteredNothing(p, before, w.db, ask, w.Calm(start, w.clock));
        return false;
      }
      assert seen.value == IsProcessed(w.db, txid) by { assert [txid][0] == txid; }
      ghost var db1 := w.db;
      if seen.value {
        ghost var mid;
        ok, mid := w.CommitRows([]);
        EvolvesKeeps(db1, mid, txid);
        MovedTransitive(p, before, db1, mid);
        return;
      }

      var found := w.FindByMemo(memo);
      MovedTransitive(p, before, db1, w.db);
      if found.Err? {
        EnteredNothing(p, before, w.db, ask, w.Calm(start, w.clock));
        return false;
      }
      ghost var db2, tick := w.db, w.clock;
      if found.value == None {
        ghost var mid;
        ok, mid := w.CommitRows(UnmatchedRows(txid));
        EnteredUnmatched(p, before, db2, mid, w.db, ask, ok, w.Calm(start, w.clock));
        return;
      }
      ok := Record(w, txid, amount, token, found.value.value, memo);
      SoundTransitive(w.sq, before, db2, w.db);
      EnteredSince(p, before, db2, w.db, ask, Credit(txid, amount, token, found.value.value.id), ok,
                   w.Calm(tick, w.clock), w.Calm(start, w.clock));
    }

    /** The rest of the transaction, once the charge is known. */
    method Record(w: World, txid: Hash, amount: nat, token: Token, charge: Charge, ghost memo: nat) returns (ok: bool)
      requires w.Valid() && charge in w.db.charges && charge.memo == memo && amount > 0
      modifies w
      ensures w.Valid() && w.clock >= old(w.clock)
      ensures Sound(w.sq, old(w.db), w.db)
      ensures ok || w.Calm(old(w.clock), w.clock) ==> IsProcessed(w.db, txid)
      ensures RecordedAs(w.Others(), old(w.db), w.db, Credit(txid, amount, token, charge.id), memo, ok,
                         w.Calm(old(w.clock), w.clock))
      ensures var rows := if IsCredited(old(w.db), txid) then MarkRows(txid, None)
                          else CreditRows(Credit(txid, amount, token, charge.id), charge);
              && (w.Alone() ==> w.db == old(w.db) || Commit(w.sq, old(w.db), rows) == Some(w.db))
              && (w.Alone() && ok ==> Commit(w.sq, old(w.db), rows) == Some(w.db))
              && (w.Alone() && w.Calm(old(w.clock), w.clock) ==> ok == Commit(w.sq, old(w.db), rows).Some?)
    {
      ghost var p, before := w.Others(), w.db;
      var credit := Credit(txid, amount, token, charge.id);
      var tx := w.ExistsCredit(txid);
      if tx.Err? {
        RecordedNothing(p, before, w.db, credit, memo);
        return false;
      }
      ghost var db3, mid := w.db, w.db;
      if tx.value {
        ok, mid := w.CommitRows(MarkRows(txid, None));
        EvolvesKeeps(db3, mid, txid);
        CreditedUnprocessedRefused(w.sq, mid, txid);
        MovedTransitive(p, before, db3, mid);
        CreditedIsProcessed(w.sq, mid, txid);
      } else {
        ok, mid := w.CommitRows(CreditRows(credit, charge));
        MovedTransitive(p, before, db3, mid);
        CreditAttempt(p, before, mid, w.db, credit, charge);
        CreditRefused(w.sq, mid, credit, charge);
      }
    }
  }

  lemma RecordedNothing(p: Peers, a: Db, b: Db, credit: Credit, memo: nat)
    requires Moved(p, a, b)
    ensures RecordedAs(p, a, b, credit, memo, false, false)
  {
    if credit.txid in p.still && !IsProcessed(a, credit.txid) {
      NotCredited(p.sq, b, credit.txid);
    }
  }
}

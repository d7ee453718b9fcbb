/** The daemons: page handling for TON and for jettons, and the crawl that drives it. */
module Daemons {
  import opened Base
  import opened Ledger
  import opened Tables
  import opened Screening
  import opened World
  import opened Verdicts
  import opened Charges
  import opened Progress
  import opened Iterator
  import opened Crawl
  import opened Rules
  import Memo

  /**
   Where carrying out a decision on an unprocessed transaction may leave the tables when nobody
   else writes, whatever calls fail: untouched, as decided, or with a failure note and no credit.
   */
  ghost predicate ScreenedMayLeave(sq: Sequences, d: Daemon, a: Db, b: Db, tx: Tx, decision: Decision) {
    || b == a
    || Apply(sq, d, a, tx, decision) == Some(b)
    || b == Marked(a, tx.hash, "invalid memo")
    || b == Marked(a, tx.hash, "Invalid transaction, parsing error")
  }

  ghost predicate MayLeave(sq: Sequences, d: Daemon, wallets: Wallets, a: Db, b: Db, tx: Tx) {
    if IsProcessed(a, tx.hash) then b == a
    else ScreenedMayLeave(sq, d, a, b, tx, Screen(d, wallets, tx))
  }

  lemma ScreenedIsProcessed(sq: Sequences, d: Daemon, a: Db, b: Db, tx: Tx, decision: Decision)
    requires Inv(sq, a) && !IsProcessed(a, tx.hash) && ScreenedMayLeave(sq, d, a, b, tx, decision) && b != a
    ensures IsProcessed(b, tx.hash)
  {
    ApplyKeepsInv(sq, d, a, tx, decision);
    if b == Marked(a, tx.hash, "invalid memo") {
      KeysGrow(a, b, Processed(tx.hash, Some("invalid memo")));
    }
    if b == Marked(a, tx.hash, "Invalid transaction, parsing error") {
      KeysGrow(a, b, Processed(tx.hash, Some("Invalid transaction, parsing error")));
    }
    KeysAreProcessed(b, tx.hash);
  }

  lemma NotedFailed(b: Db, token: Token, txid: Hash, decision: Decision, note: string)
    requires Processed(txid, Some(note)) in b.processed && CatchNote(token, decision, note)
    ensures Failed(b, token, txid, decision)
  {
    var i :| 0 <= i < |b.processed| && b.processed[i] == Processed(txid, Some(note));
  }

  /** A failed attempt, and the mark that a catch leaves. */
  lemma MarkAfter(p: Peers, a: Db, mid: Db, b: Db, token: Token, txid: Hash, decision: Decision, note: string,
                  markCalm: bool, calm: bool)
    requires Inv(p.sq, a) && Sound(p.sq, a, mid) && Sound(p.sq, mid, b) && RecordsOnly(p, a, mid, txid)
    requires txid in p.still && !IsProcessed(a, txid) ==> CreditsMatch(mid, token, txid, decision)
    requires txid in p.still && !IsProcessed(a, txid) && IsProcessed(mid, txid) ==>
               Carried(a, mid, token, txid, decision) || Failed(mid, token, txid, decision)
    requires CatchNote(token, decision, note)
    requires Decided(p, mid, b, token, txid, Note(note), markCalm) && NotedAs(p, mid, b, txid, note)
    requires !decision.Unanswered?
    requires calm && txid in p.still && !IsProcessed(a, txid) ==>
               && markCalm && !IsProcessed(mid, txid)
               && (decision == Note(note)
                   || (decision.Pay? && Invalid(txid, decision.amount, decision.memo) && note == "invalid memo"))
    ensures Sound(p.sq, a, b) && Decided(p, a, b, token, txid, decision, calm)
    ensures IsProcessed(mid, txid) ==> IsProcessed(b, txid)
  {
    EvolvesKeeps(mid, b, txid);
    SoundTransitive(p.sq, a, mid, b);
    if txid in p.still && !IsProcessed(a, txid) {
      if IsProcessed(mid, txid) {
        MatchStays(p.sq, mid, b, token, txid, decision);
        if Carried(a, mid, token, txid, decision) {
          CarriedStays(p.sq, a, mid, b, token, txid, decision);
        } else {
          FailedStays(mid, b, token, txid, decision);
        }
      } else {
        assert CreditsMatch(b, token, txid, Note(note));
        if IsProcessed(b, txid) {
          NotedFailed(b, token, txid, decision, note);
        }
      }
    }
  }

  /** If a new transaction is recorded, it was credited as asked, has no charge, or holds "invalid memo". */
  ghost predicate CreditedOrNoted(p: Peers, a: Db, b: Db, ask: Ask) {
    ask.txid in p.still && !IsProcessed(a, ask.txid) && IsProcessed(b, ask.txid) ==>
      || Carried(a, b, ask.token, ask.txid, Pay(ask.amount, ask.memo))
      || Processed(ask.txid, Some("invalid memo")) in b.processed
  }

  lemma EnteredThenMarked(p: Peers, a: Db, mid: Db, b: Db, ask: Ask, ok: bool, calm: bool)
    requires Sound(p.sq, mid, b) && Entered(p, a, mid, ask, ok, calm)
    requires b == mid || NotedAs(p, mid, b, ask.txid, "invalid memo")
    ensures CreditedOrNoted(p, a, b, ask)
  {
    if ask.txid in p.still && !IsProcessed(a, ask.txid) && IsProcessed(mid, ask.txid) {
      CarriedStays(p.sq, a, mid, b, ask.token, ask.txid, Pay(ask.amount, ask.memo));
    }
  }

  /** What the fields of the transaction say becomes of it has become of it. */
  ghost predicate Ruled(p: Peers, d: Daemon, wallets: Wallets, a: Db, b: Db, tx: Tx, calm: bool) {
    forall decision :: Rule(d, wallets, tx, decision) ==> Decided(p, a, b, d.token, tx.hash, decision, calm)
  }

  /** The same for the transfer it carries. */
  ghost predicate TransferRuled(p: Peers, token: Token, a: Db, b: Db, txid: Hash, transfer: Option<Transfer>, calm: bool) {
    forall decision :: TransferRule(transfer, decision) ==> Decided(p, a, b, token, txid, decision, calm)
  }

  class TONDaemon {
    const d: Daemon
    const w: World
    const service: ChargeService

    constructor (d: Daemon, w: World, service: ChargeService)
      ensures this.d == d && this.w == w && this.service == service
    {
      this.d, this.w, this.service := d, w, service;
    }

    ghost function Here(): Setting {
      Setting(w.Others(), d, w.wallets)
    }

    method MarkAsProcessed(txid: Hash, note: string) returns (ok: bool)
      requires w.Valid()
      modifies w
      ensures w.Valid() && w.clock == old(w.clock) + 1
      ensures Sound(w.sq, old(w.db), w.db)
      ensures ok || w.fault(w.clock - 1) == Fine ==> IsProcessed(w.db, txid)
      ensures NotedAs(w.Others(), old(w.db), w.db, txid, note)
      ensures Decided(w.Others(), old(w.db), w.db, d.token, txid, Note(note), w.Calm(old(w.clock), w.clock))
      ensures w.Calm(old(w.clock), w.clock) && txid in w.Untouched() && !IsProcessed(old(w.db), txid) ==> ok
      ensures w.Alone() ==> w.db == old(w.db) || (!IsProcessed(old(w.db), txid) && w.db == Marked(old(w.db), txid, note))
      ensures w.Alone() && w.Calm(old(w.clock), w.clock) ==>
                ok == !IsProcessed(old(w.db), txid) && w.db == if ok then Marked(old(w.db), txid, note) else old(w.db)
    {
      ghost var mid;
      ok, mid := w.CommitRows(MarkRows(txid, Some(note)));
      MarkCommit(w.sq, mid, txid, Some(note));
      MarkAttempt(w.Others(), old(w.db), mid, w.db, d.token, txid, note, w.Calm(old(w.clock), w.clock));
    }

    method IsProcessedRow(txid: Hash) returns (r: Result<bool>)
      requires w.Valid()
      modifies w
      ensures w.Valid() && w.clock == old(w.clock) + 1 && Moved(w.Others(), old(w.db), w.db)
      ensures r == if w.fault(old(w.clock)) == Fine then Ok(IsProcessed(w.db, txid)) else Err(Database)
    {
      r := w.ExistsProcessed([txid]);
      assert [txid][0] == txid;
    }

    /** `service.process` with the catch around it; false means the catch throws as well. */
    method CreditOrMark(txid: Hash, amount: nat, memo: nat) returns (ok: bool)
      requires w.Valid()
      modifies w
      ensures w.Valid() && w.clock >= old(w.clock)
      ensures Sound(w.sq, old(w.db), w.db)
      ensures ok ==> IsProcessed(w.db, txid)
      ensures !ok ==> w.clock > old(w.clock) && (w.fault(w.clock - 1) == Fine ==> IsProcessed(w.db, txid))
      ensures w.OneFault(old(w.clock), w.clock) && !Invalid(txid, amount, memo) ==> IsProcessed(w.db, txid)
      ensures CreditedOrNoted(w.Others(), old(w.db), w.db, Ask(txid, amount, d.token, memo))
      ensures Decided(w.Others(), old(w.db), w.db, d.token, txid, Pay(amount, memo), w.Calm(old(w.clock), w.clock))
      ensures w.Calm(old(w.clock), w.clock) && txid in w.Untouched() && !IsProcessed(old(w.db), txid) ==> ok
      ensures w.Alone() && !IsProcessed(old(w.db), txid) ==>
                || w.db == old(w.db)
                || Enter(w.sq, old(w.db), txid, amount, d.token, memo) == Some(w.db)
                || w.db == Marked(old(w.db), txid, "invalid memo")
      ensures w.Alone() && !IsProcessed(old(w.db), txid) && w.Calm(old(w.clock), w.clock) ==>
                ok && w.db == EnterOrMark(w.sq, old(w.db), txid, amount, d.token, memo)
    {
      ghost var p, before, start := w.Others(), w.db, w.clock;
      ok := service.Process(w, txid, amount, d.token, memo);
      ghost var mid, tick, first := w.db, w.clock, ok;
      if !ok {
        if w.Alone() && !IsProcessed(before, txid) && mid != before {
          EnterKeepsInv(w.sq, before, txid, amount, d.token, memo);
        }
        ok := MarkAsProcessed(txid, "invalid memo");
        assert w.Calm(start, w.clock) ==> w.Calm(start, tick) && w.Calm(tick, w.clock);
        assert w.OneFault(start, w.clock) ==> w.Calm(start, tick) || w.Calm(tick, w.clock);
        MarkAfter(p, before, mid, w.db, d.token, txid, Pay(amount, memo), "invalid memo",
                  w.Calm(tick, w.clock), w.Calm(start, w.clock));
      }
      EnteredThenMarked(p, before, mid, w.db, Ask(txid, amount, d.token, memo), first, w.Calm(start, tick));
    }

    /** The rest of a TON iteration for a transaction without a processed row; false means it throws. */
    method HandleToncoin(tx: Tx) returns (ok: bool)
      requires w.Valid() && d.token == TON
      modifies w
      ensures w.Valid() && w.clock >= old(w.clock)
      ensures Sound(w.sq, old(w.db), w.db)
      ensures ok ==> IsProcessed(w.db, tx.hash)
      ensures Decided(w.Others(), old(w.db), w.db, d.token, tx.hash, Screen(d, w.wallets, tx), w.Calm(old(w.clock), w.clock))
      ensures Ruled(w.Others(), d, w.wallets, old(w.db), w.db, tx, w.Calm(old(w.clock), w.clock))
      ensures w.Calm(old(w.clock), w.clock) && tx.hash in w.Untouched() && !IsProcessed(old(w.db), tx.hash) ==>
                ok || Screen(d, w.wallets, tx).Unanswered?
      ensures w.Alone() && !IsProcessed(old(w.db), tx.hash) ==>
                MayLeave(w.sq, d, w.wallets, old(w.db), w.db, tx)
                && (w.Calm(old(w.clock), w.clock) ==> Outcome(Here(), old(w.db), w.db, ok, tx))
    {
      OneRule(d, w.wallets, tx);
      var note := "not interested transaction";
      if tx.inMsg.Some? && tx.inMsg.value.Internal? && tx.outMsgs == 0 {
        var Internal(src, dest, coins, body) := tx.inMsg.value;
        var op := body.op;
        if dest != d.address {
          note := "incorrect address in dest";
        } else if op != Some(0) && op != None {
          note := "unexpected opcode";
        } else if op == None {
          note := "memo isn't exists";
        } else {
          note := "invalid memo";
          if body.text.Some? {
            var memo := Memo.Validate(body.text.value);
            if memo.Some? {
              ok := CreditOrMark(tx.hash, coins, memo.value);
              return;
            }
          }
        }
      }
      assert Screen(d, w.wallets, tx) == Note(note);
      ok := MarkAsProcessed(tx.hash, note);
    }

    /** The rest of a jetton iteration for a transaction without a processed row; false means it throws. */
    method HandleJetton(tx: Tx) returns (ok: bool)
      requires w.Valid() && d.token != TON
      modifies w
      ensures w.Valid() && w.clock >= old(w.clock)
      ensures Sound(w.sq, old(w.db), w.db)
      ensures ok ==> IsProcessed(w.db, tx.hash)
      ensures Decided(w.Others(), old(w.db), w.db, d.token, tx.hash, Screen(d, w.wallets, tx), w.Calm(old(w.clock), w.clock))
      ensures Ruled(w.Others(), d, w.wallets, old(w.db), w.db, tx, w.Calm(old(w.clock), w.clock))
      ensures w.Calm(old(w.clock), w.clock) && tx.hash in w.Untouched() && !IsProcessed(old(w.db), tx.hash) ==>
                ok || Screen(d, w.wallets, tx).Unanswered?
      ensures w.Alone() && !IsProcessed(old(w.db), tx.hash) ==>
                MayLeave(w.sq, d, w.wallets, old(w.db), w.db, tx)
                && (w.Calm(old(w.clock), w.clock) ==> Outcome(Here(), old(w.db), w.db, ok, tx))
    {
      OneRule(d, w.wallets, tx);
      if !(tx.inMsg.Some? && tx.inMsg.value.Internal?) {
        ok := MarkAsProcessed(tx.hash, "not interested transaction");
        return;
      }
      var Internal(src, dest, _, body) := tx.inMsg.value;
      if body.op != Some(INTERNAL_TRANSFER) {
        ok := MarkAsProcessed(tx.hash, "unexpected opcode");
        return;
      }
      if dest != d.address {
        ok := MarkAsProcessed(tx.hash, "Incorrect address in dest");
        return;
      }
      ok := HandleNotification(tx, src, body.transfer, Screen(d, w.wallets, tx));
    }

    /** The iteration from the wallet query on. */
    method HandleNotification(tx: Tx, src: Address, transfer: Option<Transfer>, ghost decision: Decision) returns (ok: bool)
      requires w.Valid() && d.token != TON
      requires decision == if src !in w.wallets then Unanswered
                           else if w.wallets[src] != d.master then Note("scam transaction, wrong jetton master")
                           else ScreenTransfer(transfer)
      modifies w
      ensures w.Valid() && w.clock >= old(w.clock)
      ensures Sound(w.sq, old(w.db), w.db)
      ensures ok ==> IsProcessed(w.db, tx.hash)
      ensures Decided(w.Others(), old(w.db), w.db, d.token, tx.hash, decision, w.Calm(old(w.clock), w.clock))
      ensures w.Calm(old(w.clock), w.clock) && tx.hash in w.Untouched() && !IsProcessed(old(w.db), tx.hash) ==>
                ok || decision.Unanswered?
      ensures w.Alone() && !IsProcessed(old(w.db), tx.hash) ==>
                && ScreenedMayLeave(w.sq, d, old(w.db), w.db, tx, decision)
                && (w.Calm(old(w.clock), w.clock) ==>
                      match Apply(w.sq, d, old(w.db), tx, decision)
                      case Some(db) => ok && w.db == db
                      case None => !ok && w.db == old(w.db))
    {
      ghost var p, before, start := w.Others(), w.db, w.clock;
      var master := w.QueryWallet(src);
      if master.Err? {
        DecidedNothing(p, before, w.db, d.token, tx.hash, decision, w.Calm(start, w.clock));
        return false;
      }
      ghost var answered, tick := w.db, w.clock;
      if master.value != d.master {
        ok := MarkAsProcessed(tx.hash, "scam transaction, wrong jetton master");
      } else {
        ok := HandleTransfer(tx, transfer);
      }
      assert w.Calm(start, w.clock) ==> w.Calm(tick, w.clock);
      DecidedSince(p, before, answered, w.db, d.token, tx.hash, decision, w.Calm(tick, w.clock), w.Calm(start, w.clock));
    }

    /** The outer try block of a jetton iteration and its catch. */
    method HandleTransfer(tx: Tx, transfer: Option<Transfer>) returns (ok: bool)
      requires w.Valid() && d.token != TON
      modifies w
      ensures w.Valid() && w.clock >= old(w.clock)
      ensures Sound(w.sq, old(w.db), w.db)
      ensures ok ==> IsProcessed(w.db, tx.hash)
      ensures Decided(w.Others(), old(w.db), w.db, d.token, tx.hash, ScreenTransfer(transfer), w.Calm(old(w.clock), w.clock))
      ensures TransferRuled(w.Others(), d.token, old(w.db), w.db, tx.hash, transfer, w.Calm(old(w.clock), w.clock))
      ensures w.Calm(old(w.clock), w.clock) && tx.hash in w.Untouched() && !IsProcessed(old(w.db), tx.hash) ==> ok
      ensures w.Alone() && !IsProcessed(old(w.db), tx.hash) ==>
                ScreenedMayLeave(w.sq, d, old(w.db), w.db, tx, ScreenTransfer(transfer))
                && (w.Calm(old(w.clock), w.clock) ==>
                      ok && Apply(w.sq, d, old(w.db), tx, ScreenTransfer(transfer)) == Some(w.db))
    {
      ghost var p, before, start := w.Others(), w.db, w.clock;
      OneTransferRule(transfer);
      ok := TryTransfer(tx, transfer);
      if !ok {
        // catch
        ghost var mid, tick := w.db, w.clock;
        if w.Alone() && !IsProcessed(before, tx.hash) && mid != before {
          ScreenedIsProcessed(w.sq, d, before, mid, tx, ScreenTransfer(transfer));
        }
        ok := MarkAsProcessed(tx.hash, "Invalid transaction, parsing error");
        assert w.Calm(start, w.clock) ==> w.Calm(start, tick) && w.Calm(tick, w.clock);
        MarkAfter(p, before, mid, w.db, d.token, tx.hash, ScreenTransfer(transfer), "Invalid transaction, parsing error",
                  w.Calm(tick, w.clock), w.Calm(start, w.clock));
      }
    }

    /** The body of that try block; false means it throws. */
    method TryTransfer(tx: Tx, transfer: Option<Transfer>) returns (ok: bool)
      requires w.Valid() && d.token != TON
      modifies w
      ensures w.Valid() && w.clock >= old(w.clock)
      ensures Sound(w.sq, old(w.db), w.db)
      ensures ok ==> IsProcessed(w.db, tx.hash)
      ensures var decision := ScreenTransfer(transfer);
              var calm := w.Calm(old(w.clock), w.clock);
              && RecordsOnly(w.Others(), old(w.db), w.db, tx.hash)
              && (ok ==> Decided(w.Others(), old(w.db), w.db, d.token, tx.hash, decision, calm))
              && (tx.hash in w.Untouched() && !IsProcessed(old(w.db), tx.hash) ==>
                    && CreditsMatch(w.db, d.token, tx.hash, decision)
                    && (IsProcessed(w.db, tx.hash) ==>
                          Carried(old(w.db), w.db, d.token, tx.hash, decision) || Failed(w.db, d.token, tx.hash, decision))
                    && (calm && !ok ==> w.db == old(w.db) && decision == Note("Invalid transaction, parsing error")))
              && (w.Alone() && !IsProcessed(old(w.db), tx.hash) ==>
                    && ScreenedMayLeave(w.sq, d, old(w.db), w.db, tx, decision)
                    && (calm ==>
                          if ok then Apply(w.sq, d, old(w.db), tx, decision) == Some(w.db)
                          else w.db == old(w.db) && decision == Note("Invalid transaction, parsing error")))
      ensures ok ==> TransferRuled(w.Others(), d.token, old(w.db), w.db, tx.hash, transfer, w.Calm(old(w.clock), w.clock))
    {
      OneTransferRule(transfer);
      ok := false;
      if tx.hash in w.Untouched() && !IsProcessed(w.db, tx.hash) {
        NotCredited(w.sq, w.db, tx.hash);
      }
      if transfer.Some? {
        var comment := TransferComment(transfer.value);
        if comment.Some? {
          if comment.value == "" {
            ok := MarkAsProcessed(tx.hash, "memo isn't exists");
          } else {
            var memo := Memo.Validate(comment.value);
            if memo.Some? {
              ok := CreditOrMark(tx.hash, transfer.value.amount, memo.value);
            } else {
              ok := MarkAsProcessed(tx.hash, "invalid memo");
            }
          }
        }
      }
    }

    /** One iteration of the `handlePage` loop; false means it throws. */
    method HandleTransaction(tx: Tx) returns (ok: bool, ghost handled: nat)
      requires w.Valid()
      modifies w
      ensures w.Valid() && w.clock >= old(w.clock)
      ensures ok ==> IsProcessed(w.db, tx.hash)
      ensures w.Calm(old(w.clock), w.clock) && IsProcessed(old(w.db), tx.hash) ==> ok
      ensures Left(Here(), old(w.db), w.db, Course([tx], handled, ok), w.Calm(old(w.clock), w.clock))
      ensures w.Alone() ==> MayLeave(w.sq, d, w.wallets, old(w.db), w.db, tx)
    {
      ghost var p, before, start := w.Others(), w.db, w.clock;
      var seen := IsProcessedRow(tx.hash);
      if seen.Err? {
        ok := false;
        DecidedNothing(p, before, w.db, d.token, tx.hash, Screen(d, w.wallets, tx), w.Calm(start, w.clock));
        handled := LeftOne(Here(), before, w.db, tx, ok, w.Calm(start, w.clock));
        return;
      }
      if seen.value {
        ok := true;
        handled := LeftOne(Here(), before, w.db, tx, ok, w.Calm(start, w.clock));
        return;
      }
      ghost var mid, tick := w.db, w.clock;
      if d.token == TON {
        ok := HandleToncoin(tx);
      } else {
        ok := HandleJetton(tx);
      }
      assert w.Calm(start, w.clock) ==> w.Calm(tick, w.clock);
      DecidedSince(p, before, mid, w.db, d.token, tx.hash, Screen(d, w.wallets, tx),
                   w.Calm(tick, w.clock), w.Calm(start, w.clock));
      handled := LeftOne(Here(), before, w.db, tx, ok, w.Calm(start, w.clock));
    }

    method HandlePage(transactions: seq<Tx>) returns (ok: bool, ghost handled: nat)
      requires w.Valid()
      modifies w
      ensures w.Valid() && w.clock >= old(w.clock)
      ensures ok ==> forall i :: 0 <= i < |transactions| ==> IsProcessed(w.db, transactions[i].hash)
      ensures Left(Here(), old(w.db), w.db, Course(transactions, handled, ok), w.Calm(old(w.clock), w.clock))
      ensures w.Calm(old(w.clock), w.clock) && Clear(Here(), transactions) ==> ok
    {
      handled := 0;
      ghost var e, before, start := Here(), w.db, w.clock;
      LeftNothing(e, before, before, w.Calm(start, start));
      assert transactions[..0] == [];
      for i := 0 to |transactions|
        invariant w.Valid() && w.clock >= start && handled == i
        invariant Left(e, before, w.db, Course(transactions[..i], i, true), w.Calm(start, w.clock))
      {
        ghost var mid, tick, n := w.db, w.clock, 0;
        ok, n := HandleTransaction(transactions[i]);
        assert w.Calm(start, w.clock) ==> w.Calm(start, tick) && w.Calm(tick, w.clock);
        assert transactions[..i + 1] == transactions[..i] + [transactions[i]];
        handled := i + n;
        LeftThen(e, before, mid, w.db, Course(transactions[..i], i, true), Course([transactions[i]], n, ok),
                 Course(transactions[..i + 1], handled, ok),
                 w.Calm(start, tick), w.Calm(tick, w.clock), w.Calm(start, w.clock));
        if !ok {
          BreaksOff(e, before, w.db, Course(transactions[..i + 1], handled, false), transactions, w.Calm(start, w.clock));
          return;
        }
      }
      assert transactions[..|transactions|] == transactions;
      ok := true;
    }

    method CheckPage(transactions: seq<Tx>) returns (r: Result<bool>)
      requires w.Valid()
      modifies w
      ensures w.Valid() && w.clock == old(w.clock) + 1 && Moved(w.Others(), old(w.db), w.db)
      ensures r == if w.fault(old(w.clock)) == Fine then Ok(HasProcessed(Keys(w.db), transactions)) else Err(Database)
    {
      var txids := seq(|transactions|, i requires 0 <= i < |transactions| => transactions[i].hash);
      r := w.ExistsProcessed(txids);
      if r.Ok? && r.value {
        var i :| 0 <= i < |txids| && IsProcessed(w.db, txids[i]);
        assert transactions[i].hash in Keys(w.db);
      }
      if i :| 0 <= i < |transactions| && transactions[i].hash in Keys(w.db) {
        assert IsProcessed(w.db, txids[i]);
      }
    }

    /** One turn of the `handleBackward` loop: fetch the page on top of the stack again and handle it. */
    method ReplayPage(it: TransactionIterator) returns (err: Option<Error>, ghost page: seq<Tx>, ghost handled: nat)
      requires w.Valid() && it.Valid() && it.provider == w && it.limit == d.limit && it.stack != []
      modifies w, it
      ensures w.Valid() && it.Valid() && old(w.clock) < w.clock
      ensures it.base == old(it.base) && it.stack == old(it.stack)[..|old(it.stack)| - 1]
      ensures err in {None, Some(Network), Some(PageAborted)}
      ensures page == if it.stack == [] then PageNo(w.ledgerAt(old(w.clock)), d.limit, 0)
                      else PageNo(it.base, d.limit, |it.stack|)
      ensures Left(Here(), old(w.db), w.db, Course(page, handled, err == None), w.Calm(old(w.clock), w.clock))
    {
      ghost var e, before, start := Here(), w.db, w.clock;
      var txs := it.Back();
      page := if it.stack == [] then PageNo(w.ledgerAt(start), d.limit, 0) else PageNo(it.base, d.limit, |it.stack|);
      if txs.Err? {
        err, handled := Some(txs.error), 0;
        assert !w.Calm(start, w.clock);
        LeftUnstarted(e, before, w.db, page);
        return;
      }
      ghost var fetched, tick := w.db, w.clock;
      var ok;
      ok, handled := HandlePage(txs.value);
      assert w.Calm(start, w.clock) ==> w.Calm(tick, w.clock);
      LeftSince(e, before, fetched, w.db, Course(page, handled, ok), w.Calm(tick, w.clock), w.Calm(start, w.clock));
      err := if ok then None else Some(PageAborted);
    }

    /** The same turn seen from the start of the replay, which began at `before` with `top` pages below the newest. */
    method ReplayStep(it: TransactionIterator, ghost before: Db, ghost start: nat, ghost top: nat, ghost done: seq<Tx>)
        returns (err: Option<Error>, ghost plan: seq<Tx>, ghost handled: nat, ghost done': seq<Tx>, ghost tick: nat)
      requires w.Valid() && it.Valid() && it.provider == w && it.limit == d.limit && w.clock >= start
      requires Inv(w.sq, before) && Midway(it.base, d.limit, top, done, |it.stack|)
      requires Left(Here(), before, w.db, Course(done, |done|, true), w.Calm(start, w.clock))
      modifies w, it
      ensures w.Valid() && it.Valid() && tick == old(w.clock) < w.clock
      ensures it.base == old(it.base) && it.stack == old(it.stack)[..|old(it.stack)| - 1]
      ensures err in {None, Some(Network), Some(PageAborted)}
      ensures plan == Descent(it.base, d.limit, top) + PageNo(w.ledgerAt(tick), d.limit, 0)
      ensures err != None ==> Left(Here(), before, w.db, Course(plan, handled, false), w.Calm(start, w.clock))
      ensures err == None ==>
                && Left(Here(), before, w.db, Course(done', |done'|, true), w.Calm(start, w.clock))
                && (if it.stack == [] then done' == plan
                    else Midway(it.base, d.limit, top, done', |it.stack|))
    {
      ghost var e, mid, j := Here(), w.db, |it.stack| - 1;
      tick := w.clock;
      ghost var page, n;
      err, page, n := ReplayPage(it);
      ghost var newest := PageNo(w.ledgerAt(tick), d.limit, 0);
      plan := Descent(it.base, d.limit, top) + newest;
      handled, done' := |done| + n, done + page;
      assert |it.stack| == j;
      DescentStep(it.base, d.limit, top, j, done, page, newest, done', plan);
      assert w.Calm(start, w.clock) ==> w.Calm(start, tick) && w.Calm(tick, w.clock);
      LeftThen(e, before, mid, w.db, Course(done, |done|, true), Course(page, n, err == None),
               Course(done', handled, err == None),
               w.Calm(start, tick), w.Calm(tick, w.clock), w.Calm(start, w.clock));
      if err != None {
        LeftEarly(e, before, w.db, Course(done', handled, false), plan, w.Calm(start, w.clock));
      }
    }

    /** Replays the stacked pages, the newest page last; `plan` is what it sets out to handle. */
    method HandleBackward(it: TransactionIterator)
        returns (err: Option<Error>, ghost plan: seq<Tx>, ghost handled: nat, ghost tick: nat)
      requires w.Valid() && it.Valid() && it.provider == w && it.limit == d.limit && it.stack != []
      modifies w, it
      ensures w.Valid() && old(w.clock) <= tick < w.clock
      ensures err in {None, Some(Network), Some(PageAborted)}
      ensures plan == Descent(old(it.base), d.limit, |old(it.stack)| - 1) + PageNo(w.ledgerAt(tick), d.limit, 0)
      ensures Left(Here(), old(w.db), w.db, Course(plan, handled, err == None), w.Calm(old(w.clock), w.clock))
    {
      ghost var before, start, base, top := w.db, w.clock, it.base, |it.stack| - 1;
      ghost var done: seq<Tx> := [];
      var more := true;
      tick := start;
      LeftNothing(Here(), before, before, w.Calm(start, start));
      while more
        invariant w.Valid() && it.Valid() && w.clock >= start && it.base == base
        invariant more <==> it.stack != []
        invariant Left(Here(), before, w.db, Course(done, |done|, true), w.Calm(start, w.clock))
        invariant more ==> Midway(base, d.limit, top, done, |it.stack|)
        invariant !more ==> start <= tick < w.clock
                            && done == Descent(base, d.limit, top) + PageNo(w.ledgerAt(tick), d.limit, 0)
        decreases |it.stack|
      {
        err, plan, handled, done, tick := ReplayStep(it, before, start, top, done);
        if err != None {
          return;
        }
        more := it.CanBack();
      }
      err, plan, handled := None, done, |done|;
    }

    /** The forward loop of `process`: fetch pages until one holds a processed transaction or the ledger ends. */
    method Scan(it: TransactionIterator) returns (err: Option<Error>, txs: Option<seq<Tx>>, found: bool)
      requires w.Valid() && it.Valid() && it.provider == w && it.limit == d.limit && it.stack == [] && it.canNext
      modifies w, it
      ensures w.Valid() && it.Valid() && old(w.clock) < w.clock
      ensures err in {None, Some(Network), Some(Database)}
      ensures Moved(w.Others(), old(w.db), w.db)
      ensures err != None ==> !w.Calm(old(w.clock), w.clock)
      ensures err == None ==>
                && it.stack != [] && it.base == w.ledgerAt(old(w.clock))
                && txs == Some(PageNo(it.base, d.limit, |it.stack| - 1))
                && (found || |it.stack| - 1 == LastPage(it.base, d.limit))
                && Between(Keys(old(w.db)), Keys(w.db), it.base, d.limit, if found then Some(|it.stack| - 1) else None)
    {
      ghost var before, start, done := w.db, w.clock, Keys(w.db);
      txs, found, err := None, false, None;
      while it.CanNext()
        invariant w.Valid() && it.Valid() && w.clock >= start && err == None
        invariant Moved(w.Others(), before, w.db)
        invariant it.stack == [] ==> it.canNext && txs == None && w.clock == start
        invariant it.stack != [] ==>
                    && w.clock > start
                    && it.base == w.ledgerAt(start)
                    && JustFetched(it.base, d.limit, |it.stack|, it.canNext, txs)
                    && NoneBefore(done, it.base, d.limit, |it.stack|)
        decreases if it.stack == [] then 1 else 0, it.Ahead()
      {
        var page, hasProcessed;
        err, page, hasProcessed := ScanPage(it, before, start);
        if err != None {
          return;
        }
        txs := Some(page);
        ScanStep(before, w.db, it.base, d.limit, |it.stack| - 1, page, hasProcessed);
        if hasProcessed {
          found := true;
          break;
        }
      }
    }

    /** One turn of that loop, which began at `before`. */
    method ScanPage(it: TransactionIterator, ghost before: Db, ghost start: nat)
        returns (err: Option<Error>, page: seq<Tx>, hasProcessed: bool)
      requires w.Valid() && it.Valid() && it.provider == w && it.limit == d.limit && it.canNext
      requires w.clock >= start && Moved(w.Others(), before, w.db)
      modifies w, it
      ensures w.Valid() && it.Valid() && old(w.clock) < w.clock
      ensures err in {None, Some(Network), Some(Database)}
      ensures Moved(w.Others(), before, w.db)
      ensures err != None ==> !w.Calm(start, w.clock)
      ensures err == None ==>
                && it.base == (if old(it.stack) == [] then w.ledgerAt(old(w.clock)) else old(it.base))
                && |it.stack| == |old(it.stack)| + 1
                && JustFetched(it.base, d.limit, |it.stack|, it.canNext, Some(page))
                && (old(it.stack) != [] ==> it.Ahead() < old(it.Ahead()))
                && hasProcessed == HasProcessed(Keys(w.db), page)
    {
      ghost var mid, tick := w.db, w.clock;
      page, hasProcessed, err := [], false, None;
      var next := it.Next();
      ghost var fetched, tick' := w.db, w.clock;
      MovedTransitive(w.Others(), before, mid, fetched);
      if next.Err? {
        assert w.fault(tick) != Fine;
        err := Some(next.error);
        return;
      }
      page := next.value;
      var has := CheckPage(page);
      MovedTransitive(w.Others(), before, fetched, w.db);
      if has.Err? {
        assert w.fault(tick') != Fine;
        err := Some(Database);
        return;
      }
      hasProcessed := has.value;
    }

    /** `process` after its forward loop: the page it stopped on as first fetched, if any, then the replay. */
    method AfterScan(it: TransactionIterator, txs: Option<seq<Tx>>, found: bool)
        returns (err: Option<Error>, ghost plan: seq<Tx>, ghost handled: nat, ghost tick: nat)
      requires w.Valid() && it.Valid() && it.provider == w && it.limit == d.limit && it.stack != []
      requires txs == Some(PageNo(it.base, d.limit, |it.stack| - 1))
      modifies w, it
      ensures w.Valid() && old(w.clock) <= tick <= w.clock
      ensures err in {None, Some(Network), Some(PageAborted)}
      ensures var k := |old(it.stack)| - 1;
              var front := if found then PageNo(old(it.base), d.limit, k) else [];
              plan == front + (Descent(old(it.base), d.limit, k) + PageNo(w.ledgerAt(tick), d.limit, 0))
      ensures Left(Here(), old(w.db), w.db, Course(plan, handled, err == None), w.Calm(old(w.clock), w.clock))
    {
      if !found && txs == None {
        assert false;
      }
      if !found {
        err, plan, handled, tick := HandleBackward(it);
        assert [] + plan == plan;
        return;
      }

      err, plan, handled, tick := FromStopPage(it, txs);
    }

    /** The found case: the stop page as first fetched, then the replay. */
    method FromStopPage(it: TransactionIterator, txs: Option<seq<Tx>>)
        returns (err: Option<Error>, ghost plan: seq<Tx>, ghost handled: nat, ghost tick: nat)
      requires w.Valid() && it.Valid() && it.provider == w && it.limit == d.limit && it.stack != []
      requires txs == Some(PageNo(it.base, d.limit, |it.stack| - 1))
      modifies w, it
      ensures w.Valid() && old(w.clock) <= tick <= w.clock
      ensures err in {None, Some(Network), Some(PageAborted)}
      ensures var k := |old(it.stack)| - 1;
              plan == PageNo(old(it.base), d.limit, k)
                      + (Descent(old(it.base), d.limit, k) + PageNo(w.ledgerAt(tick), d.limit, 0))
      ensures Left(Here(), old(w.db), w.db, Course(plan, handled, err == None), w.Calm(old(w.clock), w.clock))
    {
      ghost var e, before, start, k, base := Here(), w.db, w.clock, |it.stack| - 1, it.base;
      tick := start;
      ghost var page := PageNo(base, d.limit, k);
      plan := page + (Descent(base, d.limit, k) + PageNo(w.ledgerAt(tick), d.limit, 0));
      if txs.Some? {
        var ok;
        ok, handled := HandlePage(txs.value);
        if !ok {
          err := Some(PageAborted);
          LeftEarly(e, before, w.db, Course(page, handled, false), plan, w.Calm(start, w.clock));
          return;
        }
      }
      ghost var between, btick := w.db, w.clock;
      if it.CanBack() {
        ghost var rest, n;
        err, rest, n, tick := HandleBackward(it);
        assert rest == Descent(base, d.limit, k) + PageNo(w.ledgerAt(tick), d.limit, 0);
        plan, handled := page + rest, |page| + n;
        assert w.Calm(start, w.clock) ==> w.Calm(start, btick) && w.Calm(btick, w.clock);
        LeftThen(e, before, between, w.db, Course(page, |page|, true), Course(rest, n, err == None),
                 Course(plan, handled, err == None), w.Calm(start, btick), w.Calm(btick, w.clock), w.Calm(start, w.clock));
      }
    }

    /**
     `process`. `plan` is the exact list of transactions the run sets out to handle, in order; `stop` is the page it
     stopped on and `tick` the moment of its last fetch of the newest page. Whatever calls fail and whoever else writes,
     the run ends, never by one of the iterator's own errors, and has recorded a front part of the plan.
     */
    method Process()
        returns (err: Option<Error>, ghost stop: Option<nat>, ghost plan: seq<Tx>, ghost handled: nat, ghost tick: nat)
      requires w.Valid()
      modifies w
      ensures w.Valid() && old(w.clock) <= tick <= w.clock
      ensures err in {None, Some(Network), Some(Database), Some(PageAborted)}
      ensures plan == Plan(stop, w.ledgerAt(old(w.clock)), w.ledgerAt(tick), d.limit)
      ensures Between(Keys(old(w.db)), Keys(w.db), w.ledgerAt(old(w.clock)), d.limit, stop)
      ensures (forall h :: h in Hashes(w.ledgerAt(old(w.clock))) ==> h in w.Untouched()) ==>
                stop == StopPage(Keys(old(w.db)), w.ledgerAt(old(w.clock)), d.limit)
      ensures Left(Here(), old(w.db), w.db, Course(plan, handled, err == None), w.Calm(old(w.clock), w.clock))
      ensures w.Calm(old(w.clock), w.clock) && Clear(Here(), plan) ==> err == None
      ensures w.Alone() ==>
                && plan == Itinerary(Keys(old(w.db)), w.ledgerAt(old(w.clock)), w.ledgerAt(tick), d.limit)
                && Keys(w.db) == Keys(old(w.db)) + Hashes(plan[..handled])
    {
      ghost var e, before, start := Here(), w.db, w.clock;
      ghost var head := w.ledgerAt(start);
      tick, handled, stop := start, 0, StopPage(Keys(before), head, d.limit);
      plan := Plan(stop, head, head, d.limit);

      var it := new TransactionIterator(w, d.limit);
      var txs, found;
      err, txs, found := Scan(it);
      ghost var mid, mtick, k := w.db, w.clock, |it.stack| - 1;
      if err != None {
        LeftUnstarted(e, before, mid, plan);
        RunMeans(w, e, before, mid, Course(plan, 0, false), w.Calm(start, mtick));
        ClearThrough(e, before, mid, Course(plan, 0, false), w.Calm(start, mtick));
        KeysEvolve(before, mid);
        StopAtOnce(Keys(before), Keys(mid), head, d.limit);
        return;
      }
      stop := if found then Some(k) else None;

      err, plan, handled, tick := AfterScan(it, txs, found);
      PlanFrom(stop, head, w.ledgerAt(tick), d.limit, k);
      assert w.Calm(start, w.clock) ==> w.Calm(mtick, w.clock);
      LeftSince(e, before, mid, w.db, Course(plan, handled, err == None), w.Calm(mtick, w.clock), w.Calm(start, w.clock));
      RunMeans(w, e, before, w.db, Course(plan, handled, err == None), w.Calm(start, w.clock));
      ClearThrough(e, before, w.db, Course(plan, handled, err == None), w.Calm(start, w.clock));
      StopSeen(w.Others(), before, mid, w.db, head, d.limit, stop);
    }
  }

  /** Of the descent from page `top`, `done` is over and `height` pages, the newest one included, are left. */
  ghost predicate Midway(base: seq<Tx>, limit: nat, top: nat, done: seq<Tx>, height: nat) {
    0 < height <= top + 1 && Descent(base, limit, top) == done + Descent(base, limit, height - 1)
  }

  lemma DescentStep(base: seq<Tx>, limit: nat, top: nat, j: nat, done: seq<Tx>, page: seq<Tx>, last: seq<Tx>,
                    done': seq<Tx>, plan: seq<Tx>)
    requires Midway(base, limit, top, done, j + 1)
    requires page == if j == 0 then last else PageNo(base, limit, j)
    requires done' == done + page && plan == Descent(base, limit, top) + last
    ensures done' <= plan
    ensures if j == 0 then done' == plan else Midway(base, limit, top, done', j)
  {
    if j > 0 {
      NextPage(Descent(base, limit, top), done, page, Descent(base, limit, j - 1), last);
    } else {
      assert done + [] == done;
    }
  }

  lemma NextPage(whole: seq<Tx>, done: seq<Tx>, page: seq<Tx>, rest: seq<Tx>, last: seq<Tx>)
    requires whole == done + (page + rest)
    ensures whole == (done + page) + rest && done + page <= whole + last
  {
    assert done + (page + rest) == (done + page) + rest;
  }

  /** The scan has just fetched `page`, number height - 1 of the grid, and can go on unless it is the last one. */
  ghost predicate JustFetched(base: seq<Tx>, limit: nat, height: nat, canNext: bool, page: Option<seq<Tx>>) {
    height > 0 && page == Some(PageNo(base, limit, height - 1)) && canNext == (height - 1 < LastPage(base, limit))
  }

  /** No page before number j held a transaction that was recorded at the start. */
  ghost predicate NoneBefore(done: set<Hash>, head: seq<Tx>, limit: nat, j: nat) {
    forall i :: 0 <= i < j ==> !HasProcessed(done, PageNo(head, limit, i))
  }

  lemma KeysEvolve(a: Db, b: Db)
    requires Evolves(a, b)
    ensures Keys(a) <= Keys(b)
  {
    forall h | h in Keys(a) ensures h in Keys(b) {
      var i :| 0 <= i < |a.processed| && a.processed[i].txid == h;
      assert b.processed[i].txid == h;
    }
  }

  lemma ScanStep(a: Db, b: Db, head: seq<Tx>, limit: nat, j: nat, page: seq<Tx>, has: bool)
    requires Evolves(a, b) && (j == 0 || NoneBefore(Keys(a), head, limit, j))
    requires j <= LastPage(head, limit) && page == PageNo(head, limit, j) && has == HasProcessed(Keys(b), page)
    ensures has ==> Between(Keys(a), Keys(b), head, limit, Some(j))
    ensures !has ==> NoneBefore(Keys(a), head, limit, j + 1)
    ensures !has && j == LastPage(head, limit) ==> Between(Keys(a), Keys(b), head, limit, None)
  {
    KeysEvolve(a, b);
    ProcessedStays(Keys(a), Keys(b), page);
  }

  lemma StopSeen(p: Peers, a: Db, b: Db, c: Db, head: seq<Tx>, limit: nat, stop: Option<nat>)
    requires Moved(p, a, b) && Evolves(b, c) && Between(Keys(a), Keys(b), head, limit, stop)
    ensures Between(Keys(a), Keys(c), head, limit, stop)
    ensures (forall h :: h in Hashes(head) ==> h in p.still) ==> stop == StopPage(Keys(a), head, limit)
  {
    KeysEvolve(b, c);
    if stop.Some? {
      ProcessedStays(Keys(b), Keys(c), PageNo(head, limit, stop.value));
    }
    if forall h :: h in Hashes(head) ==> h in p.still {
      forall i | 0 <= i < |head| && head[i].hash in Keys(b) ensures head[i].hash in Keys(a) {
        assert head[i].hash in Hashes(head);
        KeysAreProcessed(a, head[i].hash);
        KeysAreProcessed(b, head[i].hash);
      }
      StopExact(Keys(a), Keys(b), head, limit, stop);
    }
  }

  /** With nobody else writing, a run is known exactly. */
  lemma RunMeans(w: World, e: Setting, a: Db, b: Db, x: Course, calm: bool)
    requires e.p == w.Others() && Left(e, a, b, x, calm)
    ensures w.Alone() ==> (forall h :: h in w.Untouched()) && Keys(b) == Keys(a) + Hashes(x.plan[..x.handled])
  {
    w.AloneUntouched();
    if w.Alone() {
      LeftKeys(e, a, b, x, calm);
    }
  }

  lemma DecidedNothing(p: Peers, a: Db, b: Db, token: Token, txid: Hash, decision: Decision, calm: bool)
    requires Moved(p, a, b) && (calm ==> decision.Unanswered?)
    ensures Sound(p.sq, a, b) && Decided(p, a, b, token, txid, decision, calm)
  {
    if txid in p.still && !IsProcessed(a, txid) {
      NotCredited(p.sq, b, txid);
    }
  }
}

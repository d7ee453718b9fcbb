/**
 What becomes of a transaction, told by its fields alone: which are payments, of what amount and for which memo, which
 are recorded with which note, and which end the run. The daemons are proved to decide exactly so.
 */
module Rules {
  import opened Base
  import opened Ledger
  import opened Screening
  import Memo

  /** A message of another contract to this one. */
  predicate Inbound(tx: Tx) {
    tx.inMsg.Some? && tx.inMsg.value.Internal?
  }

  // ---------------------------------------------------------------- TON

  /** A comment, opcode 0, to the wallet, which sent nothing on. */
  ghost predicate ToncoinPayment(wallet: Address, tx: Tx, amount: nat, memo: nat) {
    && Inbound(tx) && tx.outMsgs == 0
    && var m := tx.inMsg.value;
       && m.dest == wallet && m.coins == amount && m.body.op == Some(0)
       && m.body.text.Some? && Memo.Denotes(m.body.text.value, memo)
  }

  ghost predicate ToncoinNoted(wallet: Address, tx: Tx, note: string) {
    if Inbound(tx) && tx.outMsgs == 0 then
      var m := tx.inMsg.value;
      || (note == "incorrect address in dest" && m.dest != wallet)
      || (note == "unexpected opcode" && m.dest == wallet && m.body.op.Some? && m.body.op.value > 0)
      || (note == "memo isn't exists" && m.dest == wallet && m.body.op.None?)
      || (note == "invalid memo" && m.dest == wallet && m.body.op == Some(0)
          && (m.body.text.Some? ==> forall memo: nat :: !Memo.Denotes(m.body.text.value, memo)))
    else
      note == "not interested transaction"
  }

  // ---------------------------------------------------------------- jettons

  /** Its forward payload is a text comment, opcode 0, that denotes a memo. */
  ghost predicate TransferPays(transfer: Option<Transfer>, amount: nat, memo: nat) {
    && transfer.Some? && transfer.value.amount == amount && transfer.value.payload.Some?
    && var p := transfer.value.payload.value;
       p.op == Some(0) && p.text.Some? && Memo.Denotes(p.text.value, memo)
  }

  ghost predicate TransferNoted(transfer: Option<Transfer>, note: string) {
    if transfer.None? then note == "Invalid transaction, parsing error"
    else if transfer.value.payload.None? then note == "memo isn't exists"
    else
      var p := transfer.value.payload.value;
      || (note == "Invalid transaction, parsing error" && (p.op.None? || (p.op == Some(0) && p.text.None?)))
      || (note == "memo isn't exists" && p.op.Some? && (p.op.value > 0 || p.text == Some("")))
      || (note == "invalid memo" && p.op == Some(0) && p.text.Some? && p.text.value != ""
          && forall memo: nat :: !Memo.Denotes(p.text.value, memo))
  }

  /** A transfer notification to the wallet from a jetton wallet. */
  predicate Notification(wallet: Address, tx: Tx) {
    Inbound(tx) && tx.inMsg.value.body.op == Some(0x178d4519) && tx.inMsg.value.dest == wallet
  }

  /** One whose sender names the right master, and that pays. */
  ghost predicate JettonPayment(d: Daemon, wallets: Wallets, tx: Tx, amount: nat, memo: nat) {
    && Notification(d.address, tx)
    && var m := tx.inMsg.value;
       m.src in wallets && wallets[m.src] == d.master && TransferPays(m.body.transfer, amount, memo)
  }

  ghost predicate JettonNoted(d: Daemon, wallets: Wallets, tx: Tx, note: string) {
    if Notification(d.address, tx) then
      var m := tx.inMsg.value;
      && m.src in wallets
      && if wallets[m.src] == d.master then TransferNoted(m.body.transfer, note)
         else note == "scam transaction, wrong jetton master"
    else if Inbound(tx) then
      var m := tx.inMsg.value;
      || (note == "unexpected opcode" && m.body.op != Some(0x178d4519))
      || (note == "Incorrect address in dest" && m.body.op == Some(0x178d4519) && m.dest != d.address)
    else
      note == "not interested transaction"
  }

  /** One whose sender does not answer the wallet query. */
  predicate JettonUnanswered(d: Daemon, wallets: Wallets, tx: Tx) {
    Notification(d.address, tx) && tx.inMsg.value.src !in wallets
  }

  // ---------------------------------------------------------------- either

  ghost predicate Payment(d: Daemon, wallets: Wallets, tx: Tx, amount: nat, memo: nat) {
    if d.token == TON then ToncoinPayment(d.address, tx, amount, memo) else JettonPayment(d, wallets, tx, amount, memo)
  }

  ghost predicate Rule(d: Daemon, wallets: Wallets, tx: Tx, decision: Decision) {
    match decision
    case Pay(amount, memo) => Payment(d, wallets, tx, amount, memo)
    case Note(note) => if d.token == TON then ToncoinNoted(d.address, tx, note) else JettonNoted(d, wallets, tx, note)
    case Unanswered => d.token != TON && JettonUnanswered(d, wallets, tx)
  }

  ghost predicate TransferRule(transfer: Option<Transfer>, decision: Decision) {
    match decision
    case Pay(amount, memo) => TransferPays(transfer, amount, memo)
    case Note(note) => TransferNoted(transfer, note)
    case Unanswered => false
  }

  lemma CommentReads(comment: Option<string>)
    ensures comment.Some? ==>
              && (forall m: nat :: Memo.Validate(comment.value) == Some(m) <==> Memo.Denotes(comment.value, m))
              && (Memo.Validate(comment.value) == None <==> forall m: nat :: !Memo.Denotes(comment.value, m))
  {
    if comment.Some? {
      forall m: nat ensures Memo.Validate(comment.value) == Some(m) <==> Memo.Denotes(comment.value, m) {
        Memo.AcceptedIff(comment.value, m);
      }
      Memo.NoneAccepted(comment.value);
    }
  }

  lemma EmptyDenotesNothing(m: nat)
    ensures !Memo.Denotes("", m)
  {
    Memo.AcceptedIff("", m);
  }

  /** A TON transaction is decided on as its fields say, and they say one thing. */
  lemma ToncoinDecided(d: Daemon, tx: Tx, decision: Decision)
    requires d.token == TON
    ensures Rule(d, map[], tx, decision) <==> ScreenToncoin(d, tx) == decision
  {
    if Inbound(tx) {
      CommentReads(tx.inMsg.value.body.text);
    }
  }

  /** So is the payload of a transfer. */
  lemma TransferDecided(transfer: Option<Transfer>, decision: Decision)
    ensures TransferRule(transfer, decision) <==> ScreenTransfer(transfer) == decision
  {
    if transfer.Some? && transfer.value.payload.Some? {
      CommentReads(transfer.value.payload.value.text);
      if decision.Pay? {
        EmptyDenotesNothing(decision.memo);
      }
    }
  }

  /** And a jetton transaction, given what the wallets answer. */
  lemma JettonDecided(d: Daemon, wallets: Wallets, tx: Tx, decision: Decision)
    requires d.token != TON
    ensures Rule(d, wallets, tx, decision) <==> ScreenJetton(d, wallets, tx) == decision
  {
    if Inbound(tx) {
      TransferDecided(tx.inMsg.value.body.transfer, decision);
    }
  }

  lemma Decides(d: Daemon, wallets: Wallets, tx: Tx, decision: Decision)
    ensures Rule(d, wallets, tx, decision) <==> Screen(d, wallets, tx) == decision
  {
    if d.token == TON {
      ToncoinDecided(d, tx, decision);
    } else {
      JettonDecided(d, wallets, tx, decision);
    }
  }

  /** So the fields say exactly one thing about a transaction. */
  lemma OneRule(d: Daemon, wallets: Wallets, tx: Tx)
    ensures forall decision :: Rule(d, wallets, tx, decision) <==> decision == Screen(d, wallets, tx)
  {
    forall decision: Decision ensures Rule(d, wallets, tx, decision) <==> decision == Screen(d, wallets, tx) {
      Decides(d, wallets, tx, decision);
    }
  }

  lemma OneTransferRule(transfer: Option<Transfer>)
    ensures forall decision :: TransferRule(transfer, decision) <==> decision == ScreenTransfer(transfer)
  {
    forall decision: Decision ensures TransferRule(transfer, decision) <==> decision == ScreenTransfer(transfer) {
      TransferDecided(transfer, decision);
    }
  }
}

/**
 What one transaction means to a daemon, and what handling it does to the tables when no
 call fails and nobody else writes. The daemons' loops are proved against these functions.
 */
module Screening {
  import opened Base
  import opened Ledger
  import opened Tables
  import Memo

  /** `address` is the watched wallet; `master` is the jetton master, unused for TON. */
  datatype Daemon = Daemon(token: Token, address: Address, master: Address, limit: nat)

  /** The master each jetton wallet reports; a sender outside the map makes the query throw. */
  type Wallets = map<Address, Address>

  const INTERNAL_TRANSFER: nat := 0x178d4519

  datatype Decision =
    | Note(note: string)                 // recorded with this note, not credited
    | Pay(amount: nat, memo: nat)        // handed to the crediting transaction
    | Unanswered                         // the wallet query throws and the page is abandoned

  function ScreenToncoin(d: Daemon, tx: Tx): Decision {
    match tx.inMsg
    case Some(Internal(src, dest, coins, body)) =>
      if tx.outMsgs != 0 then Note("not interested transaction")
      else if dest != d.address then Note("incorrect address in dest")
      else if body.op != Some(0) && body.op != None then Note("unexpected opcode")
      else if body.op == None then Note("memo isn't exists")
      else if body.text == None then Note("invalid memo")
      else (match Memo.Validate(body.text.value)
        case None => Note("invalid memo")
        case Some(memo) => Pay(coins, memo))
    case _ => Note("not interested transaction")
  }

  /** The comment of a jetton transfer: None when reading it throws, "" when there is none. */
  function TransferComment(t: Transfer): Option<string> {
    match t.payload
    case None => Some("")
    case Some(p) =>
      if p.op == None then None
      else if p.op == Some(0) then p.text
      else Some("")
  }

  function ScreenTransfer(transfer: Option<Transfer>): Decision {
    match transfer
    case None => Note("Invalid transaction, parsing error")
    case Some(t) =>
      match TransferComment(t)
      case None => Note("Invalid transaction, parsing error")
      case Some(comment) =>
        if comment == "" then Note("memo isn't exists")
        else match Memo.Validate(comment)
          case None => Note("invalid memo")
          case Some(memo) => Pay(t.amount, memo)
  }

  function ScreenJetton(d: Daemon, wallets: Wallets, tx: Tx): Decision {
    match tx.inMsg
    case Some(Internal(src, dest, _, body)) =>
      if body.op != Some(INTERNAL_TRANSFER) then Note("unexpected opcode")
      else if dest != d.address then Note("Incorrect address in dest")
      else if src !in wallets then Unanswered
      else if wallets[src] != d.master then Note("scam transaction, wrong jetton master")
      else ScreenTransfer(body.transfer)
    case _ => Note("not interested transaction")
  }

  function Screen(d: Daemon, wallets: Wallets, tx: Tx): Decision {
    if d.token == TON then ScreenToncoin(d, tx) else ScreenJetton(d, wallets, tx)
  }

  // ---------------------------------------------------------------- one transaction, undisturbed

  /** The crediting transaction on one committed state; None when it throws. */
  function Enter(sq: Sequences, db: Db, txid: Hash, amount: nat, token: Token, memo: nat): Option<Db> {
    if txid == "" || amount == 0 || memo == 0 then None
    else if IsProcessed(db, txid) then Some(db)
    else if memo > MAX_BIGINT then None
    else match FindCharge(db.charges, memo)
      case None => Commit(sq, db, MarkRows(txid, Some("no associated charge")))
      case Some(charge) =>
        if IsCredited(db, txid) then Commit(sq, db, MarkRows(txid, None))
        else Commit(sq, db, CreditRows(Credit(txid, amount, token, charge.id), charge))
  }

  function Marked(db: Db, txid: Hash, note: string): Db {
    db.(processed := db.processed + [Processed(txid, Some(note))])
  }

  function EnterOrMark(sq: Sequences, db: Db, txid: Hash, amount: nat, token: Token, memo: nat): Db {
    match Enter(sq, db, txid, amount, token, memo)
    case Some(db') => db'
    case None => Marked(db, txid, "invalid memo")
  }

  /** Carrying out a decision; None when the handler throws. */
  function Apply(sq: Sequences, d: Daemon, db: Db, tx: Tx, decision: Decision): Option<Db> {
    match decision
    case Unanswered => None
    case Note(note) => Some(Marked(db, tx.hash, note))
    case Pay(amount, memo) => Some(EnterOrMark(sq, db, tx.hash, amount, d.token, memo))
  }

  /** Handling one transaction of a page; None when the handler throws. */
  function Settle(sq: Sequences, d: Daemon, wallets: Wallets, db: Db, tx: Tx): Option<Db> {
    if IsProcessed(db, tx.hash) then Some(db)
    else Apply(sq, d, db, tx, Screen(d, wallets, tx))
  }

  /** Handling transactions one after the other, up to the first that throws. */
  function SettleAll(sq: Sequences, d: Daemon, wallets: Wallets, db: Db, todo: seq<Tx>): (Db, bool)
    decreases |todo|
  {
    if todo == [] then (db, true)
    else match Settle(sq, d, wallets, db, todo[0])
      case None => (db, false)
      case Some(db') => SettleAll(sq, d, wallets, db', todo[1..])
  }

  // ---------------------------------------------------------------- what settling does

  lemma EnterKeepsInv(sq: Sequences, db: Db, txid: Hash, amount: nat, token: Token, memo: nat)
    requires Inv(sq, db) && Enter(sq, db, txid, amount, token, memo).Some?
    ensures var db' := Enter(sq, db, txid, amount, token, memo).value;
            Inv(sq, db') && Evolves(db, db') && SendsNothing(db, db')
            && Keys(db') == Keys(db) + {txid} && IsProcessed(db', txid)
  {
    var db' := Enter(sq, db, txid, amount, token, memo).value;
    if IsProcessed(db, txid) {
      KeysAreProcessed(db, txid);
    } else {
      CreditedIsProcessed(sq, db, txid);
      match FindCharge(db.charges, memo)
      case None =>
        MarkCommit(sq, db, txid, Some("no associated charge"));
        MarkKeepsInv(sq, db, txid, "no associated charge");
        KeysGrow(db, db', Processed(txid, Some("no associated charge")));
      case Some(charge) =>
        var credit := Credit(txid, amount, token, charge.id);
        CreditCommit(sq, db, credit, charge);
        CreditKeepsInv(sq, db, credit, charge, db');
        KeysGrow(db, db', Processed(txid, None));
    }
  }

  lemma KeysGrow(db: Db, db': Db, row: Processed)
    requires db'.processed == db.processed + [row]
    ensures Keys(db') == Keys(db) + {row.txid} && IsProcessed(db', row.txid)
  {
    assert db'.processed[|db.processed|] == row;
    forall h | h in Keys(db) + {row.txid} ensures h in Keys(db') {
      if h in Keys(db) {
        var i :| 0 <= i < |db.processed| && db.processed[i].txid == h;
        assert db'.processed[i].txid == h;
      }
    }
  }

  lemma ApplyKeepsInv(sq: Sequences, d: Daemon, db: Db, tx: Tx, decision: Decision)
    requires Inv(sq, db) && !IsProcessed(db, tx.hash)
    ensures Apply(sq, d, db, tx, decision).Some? ==>
              var db' := Apply(sq, d, db, tx, decision).value;
              Inv(sq, db') && Evolves(db, db') && Keys(db') == Keys(db) + {tx.hash}
  {
    match decision
    case Unanswered =>
    case Note(note) =>
      MarkKeepsInv(sq, db, tx.hash, note);
      KeysGrow(db, Marked(db, tx.hash, note), Processed(tx.hash, Some(note)));
    case Pay(amount, memo) =>
      if Enter(sq, db, tx.hash, amount, d.token, memo).Some? {
        EnterKeepsInv(sq, db, tx.hash, amount, d.token, memo);
      } else {
        MarkKeepsInv(sq, db, tx.hash, "invalid memo");
        KeysGrow(db, Marked(db, tx.hash, "invalid memo"), Processed(tx.hash, Some("invalid memo")));
      }
  }

  lemma SettleKeepsInv(sq: Sequences, d: Daemon, wallets: Wallets, db: Db, tx: Tx)
    requires Inv(sq, db) && Settle(sq, d, wallets, db, tx).Some?
    ensures var db' := Settle(sq, d, wallets, db, tx).value;
            Inv(sq, db') && Evolves(db, db') && Keys(db') == Keys(db) + {tx.hash}
  {
    KeysAreProcessed(db, tx.hash);
    if !IsProcessed(db, tx.hash) {
      ApplyKeepsInv(sq, d, db, tx, Screen(d, wallets, tx));
    }
  }

  lemma {:induction false} SettleAllKeepsInv(sq: Sequences, d: Daemon, wallets: Wallets, db: Db, todo: seq<Tx>)
    requires Inv(sq, db)
    ensures var (db', ok) := SettleAll(sq, d, wallets, db, todo);
            Inv(sq, db') && Evolves(db, db') && (ok ==> Keys(db') == Keys(db) + Hashes(todo))
    decreases |todo|
  {
    if todo != [] && Settle(sq, d, wallets, db, todo[0]).Some? {
      var db1 := Settle(sq, d, wallets, db, todo[0]).value;
      SettleKeepsInv(sq, d, wallets, db, todo[0]);
      SettleAllKeepsInv(sq, d, wallets, db1, todo[1..]);
      EvolvesTransitive(db, db1, SettleAll(sq, d, wallets, db1, todo[1..]).0);
      FrontHashes(todo, |todo|);
      assert todo[..|todo|] == todo && todo[1..][..|todo| - 1] == todo[1..];
    }
  }

  lemma {:induction false} SettleAllConcat(sq: Sequences, d: Daemon, wallets: Wallets, db: Db, a: seq<Tx>, b: seq<Tx>)
    ensures SettleAll(sq, d, wallets, db, a + b) ==
            var (db', ok) := SettleAll(sq, d, wallets, db, a);
            if ok then SettleAll(sq, d, wallets, db', b) else (db', false)
    decreases |a|
  {
    if a == [] {
      assert a + b == b;
    } else {
      assert (a + b)[1..] == a[1..] + b;
      if Settle(sq, d, wallets, db, a[0]).Some? {
        SettleAllConcat(sq, d, wallets, Settle(sq, d, wallets, db, a[0]).value, a[1..], b);
      }
    }
  }

  /** Handling processed transactions changes nothing: all four tables stay as they are. */
  lemma {:induction false} SettleAllIdempotent(sq: Sequences, d: Daemon, wallets: Wallets, db: Db, todo: seq<Tx>)
    requires Hashes(todo) <= Keys(db)
    ensures SettleAll(sq, d, wallets, db, todo) == (db, true)
    decreases |todo|
  {
    if todo != [] {
      assert todo[0].hash in Hashes(todo);
      KeysAreProcessed(db, todo[0].hash);
      forall h | h in Hashes(todo[1..]) ensures h in Hashes(todo) {
        var i :| 0 <= i < |todo[1..]| && todo[1..][i].hash == h;
        assert todo[i + 1].hash == h;
      }
      SettleAllIdempotent(sq, d, wallets, db, todo[1..]);
    }
  }

  /** Handling a page twice in a row equals handling it once. */
  lemma SettleTwice(sq: Sequences, d: Daemon, wallets: Wallets, db: Db, page: seq<Tx>)
    requires Inv(sq, db)
    ensures SettleAll(sq, d, wallets, db, page + page) == SettleAll(sq, d, wallets, db, page)
  {
    SettleAllConcat(sq, d, wallets, db, page, page);
    var (db', ok) := SettleAll(sq, d, wallets, db, page);
    if ok {
      SettleAllKeepsInv(sq, d, wallets, db, page);
      SettleAllIdempotent(sq, d, wallets, db', page);
    }
  }

  // ---------------------------------------------------------------- how far handling gets

  /** Nothing catches what the wallet query throws, so an unrecorded transaction of this kind ends the run. */
  predicate Blocks(d: Daemon, wallets: Wallets, done: set<Hash>, tx: Tx) {
    tx.hash !in done && Screen(d, wallets, tx) == Unanswered
  }

  /** How many transactions come before the first that blocks. */
  function Reach(d: Daemon, wallets: Wallets, done: set<Hash>, todo: seq<Tx>): (n: nat)
    ensures n <= |todo| && (n < |todo| ==> Blocks(d, wallets, done, todo[n]))
    ensures forall i :: 0 <= i < n ==> !Blocks(d, wallets, done, todo[i])
  {
    if todo == [] || Blocks(d, wallets, done, todo[0]) then 0 else 1 + Reach(d, wallets, done, todo[1..])
  }

  /** Equal hashes are equal transactions; a transaction may be listed more than once. */
  ghost predicate Consistent(todo: seq<Tx>) {
    forall i, j :: 0 <= i < |todo| && 0 <= j < |todo| && todo[i].hash == todo[j].hash ==> todo[i] == todo[j]
  }

  lemma {:induction false} ReachSame(d: Daemon, wallets: Wallets, a: set<Hash>, b: set<Hash>, todo: seq<Tx>)
    requires forall i :: 0 <= i < |todo| ==> (Blocks(d, wallets, a, todo[i]) <==> Blocks(d, wallets, b, todo[i]))
    ensures Reach(d, wallets, a, todo) == Reach(d, wallets, b, todo)
    decreases |todo|
  {
    if todo != [] {
      ReachSame(d, wallets, a, b, todo[1..]);
    }
  }

  lemma ReachRest(d: Daemon, wallets: Wallets, done: set<Hash>, todo: seq<Tx>)
    requires todo != [] && Consistent(todo) && !Blocks(d, wallets, done, todo[0])
    ensures Consistent(todo[1..])
    ensures Reach(d, wallets, done + {todo[0].hash}, todo[1..]) == Reach(d, wallets, done, todo) - 1
  {
    var rest := todo[1..];
    forall i | 0 <= i < |rest|
      ensures Blocks(d, wallets, done + {todo[0].hash}, rest[i]) <==> Blocks(d, wallets, done, rest[i])
    {
      assert rest[i] == todo[i + 1];
    }
    ReachSame(d, wallets, done + {todo[0].hash}, done, rest);
  }

  lemma SettleBlocks(sq: Sequences, d: Daemon, wallets: Wallets, db: Db, tx: Tx)
    ensures Settle(sq, d, wallets, db, tx) == None <==> Blocks(d, wallets, Keys(db), tx)
  {
    KeysAreProcessed(db, tx.hash);
  }

  /** Undisturbed and without faults, handling records exactly what comes before the first that blocks. */
  lemma SettleReach(sq: Sequences, d: Daemon, wallets: Wallets, db: Db, todo: seq<Tx>)
    requires Inv(sq, db) && Consistent(todo)
    ensures var (db', ok) := SettleAll(sq, d, wallets, db, todo);
            var n := Reach(d, wallets, Keys(db), todo);
            ok == (n == |todo|) && Keys(db') == Keys(db) + Hashes(todo[..n])
  {
    SettleTo(sq, d, wallets, db, todo, SettleAll(sq, d, wallets, db, todo), Reach(d, wallets, Keys(db), todo));
  }

  lemma {:induction false} SettleTo(sq: Sequences, d: Daemon, wallets: Wallets, db: Db, todo: seq<Tx>, end: (Db, bool), n: nat)
    requires Inv(sq, db) && Consistent(todo)
    requires end == SettleAll(sq, d, wallets, db, todo) && n == Reach(d, wallets, Keys(db), todo)
    ensures end.1 == (n == |todo|) && Keys(end.0) == Keys(db) + Hashes(todo[..n])
    decreases |todo|
  {
    if todo == [] {
      assert Hashes(todo[..0]) == {};
    } else {
      var tx := todo[0];
      SettleBlocks(sq, d, wallets, db, tx);
      if Blocks(d, wallets, Keys(db), tx) {
        assert Hashes(todo[..0]) == {};
      } else {
        var db1 := Settle(sq, d, wallets, db, tx).value;
        SettleKeepsInv(sq, d, wallets, db, tx);
        ReachRest(d, wallets, Keys(db), todo);
        SettleTo(sq, d, wallets, db1, todo[1..], end, n - 1);
        FrontHashes(todo, n);
      }
    }
  }

  /** Breaking off there leaves the tables as handling the front part alone does. */
  lemma {:induction false} SettleFront(sq: Sequences, d: Daemon, wallets: Wallets, db: Db, todo: seq<Tx>, n: nat)
    requires Inv(sq, db) && Consistent(todo) && n == Reach(d, wallets, Keys(db), todo)
    ensures SettleAll(sq, d, wallets, db, todo[..n]) == (SettleAll(sq, d, wallets, db, todo).0, true)
    decreases |todo|
  {
    if todo != [] {
      SettleBlocks(sq, d, wallets, db, todo[0]);
      if !Blocks(d, wallets, Keys(db), todo[0]) {
        SettleKeepsInv(sq, d, wallets, db, todo[0]);
        ReachRest(d, wallets, Keys(db), todo);
        SettleFront(sq, d, wallets, Settle(sq, d, wallets, db, todo[0]).value, todo[1..], n - 1);
        assert todo[..n][1..] == todo[1..][..n - 1];
      }
    }
  }

  lemma FrontHashes(todo: seq<Tx>, n: nat)
    requires 0 < n <= |todo|
    ensures Hashes(todo[..n]) == {todo[0].hash} + Hashes(todo[1..][..n - 1])
  {
    assert todo[..n] == [todo[0]] + todo[1..][..n - 1];
    HashesOfConcat([todo[0]], todo[1..][..n - 1]);
    assert Hashes([todo[0]]) == {todo[0].hash} by { assert [todo[0]][0].hash in Hashes([todo[0]]); }
  }

  /** The handler gets through exactly when no transaction it has yet to record is left unanswered. */
  lemma SettleAllCompletes(sq: Sequences, d: Daemon, wallets: Wallets, db: Db, todo: seq<Tx>)
    requires Inv(sq, db) && Consistent(todo)
    ensures SettleAll(sq, d, wallets, db, todo).1 <==>
            forall tx :: tx in todo ==> IsProcessed(db, tx.hash) || Screen(d, wallets, tx) != Unanswered
  {
    SettleReach(sq, d, wallets, db, todo);
    var n := Reach(d, wallets, Keys(db), todo);
    forall tx: Tx ensures IsProcessed(db, tx.hash) <==> tx.hash in Keys(db) {
      KeysAreProcessed(db, tx.hash);
    }
    if n < |todo| {
      assert todo[n] in todo;
    }
  }

  /** A payment is credited, exactly once and in full, when it is new, well formed and its charge exists. */
  ghost predicate Creditable(d: Daemon, wallets: Wallets, db: Db, tx: Tx) {
    && tx.hash != "" && !IsProcessed(db, tx.hash)
    && var decision := Screen(d, wallets, tx);
       decision.Pay? && decision.amount > 0 && decision.memo <= MAX_BIGINT
       && FindCharge(db.charges, decision.memo).Some?
  }

  /** Undisturbed handling credits a transaction iff it is creditable; otherwise no credit or webhook is added. */
  lemma CreditedIff(sq: Sequences, d: Daemon, wallets: Wallets, db: Db, tx: Tx)
    requires Inv(sq, db) && Settle(sq, d, wallets, db, tx).Some?
    ensures var db' := Settle(sq, d, wallets, db, tx).value;
            if Creditable(d, wallets, db, tx) then
              var decision := Screen(d, wallets, tx);
              var charge := FindCharge(db.charges, decision.memo).value;
              var credit := Credit(tx.hash, decision.amount, d.token, charge.id);
              && db'.credits == db.credits + [credit]
              && |db'.webhooks| == |db.webhooks| + 1
              && db'.webhooks[|db.webhooks|].data == NoticeOf(credit, charge)
              && IsPaid(db', tx.hash)
            else
              db'.credits == db.credits && db'.webhooks == db.webhooks
  {
    CreditedIsProcessed(sq, db, tx.hash);
    if !IsProcessed(db, tx.hash) && Screen(d, wallets, tx).Pay? {
      var Pay(amount, memo) := Screen(d, wallets, tx);
      match FindCharge(db.charges, memo)
      case None => MarkCommit(sq, db, tx.hash, Some("no associated charge"));
      case Some(charge) =>
        CreditCommit(sq, db, Credit(tx.hash, amount, d.token, charge.id), charge);
        var k :| 0 <= k < |db.charges| && db.charges[k] == charge;
        assert HasChargeId(db, charge.id);
        if Creditable(d, wallets, db, tx) {
          var db' := Settle(sq, d, wallets, db, tx).value;
          assert db'.processed[|db.processed|] == Processed(tx.hash, None);
        }
    }
  }
}

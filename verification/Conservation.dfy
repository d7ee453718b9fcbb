/** Amounts are conserved, and every acknowledged webhook goes back to one payment. */
module Conservation {
  import opened Base
  import opened Ledger
  import opened Amount
  import opened Tables
  import opened Screening
  import opened Rules
  import opened System
  import opened Invariants
  import Memo
  import Verdicts
  import World

  // ---------------------------------------------------------------- exactly once, coupled tables

  /**
   In every reachable state, for every transaction: it is recorded without a note iff it has a credit row
   iff it has a payment webhook, and there is at most one row of each kind.
   */
  lemma CoupledTables(c: Config, actions: seq<Action>, txid: Hash)
    requires ValidConfig(c)
    ensures var db := Run(c, actions).db;
            && (IsPaid(db, txid) <==> IsCredited(db, txid))
            && (IsCredited(db, txid) <==> exists i :: 0 <= i < |db.webhooks| && db.webhooks[i].data.txid == txid)
            && (forall i, j :: 0 <= i < j < |db.processed| ==> db.processed[i].txid != db.processed[j].txid)
            && (forall i, j :: 0 <= i < j < |db.credits| ==> db.credits[i].txid != db.credits[j].txid)
            && (forall i, j :: 0 <= i < j < |db.webhooks| ==> db.webhooks[i].data.txid != db.webhooks[j].data.txid)
  {
    Reachable(c, actions);
    var db := Run(c, actions).db;
    OneWebhook(c.sq, db);
    forall i | 0 <= i < |db.webhooks| ensures db.webhooks[i].data.txid == db.credits[i].txid {
      assert Announces(db, i);
    }
  }

  /** The three rows of a payment name the same existing charge, the same token and the same amount. */
  lemma RowsAgree(c: Config, actions: seq<Action>, i: nat) returns (charge: Charge)
    requires ValidConfig(c) && i < |Run(c, actions).db.credits|
    ensures var db := Run(c, actions).db;
            && i < |db.webhooks| && charge in db.charges
            && db.credits[i].chargeId == charge.id && db.webhooks[i].data == NoticeOf(db.credits[i], charge)
            && (forall other :: other in db.charges && other != charge ==>
                  other.id != charge.id && other.memo != charge.memo)
            && IsPaid(db, db.credits[i].txid)
  {
    Reachable(c, actions);
    var db := Run(c, actions).db;
    assert Announces(db, i);
    charge :| charge in db.charges && charge.id == db.credits[i].chargeId
      && db.webhooks[i].data == NoticeOf(db.credits[i], charge);
    assert IsCredited(db, db.credits[i].txid);
    forall other | other in db.charges && other != charge ensures other.id != charge.id && other.memo != charge.memo {
      ChargesDiffer(c.sq, db, charge, other);
    }
  }

  lemma ChargesDiffer(sq: Sequences, db: Db, a: Charge, b: Charge)
    requires Inv(sq, db) && a in db.charges && b in db.charges && a != b
    ensures a.id != b.id && a.memo != b.memo
  {
    var i :| 0 <= i < |db.charges| && db.charges[i] == a;
    var j :| 0 <= j < |db.charges| && db.charges[j] == b;
    assert Serial(a.id, a.memo) == sq.charge(i) && Serial(b.id, b.memo) == sq.charge(j);
  }

  /**
   The branch for a transaction found credited after it was found unprocessed: a run gets there whenever others credit
   the transaction in between, and then its commit changes nothing.
   */
  lemma SeenBranchChangesNothing(c: Config, actions: seq<Action>, id: nat, f: World.Fault)
    requires ValidConfig(c)
    requires var s := Run(c, actions);
             id in s.workers && s.workers[id].pc.Handling? && s.workers[id].pc.rest != []
    ensures var s := Run(c, actions);
            var pc := s.workers[id].pc;
            && (pc.todo == CommitSeen ==> Run(c, actions + [Go(id, f)]).db == s.db)
            && (pc.todo.Found? && IsCredited(s.db, pc.rest[0].hash) ==>
                  Run(c, actions + [Go(id, World.Fine)])
                  == s.(workers := s.workers[id := s.workers[id].(pc := Handling(pc.it, pc.rest, CommitSeen))]))
  {
    Reachable(c, actions);
    var s := Run(c, actions);
    assert (actions + [Go(id, f)])[..|actions|] == actions;
    assert (actions + [Go(id, World.Fine)])[..|actions|] == actions;
    if s.workers[id].pc.todo == CommitSeen {
      assert WorkerOk(c, s.db, s.chain, s.workers[id]);
      Verdicts.CreditedUnprocessedRefused(c.sq, s.db, s.workers[id].pc.rest[0].hash);
    }
  }

  // ---------------------------------------------------------------- conservation

  /** The amount a transaction asks to be credited. */
  function AskedAmount(c: Config, tx: Tx): nat {
    match Screen(c.daemon(tx.account), c.wallets, tx)
    case Pay(amount, _) => amount
    case _ => 0
  }

  predicate AsksFor(c: Config, tx: Tx, token: Token, memo: nat) {
    tx.account == token &&
    match Screen(c.daemon(tx.account), c.wallets, tx)
    case Pay(_, m) => m == memo
    case _ => false
  }

  /** Sum of the credit rows of a charge in a token. */
  function CreditTotal(credits: seq<Credit>, chargeId: nat, token: Token): nat {
    if credits == [] then 0
    else
      var last := credits[|credits| - 1];
      CreditTotal(credits[..|credits| - 1], chargeId, token)
      + if last.chargeId == chargeId && last.token == token then last.amount else 0
  }

  /** Sum of the on-chain amounts of the paid transactions of a token that name a memo. */
  function ChainTotal(c: Config, chain: seq<Tx>, db: Db, token: Token, memo: nat): nat {
    if chain == [] then 0
    else
      var last := chain[|chain| - 1];
      ChainTotal(c, chain[..|chain| - 1], db, token, memo)
      + if IsPaid(db, last.hash) && AsksFor(c, last, token, memo) then AskedAmount(c, last) else 0
  }

  /** Sum of the on-chain amounts of the transactions with these hashes. */
  function SumOver(c: Config, chain: seq<Tx>, hashes: set<Hash>): nat {
    if chain == [] then 0
    else
      var last := chain[|chain| - 1];
      SumOver(c, chain[..|chain| - 1], hashes) + if last.hash in hashes then AskedAmount(c, last) else 0
  }

  function CreditHashes(credits: seq<Credit>, chargeId: nat, token: Token): set<Hash> {
    set i | 0 <= i < |credits| && credits[i].chargeId == chargeId && credits[i].token == token :: credits[i].txid
  }

  lemma {:induction false} SumOverAdd(c: Config, chain: seq<Tx>, hashes: set<Hash>, k: nat)
    requires ValidLedger(chain) && k < |chain| && chain[k].hash !in hashes
    ensures SumOver(c, chain, hashes + {chain[k].hash}) == SumOver(c, chain, hashes) + AskedAmount(c, chain[k])
    decreases |chain|
  {
    var n := |chain| - 1;
    if k == n {
      SumOverOther(c, chain[..n], hashes, chain[k].hash);
    } else {
      SumOverAdd(c, chain[..n], hashes, k);
    }
  }

  lemma {:induction false} SumOverOther(c: Config, chain: seq<Tx>, hashes: set<Hash>, h: Hash)
    requires forall i :: 0 <= i < |chain| ==> chain[i].hash != h
    ensures SumOver(c, chain, hashes + {h}) == SumOver(c, chain, hashes)
    decreases |chain|
  {
    if chain != [] {
      SumOverOther(c, chain[..|chain| - 1], hashes, h);
    }
  }

  /** What a backed credit row says about the transaction it stands for. */
  lemma BackedBy(c: Config, s: Sys, i: nat) returns (k: nat, charge: Charge)
    requires TablesOk(c, s) && i < |s.db.credits|
    ensures k < |s.chain| && s.chain[k].hash == s.db.credits[i].txid && s.chain[k].account == s.db.credits[i].token
    ensures charge in s.db.charges && charge.id == s.db.credits[i].chargeId
    ensures Asks(c, s.chain[k], s.db.credits[i].amount, charge.memo)
    ensures AskedAmount(c, s.chain[k]) == s.db.credits[i].amount > 0
  {
    var credit := s.db.credits[i];
    assert Backed(c, s.chain, s.db.charges, credit);
    var tx;
    tx, charge :| tx in s.chain && tx.hash == credit.txid && tx.account == credit.token
      && charge in s.db.charges && charge.id == credit.chargeId
      && Asks(c, tx, credit.amount, charge.memo) && credit.amount > 0;
    k :| 0 <= k < |s.chain| && s.chain[k] == tx;
  }

  ghost predicate SumsAgree(c: Config, s: Sys, front: seq<Credit>, chargeId: nat, token: Token) {
    CreditTotal(front, chargeId, token) == SumOver(c, s.chain, CreditHashes(front, chargeId, token))
  }

  lemma {:induction false} CreditsSum(c: Config, s: Sys, n: nat, chargeId: nat, token: Token)
    requires TablesOk(c, s) && n <= |s.db.credits|
    ensures SumsAgree(c, s, s.db.credits[..n], chargeId, token)
    decreases n
  {
    if n == 0 {
      assert CreditHashes(s.db.credits[..0], chargeId, token) == {};
      SumOverNone(c, s.chain);
    } else {
      CreditsSum(c, s, n - 1, chargeId, token);
      OneMoreCredit(c, s, n - 1, chargeId, token);
    }
  }

  lemma OneMoreCredit(c: Config, s: Sys, i: nat, chargeId: nat, token: Token)
    requires TablesOk(c, s) && i < |s.db.credits| && SumsAgree(c, s, s.db.credits[..i], chargeId, token)
    ensures SumsAgree(c, s, s.db.credits[..i + 1], chargeId, token)
  {
    CreditTotalStep(s.db.credits, i, chargeId, token);
    CreditHashesStep(s.db.credits, i, chargeId, token);
    var hashes := CreditHashes(s.db.credits[..i], chargeId, token);
    if s.db.credits[i].chargeId == chargeId && s.db.credits[i].token == token {
      CreditHashesAreCredits(s.db.credits, i, chargeId, token);
      CreditsSumStep(c, s, i, hashes);
    } else {
      assert hashes + {} == hashes;
    }
  }

  lemma CreditTotalStep(credits: seq<Credit>, i: nat, chargeId: nat, token: Token)
    requires i < |credits|
    ensures CreditTotal(credits[..i + 1], chargeId, token) == CreditTotal(credits[..i], chargeId, token)
              + if credits[i].chargeId == chargeId && credits[i].token == token then credits[i].amount else 0
  {
    assert credits[..i + 1][..i] == credits[..i];
  }

  lemma CreditHashesAreCredits(credits: seq<Credit>, i: nat, chargeId: nat, token: Token)
    requires i <= |credits|
    ensures forall h :: h in CreditHashes(credits[..i], chargeId, token) ==> exists j :: 0 <= j < i && credits[j].txid == h
  {
    var before := credits[..i];
    forall h | h in CreditHashes(before, chargeId, token) ensures exists j :: 0 <= j < i && credits[j].txid == h {
      var j :| 0 <= j < i && before[j].chargeId == chargeId && before[j].token == token && before[j].txid == h;
      assert credits[j].txid == h;
    }
  }

  lemma CreditsSumStep(c: Config, s: Sys, i: nat, hashes: set<Hash>)
    requires TablesOk(c, s) && i < |s.db.credits|
    requires forall h :: h in hashes ==> exists j :: 0 <= j < i && s.db.credits[j].txid == h
    ensures SumOver(c, s.chain, hashes + {s.db.credits[i].txid}) == SumOver(c, s.chain, hashes) + s.db.credits[i].amount
  {
    var k, charge := BackedBy(c, s, i);
    SumOverAdd(c, s.chain, hashes, k);
  }

  lemma CreditHashesStep(credits: seq<Credit>, n: nat, chargeId: nat, token: Token)
    requires n < |credits|
    ensures CreditHashes(credits[..n + 1], chargeId, token) == CreditHashes(credits[..n], chargeId, token)
              + if credits[n].chargeId == chargeId && credits[n].token == token then {credits[n].txid} else {}
  {
    var front, all := credits[..n], credits[..n + 1];
    forall h | h in CreditHashes(front, chargeId, token) ensures h in CreditHashes(all, chargeId, token) {
      var i :| 0 <= i < n && front[i].chargeId == chargeId && front[i].token == token && front[i].txid == h;
      assert all[i].txid == h;
    }
    forall h | h in CreditHashes(all, chargeId, token)
      ensures h in CreditHashes(front, chargeId, token)
           || (credits[n].chargeId == chargeId && credits[n].token == token && h == credits[n].txid)
    {
      var i :| 0 <= i < |all| && all[i].chargeId == chargeId && all[i].token == token && all[i].txid == h;
      if i < n {
        assert front[i].txid == h;
      }
    }
    if credits[n].chargeId == chargeId && credits[n].token == token {
      assert all[n].txid == credits[n].txid;
    }
  }

  lemma {:induction false} SumOverNone(c: Config, chain: seq<Tx>)
    ensures SumOver(c, chain, {}) == 0
    decreases |chain|
  {
    if chain != [] {
      SumOverNone(c, chain[..|chain| - 1]);
    }
  }

  /** Credit row i and the transaction it stands for agree on whether it counts for a charge in a token. */
  lemma CountsAlike(c: Config, s: Sys, charge: Charge, token: Token, k: nat, i: nat)
    requires TablesOk(c, s) && charge in s.db.charges && k < |s.chain| && i < |s.db.credits|
    requires s.db.credits[i].txid == s.chain[k].hash
    ensures AsksFor(c, s.chain[k], token, charge.memo) <==>
            s.db.credits[i].chargeId == charge.id && s.db.credits[i].token == token
  {
    var k', charge' := BackedBy(c, s, i);
    assert k' == k;
    if charge' != charge {
      ChargesDiffer(c.sq, s.db, charge, charge');
    }
  }

  /** The paid transactions that name a charge's memo are those with a credit row of the charge. */
  lemma PaidIffCredited(c: Config, s: Sys, charge: Charge, token: Token, k: nat)
    requires TablesOk(c, s) && charge in s.db.charges && k < |s.chain|
    ensures IsPaid(s.db, s.chain[k].hash) && AsksFor(c, s.chain[k], token, charge.memo)
            <==> s.chain[k].hash in CreditHashes(s.db.credits, charge.id, token)
  {
    var h := s.chain[k].hash;
    assert IsPaid(s.db, h) <==> IsCredited(s.db, h);
    if IsCredited(s.db, h) {
      var i :| 0 <= i < |s.db.credits| && s.db.credits[i].txid == h;
      CountsAlike(c, s, charge, token, k, i);
    }
  }

  lemma {:induction false} ChainSum(c: Config, s: Sys, charge: Charge, token: Token, n: nat)
    requires TablesOk(c, s) && charge in s.db.charges && n <= |s.chain|
    ensures ChainTotal(c, s.chain[..n], s.db, token, charge.memo)
            == SumOver(c, s.chain[..n], CreditHashes(s.db.credits, charge.id, token))
    decreases n
  {
    if n > 0 {
      assert s.chain[..n][..n - 1] == s.chain[..n - 1];
      PaidIffCredited(c, s, charge, token, n - 1);
      ChainSum(c, s, charge, token, n - 1);
    }
  }

  /**
   Conservation: in every reachable state, for each charge and token, the credit rows add up to the on-chain
   amounts of the transactions recorded without a note whose comment names the charge's memo.
   */
  lemma AmountsConserved(c: Config, actions: seq<Action>, charge: Charge, token: Token)
    requires ValidConfig(c) && charge in Run(c, actions).db.charges
    ensures var s := Run(c, actions);
            CreditTotal(s.db.credits, charge.id, token) == ChainTotal(c, s.chain, s.db, token, charge.memo)
  {
    Reachable(c, actions);
    var s := Run(c, actions);
    assert s.db.credits[..|s.db.credits|] == s.db.credits && s.chain[..|s.chain|] == s.chain;
    CreditsSum(c, s, |s.db.credits|, charge.id, token);
    ChainSum(c, s, charge, token, |s.chain|);
  }

  /** In terms of fields: a transaction asks for a memo iff it is a payment for it, and for the amount it is a payment of. */
  lemma AskedFields(c: Config, tx: Tx, token: Token, memo: nat)
    requires ValidConfig(c)
    ensures AsksFor(c, tx, token, memo) <==>
            tx.account == token && Payment(c.daemon(token), c.wallets, tx, AskedAmount(c, tx), memo)
    ensures forall amount :: Payment(c.daemon(tx.account), c.wallets, tx, amount, memo) ==> AskedAmount(c, tx) == amount
  {
    forall amount: nat
      ensures Payment(c.daemon(tx.account), c.wallets, tx, amount, memo) <==>
              Screen(c.daemon(tx.account), c.wallets, tx) == Pay(amount, memo)
    {
      Decides(c.daemon(tx.account), c.wallets, tx, Pay(amount, memo));
    }
  }

  // ---------------------------------------------------------------- end to end

  /**
   In every reachable state every credit row stands for one ledger transaction whose own fields make it a payment of
   exactly that amount for the memo of the charge: a comment that denotes it, to the watched wallet, and for a jetton
   from a sender whose wallet query names the right master.
   */
  lemma CreditsArePayments(c: Config, actions: seq<Action>, i: nat) returns (k: nat, charge: Charge)
    requires ValidConfig(c) && i < |Run(c, actions).db.credits|
    ensures var s := Run(c, actions);
            var credit := s.db.credits[i];
            && k < |s.chain| && s.chain[k].hash == credit.txid && s.chain[k].account == credit.token
            && (forall j :: 0 <= j < |s.chain| && j != k ==> s.chain[j].hash != credit.txid)
            && charge in s.db.charges && charge.id == credit.chargeId && credit.amount > 0
            && if credit.token == TON then
                 ToncoinPayment(c.daemon(TON).address, s.chain[k], credit.amount, charge.memo)
               else
                 JettonPayment(c.daemon(credit.token), c.wallets, s.chain[k], credit.amount, charge.memo)
  {
    Reachable(c, actions);
    var s := Run(c, actions);
    k, charge := BackedBy(c, s, i);
    Decides(c.daemon(s.chain[k].account), c.wallets, s.chain[k], Pay(s.db.credits[i].amount, charge.memo));
  }

  /** The notes a transaction may end with whose fields lead to the decision: the last two only after a failure. */
  predicate EndsWith(token: Token, decision: Decision, note: Option<string>) {
    match note
    case None => decision.Pay?
    case Some(text) =>
      || decision == Note(text)
      || (decision.Pay? && text == "no associated charge")
      || (decision.Pay? && text == "invalid memo")
      || (text == "Invalid transaction, parsing error" && token != TON
          && (decision.Pay? || decision in {Note("memo isn't exists"), Note("invalid memo")}))
  }

  /**
   In every reachable state every recorded transaction is one of the ledger, recorded as its own fields say or with a
   failure note.
   */
  lemma RowsExplained(c: Config, actions: seq<Action>, i: nat) returns (k: nat, decision: Decision)
    requires ValidConfig(c) && i < |Run(c, actions).db.processed|
    ensures var s := Run(c, actions);
            && k < |s.chain| && s.chain[k].hash == s.db.processed[i].txid
            && Rule(c.daemon(s.chain[k].account), c.wallets, s.chain[k], decision)
            && EndsWith(s.chain[k].account, decision, s.db.processed[i].note)
  {
    Reachable(c, actions);
    var s := Run(c, actions);
    var row := s.db.processed[i];
    if row.note == None {
      assert IsPaid(s.db, row.txid) && IsCredited(s.db, row.txid);
      var j :| 0 <= j < |s.db.credits| && s.db.credits[j].txid == row.txid;
      var charge;
      k, charge := BackedBy(c, s, j);
    } else {
      assert Explained(c, s.chain, row);
      var tx :| tx in s.chain && tx.hash == row.txid && NoteOk(c, tx, row.note.value);
      k :| 0 <= k < |s.chain| && s.chain[k] == tx;
    }
    decision := Screen(c.daemon(s.chain[k].account), c.wallets, s.chain[k]);
    Decides(c.daemon(s.chain[k].account), c.wallets, s.chain[k], decision);
  }

  /**
   Every acknowledged delivery, in every run, announces one webhook row that comes from one ledger
   transaction: by its own fields it is a payment for the memo of an existing charge, the announced amount
   is the on-chain one, read back exactly up to the token's limit, and no other row announces it.
   */
  lemma AcknowledgedIsPaid(c: Config, actions: seq<Action>, id: nat) returns (i: nat, k: nat, charge: Charge, amount: nat)
    requires ValidConfig(c) && id in Run(c, actions).log
    ensures var s := Run(c, actions);
            && i < |s.db.webhooks| && s.db.webhooks[i].id == id
            && k < |s.chain| && charge in s.db.charges
            && var data := s.db.webhooks[i].data;
               var tx := s.chain[k];
               && data.txid == tx.hash && data.token == tx.account && data.chargeId == charge.id
               && Payment(c.daemon(tx.account), c.wallets, tx, amount, charge.memo) && amount > 0
               && data.memo == Memo.Print(charge.memo) && data.payload == charge.payload
               && data.amount == Format(amount, tx.account)
               && (amount <= Limit(tx.account) ==> Parse(data.amount, tx.account) == amount)
               && (forall j :: 0 <= j < |s.db.webhooks| && j != i ==>
                     s.db.webhooks[j].data.txid != tx.hash && s.db.webhooks[j].id != id)
               && (forall j :: 0 <= j < |s.chain| && j != k ==> s.chain[j].hash != data.txid)
  {
    Reachable(c, actions);
    var s := Run(c, actions);
    i :| 0 <= i < |s.db.webhooks| && s.db.webhooks[i].id == id;
    k, charge := CreditsArePayments(c, actions, i);
    amount := s.db.credits[i].amount;
    var charge' := RowsAgree(c, actions, i);
    assert charge' == charge;
    if amount <= Limit(s.chain[k].account) {
      RoundTrip(amount, s.chain[k].account);
    }
    OneWebhook(c.sq, s.db);
  }
}

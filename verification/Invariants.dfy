/** What holds in every reachable state of the composed system. */
module Invariants {
  import opened Base
  import opened Ledger
  import opened Tables
  import opened Screening
  import opened World
  import opened Webhooks
  import opened System
  import opened Verdicts

  /** Transactions of one account's ledger. */
  ghost predicate OnLedger(chain: seq<Tx>, token: Token, txs: seq<Tx>) {
    forall i :: 0 <= i < |txs| ==> txs[i] in chain && txs[i].account == token
  }

  /** The transaction passed the checks of its account's daemon, asking for this amount and memo. */
  ghost predicate Asks(c: Config, tx: Tx, amount: nat, memo: nat) {
    Screen(c.daemon(tx.account), c.wallets, tx) == Pay(amount, memo)
  }

  /** A credit row stands for one ledger transaction that passed its daemon's checks and named the charge. */
  ghost predicate Backed(c: Config, chain: seq<Tx>, charges: seq<Charge>, credit: Credit) {
    exists tx, charge ::
      && tx in chain && tx.hash == credit.txid && tx.account == credit.token
      && charge in charges && charge.id == credit.chargeId
      && Asks(c, tx, credit.amount, charge.memo)
      && credit.amount > 0
  }

  /** A note the transaction may carry: its daemon's decision, that no charge has its memo, or that of a catch around it. */
  ghost predicate NoteOk(c: Config, tx: Tx, note: string) {
    var decision := Screen(c.daemon(tx.account), c.wallets, tx);
    decision == Note(note) || (decision.Pay? && note == "no associated charge") || CatchNote(tx.account, decision, note)
  }

  /** A noted row stands for a ledger transaction that may carry the note. */
  ghost predicate Explained(c: Config, chain: seq<Tx>, row: Processed) {
    row.note.Some? ==> exists tx :: tx in chain && tx.hash == row.txid && NoteOk(c, tx, row.note.value)
  }

  ghost predicate TodoOk(c: Config, db: Db, token: Token, tx: Tx, todo: Todo) {
    match todo
    case Begin(amount, memo) => Asks(c, tx, amount, memo)
    case Reading(amount, memo) => Asks(c, tx, amount, memo) && amount > 0
    case Found(amount, memo, charge) =>
      Asks(c, tx, amount, memo) && amount > 0 && charge in db.charges && charge.memo == memo
    case CommitCredit(amount, memo, charge) =>
      Asks(c, tx, amount, memo) && amount > 0 && charge in db.charges && charge.memo == memo
    case Mark(note, retry) =>
      NoteOk(c, tx, note) && (retry ==> Guarded(token, Screen(c.daemon(token), c.wallets, tx)))
    case CommitNothing => IsProcessed(db, tx.hash) && Screen(c.daemon(token), c.wallets, tx).Pay?
    case CommitUnmatched => Screen(c.daemon(token), c.wallets, tx).Pay?
    case CommitSeen => IsCredited(db, tx.hash) && Screen(c.daemon(token), c.wallets, tx).Pay?
    case _ => true
  }

  ghost predicate WorkerOk(c: Config, db: Db, chain: seq<Tx>, w: Worker) {
    match w.pc
    case Checking(_, page) => OnLedger(chain, w.token, page)
    case Handling(_, rest, todo) => OnLedger(chain, w.token, rest) && (rest != [] ==> TodoOk(c, db, w.token, rest[0], todo))
    case _ => true
  }

  ghost predicate TablesOk(c: Config, s: Sys) {
    && ValidConfig(c)
    && Inv(c.sq, s.db)
    && ValidLedger(s.chain)
    && (forall i :: 0 <= i < |s.db.credits| ==> Backed(c, s.chain, s.db.charges, s.db.credits[i]))
    && (forall i :: 0 <= i < |s.db.processed| ==> Explained(c, s.chain, s.db.processed[i]))
  }

  ghost predicate SenderOk(s: Sys) {
    && SentAreAcked(s.db, s.log)
    && (forall x :: x in s.log ==> exists i :: 0 <= i < |s.db.webhooks| && s.db.webhooks[i].id == x)
    && (s.sender.Sending? ==> s.sender.rows != [] && RowsOf(s.db, s.sender.rows))
    && (s.sender.Marking? ==> s.sender.rows != [] && RowsOf(s.db, s.sender.rows)
                              && s.db.webhooks[s.sender.rows[0]].id in s.log)
  }

  ghost predicate SysInv(c: Config, s: Sys) {
    && TablesOk(c, s)
    && (forall id :: id in s.workers ==> WorkerOk(c, s.db, s.chain, s.workers[id]))
    && SenderOk(s)
  }

  /** Every action keeps rows and transactions and adds only: nothing is removed or re-noted. */
  ghost predicate Advances(s: Sys, s': Sys) {
    Evolves(s.db, s'.db) && s.chain <= s'.chain && s.log <= s'.log
  }

  // ---------------------------------------------------------------- what growth keeps

  lemma {:induction false} LedgerOfIn(chain: seq<Tx>, token: Token)
    ensures OnLedger(chain, token, LedgerOf(chain, token))
    decreases |chain|
  {
    if chain != [] {
      LedgerOfIn(chain[..|chain| - 1], token);
    }
  }

  lemma FetchIn(chain: seq<Tx>, token: Token, cursor: Cursor, limit: nat)
    ensures OnLedger(chain, token, Fetch(LedgerOf(chain, token), cursor, limit))
  {
    LedgerOfIn(chain, token);
  }

  lemma WorkerStaysOk(c: Config, a: Db, b: Db, chain: seq<Tx>, chain': seq<Tx>, w: Worker)
    requires WorkerOk(c, a, chain, w) && Evolves(a, b) && chain <= chain'
    ensures WorkerOk(c, b, chain', w)
  {
    if w.pc.Handling? && w.pc.rest != [] {
      EvolvesKeeps(a, b, w.pc.rest[0].hash);
    }
  }

  lemma BackedStays(c: Config, chain: seq<Tx>, chain': seq<Tx>, charges: seq<Charge>, charges': seq<Charge>, credit: Credit)
    requires Backed(c, chain, charges, credit) && chain <= chain' && charges <= charges'
    ensures Backed(c, chain', charges', credit)
  {
    var tx, charge :| tx in chain && tx.hash == credit.txid && tx.account == credit.token
      && charge in charges && charge.id == credit.chargeId && Asks(c, tx, credit.amount, charge.memo);
    assert tx in chain' && charge in charges';
  }

  lemma ExplainedStay(c: Config, chain: seq<Tx>, chain': seq<Tx>, rows: seq<Processed>)
    requires chain <= chain' && forall i :: 0 <= i < |rows| ==> Explained(c, chain, rows[i])
    ensures forall i :: 0 <= i < |rows| ==> Explained(c, chain', rows[i])
  {
    forall i | 0 <= i < |rows| && rows[i].note.Some?
      ensures exists tx :: tx in chain' && tx.hash == rows[i].txid && NoteOk(c, tx, rows[i].note.value)
    {
      assert Explained(c, chain, rows[i]);
      var tx :| tx in chain && tx.hash == rows[i].txid && NoteOk(c, tx, rows[i].note.value);
      assert tx in chain';
    }
  }

  lemma SenderStaysOk(s: Sys, s': Sys)
    requires SenderOk(s) && SendsNothing(s.db, s'.db) && s'.sender == s.sender && s'.log == s.log
    ensures SenderOk(s')
  {
    forall i | 0 <= i < |s'.db.webhooks| && s'.db.webhooks[i].sent ensures s'.db.webhooks[i].id in s'.log {
      assert i < |s.db.webhooks| && s'.db.webhooks[i] == s.db.webhooks[i];
    }
    forall x | x in s'.log ensures exists i :: 0 <= i < |s'.db.webhooks| && s'.db.webhooks[i].id == x {
      var i :| 0 <= i < |s.db.webhooks| && s.db.webhooks[i].id == x;
      assert s'.db.webhooks[i].id == x;
    }
  }

  // ---------------------------------------------------------------- one call of a daemon

  /** A commit attempt adds the rows or nothing, a credit it adds is backed and a note explained. */
  ghost predicate CommitOk(c: Config, chain: seq<Tx>, db: Db, db': Db) {
    && Sound(c.sq, db, db') && SendsNothing(db, db')
    && (db'.credits == db.credits
        || (exists credit :: db'.credits == db.credits + [credit] && Backed(c, chain, db'.charges, credit)))
    && (db'.processed == db.processed
        || (exists row :: db'.processed == db.processed + [row] && Explained(c, chain, row)))
  }

  lemma CommitStep(c: Config, chain: seq<Tx>, db: Db, token: Token, tx: Tx, todo: Todo, f: Fault)
    requires ValidConfig(c) && Inv(c.sq, db) && TodoOk(c, db, token, tx, todo)
    requires tx in chain && tx.account == token
    ensures CommitOk(c, chain, db, TryCommit(c.sq, db, CommitRowsOf(tx, token, todo), f).0)
  {
    var rows := CommitRowsOf(tx, token, todo);
    var db' := TryCommit(c.sq, db, rows, f).0;
    if db' != db {
      match todo
      case CommitUnmatched =>
        MarkCommit(c.sq, db, tx.hash, Some("no associated charge"));
        MarkKeepsInv(c.sq, db, tx.hash, "no associated charge");
        assert Explained(c, chain, Processed(tx.hash, Some("no associated charge")));
      case Mark(note, _) =>
        MarkCommit(c.sq, db, tx.hash, Some(note));
        MarkKeepsInv(c.sq, db, tx.hash, note);
        assert Explained(c, chain, Processed(tx.hash, Some(note)));
      case CommitSeen =>
        CreditedUnprocessedRefused(c.sq, db, tx.hash);
      case CommitCredit(amount, memo, charge) =>
        var credit := Credit(tx.hash, amount, token, charge.id);
        CreditCommit(c.sq, db, credit, charge);
        CreditKeepsInv(c.sq, db, credit, charge, db');
        assert Backed(c, chain, db'.charges, credit);
        assert Explained(c, chain, Processed(tx.hash, None));
      case _ =>
    }
  }

  lemma HandleKeeps(c: Config, chain: seq<Tx>, db: Db, token: Token, it: Cursors, rest: seq<Tx>, todo: Todo, f: Fault)
    requires ValidConfig(c) && Inv(c.sq, db) && rest != []
    requires OnLedger(chain, token, rest) && TodoOk(c, db, token, rest[0], todo)
    ensures var (db', pc) := HandleStep(c, db, token, it, rest, todo, f);
            CommitOk(c, chain, db, db') && WorkerOk(c, db', chain, Worker(token, pc))
  {
    var tx := rest[0];
    CommitStep(c, chain, db, token, tx, todo, f);
    assert OnLedger(chain, token, rest[1..]);
  }

  lemma WorkerKeeps(c: Config, chain: seq<Tx>, db: Db, w: Worker, f: Fault)
    requires ValidConfig(c) && Inv(c.sq, db) && WorkerOk(c, db, chain, w)
    ensures var (db', pc) := WorkerStep(c, db, chain, w, f);
            CommitOk(c, chain, db, db') && WorkerOk(c, db', chain, w.(pc := pc))
  {
    var limit := c.daemon(w.token).limit;
    match w.pc
    case Forward(it) => FetchIn(chain, w.token, it.cursor, limit);
    case Backward(it) =>
      if it.stack != [] {
        FetchIn(chain, w.token, it.stack[|it.stack| - 1], limit);
      }
    case Handling(it, rest, todo) =>
      if rest != [] {
        HandleKeeps(c, chain, db, w.token, it, rest, todo, f);
      }
    case _ =>
  }

  // ---------------------------------------------------------------- every action

  lemma GoKeeps(c: Config, s: Sys, id: nat, f: Fault)
    requires SysInv(c, s) && id in s.workers
    ensures SysInv(c, Step(c, s, Go(id, f))) && Advances(s, Step(c, s, Go(id, f)))
  {
    var s' := Step(c, s, Go(id, f));
    WorkerKeeps(c, s.chain, s.db, s.workers[id], f);
    forall i | 0 <= i < |s'.db.credits| ensures Backed(c, s'.chain, s'.db.charges, s'.db.credits[i]) {
      if i < |s.db.credits| {
        BackedStays(c, s.chain, s'.chain, s.db.charges, s'.db.charges, s.db.credits[i]);
      }
    }
    forall id' | id' in s'.workers ensures WorkerOk(c, s'.db, s'.chain, s'.workers[id']) {
      if id' != id {
        WorkerStaysOk(c, s.db, s'.db, s.chain, s'.chain, s.workers[id']);
      }
    }
    SenderStaysOk(s, s');
  }

  lemma ArriveKeeps(c: Config, s: Sys, tx: Tx)
    requires SysInv(c, s)
    ensures SysInv(c, Step(c, s, Arrive(tx))) && Advances(s, Step(c, s, Arrive(tx)))
  {
    var s' := Step(c, s, Arrive(tx));
    ExplainedStay(c, s.chain, s'.chain, s.db.processed);
    forall i | 0 <= i < |s.db.credits| ensures Backed(c, s'.chain, s'.db.charges, s.db.credits[i]) {
      BackedStays(c, s.chain, s'.chain, s.db.charges, s'.db.charges, s.db.credits[i]);
    }
    forall id | id in s.workers ensures WorkerOk(c, s'.db, s'.chain, s.workers[id]) {
      WorkerStaysOk(c, s.db, s'.db, s.chain, s'.chain, s.workers[id]);
    }
    if s' != s {
      forall i, j | 0 <= i < j < |s'.chain| ensures s'.chain[i].hash != s'.chain[j].hash {
        if j == |s.chain| {
          assert s.chain[i] in s.chain;
        }
      }
    }
  }

  lemma CreateKeeps(c: Config, s: Sys, payload: Option<string>)
    requires SysInv(c, s)
    ensures SysInv(c, Step(c, s, Create(payload))) && Advances(s, Step(c, s, Create(payload)))
  {
    var s' := Step(c, s, Create(payload));
    if AddCharge(c.sq, s.db, payload) == None {
      return;
    }
    AddChargeKeepsInv(c.sq, s.db, payload);
    forall i | 0 <= i < |s.db.credits| ensures Backed(c, s'.chain, s'.db.charges, s.db.credits[i]) {
      BackedStays(c, s.chain, s'.chain, s.db.charges, s'.db.charges, s.db.credits[i]);
    }
    forall id | id in s.workers ensures WorkerOk(c, s'.db, s'.chain, s.workers[id]) {
      WorkerStaysOk(c, s.db, s'.db, s.chain, s'.chain, s.workers[id]);
    }
    SenderStaysOk(s, s');
  }

  lemma DeliverKeeps(c: Config, s: Sys, answer: Answer)
    requires SysInv(c, s)
    ensures SysInv(c, Step(c, s, Deliver(answer))) && Advances(s, Step(c, s, Deliver(answer)))
  {
    var s' := Step(c, s, Deliver(answer));
    forall x | x in s'.log ensures exists i :: 0 <= i < |s.db.webhooks| && s.db.webhooks[i].id == x {
      if x !in s.log {
        assert s.db.webhooks[s.sender.rows[0]].id == x;
      }
    }
  }

  lemma ConfirmKeeps(c: Config, s: Sys, f: Fault)
    requires SysInv(c, s)
    ensures SysInv(c, Step(c, s, Confirm(f))) && Advances(s, Step(c, s, Confirm(f)))
  {
    var s' := Step(c, s, Confirm(f));
    if s.sender.Marking? && f != Lost {
      var r := s.sender.rows[0];
      MarkSentKeepsInv(c.sq, s.db, r);
      forall i | 0 <= i < |s.db.credits| ensures Backed(c, s'.chain, s'.db.charges, s'.db.credits[i]) {
        assert Backed(c, s.chain, s.db.charges, s.db.credits[i]);
      }
      forall id | id in s.workers ensures WorkerOk(c, s'.db, s'.chain, s.workers[id]) {
        WorkerStaysOk(c, s.db, s'.db, s.chain, s'.chain, s.workers[id]);
      }
      forall x | x in s'.log ensures exists i :: 0 <= i < |s'.db.webhooks| && s'.db.webhooks[i].id == x {
        var i :| 0 <= i < |s.db.webhooks| && s.db.webhooks[i].id == x;
        assert s'.db.webhooks[i].id == x;
      }
    }
  }

  lemma StepKeeps(c: Config, s: Sys, a: Action)
    requires SysInv(c, s)
    ensures SysInv(c, Step(c, s, a)) && Advances(s, Step(c, s, a))
  {
    match a
    case Arrive(tx) => ArriveKeeps(c, s, tx);
    case Create(payload) => CreateKeeps(c, s, payload);
    case Start(id, token) =>
    case Go(id, f) =>
      if id in s.workers {
        GoKeeps(c, s, id, f);
      }
    case Crash(id) =>
    case Snapshot(rows) =>
    case Deliver(answer) => DeliverKeeps(c, s, answer);
    case Confirm(f) => ConfirmKeeps(c, s, f);
    case SenderCrash =>
  }

  lemma {:induction false} Reachable(c: Config, actions: seq<Action>)
    requires ValidConfig(c)
    ensures SysInv(c, Run(c, actions))
    decreases |actions|
  {
    if actions == [] {
      EmptyInv(c.sq);
    } else {
      Reachable(c, actions[..|actions| - 1]);
      StepKeeps(c, Run(c, actions[..|actions| - 1]), actions[|actions| - 1]);
    }
  }

  /** The last action of a list that goes on after `front`. */
  lemma LastStep(c: Config, front: seq<Action>, more: seq<Action>) returns (init: seq<Action>, a: Action)
    requires ValidConfig(c) && more != []
    ensures init == more[..|more| - 1] && a == more[|more| - 1]
    ensures Run(c, front + more) == Step(c, Run(c, front + init), a) && SysInv(c, Run(c, front + init))
  {
    init, a := more[..|more| - 1], more[|more| - 1];
    assert (front + more)[..|front + more| - 1] == front + init;
    Reachable(c, front + init);
  }

  /** Over any run nothing is lost or changed: rows, ledger transactions and acknowledgements only accumulate. */
  lemma {:induction false} OnlyAccumulates(c: Config, before: seq<Action>, more: seq<Action>)
    requires ValidConfig(c)
    ensures Advances(Run(c, before), Run(c, before + more))
    decreases |more|
  {
    if more == [] {
      assert before + more == before;
    } else {
      var all := before + more;
      var init := before + more[..|more| - 1];
      assert all[..|all| - 1] == init;
      OnlyAccumulates(c, before, more[..|more| - 1]);
      Reachable(c, init);
      StepKeeps(c, Run(c, init), all[|all| - 1]);
      EvolvesTransitive(Run(c, before).db, Run(c, init).db, Run(c, all).db);
    }
  }
}

/**
 The composed system against the daemons' methods: a daemon run that is left to itself there, call
 by call and without faults, ends in exactly the tables that the method for the whole run ends in.
 */
module Solo {
  import opened Base
  import opened Ledger
  import opened Tables
  import opened Screening
  import opened World
  import opened Crawl
  import opened Iterator
  import opened System
  import opened Invariants
  import opened Accounts
  import opened Rules
  import Completion
  import Coverage
  import Runs

  /** k faultless calls of one run, with nothing else moving. */
  function Calls(c: Config, chain: seq<Tx>, token: Token, db: Db, pc: Pc, k: nat): (Db, Pc)
    decreases k
  {
    if k == 0 then (db, pc)
    else
      var (db', pc') := WorkerStep(c, db, chain, Worker(token, pc), Fine);
      Calls(c, chain, token, db', pc', k - 1)
  }

  lemma {:induction false} CallsThen(c: Config, chain: seq<Tx>, token: Token, db: Db, pc: Pc, j: nat, k: nat)
    ensures var (db', pc') := Calls(c, chain, token, db, pc, j);
            Calls(c, chain, token, db, pc, j + k) == Calls(c, chain, token, db', pc', k)
    decreases j
  {
    if j > 0 {
      var (db', pc') := WorkerStep(c, db, chain, Worker(token, pc), Fine);
      CallsThen(c, chain, token, db', pc', j - 1, k);
    }
  }

  lemma Compose(c: Config, chain: seq<Tx>, token: Token, db: Db, pc: Pc, j: nat, db1: Db, pc1: Pc, k: nat, end: (Db, Pc))
    requires Calls(c, chain, token, db, pc, j) == (db1, pc1)
    requires Calls(c, chain, token, db1, pc1, k) == end
    ensures Calls(c, chain, token, db, pc, j + k) == end
  {
    CallsThen(c, chain, token, db, pc, j, k);
  }

  lemma OneCall(c: Config, chain: seq<Tx>, token: Token, db: Db, it: Cursors, rest: seq<Tx>, todo: Todo, k: nat)
    requires rest != []
    ensures var (db', pc') := HandleStep(c, db, token, it, rest, todo, Fine);
            Calls(c, chain, token, db, Handling(it, rest, todo), k + 1) == Calls(c, chain, token, db', pc', k)
  {
  }

  // ---------------------------------------------------------------- one transaction

  lemma MarkCalls(c: Config, chain: seq<Tx>, token: Token, db: Db, it: Cursors, rest: seq<Tx>, note: string, retry: bool)
    requires rest != [] && !IsProcessed(db, rest[0].hash)
    ensures Calls(c, chain, token, db, Handling(it, rest, Mark(note, retry)), 1)
            == (Marked(db, rest[0].hash, note), StartPage(it, rest[1..]))
  {
    OneCall(c, chain, token, db, it, rest, Mark(note, retry), 0);
    MarkCommit(c.sq, db, rest[0].hash, Some(note));
  }

  lemma CreditCalls(c: Config, chain: seq<Tx>, token: Token, db: Db, it: Cursors, rest: seq<Tx>, amount: nat, memo: nat)
      returns (k: nat)
    requires Inv(c.sq, db) && rest != [] && !IsProcessed(db, rest[0].hash)
    ensures Calls(c, chain, token, db, Handling(it, rest, Begin(amount, memo)), k)
            == (EnterOrMark(c.sq, db, rest[0].hash, amount, token, memo), StartPage(it, rest[1..]))
  {
    var tx := rest[0];
    if tx.hash == "" || amount == 0 || memo == 0 {
      k := 2;
      OneCall(c, chain, token, db, it, rest, Begin(amount, memo), 1);
      MarkCalls(c, chain, token, db, it, rest, "invalid memo", InsideTry(token, "invalid memo"));
    } else {
      var n := ReadingCalls(c, chain, token, db, it, rest, amount, memo);
      k := n + 1;
      OneCall(c, chain, token, db, it, rest, Begin(amount, memo), n);
    }
  }

  lemma ReadingCalls(c: Config, chain: seq<Tx>, token: Token, db: Db, it: Cursors, rest: seq<Tx>, amount: nat, memo: nat)
      returns (k: nat)
    requires Inv(c.sq, db) && rest != [] && !IsProcessed(db, rest[0].hash)
    requires rest[0].hash != "" && amount > 0 && memo > 0
    ensures Calls(c, chain, token, db, Handling(it, rest, Reading(amount, memo)), k)
            == (EnterOrMark(c.sq, db, rest[0].hash, amount, token, memo), StartPage(it, rest[1..]))
  {
    var tx := rest[0];
    if memo > MAX_BIGINT {
      k := 2;
      OneCall(c, chain, token, db, it, rest, Reading(amount, memo), 1);
      MarkCalls(c, chain, token, db, it, rest, "invalid memo", InsideTry(token, "invalid memo"));
    } else {
      match FindCharge(db.charges, memo)
      case None =>
        k := 2;
        OneCall(c, chain, token, db, it, rest, Reading(amount, memo), 1);
        OneCall(c, chain, token, db, it, rest, CommitUnmatched, 0);
        MarkCommit(c.sq, db, tx.hash, Some("no associated charge"));
      case Some(charge) =>
        k := 3;
        OneCall(c, chain, token, db, it, rest, Reading(amount, memo), 2);
        FoundCalls(c, chain, token, db, it, rest, amount, memo, charge);
    }
  }

  lemma FoundCalls(c: Config, chain: seq<Tx>, token: Token, db: Db, it: Cursors, rest: seq<Tx>,
                   amount: nat, memo: nat, charge: Charge)
    requires Inv(c.sq, db) && rest != [] && !IsProcessed(db, rest[0].hash) && charge in db.charges
    ensures Commit(c.sq, db, CreditRows(Credit(rest[0].hash, amount, token, charge.id), charge)).Some?
    ensures !IsCredited(db, rest[0].hash)
    ensures Calls(c, chain, token, db, Handling(it, rest, Found(amount, memo, charge)), 2)
            == (Commit(c.sq, db, CreditRows(Credit(rest[0].hash, amount, token, charge.id), charge)).value,
                StartPage(it, rest[1..]))
  {
    var tx := rest[0];
    CreditedIsProcessed(c.sq, db, tx.hash);
    CreditCommit(c.sq, db, Credit(tx.hash, amount, token, charge.id), charge);
    var i :| 0 <= i < |db.charges| && db.charges[i] == charge;
    assert HasChargeId(db, charge.id);
    OneCall(c, chain, token, db, it, rest, Found(amount, memo, charge), 1);
    OneCall(c, chain, token, db, it, rest, CommitCredit(amount, memo, charge), 0);
  }

  lemma TxCalls(c: Config, chain: seq<Tx>, token: Token, db: Db, it: Cursors, rest: seq<Tx>) returns (k: nat)
    requires ValidConfig(c) && Inv(c.sq, db) && rest != []
    ensures Calls(c, chain, token, db, Handling(it, rest, Look), k) ==
            match Settle(c.sq, c.daemon(token), c.wallets, db, rest[0])
            case None => (db, Idle)
            case Some(db') => (db', StartPage(it, rest[1..]))
  {
    var tx := rest[0];
    k := 1;
    if !IsProcessed(db, tx.hash) {
      match Screen(c.daemon(token), c.wallets, tx)
      case Unanswered =>
      case Note(note) =>
        k := 2;
        MarkCalls(c, chain, token, db, it, rest, note, InsideTry(token, note));
      case Pay(amount, memo) =>
        var n := CreditCalls(c, chain, token, db, it, rest, amount, memo);
        k := n + 1;
    }
    OneCall(c, chain, token, db, it, rest, Look, k - 1);
  }

  // ---------------------------------------------------------------- one page

  lemma {:induction false} PageCalls(c: Config, chain: seq<Tx>, token: Token, db: Db, it: Cursors, page: seq<Tx>)
      returns (k: nat)
    requires ValidConfig(c) && Inv(c.sq, db)
    ensures var (db', ok) := SettleAll(c.sq, c.daemon(token), c.wallets, db, page);
            Calls(c, chain, token, db, StartPage(it, page), k) == (db', if ok then PageDone(it) else Idle)
    decreases |page|
  {
    if page == [] {
      k := 0;
    } else {
      k := TxCalls(c, chain, token, db, it, page);
      match Settle(c.sq, c.daemon(token), c.wallets, db, page[0])
      case None =>
      case Some(db') =>
        SettleKeepsInv(c.sq, c.daemon(token), c.wallets, db, page[0]);
        var n := PageCalls(c, chain, token, db', it, page[1..]);
        CallsThen(c, chain, token, db, Handling(it, page, Look), k, n);
        k := k + n;
    }
  }

  // ---------------------------------------------------------------- the replay

  ghost predicate Stacked(ledger: seq<Tx>, limit: nat, stack: seq<Cursor>) {
    forall i :: 0 <= i < |stack| ==> AtPage(ledger, limit, stack[i], i)
  }

  lemma FetchStacked(ledger: seq<Tx>, limit: nat, cursor: Cursor, j: nat)
    requires ValidLedger(ledger) && AtPage(ledger, limit, cursor, j)
    ensures Fetch(ledger, cursor, limit) == PageNo(ledger, limit, j)
  {
    if j > 0 && limit > 0 {
      NextPagePositive(j, limit);
      PageStable(ledger, ledger, limit, j);
    }
  }

  lemma {:induction false} ReplayCalls(c: Config, chain: seq<Tx>, token: Token, db: Db, it: Cursors, todo: seq<Tx>)
      returns (k: nat)
    requires ValidConfig(c) && Inv(c.sq, db) && ValidLedger(LedgerOf(chain, token))
    requires it.stack != [] && Stacked(LedgerOf(chain, token), c.daemon(token).limit, it.stack)
    requires todo == Pages(LedgerOf(chain, token), c.daemon(token).limit, |it.stack| - 1)
    ensures Calls(c, chain, token, db, Backward(it), k) == (SettleAll(c.sq, c.daemon(token), c.wallets, db, todo).0, Idle)
    decreases |it.stack|
  {
    var d, ledger := c.daemon(token), LedgerOf(chain, token);
    var j := |it.stack| - 1;
    var page := PageNo(ledger, d.limit, j);
    var it';
    PagesUnfold(ledger, d.limit, j);
    k, it' := TurnCalls(c, chain, token, db, it, page);
    if j > 0 {
      var rest := Pages(ledger, d.limit, j - 1);
      SettleAllKeepsInv(c.sq, d, c.wallets, db, page);
      var (db1, ok) := SettleAll(c.sq, d, c.wallets, db, page);
      var m: nat := 0;
      if ok {
        m := ReplayCalls(c, chain, token, db1, it', rest);
      }
      k := PageThen(c, chain, token, db, Backward(it), k, page, it', rest, todo, m);
    }
  }

  /** A page, and if it gets through, the rest of a run. */
  lemma PageThen(c: Config, chain: seq<Tx>, token: Token, db: Db, pc: Pc, j: nat, page: seq<Tx>, it: Cursors,
                 rest: seq<Tx>, todo: seq<Tx>, m: nat) returns (k: nat)
    requires todo == page + rest && it.stack != []
    requires var (db1, ok) := SettleAll(c.sq, c.daemon(token), c.wallets, db, page);
             && Calls(c, chain, token, db, pc, j) == (db1, if ok then PageDone(it) else Idle)
             && (ok ==> Calls(c, chain, token, db1, Backward(it), m)
                        == (SettleAll(c.sq, c.daemon(token), c.wallets, db1, rest).0, Idle))
    ensures Calls(c, chain, token, db, pc, k) == (SettleAll(c.sq, c.daemon(token), c.wallets, db, todo).0, Idle)
  {
    var (db1, ok) := SettleAll(c.sq, c.daemon(token), c.wallets, db, page);
    SettleAllConcat(c.sq, c.daemon(token), c.wallets, db, page, rest);
    k := j;
    if ok {
      Compose(c, chain, token, db, pc, j, db1, Backward(it), m,
              (SettleAll(c.sq, c.daemon(token), c.wallets, db1, rest).0, Idle));
      k := j + m;
    }
  }

  lemma BackCall(c: Config, chain: seq<Tx>, token: Token, db: Db, it: Cursors, it': Cursors, page: seq<Tx>, k: nat)
    requires it.stack != [] && page == Fetch(LedgerOf(chain, token), it.stack[|it.stack| - 1], c.daemon(token).limit)
    requires it' == Cursors(it.stack[..|it.stack| - 1], it.stack[|it.stack| - 1], it.canNext)
    ensures Calls(c, chain, token, db, Backward(it), k + 1) == Calls(c, chain, token, db, StartPage(it', page), k)
  {
    assert WorkerStep(c, db, chain, Worker(token, Backward(it)), Fine) == (db, StartPage(it', page));
  }

  /** One page of the replay. */
  lemma TurnCalls(c: Config, chain: seq<Tx>, token: Token, db: Db, it: Cursors, page: seq<Tx>)
      returns (k: nat, it': Cursors)
    requires ValidConfig(c) && Inv(c.sq, db) && ValidLedger(LedgerOf(chain, token))
    requires it.stack != [] && Stacked(LedgerOf(chain, token), c.daemon(token).limit, it.stack)
    requires page == PageNo(LedgerOf(chain, token), c.daemon(token).limit, |it.stack| - 1)
    ensures it'.stack == it.stack[..|it.stack| - 1]
    ensures var (db', ok) := SettleAll(c.sq, c.daemon(token), c.wallets, db, page);
            Calls(c, chain, token, db, Backward(it), k) == (db', if ok then PageDone(it') else Idle)
  {
    var j := |it.stack| - 1;
    it' := Cursors(it.stack[..j], it.stack[j], it.canNext);
    FetchStacked(LedgerOf(chain, token), c.daemon(token).limit, it.stack[j], j);
    k := PageCalls(c, chain, token, db, it', page);
    BackCall(c, chain, token, db, it, it', page, k);
    k := k + 1;
  }

  // ---------------------------------------------------------------- the scan

  /** A forward scan between two pages. */
  ghost predicate Scanning(ledger: seq<Tx>, limit: nat, it: Cursors) {
    it.canNext && if it.stack == [] then it.cursor == Newest else OnGrid(ledger, limit, it.stack, it.cursor, true)
  }

  lemma ScanningWithin(ledger: seq<Tx>, limit: nat, it: Cursors)
    requires Scanning(ledger, limit, it)
    ensures |it.stack| <= LastPage(ledger, limit)
  {
    if limit > 0 {
      PageFits(ledger, limit, |it.stack|);
    }
  }

  /** What one fetch does to the cursors. */
  lemma ScanPushes(ledger: seq<Tx>, limit: nat, it: Cursors)
    requires ValidLedger(ledger) && Scanning(ledger, limit, it)
    ensures var page := PageNo(ledger, limit, |it.stack|);
            var it' := Pushed(it, page, limit);
            && Fetch(ledger, it.cursor, limit) == page
            && |it'.stack| == |it.stack| + 1 && Stacked(ledger, limit, it'.stack)
            && (it'.canNext <==> |it.stack| < LastPage(ledger, limit))
            && (it'.canNext ==> Scanning(ledger, limit, it'))
  {
    FetchLive(ledger, ledger, limit, it.stack, it.cursor);
    PushKeepsGrid(ledger, limit, it.stack, it.cursor);
  }

  lemma {:induction false} ScanCalls(c: Config, chain: seq<Tx>, token: Token, db: Db, it: Cursors)
      returns (k: nat, it': Cursors)
    requires ValidLedger(LedgerOf(chain, token)) && Scanning(LedgerOf(chain, token), c.daemon(token).limit, it)
    ensures var (ledger, limit) := (LedgerOf(chain, token), c.daemon(token).limit);
            && Stacked(ledger, limit, it'.stack)
            && match StopFrom(Keys(db), ledger, limit, |it.stack|)
               case Some(j) =>
                 |it'.stack| == j + 1
                 && Calls(c, chain, token, db, Forward(it), k) == (db, StartPage(it', PageNo(ledger, limit, j)))
               case None =>
                 |it'.stack| == LastPage(ledger, limit) + 1
                 && Calls(c, chain, token, db, Forward(it), k) == (db, PageDone(it'))
    decreases LastPage(LedgerOf(chain, token), c.daemon(token).limit) + 1 - |it.stack|
  {
    var limit, ledger := c.daemon(token).limit, LedgerOf(chain, token);
    var page := PageNo(ledger, limit, |it.stack|);
    it' := Pushed(it, page, limit);
    ScanningWithin(ledger, limit, it);
    ScanPushes(ledger, limit, it);
    k := 2;
    TwoCalls(c, chain, token, db, it, page);
    if !HasProcessed(Keys(db), page) {
      var it1, n := it', 1;
      if it1.canNext {
        n, it' := ScanCalls(c, chain, token, db, it1);
      }
      CallsThen(c, chain, token, db, Forward(it), 2, n);
      k := 2 + n;
    }
  }

  lemma TwoCalls(c: Config, chain: seq<Tx>, token: Token, db: Db, it: Cursors, page: seq<Tx>)
    requires it.canNext && Fetch(LedgerOf(chain, token), it.cursor, c.daemon(token).limit) == page
    ensures var it' := Pushed(it, page, c.daemon(token).limit);
            Calls(c, chain, token, db, Forward(it), 2)
            == (db, if HasProcessed(Keys(db), page) then StartPage(it', page) else Forward(it'))
  {
    var it' := Pushed(it, page, c.daemon(token).limit);
    assert Calls(c, chain, token, db, Forward(it), 2) == Calls(c, chain, token, db, Checking(it', page), 1);
    assert Calls(c, chain, token, db, Checking(it', page), 1)
        == Calls(c, chain, token, db, if HasProcessed(Keys(db), page) then StartPage(it', page) else Forward(it'), 0);
  }

  // ---------------------------------------------------------------- the whole run

  const FRESH: Pc := Forward(Cursors([], Newest, true))

  lemma RunCalls(c: Config, chain: seq<Tx>, token: Token, db: Db, plan: seq<Tx>) returns (k: nat)
    requires ValidConfig(c) && Inv(c.sq, db) && ValidLedger(LedgerOf(chain, token))
    requires plan == Itinerary(Keys(db), LedgerOf(chain, token), LedgerOf(chain, token), c.daemon(token).limit)
    ensures Calls(c, chain, token, db, FRESH, k) == (SettleAll(c.sq, c.daemon(token), c.wallets, db, plan).0, Idle)
  {
    var limit, ledger := c.daemon(token).limit, LedgerOf(chain, token);
    var it;
    k, it := ScanCalls(c, chain, token, db, Cursors([], Newest, true));
    var top := |it.stack| - 1;
    var rest := Pages(ledger, limit, top);
    var stop := StopPage(Keys(db), ledger, limit);
    var front := if stop.Some? then PageNo(ledger, limit, top) else [];
    PlanFrom(stop, ledger, ledger, limit, top);
    assert plan == front + rest;
    var n := FromStopCalls(c, chain, token, db, it, stop.Some?, front, rest, plan);
    Compose(c, chain, token, db, FRESH, k, db, if stop.Some? then StartPage(it, front) else PageDone(it), n,
            (SettleAll(c.sq, c.daemon(token), c.wallets, db, plan).0, Idle));
    k := k + n;
  }

  /** The stop page, if there is one, then the replay. */
  lemma FromStopCalls(c: Config, chain: seq<Tx>, token: Token, db: Db, it: Cursors,
                      found: bool, page: seq<Tx>, rest: seq<Tx>, todo: seq<Tx>)
      returns (k: nat)
    requires ValidConfig(c) && Inv(c.sq, db) && ValidLedger(LedgerOf(chain, token))
    requires it.stack != [] && Stacked(LedgerOf(chain, token), c.daemon(token).limit, it.stack)
    requires rest == Pages(LedgerOf(chain, token), c.daemon(token).limit, |it.stack| - 1)
    requires todo == page + rest && (!found ==> page == [])
    ensures Calls(c, chain, token, db, if found then StartPage(it, page) else PageDone(it), k)
            == (SettleAll(c.sq, c.daemon(token), c.wallets, db, todo).0, Idle)
  {
    SettleAllKeepsInv(c.sq, c.daemon(token), c.wallets, db, page);
    var (db1, ok) := SettleAll(c.sq, c.daemon(token), c.wallets, db, page);
    var n: nat, m: nat := 0, 0;
    if found {
      n := PageCalls(c, chain, token, db, it, page);
    }
    if ok {
      m := ReplayCalls(c, chain, token, db1, it, rest);
    }
    k := PageThen(c, chain, token, db, if found then StartPage(it, page) else PageDone(it), n,
                  page, it, rest, todo, m);
  }

  function Goes(id: nat, k: nat): seq<Action> {
    seq(k, _ => Go(id, Fine))
  }

  lemma GoesGrow(actions: seq<Action>, id: nat, k: nat)
    requires k > 0
    ensures actions + Goes(id, k) == (actions + Goes(id, k - 1)) + [Go(id, Fine)]
  {
  }

  /** The system s in which worker `id` has come to x. */
  function After(s: Sys, id: nat, token: Token, x: (Db, Pc)): Sys {
    s.(db := x.0, workers := s.workers[id := Worker(token, x.1)])
  }

  lemma GoOnce(c: Config, actions: seq<Action>, longer: seq<Action>, id: nat, s: Sys, token: Token,
               x: (Db, Pc), y: (Db, Pc))
    requires Run(c, actions) == After(s, id, token, x)
    requires longer == actions + [Go(id, Fine)] && y == Calls(c, s.chain, token, x.0, x.1, 1)
    ensures Run(c, longer) == After(s, id, token, y)
  {
    assert WorkerStep(c, x.0, s.chain, Worker(token, x.1), Fine) == y;
    assert longer[..|longer| - 1] == actions;
    assert s.workers[id := Worker(token, x.1)][id := Worker(token, y.1)] == s.workers[id := Worker(token, y.1)];
  }

  lemma LastCall(c: Config, chain: seq<Tx>, token: Token, db: Db, pc: Pc, k: nat, x: (Db, Pc), y: (Db, Pc))
    requires k > 0 && x == Calls(c, chain, token, db, pc, k - 1) && y == Calls(c, chain, token, db, pc, k)
    ensures y == Calls(c, chain, token, x.0, x.1, 1)
  {
    CallsThen(c, chain, token, db, pc, k - 1, 1);
  }

  lemma {:induction false} GoesAreCalls(c: Config, actions: seq<Action>, id: nat, s: Sys, token: Token, pc: Pc, k: nat,
                                        more: seq<Action>, y: (Db, Pc))
    requires Run(c, actions) == After(s, id, token, (s.db, pc))
    requires more == actions + Goes(id, k) && y == Calls(c, s.chain, token, s.db, pc, k)
    ensures Run(c, more) == After(s, id, token, y)
    decreases k
  {
    if k == 0 {
      assert more == actions;
    } else {
      var x := Calls(c, s.chain, token, s.db, pc, k - 1);
      GoesAreCalls(c, actions, id, s, token, pc, k - 1, actions + Goes(id, k - 1), x);
      GoesGrow(actions, id, k);
      LastCall(c, s.chain, token, s.db, pc, k, x, y);
      GoOnce(c, actions + Goes(id, k - 1), more, id, s, token, x, y);
    }
  }

  /**
   From any reachable state, starting a daemon run and letting it make its calls with nothing else moving and
   nothing failing takes it to its end, and changes the tables exactly as handling its itinerary in order does.
   */
  lemma SoloRun(c: Config, actions: seq<Action>, id: nat, token: Token) returns (k: nat)
    requires ValidConfig(c)
    requires id in Run(c, actions).workers ==> Run(c, actions).workers[id].pc == Idle
    ensures var s := Run(c, actions);
            var ledger := LedgerOf(s.chain, token);
            var plan := Itinerary(Keys(s.db), ledger, ledger, c.daemon(token).limit);
            Run(c, actions + [Start(id, token)] + Goes(id, k))
            == s.(db := SettleAll(c.sq, c.daemon(token), c.wallets, s.db, plan).0,
                  workers := s.workers[id := Worker(token, Idle)])
  {
    var s := Run(c, actions);
    Reachable(c, actions);
    LedgerOfValid(s.chain, token);
    var ledger := LedgerOf(s.chain, token);
    k := RunCalls(c, s.chain, token, s.db, Itinerary(Keys(s.db), ledger, ledger, c.daemon(token).limit));
    var started := actions + [Start(id, token)];
    assert started[..|started| - 1] == actions;
    GoesAreCalls(c, started, id, s, token, FRESH, k, started + Goes(id, k), Calls(c, s.chain, token, s.db, FRESH, k));
  }

  /** Wherever a crash cuts a run short, what it committed stays, and the next run starts afresh from there. */
  lemma SoloRunAfterCrash(c: Config, actions: seq<Action>, id: nat, token: Token) returns (k: nat)
    requires ValidConfig(c)
    ensures var s := Run(c, actions);
            var ledger := LedgerOf(s.chain, token);
            var plan := Itinerary(Keys(s.db), ledger, ledger, c.daemon(token).limit);
            Run(c, actions + [Crash(id)] + [Start(id, token)] + Goes(id, k))
            == s.(db := SettleAll(c.sq, c.daemon(token), c.wallets, s.db, plan).0,
                  workers := s.workers[id := Worker(token, Idle)])
  {
    var crashed := actions + [Crash(id)];
    assert crashed[..|crashed| - 1] == actions;
    var s, s' := Run(c, actions), Run(c, crashed);
    assert s'.db == s.db && s'.chain == s.chain && s'.sender == s.sender && s'.log == s.log;
    k := SoloRun(c, crashed, id, token);
    assert s'.workers[id := Worker(token, Idle)] == s.workers[id := Worker(token, Idle)];
  }

  /** On the chain: of the account's transactions none is an unrecorded one whose sender leaves the wallet query unanswered. */
  ghost predicate AllAnswered(c: Config, s: Sys, token: Token) {
    forall tx :: tx in s.chain && tx.account == token ==>
      IsProcessed(s.db, tx.hash) || token == TON || !JettonUnanswered(c.daemon(token), c.wallets, tx)
  }

  ghost predicate AllRecorded(db: Db, chain: seq<Tx>, token: Token) {
    forall tx :: tx in chain && tx.account == token ==> IsProcessed(db, tx.hash)
  }

  lemma AnsweredLedger(c: Config, s: Sys, token: Token)
    requires ValidConfig(c)
    ensures AllAnswered(c, s, token) <==>
            Completion.NoneBlocks(c.daemon(token), c.wallets, Keys(s.db), LedgerOf(s.chain, token))
  {
    var d, ledger := c.daemon(token), LedgerOf(s.chain, token);
    forall tx: Tx
      ensures Blocks(d, c.wallets, Keys(s.db), tx) <==>
              !IsProcessed(s.db, tx.hash) && token != TON && JettonUnanswered(d, c.wallets, tx)
    {
      Runs.BlocksByFields(d, c.wallets, Keys(s.db), tx);
      KeysAreProcessed(s.db, tx.hash);
    }
    forall i | 0 <= i < |ledger| ensures Coverage.Nth(ledger, i) in s.chain && Coverage.Nth(ledger, i).account == token {
      LedgerHolds(s.chain, token, Coverage.Nth(ledger, i));
    }
    if !AllAnswered(c, s, token) {
      var tx :| tx in s.chain && tx.account == token && Blocks(d, c.wallets, Keys(s.db), tx);
      var i := LedgerIndex(s.chain, token, tx);
    }
  }

  lemma RecordedLedger(db: Db, chain: seq<Tx>, token: Token)
    ensures AllRecorded(db, chain, token) <==> Coverage.Complete(Keys(db), LedgerOf(chain, token))
  {
    var ledger := LedgerOf(chain, token);
    forall i | 0 <= i < |ledger| ensures Coverage.Nth(ledger, i) in chain && Coverage.Nth(ledger, i).account == token {
      LedgerHolds(chain, token, Coverage.Nth(ledger, i));
    }
    forall tx | tx in chain && tx.account == token && Coverage.Complete(Keys(db), ledger) ensures IsProcessed(db, tx.hash) {
      var i := LedgerIndex(chain, token, tx);
      KeysAreProcessed(db, tx.hash);
    }
    forall i | 0 <= i < |ledger| && AllRecorded(db, chain, token) ensures Coverage.Nth(ledger, i).hash in Keys(db) {
      KeysAreProcessed(db, Coverage.Nth(ledger, i).hash);
    }
  }

  /**
   From every reachable state without holes such a run leaves every transaction of its account on the chain recorded
   iff no sender of an unrecorded one leaves the wallet query unanswered, and then credits every new payment.
   */
  lemma SoloRunCompletes(c: Config, actions: seq<Action>, id: nat, token: Token) returns (k: nat)
    requires ValidConfig(c) && c.daemon(token).limit > 0
    requires id in Run(c, actions).workers ==> Run(c, actions).workers[id].pc == Idle
    requires NoHolesOnChain(Keys(Run(c, actions).db), Run(c, actions).chain, token)
    ensures var s, after := Run(c, actions), Run(c, actions + [Start(id, token)] + Goes(id, k));
            && after.chain == s.chain
            && (AllRecorded(after.db, s.chain, token) <==> AllAnswered(c, s, token))
            && (AllAnswered(c, s, token) ==> forall tx, charge, credit ::
                  tx in s.chain && tx.account == token && Runs.NewPayment(c.daemon(token), c.wallets, s.db, tx, charge, credit) ==>
                    credit in after.db.credits)
  {
    var s, d := Run(c, actions), c.daemon(token);
    var ledger := LedgerOf(s.chain, token);
    k := SoloRun(c, actions, id, token);
    var after := Run(c, actions + [Start(id, token)] + Goes(id, k));
    Reachable(c, actions);
    LedgerOfValid(s.chain, token);
    HolelessLedger(Keys(s.db), s.chain, token);
    AnsweredLedger(c, s, token);
    RecordedLedger(after.db, s.chain, token);
    Completion.HolelessRunComplete(c.sq, d, c.wallets, s.db, ledger);
    forall tx, charge, credit | AllAnswered(c, s, token) && tx in s.chain && tx.account == token
                                && Runs.NewPayment(d, c.wallets, s.db, tx, charge, credit)
      ensures credit in after.db.credits
    {
      var i := LedgerIndex(s.chain, token, tx);
      Runs.QuietRunPays(c.sq, d, c.wallets, s.db, ledger, i, charge, credit);
    }
  }
}

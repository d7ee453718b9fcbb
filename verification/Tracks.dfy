/**
 Where a daemon run of the composed system stands, whoever else moves in between and whatever fails: it is somewhere
 on a plan as in `Daemons`, and everything ahead of that place is recorded.
 */
module Tracks {
  import opened Base
  import opened Ledger
  import opened Tables
  import opened Screening
  import opened World
  import opened Iterator
  import opened Crawl
  import opened System
  import opened Invariants
  import opened Accounts
  import Coverage
  import Daemons
  import Runs
  import Solo

  /** What the run found when it started: the recorded transactions and its ledger. */
  datatype Origin = Origin(done: set<Hash>, head: seq<Tx>)

  /** A plan and how far it has been handled: `base` anchors the pages, `tail` is the ledger of the last fetch. */
  datatype Place = Place(stop: Option<nat>, base: seq<Tx>, tail: seq<Tx>, plan: seq<Tx>, handled: nat)

  /** What is still to be fetched with `height` cursors on the stack. */
  function Remaining(base: seq<Tx>, tail: seq<Tx>, limit: nat, height: nat): seq<Tx> {
    if height == 0 then [] else Descent(base, limit, height - 1) + PageNo(tail, limit, 0)
  }

  /** The front part of the plan is recorded, and `todo` is left. */
  ghost predicate Halfway(now: set<Hash>, plan: seq<Tx>, handled: nat, todo: seq<Tx>) {
    && handled <= |plan| && plan[handled..] == todo
    && (forall i :: 0 <= i < handled ==> plan[i].hash in now)
  }

  /** `rest` and the pages on the stack are what is left of the plan, and what came before is recorded. */
  ghost predicate At(o: Origin, now: set<Hash>, ledger: seq<Tx>, limit: nat, stack: seq<Cursor>, rest: seq<Tx>, x: Place) {
    && o.head <= x.base <= x.tail <= ledger
    && Between(o.done, now, x.base, limit, x.stop)
    && Solo.Stacked(x.base, limit, stack)
    && x.plan == Plan(x.stop, x.base, x.tail, limit)
    && Halfway(now, x.plan, x.handled, rest + Remaining(x.base, x.tail, limit, |stack|))
  }

  /**
   The scan has fetched the pages below the stack's height, `page` last if it is still to be checked, and none that has
   been checked held a transaction recorded at the start.
   */
  ghost predicate Scanned(o: Origin, ledger: seq<Tx>, limit: nat, it: Cursors, page: Option<seq<Tx>>, base: seq<Tx>) {
    && o.head <= base <= ledger
    && (page.Some? ==> it.stack != [] && page.value == PageNo(base, limit, |it.stack| - 1))
    && Daemons.NoneBefore(o.done, base, limit, if page.Some? then |it.stack| - 1 else |it.stack|)
    && if it.stack == [] then it.canNext && it.cursor == Newest
       else OnGrid(base, limit, it.stack, it.cursor, it.canNext) && (it.canNext <==> |it.stack| - 1 < LastPage(base, limit))
  }

  ghost predicate OnTrack(o: Origin, now: set<Hash>, ledger: seq<Tx>, limit: nat, pc: Pc) {
    match pc
    case Idle => true
    case Forward(it) => exists base :: Scanned(o, ledger, limit, it, None, base)
    case Checking(it, page) => exists base :: Scanned(o, ledger, limit, it, Some(page), base)
    case Backward(it) => it.stack != [] && exists x :: At(o, now, ledger, limit, it.stack, [], x)
    case Handling(it, rest, _) => rest != [] && exists x :: At(o, now, ledger, limit, it.stack, rest, x)
  }

  /** The whole plan is recorded. */
  ghost predicate Finished(o: Origin, now: set<Hash>, ledger: seq<Tx>, limit: nat) {
    exists x :: At(o, now, ledger, limit, [], [], x)
  }

  /** The calls that end a run early: a failed fetch or check, an unanswered wallet query, a failed mark nothing catches. */
  predicate Aborts(c: Config, db: Db, token: Token, pc: Pc, f: Fault) {
    match pc
    case Handling(_, rest, Look) =>
      f != Fine || (rest != [] && Blocks(c.daemon(token), c.wallets, Keys(db), rest[0]))
    case Handling(_, rest, Mark(_, retry)) => !retry && (f != Fine || (rest != [] && IsProcessed(db, rest[0].hash)))
    case Handling(_, _, _) => false
    case Forward(it) => it.canNext && f != Fine
    case _ => f != Fine
  }

  /** How many calls handling a transaction still takes at most. */
  function Weight(todo: Todo): nat {
    match todo
    case Look => 7
    case Begin(_, _) => 6
    case Reading(_, _) => 5
    case Found(_, _, _) => 4
    case Mark(_, retry) => if retry then 2 else 1
    case _ => 3
  }

  // ---------------------------------------------------------------- one call

  /** Whether a commit attempt succeeds, and that success means recorded. */
  lemma CommitRecords(c: Config, db: Db, token: Token, tx: Tx, todo: Todo, f: Fault)
    requires ValidConfig(c) && Inv(c.sq, db) && TodoOk(c, db, token, tx, todo)
    requires todo.Mark? || todo.CommitNothing? || todo.CommitUnmatched? || todo.CommitSeen? || todo.CommitCredit?
    ensures var (db', ok) := TryCommit(c.sq, db, CommitRowsOf(tx, token, todo), f);
            && (ok ==> f == Fine && IsProcessed(db', tx.hash))
            && (todo.Mark? ==> ok == (f == Fine && !IsProcessed(db, tx.hash)))
  {
    var db' := TryCommit(c.sq, db, CommitRowsOf(tx, token, todo), f).0;
    match todo
    case Mark(note, _) =>
      MarkCommit(c.sq, db, tx.hash, Some(note));
      KeysGrowBy(db, db', Processed(tx.hash, Some(note)));
    case CommitUnmatched =>
      MarkCommit(c.sq, db, tx.hash, Some("no associated charge"));
      KeysGrowBy(db, db', Processed(tx.hash, Some("no associated charge")));
    case CommitSeen =>
      MarkCommit(c.sq, db, tx.hash, None);
      KeysGrowBy(db, db', Processed(tx.hash, None));
    case CommitCredit(amount, _, charge) =>
      CreditCommit(c.sq, db, Credit(tx.hash, amount, token, charge.id), charge);
      KeysGrowBy(db, db', Processed(tx.hash, None));
    case CommitNothing =>
  }

  lemma KeysGrowBy(db: Db, db': Db, row: Processed)
    ensures db'.processed == db.processed + [row] ==> IsProcessed(db', row.txid)
  {
    if db'.processed == db.processed + [row] {
      KeysGrow(db, db', row);
    }
  }

  /** Handling a transaction: it goes on with the next one only when this one is recorded, and not for ever with this one. */
  ghost predicate Moves(db': Db, it: Cursors, rest: seq<Tx>, todo: Todo, pc: Pc)
    requires rest != []
  {
    || (pc == StartPage(it, rest[1..]) && IsProcessed(db', rest[0].hash))
    || (pc.Handling? && pc.it == it && pc.rest == rest && Weight(pc.todo) < Weight(todo))
  }

  ghost predicate HandledOn(c: Config, db: Db, token: Token, it: Cursors, rest: seq<Tx>, todo: Todo, f: Fault)
    requires rest != []
  {
    var (db', pc) := HandleStep(c, db, token, it, rest, todo, f);
    if Aborts(c, db, token, Handling(it, rest, todo), f) then pc == Idle else Moves(db', it, rest, todo, pc)
  }

  lemma LookMoves(c: Config, db: Db, token: Token, it: Cursors, rest: seq<Tx>, f: Fault)
    requires rest != []
    ensures HandledOn(c, db, token, it, rest, Look, f)
  {
    KeysAreProcessed(db, rest[0].hash);
  }

  lemma ReadMoves(c: Config, db: Db, token: Token, it: Cursors, rest: seq<Tx>, todo: Todo, f: Fault)
    requires rest != [] && (todo.Begin? || todo.Reading? || todo.Found?)
    ensures HandledOn(c, db, token, it, rest, todo, f)
  {
  }

  lemma CommitMoves(c: Config, db: Db, token: Token, it: Cursors, rest: seq<Tx>, todo: Todo, f: Fault)
    requires rest != [] && (todo.Mark? || todo.CommitNothing? || todo.CommitUnmatched? || todo.CommitSeen? || todo.CommitCredit?)
    requires var (db', ok) := TryCommit(c.sq, db, CommitRowsOf(rest[0], token, todo), f);
             && (ok ==> f == Fine && IsProcessed(db', rest[0].hash))
             && (todo.Mark? ==> ok == (f == Fine && !IsProcessed(db, rest[0].hash)))
    ensures HandledOn(c, db, token, it, rest, todo, f)
  {
  }

  lemma HandleMoves(c: Config, db: Db, token: Token, it: Cursors, rest: seq<Tx>, todo: Todo, f: Fault)
    requires ValidConfig(c) && Inv(c.sq, db) && rest != [] && TodoOk(c, db, token, rest[0], todo)
    ensures HandledOn(c, db, token, it, rest, todo, f)
  {
    match todo
    case Look => LookMoves(c, db, token, it, rest, f);
    case Begin(_, _) => ReadMoves(c, db, token, it, rest, todo, f);
    case Reading(_, _) => ReadMoves(c, db, token, it, rest, todo, f);
    case Found(_, _, _) => ReadMoves(c, db, token, it, rest, todo, f);
    case _ =>
      CommitRecords(c, db, token, rest[0], todo, f);
      CommitMoves(c, db, token, it, rest, todo, f);
  }

  // ---------------------------------------------------------------- places on a plan

  lemma Further(o: Origin, now: set<Hash>, now': set<Hash>, ledger: seq<Tx>, ledger': seq<Tx>, limit: nat,
                stack: seq<Cursor>, rest: seq<Tx>, x: Place)
    requires At(o, now, ledger, limit, stack, rest, x) && now <= now' && ledger <= ledger'
    ensures At(o, now', ledger', limit, stack, rest, x)
  {
    if x.stop.Some? {
      ProcessedStays(now, now', PageNo(x.base, limit, x.stop.value));
    }
  }

  /** What others do leaves a run on its track. */
  lemma TrackStays(o: Origin, now: set<Hash>, now': set<Hash>, ledger: seq<Tx>, ledger': seq<Tx>, limit: nat, pc: Pc)
    requires OnTrack(o, now, ledger, limit, pc) && now <= now' && ledger <= ledger'
    ensures OnTrack(o, now', ledger', limit, pc)
  {
    match pc
    case Idle =>
    case Forward(it) =>
      var base :| Scanned(o, ledger, limit, it, None, base);
      assert Scanned(o, ledger', limit, it, None, base);
    case Checking(it, page) =>
      var base :| Scanned(o, ledger, limit, it, Some(page), base);
      assert Scanned(o, ledger', limit, it, Some(page), base);
    case Backward(it) =>
      var x :| At(o, now, ledger, limit, it.stack, [], x);
      Further(o, now, now', ledger, ledger', limit, it.stack, [], x);
    case Handling(it, rest, _) =>
      var x :| At(o, now, ledger, limit, it.stack, rest, x);
      Further(o, now, now', ledger, ledger', limit, it.stack, rest, x);
  }

  lemma HalfwayOn(now: set<Hash>, plan: seq<Tx>, handled: nat, rest: seq<Tx>, more: seq<Tx>)
    requires rest != [] && rest[0].hash in now && Halfway(now, plan, handled, rest + more)
    ensures Halfway(now, plan, handled + 1, rest[1..] + more)
  {
    assert plan[handled] == plan[handled..][0] == rest[0];
    assert plan[handled + 1..] == plan[handled..][1..];
    assert (rest + more)[1..] == rest[1..] + more;
  }

  /** The transaction in hand is recorded: one place further. */
  lemma OneDone(o: Origin, now: set<Hash>, ledger: seq<Tx>, limit: nat, stack: seq<Cursor>, rest: seq<Tx>, x: Place)
    requires rest != [] && rest[0].hash in now && At(o, now, ledger, limit, stack, rest, x)
    ensures At(o, now, ledger, limit, stack, rest[1..], x.(handled := x.handled + 1))
  {
    HalfwayOn(now, x.plan, x.handled, rest, Remaining(x.base, x.tail, limit, |stack|));
  }

  /** With nothing left of a page the run goes back one, or has come to its end. */
  lemma PageStarts(o: Origin, now: set<Hash>, ledger: seq<Tx>, limit: nat, it: Cursors, page: seq<Tx>, x: Place)
    requires At(o, now, ledger, limit, it.stack, page, x)
    ensures OnTrack(o, now, ledger, limit, StartPage(it, page))
    ensures StartPage(it, page) == Idle ==> Finished(o, now, ledger, limit)
  {
  }

  // ---------------------------------------------------------------- the scan

  /** One fetch of the scan. */
  lemma FetchMoves(o: Origin, ledger: seq<Tx>, limit: nat, it: Cursors, base: seq<Tx>)
    requires ValidLedger(ledger) && it.canNext && Scanned(o, ledger, limit, it, None, base)
    ensures var page := Fetch(ledger, it.cursor, limit);
            Scanned(o, ledger, limit, Pushed(it, page, limit), Some(page), if it.stack == [] then ledger else base)
  {
    var grid := if it.stack == [] then ledger else base;
    FetchLive(grid, ledger, limit, it.stack, it.cursor);
    PushKeepsGrid(grid, limit, it.stack, it.cursor);
  }

  /** A plan of which nothing has been handled. */
  function Fresh(stop: Option<nat>, base: seq<Tx>, ledger: seq<Tx>, limit: nat): Place {
    Place(stop, base, ledger, Plan(stop, base, ledger, limit), 0)
  }

  lemma AtStart(o: Origin, now: set<Hash>, ledger: seq<Tx>, limit: nat, stack: seq<Cursor>, rest: seq<Tx>, stop: Option<nat>, base: seq<Tx>)
    requires o.head <= base <= ledger && Between(o.done, now, base, limit, stop)
    requires stack != [] && Solo.Stacked(base, limit, stack)
    requires |stack| - 1 == if stop.Some? then stop.value else LastPage(base, limit)
    requires rest == if stop.Some? then PageNo(base, limit, |stack| - 1) else []
    ensures At(o, now, ledger, limit, stack, rest, Fresh(stop, base, ledger, limit))
  {
    PlanFrom(stop, base, ledger, limit, |stack| - 1);
    var plan := Plan(stop, base, ledger, limit);
    assert plan[0..] == plan;
  }

  /** The scan runs out of pages. */
  lemma ScanEnds(o: Origin, now: set<Hash>, ledger: seq<Tx>, limit: nat, it: Cursors, base: seq<Tx>)
    requires !it.canNext && Scanned(o, ledger, limit, it, None, base)
    ensures it.stack != [] && At(o, now, ledger, limit, it.stack, [], Fresh(None, base, ledger, limit))
  {
    AtStart(o, now, ledger, limit, it.stack, [], None, base);
  }

  /** It finds a page with a recorded transaction, or goes on. */
  lemma CheckMoves(o: Origin, now: set<Hash>, ledger: seq<Tx>, limit: nat, it: Cursors, page: seq<Tx>, base: seq<Tx>)
    requires o.done <= now && Scanned(o, ledger, limit, it, Some(page), base)
    ensures if HasProcessed(now, page) then
              At(o, now, ledger, limit, it.stack, page, Fresh(Some(|it.stack| - 1), base, ledger, limit))
            else Scanned(o, ledger, limit, it, None, base)
  {
    if HasProcessed(now, page) {
      AtStart(o, now, ledger, limit, it.stack, page, Some(|it.stack| - 1), base);
    } else {
      ProcessedStays(o.done, now, page);
    }
  }

  // ---------------------------------------------------------------- the replay

  lemma StackedFetch(base: seq<Tx>, ledger: seq<Tx>, limit: nat, cursor: Cursor, j: nat)
    requires base <= ledger && ValidLedger(ledger) && AtPage(base, limit, cursor, j)
    ensures Fetch(ledger, cursor, limit) == if j == 0 then PageNo(ledger, limit, 0) else PageNo(base, limit, j)
  {
    if j > 0 && limit > 0 {
      NextPagePositive(j, limit);
      PageStable(base, ledger, limit, j);
    }
  }

  lemma RemainingStep(base: seq<Tx>, tail: seq<Tx>, limit: nat, j: nat, page: seq<Tx>)
    requires j > 0 && page == PageNo(base, limit, j)
    ensures [] + Remaining(base, tail, limit, j + 1) == page + Remaining(base, tail, limit, j)
  {
    assert (page + Descent(base, limit, j - 1)) + PageNo(tail, limit, 0) == page + Remaining(base, tail, limit, j);
  }

  lemma OlderPage(o: Origin, now: set<Hash>, ledger: seq<Tx>, limit: nat, stack: seq<Cursor>, x: Place, page: seq<Tx>)
    requires |stack| > 1 && At(o, now, ledger, limit, stack, [], x) && page == PageNo(x.base, limit, |stack| - 1)
    ensures At(o, now, ledger, limit, stack[..|stack| - 1], page, x)
  {
    RemainingStep(x.base, x.tail, limit, |stack| - 1, page);
  }

  /** Before the newest page is fetched, which ledger it is fetched from makes no difference to what is handled. */
  lemma NewestLast(now: set<Hash>, before: seq<Tx>, handled: nat, last: seq<Tx>, last': seq<Tx>)
    requires Halfway(now, before + last, handled, [] + ([] + last))
    ensures Halfway(now, before + last', handled, last' + [])
  {
    assert [] + ([] + last) == last;
    assert handled == |before|;
    forall i | 0 <= i < handled ensures (before + last')[i].hash in now {
      assert (before + last)[i] == before[i];
    }
  }

  lemma NewestPage(o: Origin, now: set<Hash>, ledger: seq<Tx>, limit: nat, stack: seq<Cursor>, x: Place) returns (x': Place)
    requires |stack| == 1 && At(o, now, ledger, limit, stack, [], x)
    ensures At(o, now, ledger, limit, [], PageNo(ledger, limit, 0), x')
  {
    x' := x.(tail := ledger, plan := Plan(x.stop, x.base, ledger, limit));
    NewestLast(now, BeforeHead(x.stop, x.base, limit), x.handled, PageNo(x.tail, limit, 0), PageNo(ledger, limit, 0));
  }

  /** The page on top of the stack is fetched again; the newest page is the one of that moment. */
  lemma BackMoves(o: Origin, now: set<Hash>, ledger: seq<Tx>, limit: nat, stack: seq<Cursor>, x: Place) returns (x': Place)
    requires ValidLedger(ledger) && stack != [] && At(o, now, ledger, limit, stack, [], x)
    ensures At(o, now, ledger, limit, stack[..|stack| - 1], Fetch(ledger, stack[|stack| - 1], limit), x')
  {
    var j := |stack| - 1;
    StackedFetch(x.base, ledger, limit, stack[j], j);
    if j > 0 {
      x' := x;
      OlderPage(o, now, ledger, limit, stack, x, PageNo(x.base, limit, j));
    } else {
      x' := NewestPage(o, now, ledger, limit, stack, x);
      assert stack[..0] == [];
    }
  }

  // ---------------------------------------------------------------- one call of a run

  /** A call keeps a run on its track; it ends the run where it aborts, or when the whole plan is recorded. */
  ghost predicate KeepsTrack(c: Config, o: Origin, ledger: seq<Tx>, db: Db, w: Worker, f: Fault, db': Db, pc: Pc) {
    && OnTrack(o, Keys(db'), ledger, c.daemon(w.token).limit, pc)
    && (Aborts(c, db, w.token, w.pc, f) ==> pc == Idle)
    && (pc == Idle && w.pc != Idle ==>
          Aborts(c, db, w.token, w.pc, f) || Finished(o, Keys(db'), ledger, c.daemon(w.token).limit))
  }

  lemma ForwardTrack(c: Config, o: Origin, chain: seq<Tx>, db: Db, w: Worker, f: Fault)
    requires ValidLedger(LedgerOf(chain, w.token)) && w.pc.Forward?
    requires OnTrack(o, Keys(db), LedgerOf(chain, w.token), c.daemon(w.token).limit, w.pc)
    ensures var (db', pc) := WorkerStep(c, db, chain, w, f);
            KeepsTrack(c, o, LedgerOf(chain, w.token), db, w, f, db', pc)
  {
    var ledger, limit, it := LedgerOf(chain, w.token), c.daemon(w.token).limit, w.pc.it;
    var base :| Scanned(o, ledger, limit, it, None, base);
    var page := Fetch(ledger, it.cursor, limit);
    if !it.canNext {
      ScanEnds(o, Keys(db), ledger, limit, it, base);
      assert WorkerStep(c, db, chain, w, f) == (db, Backward(it));
    } else if f == Fine {
      FetchMoves(o, ledger, limit, it, base);
      assert WorkerStep(c, db, chain, w, f) == (db, Checking(Pushed(it, page, limit), page));
    } else {
      assert WorkerStep(c, db, chain, w, f) == (db, Idle);
    }
  }

  lemma CheckTrack(c: Config, o: Origin, chain: seq<Tx>, db: Db, w: Worker, f: Fault)
    requires o.done <= Keys(db) && w.pc.Checking?
    requires OnTrack(o, Keys(db), LedgerOf(chain, w.token), c.daemon(w.token).limit, w.pc)
    ensures var (db', pc) := WorkerStep(c, db, chain, w, f);
            KeepsTrack(c, o, LedgerOf(chain, w.token), db, w, f, db', pc)
  {
    var ledger, limit := LedgerOf(chain, w.token), c.daemon(w.token).limit;
    var Checking(it, page) := w.pc;
    var base :| Scanned(o, ledger, limit, it, Some(page), base);
    CheckMoves(o, Keys(db), ledger, limit, it, page, base);
    if f != Fine {
      assert WorkerStep(c, db, chain, w, f) == (db, Idle);
    } else if HasProcessed(Keys(db), page) {
      PageStarts(o, Keys(db), ledger, limit, it, page, Fresh(Some(|it.stack| - 1), base, ledger, limit));
      assert WorkerStep(c, db, chain, w, f) == (db, StartPage(it, page));
    } else {
      assert WorkerStep(c, db, chain, w, f) == (db, Forward(it));
    }
  }

  lemma BackTrack(c: Config, o: Origin, chain: seq<Tx>, db: Db, w: Worker, f: Fault)
    requires ValidLedger(LedgerOf(chain, w.token)) && w.pc.Backward?
    requires OnTrack(o, Keys(db), LedgerOf(chain, w.token), c.daemon(w.token).limit, w.pc)
    ensures var (db', pc) := WorkerStep(c, db, chain, w, f);
            KeepsTrack(c, o, LedgerOf(chain, w.token), db, w, f, db', pc)
  {
    var ledger, limit, stack := LedgerOf(chain, w.token), c.daemon(w.token).limit, w.pc.it.stack;
    var x :| At(o, Keys(db), ledger, limit, stack, [], x);
    var it := Cursors(stack[..|stack| - 1], stack[|stack| - 1], w.pc.it.canNext);
    var page := Fetch(ledger, stack[|stack| - 1], limit);
    BackStarts(o, Keys(db), ledger, limit, stack, x, it, page);
    assert WorkerStep(c, db, chain, w, f) == (db, if f == Fine then StartPage(it, page) else Idle);
  }

  lemma BackStarts(o: Origin, now: set<Hash>, ledger: seq<Tx>, limit: nat, stack: seq<Cursor>, x: Place, it: Cursors, page: seq<Tx>)
    requires ValidLedger(ledger) && stack != [] && At(o, now, ledger, limit, stack, [], x)
    requires it.stack == stack[..|stack| - 1] && page == Fetch(ledger, stack[|stack| - 1], limit)
    ensures OnTrack(o, now, ledger, limit, StartPage(it, page))
    ensures StartPage(it, page) == Idle ==> Finished(o, now, ledger, limit)
  {
    var x' := BackMoves(o, now, ledger, limit, stack, x);
    PageStarts(o, now, ledger, limit, it, page, x');
  }

  lemma HandlingTrack(c: Config, o: Origin, chain: seq<Tx>, db: Db, w: Worker, f: Fault)
    requires ValidConfig(c) && Inv(c.sq, db) && WorkerOk(c, db, chain, w) && w.pc.Handling?
    requires OnTrack(o, Keys(db), LedgerOf(chain, w.token), c.daemon(w.token).limit, w.pc)
    requires Keys(db) <= Keys(WorkerStep(c, db, chain, w, f).0)
    ensures var (db', pc) := WorkerStep(c, db, chain, w, f);
            KeepsTrack(c, o, LedgerOf(chain, w.token), db, w, f, db', pc)
  {
    var ledger, limit := LedgerOf(chain, w.token), c.daemon(w.token).limit;
    var Handling(it, rest, todo) := w.pc;
    var (db', pc) := HandleStep(c, db, w.token, it, rest, todo, f);
    HandleMoves(c, db, w.token, it, rest, todo, f);
    var x :| At(o, Keys(db), ledger, limit, it.stack, rest, x);
    Further(o, Keys(db), Keys(db'), ledger, ledger, limit, it.stack, rest, x);
    if pc == StartPage(it, rest[1..]) && IsProcessed(db', rest[0].hash) {
      KeysAreProcessed(db', rest[0].hash);
      OneDone(o, Keys(db'), ledger, limit, it.stack, rest, x);
      PageStarts(o, Keys(db'), ledger, limit, it, rest[1..], x.(handled := x.handled + 1));
    }
  }

  lemma WorkerTrack(c: Config, o: Origin, chain: seq<Tx>, db: Db, w: Worker, f: Fault)
    requires ValidConfig(c) && Inv(c.sq, db) && ValidLedger(LedgerOf(chain, w.token)) && WorkerOk(c, db, chain, w)
    requires o.done <= Keys(db) && OnTrack(o, Keys(db), LedgerOf(chain, w.token), c.daemon(w.token).limit, w.pc)
    ensures var (db', pc) := WorkerStep(c, db, chain, w, f);
            KeepsTrack(c, o, LedgerOf(chain, w.token), db, w, f, db', pc)
  {
    WorkerKeeps(c, chain, db, w, f);
    Daemons.KeysEvolve(db, WorkerStep(c, db, chain, w, f).0);
    match w.pc
    case Idle =>
    case Backward(_) => BackTrack(c, o, chain, db, w, f);
    case Handling(_, _, _) => HandlingTrack(c, o, chain, db, w, f);
    case Forward(_) => ForwardTrack(c, o, chain, db, w, f);
    case Checking(_, _) => CheckTrack(c, o, chain, db, w, f);
  }

  // ---------------------------------------------------------------- every run, among all others

  ghost predicate Running(c: Config, s0: Sys, s: Sys, id: nat, token: Token) {
    && id in s.workers && s.workers[id].token == token
    && var o := Origin(Keys(s0.db), LedgerOf(s0.chain, token));
       o.done <= Keys(s.db) && OnTrack(o, Keys(s.db), LedgerOf(s.chain, token), c.daemon(token).limit, s.workers[id].pc)
  }

  lemma RunStarts(c: Config, s: Sys, id: nat, token: Token)
    requires id in s.workers ==> s.workers[id].pc == Idle
    ensures Running(c, s, Step(c, s, Start(id, token)), id, token)
  {
    var ledger := LedgerOf(s.chain, token);
    assert Scanned(Origin(Keys(s.db), ledger), ledger, c.daemon(token).limit, Cursors([], Newest, true), None, ledger);
  }

  /** A call of the run itself. */
  lemma OwnStep(c: Config, s0: Sys, s: Sys, id: nat, token: Token, f: Fault)
    requires SysInv(c, s) && Running(c, s0, s, id, token)
    ensures Running(c, s0, Step(c, s, Go(id, f)), id, token)
    ensures KeepsTrack(c, Origin(Keys(s0.db), LedgerOf(s0.chain, token)), LedgerOf(s.chain, token), s.db, s.workers[id], f,
                       Step(c, s, Go(id, f)).db, Step(c, s, Go(id, f)).workers[id].pc)
  {
    LedgerOfValid(s.chain, token);
    StepKeeps(c, s, Go(id, f));
    Daemons.KeysEvolve(s.db, Step(c, s, Go(id, f)).db);
    WorkerTrack(c, Origin(Keys(s0.db), LedgerOf(s0.chain, token)), s.chain, s.db, s.workers[id], f);
  }

  /** Anything else that happens. */
  lemma OtherStep(c: Config, s0: Sys, s: Sys, id: nat, token: Token, a: Action)
    requires SysInv(c, s) && Running(c, s0, s, id, token)
    requires !(a.Start? && a.id == id) && !(a.Go? && a.id == id)
    ensures Running(c, s0, Step(c, s, a), id, token)
  {
    var o, s' := Origin(Keys(s0.db), LedgerOf(s0.chain, token)), Step(c, s, a);
    StepKeeps(c, s, a);
    Daemons.KeysEvolve(s.db, s'.db);
    LedgerGrows(s.chain, s'.chain, token);
    TrackStays(o, Keys(s.db), Keys(s'.db), LedgerOf(s.chain, token), LedgerOf(s'.chain, token), c.daemon(token).limit,
               s.workers[id].pc);
  }

  lemma AnyStep(c: Config, s0: Sys, s: Sys, id: nat, token: Token, a: Action)
    requires SysInv(c, s) && Running(c, s0, s, id, token) && !(a.Start? && a.id == id)
    ensures Running(c, s0, Step(c, s, a), id, token)
  {
    if a.Go? && a.id == id {
      OwnStep(c, s0, s, id, token, a.fault);
    } else {
      OtherStep(c, s0, s, id, token, a);
    }
  }

  /** The run of worker `id` that starts after `actions`, and what happens from then on. */
  ghost predicate OneRun(c: Config, actions: seq<Action>, id: nat, more: seq<Action>) {
    && ValidConfig(c) && (id in Run(c, actions).workers ==> Run(c, actions).workers[id].pc == Idle)
    && forall i :: 0 <= i < |more| ==> !(more[i].Start? && more[i].id == id)
  }

  /**
   Whatever others do, whatever fails and wherever it is cut short: at every moment of a run everything that its plan
   lists before the place it has come to is recorded.
   */
  lemma {:induction false} RunOnTrack(c: Config, actions: seq<Action>, id: nat, token: Token, more: seq<Action>)
    requires OneRun(c, actions, id, more)
    ensures Running(c, Run(c, actions), Run(c, actions + [Start(id, token)] + more), id, token)
    decreases |more|
  {
    var s0, front := Run(c, actions), actions + [Start(id, token)];
    if more == [] {
      assert front + more == front && front[..|actions|] == actions;
      RunStarts(c, s0, id, token);
    } else {
      var init, a := LastStep(c, front, more);
      RunOnTrack(c, actions, id, token, init);
      AnyStep(c, s0, Run(c, front + init), id, token, a);
    }
  }

  /**
   And a run ends by a call of its own only where a call fails that nothing catches or a wallet query is not answered,
   or else when its whole plan is recorded.
   */
  lemma RunEnds(c: Config, actions: seq<Action>, id: nat, token: Token, more: seq<Action>, f: Fault)
    requires OneRun(c, actions, id, more)
    ensures var s0, s := Run(c, actions), Run(c, actions + [Start(id, token)] + more);
            var s' := Step(c, s, Go(id, f));
            && id in s.workers && id in s'.workers
            && (Aborts(c, s.db, token, s.workers[id].pc, f) ==> s'.workers[id].pc == Idle)
            && (s'.workers[id].pc == Idle ==>
                  || s.workers[id].pc == Idle
                  || Aborts(c, s.db, token, s.workers[id].pc, f)
                  || Finished(Origin(Keys(s0.db), LedgerOf(s0.chain, token)), Keys(s'.db), LedgerOf(s'.chain, token),
                              c.daemon(token).limit))
  {
    RunOnTrack(c, actions, id, token, more);
    Reachable(c, actions + [Start(id, token)] + more);
    OwnStep(c, Run(c, actions), Run(c, actions + [Start(id, token)] + more), id, token, f);
  }

  lemma AllOfPlan(now: set<Hash>, plan: seq<Tx>, handled: nat)
    requires Halfway(now, plan, handled, [] + [])
    ensures Hashes(plan) <= now
  {
    assert handled == |plan|;
  }

  /**
   A run whose plan is recorded met, in its first and last fetch, two stages of its ledger between its start and now,
   and stopped where it saw a recorded transaction or at the oldest; what it then covers is recorded.
   */
  lemma FinishedCovers(o: Origin, now: set<Hash>, ledger: seq<Tx>, limit: nat) returns (x: Place)
    requires Finished(o, now, ledger, limit) && limit > 0 && ValidLedger(ledger)
    ensures o.head <= x.base <= x.tail <= ledger && Between(o.done, now, x.base, limit, x.stop)
    ensures forall i :: 0 <= i < |x.tail| && Runs.Covers(x.stop, x.base, x.tail, limit, i) ==> Coverage.Nth(x.tail, i).hash in now
  {
    x :| At(o, now, ledger, limit, [], [], x);
    AllOfPlan(now, x.plan, x.handled);
    forall i | 0 <= i < |x.tail| && Runs.Covers(x.stop, x.base, x.tail, limit, i)
      ensures Coverage.Nth(x.tail, i).hash in now
    {
      Coverage.PlanCovers(x.stop, x.base, x.tail, limit, i);
    }
  }
}

/**
 The composed system: a growing ledger, charges being created, any number of daemon runs for any
 token interleaved call by call, one webhook sender, faults, lost acknowledgements and crashes.
 A run of the system is any list of actions; an action that is not enabled changes nothing.
 */
module System {
  import opened Base
  import opened Ledger
  import opened Tables
  import opened Screening
  import opened World
  import opened Crawl
  import opened Webhooks

  datatype Config = Config(sq: Sequences, daemon: Token -> Daemon, wallets: Wallets)

  ghost predicate ValidConfig(c: Config) {
    ValidSequences(c.sq) && forall t :: c.daemon(t).token == t
  }

  /** The fields of a transaction iterator. */
  datatype Cursors = Cursors(stack: seq<Cursor>, cursor: Cursor, canNext: bool)

  /** How far the handling of one transaction has come: the next awaited call. */
  datatype Todo =
    | Look                                            // is it processed?
    | Mark(note: string, retry: bool)                 // insert the row; retry: inside the outer try of a jetton daemon
    | Begin(amount: nat, memo: nat)                   // crediting transaction: is it processed?
    | Reading(amount: nat, memo: nat)                 // find the charge
    | Found(amount: nat, memo: nat, charge: Charge)   // is there a charge transaction?
    | CommitNothing
    | CommitUnmatched
    | CommitSeen
    | CommitCredit(amount: nat, memo: nat, charge: Charge)

  datatype Pc =
    | Idle
    | Forward(it: Cursors)
    | Checking(it: Cursors, page: seq<Tx>)
    | Backward(it: Cursors)
    | Handling(it: Cursors, rest: seq<Tx>, todo: Todo)

  datatype Worker = Worker(token: Token, pc: Pc)

  datatype Sender = Resting | Sending(rows: seq<nat>) | Marking(rows: seq<nat>)

  /** `log` holds the ids of acknowledged deliveries, as the receiver saw them. */
  datatype Sys = Sys(db: Db, chain: seq<Tx>, workers: map<nat, Worker>, sender: Sender, log: seq<nat>)

  datatype Action =
    | Arrive(tx: Tx)
    | Create(payload: Option<string>)
    | Start(id: nat, token: Token)
    | Go(id: nat, fault: Fault)
    | Crash(id: nat)
    | Snapshot(rows: seq<nat>)
    | Deliver(answer: Answer)
    | Confirm(fault: Fault)
    | SenderCrash

  const INITIAL: Sys := Sys(EMPTY, [], map[], Resting, [])

  /** The ledger one daemon watches. */
  function LedgerOf(chain: seq<Tx>, token: Token): seq<Tx> {
    if chain == [] then []
    else
      var last := chain[|chain| - 1];
      LedgerOf(chain[..|chain| - 1], token) + if last.account == token then [last] else []
  }

  // ---------------------------------------------------------------- one call of a daemon

  /** Where the run goes when nothing is left of a page. */
  function PageDone(it: Cursors): Pc {
    if it.stack == [] then Idle else Backward(it)
  }

  function StartPage(it: Cursors, page: seq<Tx>): Pc {
    if page == [] then PageDone(it) else Handling(it, page, Look)
  }

  function Pushed(it: Cursors, page: seq<Tx>, limit: nat): Cursors {
    if |page| < limit || |page| == 0 then Cursors(it.stack + [it.cursor], it.cursor, false)
    else Cursors(it.stack + [it.cursor], CursorOf(page[|page| - 1]), it.canNext)
  }

  /** Whether a failing insert of this note is caught by the outer try of a jetton daemon. */
  predicate InsideTry(token: Token, note: string) {
    token != TON && note in {"memo isn't exists", "invalid memo"}
  }

  function Caught(token: Token): Todo {
    Mark("invalid memo", InsideTry(token, "invalid memo"))
  }

  function CommitRowsOf(tx: Tx, token: Token, todo: Todo): seq<Insert> {
    match todo
    case CommitUnmatched => MarkRows(tx.hash, Some("no associated charge"))
    case CommitSeen => MarkRows(tx.hash, None)
    case CommitCredit(amount, _, charge) => CreditRows(Credit(tx.hash, amount, token, charge.id), charge)
    case Mark(note, _) => MarkRows(tx.hash, Some(note))
    case _ => []
  }

  /** What a commit attempt makes of the tables, and whether the caller learns of success. */
  function TryCommit(sq: Sequences, db: Db, rows: seq<Insert>, f: Fault): (Db, bool) {
    match Commit(sq, db, rows)
    case None => (db, false)
    case Some(db') => if f == Lost then (db, false) else (db', f == Fine)
  }

  /** The reads of a crediting transaction; any of them failing lands in the catch. */
  function ReadStep(db: Db, tx: Tx, token: Token, todo: Todo, f: Fault): Todo {
    if f != Fine then Caught(token)
    else match todo
      case Begin(amount, memo) =>
        if tx.hash == "" || amount == 0 || memo == 0 then Caught(token)
        else if IsProcessed(db, tx.hash) then CommitNothing
        else Reading(amount, memo)
      case Reading(amount, memo) =>
        if memo > MAX_BIGINT then Caught(token)
        else (match FindCharge(db.charges, memo)
          case None => CommitUnmatched
          case Some(charge) => Found(amount, memo, charge))
      case Found(amount, memo, charge) =>
        if IsCredited(db, tx.hash) then CommitSeen else CommitCredit(amount, memo, charge)
      case _ => todo
  }

  function LookStep(c: Config, db: Db, token: Token, tx: Tx): Option<Todo> {
    match Screen(c.daemon(token), c.wallets, tx)
    case Unanswered => None
    case Note(note) => Some(Mark(note, InsideTry(token, note)))
    case Pay(amount, memo) => Some(Begin(amount, memo))
  }

  function HandleStep(c: Config, db: Db, token: Token, it: Cursors, rest: seq<Tx>, todo: Todo, f: Fault): (Db, Pc)
    requires rest != []
  {
    var tx := rest[0];
    var next := StartPage(it, rest[1..]);
    match todo
    case Look =>
      if f != Fine then (db, Idle)
      else if IsProcessed(db, tx.hash) then (db, next)
      else (match LookStep(c, db, token, tx)
        case None => (db, Idle)
        case Some(todo') => (db, Handling(it, rest, todo')))
    case Mark(note, retry) =>
      var (db', ok) := TryCommit(c.sq, db, CommitRowsOf(tx, token, todo), f);
      (db', if ok then next
            else if retry then Handling(it, rest, Mark("Invalid transaction, parsing error", false))
            else Idle)
    case Begin(_, _) => (db, Handling(it, rest, ReadStep(db, tx, token, todo, f)))
    case Reading(_, _) => (db, Handling(it, rest, ReadStep(db, tx, token, todo, f)))
    case Found(_, _, _) => (db, Handling(it, rest, ReadStep(db, tx, token, todo, f)))
    case _ =>
      var (db', ok) := TryCommit(c.sq, db, CommitRowsOf(tx, token, todo), f);
      (db', if ok then next else Handling(it, rest, Caught(token)))
  }

  function WorkerStep(c: Config, db: Db, chain: seq<Tx>, w: Worker, f: Fault): (Db, Pc) {
    var limit := c.daemon(w.token).limit;
    var ledger := LedgerOf(chain, w.token);
    match w.pc
    case Idle => (db, Idle)
    case Forward(it) =>
      if !it.canNext then (db, PageDone(it))
      else if f != Fine then (db, Idle)
      else
        var page := Fetch(ledger, it.cursor, limit);
        (db, Checking(Pushed(it, page, limit), page))
    case Checking(it, page) =>
      if f != Fine then (db, Idle)
      else if HasProcessed(Keys(db), page) then (db, StartPage(it, page))
      else (db, Forward(it))
    case Backward(it) =>
      if it.stack == [] || f != Fine then (db, Idle)
      else
        var cursor := it.stack[|it.stack| - 1];
        (db, StartPage(Cursors(it.stack[..|it.stack| - 1], cursor, it.canNext), Fetch(ledger, cursor, limit)))
    case Handling(it, rest, todo) =>
      if rest == [] then (db, Idle) else HandleStep(c, db, w.token, it, rest, todo, f)
  }

  // ---------------------------------------------------------------- one call of the sender

  function NextSend(rows: seq<nat>): Sender {
    if |rows| <= 1 then Resting else Sending(rows[1..])
  }

  ghost function SenderStep(s: Sys, a: Action): Sys {
    match a
    case Snapshot(rows) =>
      if s.sender == Resting && IsSnapshot(s.db, rows) && rows != [] then s.(sender := Sending(rows)) else s
    case Deliver(answer) =>
      if s.sender.Sending? && s.sender.rows != [] && s.sender.rows[0] < |s.db.webhooks| then
        var id := s.db.webhooks[s.sender.rows[0]].id;
        s.(log := if answer == Refused then s.log else s.log + [id],
           sender := if answer == Acked then Marking(s.sender.rows) else Resting)
      else s
    case Confirm(f) =>
      if s.sender.Marking? && s.sender.rows != [] && s.sender.rows[0] < |s.db.webhooks| then
        var id := s.db.webhooks[s.sender.rows[0]].id;
        s.(db := if f == Lost then s.db else MarkSent(s.db, id),
           sender := if f == Fine then NextSend(s.sender.rows) else Resting)
      else s
    case _ => s.(sender := Resting)
  }

  // ---------------------------------------------------------------- one action

  ghost function Step(c: Config, s: Sys, a: Action): Sys {
    match a
    case Arrive(tx) =>
      if forall t :: t in s.chain ==> t.hash != tx.hash then s.(chain := s.chain + [tx]) else s
    case Create(payload) =>
      (match AddCharge(c.sq, s.db, payload)
        case None => s
        case Some(db) => s.(db := db))
    case Start(id, token) =>
      if id in s.workers && s.workers[id].pc != Idle then s
      else s.(workers := s.workers[id := Worker(token, Forward(Cursors([], Newest, true)))])
    case Go(id, f) =>
      if id !in s.workers then s
      else
        var (db, pc) := WorkerStep(c, s.db, s.chain, s.workers[id], f);
        s.(db := db, workers := s.workers[id := s.workers[id].(pc := pc)])
    case Crash(id) =>
      if id !in s.workers then s else s.(workers := s.workers[id := s.workers[id].(pc := Idle)])
    case _ => SenderStep(s, a)
  }

  /** The state after a list of actions. */
  ghost function Run(c: Config, actions: seq<Action>): Sys {
    if actions == [] then INITIAL
    else Step(c, Run(c, actions[..|actions| - 1]), actions[|actions| - 1])
  }
}

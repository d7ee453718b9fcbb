/** The assumptions can be met: sample sequences, environments and a run in which a payment is credited and announced. */
module Witness {
  import opened Base
  import opened Ledger
  import opened Tables
  import opened Screening
  import opened World
  import opened Crawl
  import opened Coverage
  import opened Completion
  import opened Webhooks
  import opened System
  import opened Invariants
  import opened Delivery
  import opened Solo
  import Memo

  /** Sequences that hand out ids and memos one after the other, as many as 64 bits hold. */
  const SAMPLE: Sequences := Sequences(MAX_BIGINT, (i: nat) => Serial(i, i + 1), (i: nat) => Stamp(i, i + 1))

  const CONFIG: Config := Config(SAMPLE, token => Daemon(token, "wallet", "master", 100), map["payer" := "master"])

  /** The same, but the second crediting transaction started before the first and committed after it. */
  const OVERTAKEN: Config :=
    CONFIG.(sq := SAMPLE.(webhook := (i: nat) => Stamp(i, if i == 1 then 0 else i + 1)))

  lemma SampleValid()
    ensures ValidSequences(SAMPLE) && Chronological(SAMPLE) && ValidConfig(CONFIG) && ValidConfig(OVERTAKEN)
    ensures SAMPLE.charge(0) == Serial(0, 1) && SAMPLE.webhook(0) == Stamp(0, 1)
    ensures OVERTAKEN.sq.charge(0) == Serial(0, 1) && OVERTAKEN.sq.webhook(0) == Stamp(0, 1)
    ensures OVERTAKEN.sq.webhook(1) == Stamp(1, 0)
  {
    assert forall i :: 0 <= i < SAMPLE.charges ==> SAMPLE.charge(i) == Serial(i, i + 1);
  }

  /** A process alone with its database, on a ledger at rest, where no call fails. */
  method QuietWorld(ledger: seq<Tx>, wallets: Wallets) returns (w: World)
    requires ValidLedger(ledger)
    ensures fresh(w) && w.Valid() && w.Alone() && w.SoleSender() && forall from, to :: w.Calm(from, to)
  {
    SampleValid();
    w := new World(SAMPLE, wallets, t => ledger, t => Fine, (t, d) => d);
  }

  function WithCharge(db: Db): Db {
    match AddCharge(SAMPLE, db, None)
    case None => db
    case Some(db') => db'
  }

  lemma ChargesOnly(d: Db)
    requires Inv(SAMPLE, d)
    ensures Inv(SAMPLE, WithCharge(d)) && Evolves(d, WithCharge(d)) && SendsNothing(d, WithCharge(d))
  {
    if AddCharge(SAMPLE, d, None).Some? {
      AddChargeKeepsInv(SAMPLE, d, None);
    }
  }

  function OthersCharge(t: nat, d: Db): Db {
    WithCharge(d)
  }

  /** One where others create a charge at every tick and every third call fails, yet nobody else records a transaction. */
  method BusyWorld(ledger: seq<Tx>, wallets: Wallets) returns (w: World)
    requires ValidLedger(ledger)
    ensures fresh(w) && w.Valid() && !w.Alone() && w.SoleSender() && forall h :: h in w.Untouched()
  {
    SampleValid();
    forall t: nat, d | Inv(SAMPLE, d)
      ensures Inv(SAMPLE, OthersCharge(t, d)) && Evolves(d, OthersCharge(t, d)) && SendsNothing(d, OthersCharge(t, d))
    {
      ChargesOnly(d);
    }
    w := new World(SAMPLE, wallets, t => ledger, t => if t % 3 == 0 then Lost else Fine, OthersCharge);
    ghost var empty := EMPTY;
    assert WithCharge(empty).charges != empty.charges;
    assert w.rival(0, empty) != empty;
    forall h ensures h in w.Untouched() {
      forall t: nat, d | Inv(w.sq, d) && IsProcessed(w.rival(t, d), h) ensures IsProcessed(d, h) {
        assert w.rival(t, d).processed == d.processed;
      }
    }
  }

  /** A sender whose receiver accepts everything and whose snapshots are those of `SnapshotExists`. */
  method SampleSender() returns (s: WebhookService)
    ensures fresh(s) && s.Orders()
  {
    forall db: Db ensures IsSnapshot(db, UnsentByTime(db, |db.webhooks|)) {
      SnapshotExists(db);
    }
    s := new WebhookService(t => Acked, (t, db: Db) => UnsentByTime(db, |db.webhooks|));
  }

  /** The charges created with these payloads. */
  function Created(sq: Sequences, payloads: seq<Option<string>>): seq<Charge> {
    seq(|payloads|, i requires 0 <= i < |payloads| => Charge(sq.charge(i).id, sq.charge(i).memo, payloads[i]))
  }

  /** Any charges, as many as the sequences serve, and any ledger of distinct transactions can be there when a run starts. */
  lemma {:induction false} AnyStart(c: Config, payloads: seq<Option<string>>, chain: seq<Tx>) returns (actions: seq<Action>)
    requires ValidConfig(c) && |payloads| <= c.sq.charges && ValidLedger(chain)
    ensures Run(c, actions) == INITIAL.(db := EMPTY.(charges := Created(c.sq, payloads)), chain := chain)
    decreases |payloads| + |chain|
  {
    if chain != [] {
      var init, last := chain[..|chain| - 1], chain[|chain| - 1];
      var before := AnyStart(c, payloads, init);
      forall t | t in init ensures t.hash != last.hash {
        var i :| 0 <= i < |init| && init[i] == t;
        assert chain[i].hash != chain[|chain| - 1].hash;
      }
      StepLast(c, before, Arrive(last));
      actions := before + [Arrive(last)];
      assert init + [last] == chain;
    } else if payloads != [] {
      var init, last := payloads[..|payloads| - 1], payloads[|payloads| - 1];
      var before := AnyStart(c, init, []);
      StepLast(c, before, Create(last));
      actions := before + [Create(last)];
      assert Created(c.sq, payloads) == Created(c.sq, init) + [Charge(c.sq.charge(|init|).id, c.sq.charge(|init|).memo, last)];
    } else {
      actions := [];
      assert Created(c.sq, []) == [];
    }
  }

  // ---------------------------------------------------------------- a payment

  const PAYMENT: Tx := Tx(1, "a1", TON, Some(Internal("payer", "wallet", 5, Body(Some(0), Some(" 1"), None))), 0)
  const CHARGE: Charge := Charge(0, 1, None)
  const CREDIT: Credit := Credit("a1", 5, TON, 0)
  const CHARGED: Db := Db([CHARGE], [], [], [])
  const PAID: Db := Db([CHARGE], [CREDIT], [Processed("a1", None)], [Webhook(0, 1, NoticeOf(CREDIT, CHARGE), false)])

  /** What the two configurations have in common. */
  ghost predicate Sample(c: Config) {
    && ValidConfig(c) && c.sq.charge(0) == Serial(0, 1) && c.sq.charges > 0 && c.sq.webhook(0) == Stamp(0, 1)
    && c.daemon == CONFIG.daemon && c.wallets == CONFIG.wallets
  }

  lemma SampleConfigs()
    ensures Sample(CONFIG) && Sample(OVERTAKEN) && OVERTAKEN.sq.webhook(1) == Stamp(1, 0)
  {
    SampleValid();
  }

  lemma CommentAsks()
    ensures Memo.Validate(" 1") == Some(1)
  {
    assert Memo.TrimLeft(" 1") == Memo.TrimLeft("1") == "1";
    assert Memo.Trim(" 1") == "1";
    assert Memo.Digits("1", 10) == Some(1);
  }

  lemma PaymentSettles(c: Config)
    requires Sample(c)
    ensures SettleAll(c.sq, c.daemon(TON), c.wallets, CHARGED, [PAYMENT]) == (PAID, true)
  {
    var db := CHARGED;
    CommentAsks();
    assert Screen(c.daemon(TON), c.wallets, PAYMENT) == Pay(5, 1);
    CreditCommit(c.sq, db, CREDIT, CHARGE);
    assert db.charges[0].id == CREDIT.chargeId;
    assert FindCharge(db.charges, 1) == Some(CHARGE);
    assert [] + [CREDIT] == [CREDIT] && [] + [Processed("a1", None)] == [Processed("a1", None)];
    assert [] + [Webhook(0, 1, NoticeOf(CREDIT, CHARGE), false)] == [Webhook(0, 1, NoticeOf(CREDIT, CHARGE), false)];
    assert Commit(c.sq, db, CreditRows(CREDIT, CHARGE)) == Some(PAID);
    assert Settle(c.sq, c.daemon(TON), c.wallets, db, PAYMENT) == Some(PAID);
    assert [PAYMENT][1..] == [];
  }

  lemma OneOnLedger(tx: Tx)
    ensures LedgerOf([tx], tx.account) == [tx]
  {
    assert [tx][..0] == [];
  }

  lemma OnePage(tx: Tx, limit: nat)
    requires limit > 1
    ensures Itinerary({}, [tx], [tx], limit) == [tx]
  {
    var ledger := [tx];
    NoStop({}, ledger, limit);
    assert LastPage(ledger, limit) == 0;
    PlanFrom(None, ledger, ledger, limit, 0);
    assert PageNo(ledger, limit, 0) == [tx];
    assert [] + ([] + [tx]) == [tx];
  }

  lemma StepLast(c: Config, actions: seq<Action>, a: Action)
    ensures Run(c, actions + [a]) == Step(c, Run(c, actions), a)
  {
    assert (actions + [a])[..|actions|] == actions;
  }

  lemma Before(c: Config) returns (actions: seq<Action>)
    requires Sample(c)
    ensures Run(c, actions) == Sys(CHARGED, [PAYMENT], map[], Resting, [])
  {
    assert [] + [CHARGE] == [CHARGE];
    assert AddCharge(c.sq, EMPTY, None) == Some(CHARGED);
    actions := [Create(None), Arrive(PAYMENT)];
    StepLast(c, [], Create(None));
    StepLast(c, [Create(None)], Arrive(PAYMENT));
    assert [] + [Create(None)] == [Create(None)];
    assert actions == [Create(None)] + [Arrive(PAYMENT)];
  }

  /** A daemon run by worker 0, left to itself, that changes the tables as given. */
  lemma Handled(c: Config, init: seq<Action>, s: Sys, ledger: seq<Tx>, plan: seq<Tx>, db: Db) returns (run: seq<Action>)
    requires ValidConfig(c) && Run(c, init) == s && (0 in s.workers ==> s.workers[0].pc == Idle)
    requires LedgerOf(s.chain, TON) == ledger && plan == Itinerary(Keys(s.db), ledger, ledger, c.daemon(TON).limit)
    requires SettleAll(c.sq, c.daemon(TON), c.wallets, s.db, plan).0 == db
    ensures Run(c, run) == s.(db := db, workers := s.workers[0 := Worker(TON, Idle)])
  {
    var k := SoloRun(c, init, 0, TON);
    run := init + [Start(0, TON)] + Goes(0, k);
  }

  lemma Paid(c: Config) returns (run: seq<Action>)
    requires Sample(c)
    ensures Run(c, run) == Sys(PAID, [PAYMENT], map[0 := Worker(TON, Idle)], Resting, [])
  {
    var init := Before(c);
    OneOnLedger(PAYMENT);
    OnePage(PAYMENT, 100);
    assert Keys(CHARGED) == {};
    PaymentSettles(c);
    run := Handled(c, init, Sys(CHARGED, [PAYMENT], map[], Resting, []), [PAYMENT], [PAYMENT], PAID);
  }

  /** One webhook, delivered and marked. */
  lemma Announced(c: Config, run: seq<Action>, row: nat) returns (more: seq<Action>)
    requires Run(c, run).sender == Resting && row < |Run(c, run).db.webhooks| && IsSnapshot(Run(c, run).db, [row])
    ensures var s := Run(c, run);
            var id := s.db.webhooks[row].id;
            Run(c, more) == s.(db := MarkSent(s.db, id), log := s.log + [id])
  {
    StepLast(c, run, Snapshot([row]));
    StepLast(c, run + [Snapshot([row])], Deliver(Acked));
    StepLast(c, run + [Snapshot([row])] + [Deliver(Acked)], Confirm(Fine));
    more := run + [Snapshot([row])] + [Deliver(Acked)] + [Confirm(Fine)];
  }

  lemma PaidSnapshot()
    ensures IsSnapshot(PAID, [0])
  {
    assert 0 in [0];
  }

  const SENT: Db := PAID.(webhooks := [Webhook(0, 1, NoticeOf(CREDIT, CHARGE), true)])

  lemma PaidAndSent(c: Config) returns (run: seq<Action>)
    requires Sample(c)
    ensures Run(c, run) == Sys(SENT, [PAYMENT], map[0 := Worker(TON, Idle)], Resting, [0])
  {
    run := Paid(c);
    PaidSnapshot();
    run := Announced(c, run, 0);
    assert MarkSent(PAID, 0).webhooks == SENT.webhooks;
    assert [] + [0] == [0];
  }

  /** A run of the composed system in which a charge is created, paid, credited and announced, once. */
  lemma OnePayment() returns (actions: seq<Action>)
    ensures ValidConfig(CONFIG) && Run(CONFIG, actions).db == SENT && Run(CONFIG, actions).log == [0]
  {
    SampleConfigs();
    actions := PaidAndSent(CONFIG);
  }

  // ---------------------------------------------------------------- a delivery out of order

  const SECOND: Tx := Tx(2, "a2", TON, Some(Internal("payer", "wallet", 7, Body(Some(0), Some(" 1"), None))), 0)
  const CREDIT2: Credit := Credit("a2", 7, TON, 0)
  const TWICE: Db := Db([CHARGE], [CREDIT, CREDIT2], [Processed("a1", None), Processed("a2", None)],
                        SENT.webhooks + [Webhook(1, 0, NoticeOf(CREDIT2, CHARGE), false)])

  lemma SecondSettles(c: Config)
    requires Sample(c) && c.sq.webhook(1) == Stamp(1, 0)
    ensures Settle(c.sq, c.daemon(TON), c.wallets, SENT, SECOND) == Some(TWICE)
  {
    CommentAsks();
    assert Screen(c.daemon(TON), c.wallets, SECOND) == Pay(7, 1);
    CreditCommit(c.sq, SENT, CREDIT2, CHARGE);
    assert SENT.charges[0].id == CREDIT2.chargeId;
    assert FindCharge(SENT.charges, 1) == Some(CHARGE);
    assert SENT.credits + [CREDIT2] == TWICE.credits && SENT.processed + [Processed("a2", None)] == TWICE.processed;
    assert Commit(c.sq, SENT, CreditRows(CREDIT2, CHARGE)) == Some(TWICE);
  }

  lemma SecondRunSettles(c: Config, plan: seq<Tx>)
    requires Sample(c) && c.sq.webhook(1) == Stamp(1, 0) && plan == [SECOND, PAYMENT] + [SECOND, PAYMENT]
    ensures SettleAll(c.sq, c.daemon(TON), c.wallets, SENT, plan).0 == TWICE
  {
    SecondSettles(c);
    var rest := plan[1..];
    assert TWICE.processed[0].txid == "a1" && TWICE.processed[1].txid == "a2";
    forall h | h in Hashes(rest) ensures h in Keys(TWICE) {
      var i :| 0 <= i < |rest| && rest[i].hash == h;
      assert rest[i] == PAYMENT || rest[i] == SECOND;
    }
    SettleAllIdempotent(c.sq, c.daemon(TON), c.wallets, TWICE, rest);
  }

  lemma TwoOnLedger(x: Tx, y: Tx)
    requires x.account == y.account
    ensures LedgerOf([x, y], x.account) == [x, y]
  {
    OneOnLedger(x);
    assert [x, y][..1] == [x];
  }

  lemma TwoOnPage(done: set<Hash>, x: Tx, y: Tx, limit: nat)
    requires x.hash in done && y.hash !in done && limit >= 2
    ensures Itinerary(done, [x, y], [x, y], limit) == [y, x] + [y, x]
  {
    var ledger := [x, y];
    assert NewestProcessed(done, ledger, 1);
    DivUnique(1, limit, 0);
    StopIsNewest(done, ledger, limit, 1);
    PlanAt(done, ledger, limit, 0);
    PagesUnfold(ledger, limit, 0);
    assert PageNo(ledger, limit, 0) == [y, x];
  }

  lemma SecondPlan()
    ensures LedgerOf([PAYMENT, SECOND], TON) == [PAYMENT, SECOND]
    ensures Itinerary(Keys(SENT), [PAYMENT, SECOND], [PAYMENT, SECOND], 100) == [SECOND, PAYMENT] + [SECOND, PAYMENT]
  {
    TwoOnLedger(PAYMENT, SECOND);
    assert SENT.processed[0].txid == "a1";
    TwoOnPage(Keys(SENT), PAYMENT, SECOND, 100);
  }

  lemma SecondSnapshot()
    ensures IsSnapshot(TWICE, [1])
  {
    assert 1 in [1];
  }

  lemma SecondArrives(c: Config) returns (run: seq<Action>)
    requires Sample(c)
    ensures Run(c, run) == Sys(SENT, [PAYMENT, SECOND], map[0 := Worker(TON, Idle)], Resting, [0])
  {
    var sent := PaidAndSent(c);
    StepLast(c, sent, Arrive(SECOND));
    assert [PAYMENT] + [SECOND] == [PAYMENT, SECOND];
    run := sent + [Arrive(SECOND)];
  }

  lemma SecondPaid(c: Config) returns (run: seq<Action>)
    requires Sample(c) && c.sq.webhook(1) == Stamp(1, 0)
    ensures Run(c, run) == Sys(TWICE, [PAYMENT, SECOND], map[0 := Worker(TON, Idle)], Resting, [0])
  {
    var arrived := SecondArrives(c);
    var plan := [SECOND, PAYMENT] + [SECOND, PAYMENT];
    SecondPlan();
    SecondRunSettles(c, plan);
    var s := Sys(SENT, [PAYMENT, SECOND], map[0 := Worker(TON, Idle)], Resting, [0]);
    run := Handled(c, arrived, s, [PAYMENT, SECOND], plan, TWICE);
  }

  /**
   Without the assumption that creation times follow commits the documented order fails: a run in which the webhook
   created later is delivered first, because the other's crediting transaction was still open.
   */
  lemma OutOfOrder() returns (actions: seq<Action>)
    ensures var s := Run(OVERTAKEN, actions);
            && ValidConfig(OVERTAKEN) && |s.db.webhooks| == 2 && s.log == [s.db.webhooks[0].id, s.db.webhooks[1].id]
            && s.db.webhooks[1].createdAt < s.db.webhooks[0].createdAt
  {
    SampleConfigs();
    var run := SecondPaid(OVERTAKEN);
    SecondSnapshot();
    actions := Announced(OVERTAKEN, run, 1);
    assert [0] + [1] == [0, 1];
  }

  // ---------------------------------------------------------------- a transaction that blocks

  /** A jetton transfer from an address that answers no wallet query. */
  const POISON: Tx := Tx(1, "b1", USDT, Some(Internal("anyone", "wallet", 0, Body(Some(INTERNAL_TRANSFER), None, None))), 0)

  function Usdt(limit: nat): Daemon {
    Daemon(USDT, "wallet", "master", limit)
  }

  /**
   It ends every run before anything is recorded: as the oldest transaction of a ledger whose other transactions fill
   whole pages, so also alone on it, no payment behind it is ever handled. (`Completion.TryingAgain`: nor by the next run.)
   */
  lemma PoisonBlocks(newer: seq<Tx>, limit: nat)
    requires limit > 0 && |newer| % limit == 0 && ValidLedger([POISON] + newer)
    ensures var ledger := [POISON] + newer;
            && NoHoles(Keys(EMPTY), ledger)
            && Complete(AfterRun(Keys(EMPTY), ledger, ledger, limit), ledger)
            && SettleAll(SAMPLE, Usdt(limit), map[], EMPTY, Itinerary(Keys(EMPTY), ledger, ledger, limit)) == (EMPTY, false)
  {
    var ledger, j := [POISON] + newer, |newer| / limit;
    assert Keys(EMPTY) == {};
    assert |newer| == j * limit;
    assert Nth(ledger, j * limit) == POISON;
    QuietNoHoles(Keys(EMPTY), ledger, limit);
    NextFromScratch(SAMPLE, Usdt(limit), map[], EMPTY, ledger, j);
  }
}

/**
 The crawl as a function: which transactions one run of a daemon handles, and in what order,
 given the processed set it starts from, the ledger its first fetch sees (`head`) and the
 ledger its last fetch sees (`tail`).
 */
module Crawl {
  import opened Base
  import opened Ledger

  predicate HasProcessed(done: set<Hash>, page: seq<Tx>) {
    exists i :: 0 <= i < |page| && page[i].hash in done
  }

  /** The first page from `j` on that holds a processed transaction. */
  function StopFrom(done: set<Hash>, head: seq<Tx>, limit: nat, j: nat): (k: Option<nat>)
    ensures k.Some? ==> j <= k.value <= LastPage(head, limit)
    decreases LastPage(head, limit) + 1 - j
  {
    if j > LastPage(head, limit) then None
    else if HasProcessed(done, PageNo(head, limit, j)) then Some(j)
    else StopFrom(done, head, limit, j + 1)
  }

  function StopPage(done: set<Hash>, head: seq<Tx>, limit: nat): Option<nat> {
    StopFrom(done, head, limit, 0)
  }

  /** Pages k, k - 1, ..., 1. */
  function Descent(head: seq<Tx>, limit: nat, k: nat): seq<Tx> {
    if k == 0 then [] else PageNo(head, limit, k) + Descent(head, limit, k - 1)
  }

  /** Pages k down to 0. */
  function Pages(ledger: seq<Tx>, limit: nat, k: nat): seq<Tx> {
    Descent(ledger, limit, k) + PageNo(ledger, limit, 0)
  }

  lemma PagesUnfold(ledger: seq<Tx>, limit: nat, k: nat)
    ensures Pages(ledger, limit, k) ==
            if k == 0 then PageNo(ledger, limit, 0) else PageNo(ledger, limit, k) + Pages(ledger, limit, k - 1)
  {
    if k == 0 {
      assert [] + PageNo(ledger, limit, 0) == PageNo(ledger, limit, 0);
    } else {
      assert Pages(ledger, limit, k) == PageNo(ledger, limit, k) + Pages(ledger, limit, k - 1);
    }
  }

  /**
   What a run handles, in order, having stopped on page `stop` or run out of pages: the stop page as first fetched,
   the pages below it down to page 1, and the newest page of the last fetch. So the stop page comes twice.
   */
  function BeforeHead(stop: Option<nat>, head: seq<Tx>, limit: nat): seq<Tx> {
    match stop
    case Some(k) => PageNo(head, limit, k) + Descent(head, limit, k)
    case None => Descent(head, limit, LastPage(head, limit))
  }

  function Plan(stop: Option<nat>, head: seq<Tx>, tail: seq<Tx>, limit: nat): seq<Tx> {
    BeforeHead(stop, head, limit) + PageNo(tail, limit, 0)
  }

  /** The plan of a run on a database that nobody else changes. */
  function Itinerary(done: set<Hash>, head: seq<Tx>, tail: seq<Tx>, limit: nat): seq<Tx> {
    Plan(StopPage(done, head, limit), head, tail, limit)
  }

  /** The same, grouped the way the run proceeds. */
  lemma PlanFrom(stop: Option<nat>, head: seq<Tx>, tail: seq<Tx>, limit: nat, k: nat)
    requires k == if stop.Some? then stop.value else LastPage(head, limit)
    ensures Plan(stop, head, tail, limit) ==
            (if stop.Some? then PageNo(head, limit, k) else []) + (Descent(head, limit, k) + PageNo(tail, limit, 0))
  {
    var page, rest, last := PageNo(head, limit, k), Descent(head, limit, k), PageNo(tail, limit, 0);
    assert (page + rest) + last == page + (rest + last);
    assert rest + last == [] + (rest + last);
  }

  lemma PlanOnLedger(stop: Option<nat>, head: seq<Tx>, tail: seq<Tx>, limit: nat)
    requires head <= tail
    ensures forall t :: t in Plan(stop, head, tail, limit) ==> t in tail
  {
    match stop
    case None => DescentOnLedger(head, limit, LastPage(head, limit));
    case Some(k) => DescentOnLedger(head, limit, k);
  }

  lemma {:induction false} DescentOnLedger(ledger: seq<Tx>, limit: nat, k: nat)
    ensures forall t :: t in Descent(ledger, limit, k) ==> t in ledger
    decreases k
  {
    if k > 0 {
      DescentOnLedger(ledger, limit, k - 1);
    }
  }

  // ---------------------------------------------------------------- the stop page when others record transactions

  /**
   What a scan can have seen while the recorded transactions grew from `done` to `now`: the stop page holds one
   that is recorded by now, and no page before it one that was recorded at the start.
   */
  ghost predicate Between(done: set<Hash>, now: set<Hash>, head: seq<Tx>, limit: nat, stop: Option<nat>) {
    match stop
    case None => forall j :: 0 <= j <= LastPage(head, limit) ==> !HasProcessed(done, PageNo(head, limit, j))
    case Some(k) =>
      && k <= LastPage(head, limit) && HasProcessed(now, PageNo(head, limit, k))
      && forall j :: 0 <= j < k ==> !HasProcessed(done, PageNo(head, limit, j))
  }

  lemma {:induction false} StopFromSpec(done: set<Hash>, ledger: seq<Tx>, limit: nat, j: nat)
    ensures match StopFrom(done, ledger, limit, j)
            case None => forall k :: j <= k <= LastPage(ledger, limit) ==> !HasProcessed(done, PageNo(ledger, limit, k))
            case Some(k) => HasProcessed(done, PageNo(ledger, limit, k))
                            && forall m :: j <= m < k ==> !HasProcessed(done, PageNo(ledger, limit, m))
    decreases LastPage(ledger, limit) + 1 - j
  {
    if j <= LastPage(ledger, limit) && !HasProcessed(done, PageNo(ledger, limit, j)) {
      StopFromSpec(done, ledger, limit, j + 1);
    }
  }

  lemma ProcessedStays(done: set<Hash>, now: set<Hash>, page: seq<Tx>)
    requires forall i :: 0 <= i < |page| && page[i].hash in done ==> page[i].hash in now
    ensures HasProcessed(done, page) ==> HasProcessed(now, page)
  {
  }

  /** If nobody else records transactions of this ledger, the scan stops where it would have stopped at once. */
  lemma StopExact(done: set<Hash>, now: set<Hash>, head: seq<Tx>, limit: nat, stop: Option<nat>)
    requires Between(done, now, head, limit, stop)
    requires forall i :: 0 <= i < |head| && head[i].hash in now ==> head[i].hash in done
    ensures stop == StopPage(done, head, limit)
  {
    StopFromSpec(done, head, limit, 0);
    if stop.Some? {
      var page := PageNo(head, limit, stop.value);
      forall i | 0 <= i < |page| && page[i].hash in now ensures page[i].hash in done {
        assert page[i] == head[Start(head, limit, stop.value) - 1 - i];
      }
      ProcessedStays(now, done, page);
    }
  }

  /** A scan that has seen nothing yet. */
  lemma StopAtOnce(done: set<Hash>, now: set<Hash>, head: seq<Tx>, limit: nat)
    requires done <= now
    ensures Between(done, now, head, limit, StopPage(done, head, limit))
  {
    StopFromSpec(done, head, limit, 0);
    match StopPage(done, head, limit)
    case None =>
    case Some(k) => ProcessedStays(done, now, PageNo(head, limit, k));
  }
}

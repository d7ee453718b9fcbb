/**
 What a run of the crawl reaches, exactly: on a quiet ledger, on one that grows during the
 run, and after runs that were cut short. Indices count from the newest transaction, 0.
 */
module Coverage {
  import opened Base
  import opened Ledger
  import opened Crawl

  function Nth(ledger: seq<Tx>, i: nat): Tx
    requires i < |ledger|
  {
    ledger[|ledger| - 1 - i]
  }

  /** The processed set after a run that got through. */
  function AfterRun(done: set<Hash>, head: seq<Tx>, tail: seq<Tx>, limit: nat): set<Hash> {
    done + Hashes(Itinerary(done, head, tail, limit))
  }

  /** The specification the crawl is a shortcut for. */
  ghost predicate Complete(done: set<Hash>, ledger: seq<Tx>) {
    forall i :: 0 <= i < |ledger| ==> Nth(ledger, i).hash in done
  }

  /** Whatever is older than a processed transaction is processed too. */
  ghost predicate NoHoles(done: set<Hash>, ledger: seq<Tx>) {
    forall i, j :: 0 <= i <= j < |ledger| && Nth(ledger, i).hash in done ==> Nth(ledger, j).hash in done
  }

  // ---------------------------------------------------------------- which page holds which index

  lemma PageHashes(ledger: seq<Tx>, limit: nat, j: nat, i: nat)
    requires ValidLedger(ledger) && i < |ledger|
    ensures Nth(ledger, i).hash in Hashes(PageNo(ledger, limit, j)) <==> j * limit <= i < j * limit + limit
  {
    var page := PageNo(ledger, limit, j);
    if Nth(ledger, i).hash in Hashes(page) {
      var m :| 0 <= m < |page| && page[m].hash == Nth(ledger, i).hash;
      assert page[m] == ledger[Start(ledger, limit, j) - 1 - m];
    }
    if j * limit <= i < j * limit + limit {
      var m := i - j * limit;
      assert page[m] == Nth(ledger, i);
    }
  }

  lemma PageHashesIn(ledger: seq<Tx>, limit: nat, j: nat)
    ensures Hashes(PageNo(ledger, limit, j)) <= Hashes(ledger)
  {
    var page := PageNo(ledger, limit, j);
    forall h | h in Hashes(page) ensures h in Hashes(ledger) {
      var m :| 0 <= m < |page| && page[m].hash == h;
      assert ledger[Start(ledger, limit, j) - 1 - m].hash == h;
    }
  }

  lemma {:induction false} DescentHashes(ledger: seq<Tx>, limit: nat, k: nat, i: nat)
    requires ValidLedger(ledger) && i < |ledger|
    ensures Nth(ledger, i).hash in Hashes(Descent(ledger, limit, k)) <==> limit <= i < k * limit + limit
    decreases k
  {
    if k > 0 {
      HashesOfConcat(PageNo(ledger, limit, k), Descent(ledger, limit, k - 1));
      PageHashes(ledger, limit, k, i);
      DescentHashes(ledger, limit, k - 1, i);
      assert (k - 1) * limit + limit == k * limit;
      assert k * limit >= limit;
    }
  }

  lemma {:induction false} DescentHashesIn(ledger: seq<Tx>, limit: nat, k: nat)
    ensures Hashes(Descent(ledger, limit, k)) <= Hashes(ledger)
    decreases k
  {
    if k > 0 {
      HashesOfConcat(PageNo(ledger, limit, k), Descent(ledger, limit, k - 1));
      PageHashesIn(ledger, limit, k);
      DescentHashesIn(ledger, limit, k - 1);
    }
  }

  // ---------------------------------------------------------------- exact coverage

  /** Which indices of the ledger of the first fetch are handled from the pages fetched on the way. */
  predicate Reached(stop: Option<nat>, limit: nat, i: nat) {
    match stop
    case None => limit <= i
    case Some(k) => if k == 0 then i < limit else limit <= i < k * limit + limit
  }

  lemma BeforeHeadHashes(stop: Option<nat>, head: seq<Tx>, limit: nat, i: nat)
    requires limit > 0 && ValidLedger(head) && i < |head|
    ensures Nth(head, i).hash in Hashes(BeforeHead(stop, head, limit)) <==> Reached(stop, limit, i)
  {
    match stop
    case None =>
      LastPageBounds(head, limit);
      DescentHashes(head, limit, LastPage(head, limit), i);
    case Some(k) =>
      HashesOfConcat(PageNo(head, limit, k), Descent(head, limit, k));
      PageHashes(head, limit, k, i);
      DescentHashes(head, limit, k, i);
      if k > 0 {
        assert k * limit >= limit;
      }
  }

  /**
   A run that stopped on page `stop`, or on none, sets out to handle exactly this: the newest `limit` transactions at
   its last fetch, and of the ledger at its first fetch the indices it reached. Index i there is index i + arrivals at the end.
   */
  lemma PlanCovers(stop: Option<nat>, head: seq<Tx>, tail: seq<Tx>, limit: nat, i: nat)
    requires limit > 0 && head <= tail && ValidLedger(tail) && i < |tail|
    ensures Nth(tail, i).hash in Hashes(Plan(stop, head, tail, limit)) <==>
            i < limit || (i >= |tail| - |head| && Reached(stop, limit, i - (|tail| - |head|)))
    ensures Hashes(Plan(stop, head, tail, limit)) <= Hashes(tail)
  {
    var arrivals := |tail| - |head|;
    HashesOfConcat(BeforeHead(stop, head, limit), PageNo(tail, limit, 0));
    PageHashes(tail, limit, 0, i);
    PageHashesIn(tail, limit, 0);
    BeforeHeadIn(stop, head, tail, limit);
    if i >= arrivals {
      assert Nth(head, i - arrivals) == Nth(tail, i);
      BeforeHeadHashes(stop, head, limit, i - arrivals);
    } else {
      forall p | 0 <= p < |head| ensures head[p].hash != Nth(tail, i).hash {
        assert tail[p] == head[p];
      }
    }
  }

  lemma BeforeHeadIn(stop: Option<nat>, head: seq<Tx>, tail: seq<Tx>, limit: nat)
    requires head <= tail
    ensures Hashes(BeforeHead(stop, head, limit)) <= Hashes(head) <= Hashes(tail)
  {
    match stop {
      case None => DescentHashesIn(head, limit, LastPage(head, limit));
      case Some(k) =>
        HashesOfConcat(PageNo(head, limit, k), Descent(head, limit, k));
        PageHashesIn(head, limit, k);
        DescentHashesIn(head, limit, k);
    }
    forall h | h in Hashes(head) ensures h in Hashes(tail) {
      var p :| 0 <= p < |head| && head[p].hash == h;
      assert tail[p].hash == h;
    }
  }

  /** The same for a run that meets no transaction recorded by someone else. */
  lemma ExactCoverage(done: set<Hash>, head: seq<Tx>, tail: seq<Tx>, limit: nat, i: nat)
    requires limit > 0 && head <= tail && ValidLedger(tail) && i < |tail|
    ensures Nth(tail, i).hash in Hashes(Itinerary(done, head, tail, limit)) <==>
            i < limit || (i >= |tail| - |head| && Reached(StopPage(done, head, limit), limit, i - (|tail| - |head|)))
    ensures Hashes(Itinerary(done, head, tail, limit)) <= Hashes(tail)
  {
    PlanCovers(StopPage(done, head, limit), head, tail, limit, i);
  }

  /** With a limit of 0 a run handles nothing. */
  lemma LimitZero(done: set<Hash>, head: seq<Tx>, tail: seq<Tx>)
    ensures Itinerary(done, head, tail, 0) == []
  {
  }

  // ---------------------------------------------------------------- the stop page

  ghost predicate NewestProcessed(done: set<Hash>, ledger: seq<Tx>, m: nat) {
    m < |ledger| && Nth(ledger, m).hash in done && forall i :: 0 <= i < m ==> Nth(ledger, i).hash !in done
  }

  lemma ProcessedPage(done: set<Hash>, ledger: seq<Tx>, limit: nat, m: nat)
    requires limit > 0 && m < |ledger| && Nth(ledger, m).hash in done
    ensures HasProcessed(done, PageNo(ledger, limit, m / limit)) && m / limit <= LastPage(ledger, limit)
  {
    OnPage(ledger, limit, m);
    assert PageNo(ledger, limit, m / limit)[m % limit].hash in done;
  }

  lemma StopNoLater(done: set<Hash>, ledger: seq<Tx>, limit: nat, m: nat)
    requires limit > 0 && m < |ledger| && Nth(ledger, m).hash in done
    ensures StopPage(done, ledger, limit).Some? && StopPage(done, ledger, limit).value <= m / limit
  {
    StopFromSpec(done, ledger, limit, 0);
    ProcessedPage(done, ledger, limit, m);
  }

  /** The stop page is the page of the newest processed transaction. */
  lemma StopIsNewest(done: set<Hash>, ledger: seq<Tx>, limit: nat, m: nat)
    requires limit > 0 && NewestProcessed(done, ledger, m)
    ensures StopPage(done, ledger, limit) == Some(m / limit)
  {
    StopNoLater(done, ledger, limit, m);
    var found := StopWitness(done, ledger, limit);
    DivOrder(m, found, limit);
  }

  lemma StopWitness(done: set<Hash>, ledger: seq<Tx>, limit: nat) returns (m: nat)
    requires limit > 0 && StopPage(done, ledger, limit).Some?
    ensures m < |ledger| && Nth(ledger, m).hash in done
    ensures var k := StopPage(done, ledger, limit).value; k * limit <= m < k * limit + limit && m / limit == k
  {
    StopFromSpec(done, ledger, limit, 0);
    var k := StopPage(done, ledger, limit).value;
    var page := PageNo(ledger, limit, k);
    var i :| 0 <= i < |page| && page[i].hash in done;
    PageAt(ledger, limit, k, i);
    m := k * limit + i;
  }

  /** There is no stop page iff nothing on the ledger is processed. */
  lemma NoStop(done: set<Hash>, ledger: seq<Tx>, limit: nat)
    requires limit > 0
    ensures StopPage(done, ledger, limit) == None <==> forall i :: 0 <= i < |ledger| ==> Nth(ledger, i).hash !in done
  {
    if StopPage(done, ledger, limit) == None {
      forall m | 0 <= m < |ledger| ensures Nth(ledger, m).hash !in done {
        if Nth(ledger, m).hash in done {
          StopNoLater(done, ledger, limit, m);
        }
      }
    } else {
      var m := StopWitness(done, ledger, limit);
    }
  }

  lemma PageAt(ledger: seq<Tx>, limit: nat, k: nat, i: nat)
    requires limit > 0 && i < |PageNo(ledger, limit, k)|
    ensures k * limit + i < |ledger| && PageNo(ledger, limit, k)[i] == Nth(ledger, k * limit + i)
    ensures (k * limit + i) / limit == k
  {
    DivPage(k, limit, i);
  }

  lemma DivPage(k: nat, limit: nat, i: nat)
    requires i < limit
    ensures (k * limit + i) / limit == k
  {
    DivUnique(k * limit + i, limit, k);
  }

  lemma DivOrder(a: nat, b: nat, d: nat)
    requires d > 0 && a <= b
    ensures a / d <= b / d
  {
    var p, q := a / d, b / d;
    assert a == p * d + a % d && b == q * d + b % d;
    assert (q + 1) * d == q * d + d;
    MulMono(q + 1, p, d);
  }

  lemma OnPage(ledger: seq<Tx>, limit: nat, m: nat)
    requires limit > 0 && m < |ledger|
    ensures m / limit <= LastPage(ledger, limit)
    ensures m % limit < |PageNo(ledger, limit, m / limit)|
    ensures PageNo(ledger, limit, m / limit)[m % limit] == Nth(ledger, m)
  {
    DivOrder(m, |ledger|, limit);
    var q := m / limit;
    assert m == q * limit + m % limit;
  }

  // ---------------------------------------------------------------- quiet ledger

  /**
   The shortcut against the specification: on a quiet ledger a run that gets through ends with every transaction
   processed iff every unprocessed one lies in a page no older than the stop page.
   */
  lemma QuietComplete(done: set<Hash>, ledger: seq<Tx>, limit: nat)
    requires limit > 0 && ValidLedger(ledger)
    ensures Complete(AfterRun(done, ledger, ledger, limit), ledger) <==>
            match StopPage(done, ledger, limit)
            case None => true
            case Some(k) => forall i :: 0 <= i < |ledger| && Nth(ledger, i).hash !in done ==> i < k * limit + limit
  {
    forall i | 0 <= i < |ledger|
      ensures Nth(ledger, i).hash in AfterRun(done, ledger, ledger, limit) <==>
              Nth(ledger, i).hash in done || i < limit || Reached(StopPage(done, ledger, limit), limit, i)
    {
      ExactCoverage(done, ledger, ledger, limit, i);
    }
    if StopPage(done, ledger, limit).Some? {
      var k := StopPage(done, ledger, limit).value;
      forall i | 0 <= i < |ledger|
        ensures i < limit || Reached(Some(k), limit, i) <==> i < k * limit + limit
      {
        if k > 0 {
          assert k * limit >= limit;
        }
      }
    }
  }

  /** Without holes a quiet run that gets through processes the whole ledger. */
  lemma QuietNoHoles(done: set<Hash>, ledger: seq<Tx>, limit: nat)
    requires limit > 0 && ValidLedger(ledger) && NoHoles(done, ledger)
    ensures Complete(AfterRun(done, ledger, ledger, limit), ledger)
  {
    QuietComplete(done, ledger, limit);
    if StopPage(done, ledger, limit).Some? {
      var m := StopWitness(done, ledger, limit);
    }
  }

  /** The processed set after one quiet run on each ledger in turn. */
  function AfterRuns(done: set<Hash>, ledgers: seq<seq<Tx>>, limit: nat): set<Hash> {
    if ledgers == [] then done
    else
      var before := AfterRuns(done, ledgers[..|ledgers| - 1], limit);
      var ledger := ledgers[|ledgers| - 1];
      AfterRun(before, ledger, ledger, limit)
  }

  /** Each ledger extends the one before. */
  ghost predicate Growing(ledgers: seq<seq<Tx>>) {
    && (forall i :: 0 <= i < |ledgers| ==> ValidLedger(ledgers[i]))
    && (forall i, j :: 0 <= i <= j < |ledgers| ==> ledgers[i] <= ledgers[j])
  }

  ghost predicate ArrivedSince(done: set<Hash>, first: seq<Tx>, ledger: seq<Tx>) {
    forall p :: |first| <= p < |ledger| ==> ledger[p].hash !in done
  }

  /** As long as transactions arrive only between runs and all runs get through, each leaves the ledger processed as a whole. */
  lemma {:induction false} EveryRunCompletes(done: set<Hash>, ledgers: seq<seq<Tx>>, limit: nat)
    requires limit > 0 && ledgers != [] && Growing(ledgers) && NoHoles(done, ledgers[0])
    requires ArrivedSince(done, ledgers[0], ledgers[|ledgers| - 1])
    ensures Complete(AfterRuns(done, ledgers, limit), ledgers[|ledgers| - 1])
    ensures AfterRuns(done, ledgers, limit) <= done + Hashes(ledgers[|ledgers| - 1])
    decreases |ledgers|
  {
    var last := |ledgers| - 1;
    var ledger := ledgers[last];
    var before := AfterRuns(done, ledgers[..last], limit);
    if last == 0 {
      assert before == done;
    } else {
      var older := ledgers[last - 1];
      assert ledgers[..last][last - 1] == older;
      assert older <= ledger && ledgers[0] <= older;
      EveryRunCompletes(done, ledgers[..last], limit);
      Extends(done, before, older, ledger);
    }
    OneMoreRun(done, before, ledger, limit);
  }

  lemma OneMoreRun(done: set<Hash>, before: set<Hash>, ledger: seq<Tx>, limit: nat)
    requires limit > 0 && ValidLedger(ledger) && NoHoles(before, ledger) && before <= done + Hashes(ledger)
    ensures Complete(AfterRun(before, ledger, ledger, limit), ledger)
    ensures AfterRun(before, ledger, ledger, limit) <= done + Hashes(ledger)
  {
    QuietNoHoles(before, ledger, limit);
    if ledger != [] {
      ExactCoverage(before, ledger, ledger, limit, 0);
    } else {
      EmptyLedger(before, limit);
    }
  }

  /** A fully processed ledger that grows has no holes, and what is processed is on it or was so before. */
  lemma Extends(done: set<Hash>, before: set<Hash>, older: seq<Tx>, ledger: seq<Tx>)
    requires older <= ledger && ValidLedger(ledger) && Complete(before, older) && before <= done + Hashes(older)
    requires forall p :: 0 <= p < |ledger| && ledger[p].hash in done ==> p < |older|
    ensures NoHoles(before, ledger)
    ensures done + Hashes(older) <= done + Hashes(ledger)
  {
    forall p | 0 <= p < |ledger| ensures ledger[p].hash in before <==> p < |older| {
      if p < |older| {
        assert Nth(older, |older| - 1 - p).hash in before;
      } else {
        forall q | 0 <= q < |older| ensures older[q].hash != ledger[p].hash {
          assert older[q] == ledger[q];
        }
      }
    }
    forall h | h in Hashes(older) ensures h in Hashes(ledger) {
      var p :| 0 <= p < |older| && older[p].hash == h;
      assert ledger[p].hash == h;
    }
  }

  lemma EmptyLedger(done: set<Hash>, limit: nat)
    requires limit > 0
    ensures Itinerary(done, [], [], limit) == []
  {
    NoStop(done, [], limit);
    assert LastPage([], limit) == 0;
  }
}

/**
 What growth during a run and runs cut short cost, and exactly when a later run that gets through makes up for it.
 Whether it gets through is the subject of `Completion`.
 */
module Recovery {
  import opened Base
  import opened Ledger
  import opened Crawl
  import opened Coverage

  // ---------------------------------------------------------------- growth during a run

  /**
   A run during which the ledger grows leaves it processed as a whole iff it stopped on the newest page and
   no more than `limit` transactions arrived, or it went further and either none arrived or one page holds all.
   */
  lemma GrowingComplete(done: set<Hash>, head: seq<Tx>, tail: seq<Tx>, limit: nat)
    requires limit > 0 && head <= tail && ValidLedger(tail)
    requires NoHoles(done, head) && ArrivedSince(done, head, tail)
    ensures Complete(AfterRun(done, head, tail, limit), tail) <==>
            var arrivals := |tail| - |head|;
            if StopPage(done, head, limit) == Some(0) then arrivals <= limit
            else arrivals == 0 || |tail| <= limit
  {
    var after := AfterRun(done, head, tail, limit);
    forall i | 0 <= i < |tail|
      ensures Nth(tail, i).hash in after <==>
              Nth(tail, i).hash in done || Handled(StopPage(done, head, limit), |tail| - |head|, limit, i)
    {
      AfterRunHas(done, head, tail, limit, i);
    }
    GrowingCases(done, after, head, tail, limit, StopPage(done, head, limit));
  }

  lemma AfterRunHas(done: set<Hash>, head: seq<Tx>, tail: seq<Tx>, limit: nat, i: nat)
    requires limit > 0 && head <= tail && ValidLedger(tail) && i < |tail|
    ensures Nth(tail, i).hash in AfterRun(done, head, tail, limit) <==>
            Nth(tail, i).hash in done || Handled(StopPage(done, head, limit), |tail| - |head|, limit, i)
  {
    ExactCoverage(done, head, tail, limit, i);
  }

  lemma GrowingCases(done: set<Hash>, after: set<Hash>, head: seq<Tx>, tail: seq<Tx>, limit: nat, stop: Option<nat>)
    requires limit > 0 && head <= tail && stop == StopPage(done, head, limit)
    requires NoHoles(done, head) && ArrivedSince(done, head, tail)
    requires forall i :: 0 <= i < |tail| ==>
               (Nth(tail, i).hash in after <==> Nth(tail, i).hash in done || Handled(stop, |tail| - |head|, limit, i))
    ensures Complete(after, tail) <==>
            if stop == Some(0) then |tail| - |head| <= limit else |tail| == |head| || |tail| <= limit
  {
    BeyondStop(done, head, limit);
    match stop
    case None => GrowingNoStop(done, after, head, tail, limit);
    case Some(k) =>
      if k == 0 {
        GrowingAtHead(done, after, head, tail, limit);
      } else {
        HeadUnprocessed(done, head, limit);
        DeeperStop(done, head, limit, k);
        GrowingDeeper(done, after, head, tail, limit, k, k * limit + limit);
      }
  }

  /** Index i at the end of a run that began before the last `arrivals` transactions arrived. */
  predicate Handled(stop: Option<nat>, arrivals: nat, limit: nat, i: nat) {
    i < limit || (i >= arrivals && Reached(stop, limit, i - arrivals))
  }

  lemma Shifted(done: set<Hash>, head: seq<Tx>, tail: seq<Tx>, i: nat)
    requires head <= tail && ArrivedSince(done, head, tail) && i < |tail|
    ensures i < |tail| - |head| ==> Nth(tail, i).hash !in done
    ensures i >= |tail| - |head| ==> Nth(tail, i) == Nth(head, i - (|tail| - |head|))
  {
  }

  lemma GrowingAtHead(done: set<Hash>, after: set<Hash>, head: seq<Tx>, tail: seq<Tx>, limit: nat)
    requires limit > 0 && head <= tail && ArrivedSince(done, head, tail)
    requires forall i :: limit <= i < |head| ==> Nth(head, i).hash in done
    requires forall i :: 0 <= i < |tail| ==>
               (Nth(tail, i).hash in after <==> Nth(tail, i).hash in done || Handled(Some(0), |tail| - |head|, limit, i))
    ensures Complete(after, tail) <==> |tail| - |head| <= limit
  {
    var a := |tail| - |head|;
    if a <= limit {
      forall i | 0 <= i < |tail| ensures Nth(tail, i).hash in after {
        Shifted(done, head, tail, i);
      }
    } else {
      Shifted(done, head, tail, limit);
      assert Nth(tail, limit).hash !in after;
    }
  }

  lemma GrowingDeeper(done: set<Hash>, after: set<Hash>, head: seq<Tx>, tail: seq<Tx>, limit: nat, k: nat, end: nat)
    requires limit > 0 && k > 0 && end == k * limit + limit && head <= tail && ArrivedSince(done, head, tail)
    requires limit < |head| && forall i :: end <= i < |head| ==> Nth(head, i).hash in done
    requires forall i :: 0 <= i < limit && i < |head| ==> Nth(head, i).hash !in done
    requires forall i :: 0 <= i < |tail| ==>
               (Nth(tail, i).hash in after <==> Nth(tail, i).hash in done || Handled(Some(k), |tail| - |head|, limit, i))
    ensures Complete(after, tail) <==> |tail| == |head|
  {
    var a := |tail| - |head|;
    if a == 0 {
      forall i | 0 <= i < |tail| ensures Nth(tail, i).hash in after {
        Shifted(done, head, tail, i);
      }
    } else {
      var i := a + limit - 1;
      Shifted(done, head, tail, i);
      assert Nth(tail, i).hash !in after;
    }
  }

  lemma GrowingNoStop(done: set<Hash>, after: set<Hash>, head: seq<Tx>, tail: seq<Tx>, limit: nat)
    requires limit > 0 && head <= tail && ArrivedSince(done, head, tail)
    requires forall i :: 0 <= i < |head| ==> Nth(head, i).hash !in done
    requires forall i :: 0 <= i < |tail| ==>
               (Nth(tail, i).hash in after <==> Nth(tail, i).hash in done || Handled(None, |tail| - |head|, limit, i))
    ensures Complete(after, tail) <==> |tail| == |head| || |tail| <= limit
  {
    var a := |tail| - |head|;
    if a > 0 && |tail| > limit {
      var i := if a + limit <= |tail| then a + limit - 1 else |tail| - 1;
      Shifted(done, head, tail, i);
      assert Nth(tail, i).hash !in after;
    }
  }

  /** If the run does not stop on page 0, nothing there is processed. */
  lemma HeadUnprocessed(done: set<Hash>, head: seq<Tx>, limit: nat)
    requires limit > 0 && StopPage(done, head, limit) != Some(0)
    ensures forall i :: 0 <= i < limit && i < |head| ==> Nth(head, i).hash !in done
  {
    StopFromSpec(done, head, limit, 0);
    var page := PageNo(head, limit, 0);
    assert !HasProcessed(done, page);
    forall i | 0 <= i < limit && i < |head| ensures Nth(head, i).hash !in done {
      assert page[i] == Nth(head, i);
    }
  }

  lemma DeeperStop(done: set<Hash>, head: seq<Tx>, limit: nat, k: nat)
    requires limit > 0 && StopPage(done, head, limit) == Some(k) && k > 0
    ensures limit < |head|
  {
    var m := StopWitness(done, head, limit);
    MulMono(1, k, limit);
  }

  /** Without holes everything past the stop page is processed, and with no stop page nothing is. */
  lemma BeyondStop(done: set<Hash>, head: seq<Tx>, limit: nat)
    requires limit > 0 && NoHoles(done, head)
    ensures match StopPage(done, head, limit)
            case None => forall i :: 0 <= i < |head| ==> Nth(head, i).hash !in done
            case Some(k) => forall i :: k * limit + limit <= i < |head| ==> Nth(head, i).hash in done
  {
    NoStop(done, head, limit);
    StopFromSpec(done, head, limit, 0);
    match StopPage(done, head, limit)
    case None =>
    case Some(k) =>
      var m :| 0 <= m < |PageNo(head, limit, k)| && PageNo(head, limit, k)[m].hash in done;
      PageAt(head, limit, k, m);
  }

  /** A run that follows one that got through finds the newest page processed and adds nothing. */
  lemma SecondRun(done: set<Hash>, head: seq<Tx>, tail: seq<Tx>, limit: nat)
    requires limit > 0 && head <= tail && ValidLedger(tail)
    ensures var after := AfterRun(done, head, tail, limit);
            Hashes(Itinerary(after, tail, tail, limit)) <= after
  {
    var after := AfterRun(done, head, tail, limit);
    if tail == [] {
      EmptyLedger(after, limit);
    } else {
      forall i | 0 <= i < |tail| ensures i < limit ==> Nth(tail, i).hash in after {
        ExactCoverage(done, head, tail, limit, i);
      }
      HeadPageOnly(after, tail, limit);
    }
  }

  /** With the newest page recorded, the plan holds nothing else. */
  lemma HeadPageOnly(done: set<Hash>, ledger: seq<Tx>, limit: nat)
    requires limit > 0 && ValidLedger(ledger) && ledger != []
    requires forall i :: 0 <= i < |ledger| && i < limit ==> Nth(ledger, i).hash in done
    ensures Hashes(Itinerary(done, ledger, ledger, limit)) <= done
  {
    var plan := Itinerary(done, ledger, ledger, limit);
    assert NewestProcessed(done, ledger, 0);
    DivUnique(0, limit, 0);
    StopIsNewest(done, ledger, limit, 0);
    PlanOnLedger(Some(0), ledger, ledger, limit);
    forall h | h in Hashes(plan) ensures h in done {
      var t :| 0 <= t < |plan| && plan[t].hash == h;
      assert plan[t] in plan;
      var p :| 0 <= p < |ledger| && ledger[p] == plan[t];
      var i := |ledger| - 1 - p;
      assert Nth(ledger, i).hash == h;
      ExactCoverage(done, ledger, ledger, limit, i);
    }
  }

  /** An unprocessed transaction with a processed one at least `limit` places newer. */
  ghost predicate Lost(done: set<Hash>, ledger: seq<Tx>, limit: nat, newer: nat, i: nat) {
    newer + limit <= i < |ledger| && Nth(ledger, newer).hash in done && Nth(ledger, i).hash !in done
  }

  /** Such a transaction is lost for good: no run, whole or cut short, however the ledger grows, ever handles it. */
  lemma LostForever(done: set<Hash>, head: seq<Tx>, tail: seq<Tx>, limit: nat, newer: nat, i: nat, handled: nat)
    requires limit > 0 && head <= tail && ValidLedger(tail)
    requires Lost(done, head, limit, newer, i)
    requires handled <= |Itinerary(done, head, tail, limit)|
    ensures var a := |tail| - |head|;
            Lost(done + Hashes(Itinerary(done, head, tail, limit)[..handled]), tail, limit, newer + a, i + a)
  {
    NotHandled(done, head, tail, limit, newer, i);
    LostStep(done, head, tail, limit, newer, i, Itinerary(done, head, tail, limit), handled);
  }

  lemma NotHandled(done: set<Hash>, head: seq<Tx>, tail: seq<Tx>, limit: nat, newer: nat, i: nat)
    requires limit > 0 && head <= tail && ValidLedger(tail) && Lost(done, head, limit, newer, i)
    ensures Nth(head, i).hash !in Hashes(Itinerary(done, head, tail, limit))
  {
    var a := |tail| - |head|;
    assert Nth(tail, i + a) == Nth(head, i);
    NotReached(done, head, limit, newer, i);
    ExactCoverage(done, head, tail, limit, i + a);
  }

  lemma LostStep(done: set<Hash>, head: seq<Tx>, tail: seq<Tx>, limit: nat, newer: nat, i: nat, plan: seq<Tx>, handled: nat)
    requires head <= tail && Lost(done, head, limit, newer, i) && handled <= |plan|
    requires Nth(head, i).hash !in Hashes(plan)
    ensures Lost(done + Hashes(plan[..handled]), tail, limit, newer + (|tail| - |head|), i + (|tail| - |head|))
  {
    PrefixHashes(plan, handled);
    var a := |tail| - |head|;
    assert Nth(tail, i + a) == Nth(head, i) && Nth(tail, newer + a) == Nth(head, newer);
  }

  lemma NotReached(done: set<Hash>, head: seq<Tx>, limit: nat, newer: nat, i: nat)
    requires limit > 0 && Lost(done, head, limit, newer, i)
    ensures !Reached(StopPage(done, head, limit), limit, i)
  {
    StopNoLater(done, head, limit, newer);
    PageEnd(newer, StopPage(done, head, limit).value, limit);
  }

  /** The page of an index in terms of where pages end. */
  lemma PageEnd(i: nat, k: nat, limit: nat)
    requires limit > 0
    ensures i / limit <= k <==> i < k * limit + limit
    ensures k <= i / limit <==> k * limit <= i
  {
    var q := i / limit;
    assert i == q * limit + i % limit;
    assert (q + 1) * limit == q * limit + limit && (k + 1) * limit == k * limit + limit;
    MulMono(q + 1, k, limit);
    MulMono(k, q, limit);
    MulMono(q, k, limit);
    MulMono(k + 1, q, limit);
  }

  lemma PrefixHashes(txs: seq<Tx>, n: nat)
    requires n <= |txs|
    ensures Hashes(txs[..n]) <= Hashes(txs)
  {
    assert txs == txs[..n] + txs[n..];
    HashesOfConcat(txs[..n], txs[n..]);
  }

  // ---------------------------------------------------------------- a run cut short

  /** Everything older than page j, and the newest b transactions of page j. */
  predicate InShape(limit: nat, j: nat, b: nat, i: nat) {
    i >= j * limit + limit || j * limit <= i < j * limit + b
  }

  lemma PagePrefix(ledger: seq<Tx>, limit: nat, j: nat, n: nat, i: nat)
    requires ValidLedger(ledger) && i < |ledger| && n <= |PageNo(ledger, limit, j)|
    ensures Nth(ledger, i).hash in Hashes(PageNo(ledger, limit, j)[..n]) <==> j * limit <= i < j * limit + n
  {
    var front := PageNo(ledger, limit, j)[..n];
    if Nth(ledger, i).hash in Hashes(front) {
      var m :| 0 <= m < |front| && front[m].hash == Nth(ledger, i).hash;
      assert front[m] == ledger[Start(ledger, limit, j) - 1 - m];
    }
    if j * limit <= i < j * limit + n {
      assert front[i - j * limit] == Nth(ledger, i);
    }
  }

  /** Transaction n of a list is the one right behind the block of page j. */
  ghost predicate BehindBlock(ledger: seq<Tx>, limit: nat, j: nat, b: nat, todo: seq<Tx>, n: nat)
    requires n < |todo|
  {
    b < limit && j * limit + b < |ledger| && todo[n] == Nth(ledger, j * limit + b)
  }

  /** The first n transactions of `todo`, of the pages up to k, are those in a shape, and transaction n is behind its block. */
  ghost predicate Shaped(ledger: seq<Tx>, limit: nat, k: nat, todo: seq<Tx>, n: nat, j: nat, b: nat)
    requires n <= |todo|
  {
    && b <= limit && (n < |todo| ==> BehindBlock(ledger, limit, j, b, todo, n))
    && forall i :: 0 <= i < |ledger| ==>
         (Nth(ledger, i).hash in Hashes(todo[..n]) <==> InShape(limit, j, b, i) && i < k * limit + limit)
  }

  lemma {:induction false} PagesPrefix(ledger: seq<Tx>, limit: nat, k: nat, n: nat) returns (j: nat, b: nat)
    requires limit > 0 && ValidLedger(ledger) && n <= |Pages(ledger, limit, k)|
    ensures j <= k && Shaped(ledger, limit, k, Pages(ledger, limit, k), n, j, b)
    decreases k
  {
    var page, pages := PageNo(ledger, limit, k), Pages(ledger, limit, k);
    PagesUnfold(ledger, limit, k);
    if k == 0 || n < |page| {
      j, b := k, n;
      WithinPage(ledger, limit, k, n, pages);
    } else {
      j, b := PagesPrefix(ledger, limit, k - 1, n - |page|);
      PastPage(ledger, limit, k, n, j, b, Pages(ledger, limit, k - 1), pages);
    }
  }

  lemma WithinPage(ledger: seq<Tx>, limit: nat, k: nat, n: nat, todo: seq<Tx>)
    requires limit > 0 && ValidLedger(ledger) && PageNo(ledger, limit, k) <= todo
    requires n < |PageNo(ledger, limit, k)| || (n == |PageNo(ledger, limit, k)| == |todo|)
    ensures Shaped(ledger, limit, k, todo, n, k, n)
  {
    var page := PageNo(ledger, limit, k);
    assert todo[..n] == page[..n];
    if n < |todo| {
      PageAt(ledger, limit, k, n);
    }
    forall i | 0 <= i < |ledger|
      ensures Nth(ledger, i).hash in Hashes(todo[..n]) <==> InShape(limit, k, n, i) && i < k * limit + limit
    {
      PagePrefix(ledger, limit, k, n, i);
    }
  }

  lemma PastPage(ledger: seq<Tx>, limit: nat, k: nat, n: nat, j: nat, b: nat, pages: seq<Tx>, todo: seq<Tx>)
    requires limit > 0 && ValidLedger(ledger) && j < k && todo == PageNo(ledger, limit, k) + pages
    requires |PageNo(ledger, limit, k)| <= n <= |todo|
    requires Shaped(ledger, limit, k - 1, pages, n - |PageNo(ledger, limit, k)|, j, b)
    ensures Shaped(ledger, limit, k, todo, n, j, b)
  {
    var page := PageNo(ledger, limit, k);
    var front := pages[..n - |page|];
    assert todo[..n] == page + front;
    HashesOfConcat(page, front);
    forall i | 0 <= i < |ledger|
      ensures Nth(ledger, i).hash in Hashes(todo[..n]) <==> InShape(limit, j, b, i) && i < k * limit + limit
    {
      PageHashes(ledger, limit, k, i);
      PageBelow(limit, k, j, b, i);
    }
  }

  lemma PageBelow(limit: nat, k: nat, j: nat, b: nat, i: nat)
    requires j < k && b <= limit
    ensures (k * limit <= i < k * limit + limit || (InShape(limit, j, b, i) && i < (k - 1) * limit + limit))
            <==> InShape(limit, j, b, i) && i < k * limit + limit
  {
    MulMono(j + 1, k, limit);
    assert (j + 1) * limit == j * limit + limit && (k - 1) * limit + limit == k * limit;
  }

  /**
   A quiet run from a state without holes, cut short after any number of commits, leaves processed what was,
   everything older than some page j, and a newest-first block of page j.
   */
  lemma AbortShape(done: set<Hash>, ledger: seq<Tx>, limit: nat, handled: nat) returns (j: nat, b: nat)
    requires limit > 0 && ValidLedger(ledger) && NoHoles(done, ledger)
    requires handled <= |Itinerary(done, ledger, ledger, limit)|
    ensures b <= limit
    ensures var plan := Itinerary(done, ledger, ledger, limit);
            handled < |plan| ==>
              plan[handled].hash in Hashes(plan[..handled]) || BehindBlock(ledger, limit, j, b, plan, handled)
    ensures forall i :: 0 <= i < |ledger| ==>
              (Nth(ledger, i).hash in done + Hashes(Itinerary(done, ledger, ledger, limit)[..handled])
               <==> Nth(ledger, i).hash in done || InShape(limit, j, b, i))
  {
    BeyondStop(done, ledger, limit);
    match StopPage(done, ledger, limit)
    case None =>
      var k := LastPage(ledger, limit);
      PlanFrom(None, ledger, ledger, limit, k);
      assert [] + Pages(ledger, limit, k) == Pages(ledger, limit, k);
      LastPageBounds(ledger, limit);
      j, b := PagesPrefix(ledger, limit, k, handled);
    case Some(k) =>
      PlanFrom(Some(k), ledger, ledger, limit, k);
      j, b := StopPrefix(ledger, limit, k, handled);
  }

  /** The same for the stop page followed by its replay. */
  lemma StopPrefix(ledger: seq<Tx>, limit: nat, k: nat, n: nat) returns (j: nat, b: nat)
    requires limit > 0 && ValidLedger(ledger)
    requires n <= |PageNo(ledger, limit, k) + Pages(ledger, limit, k)|
    ensures j <= k && b <= limit
    ensures var todo := PageNo(ledger, limit, k) + Pages(ledger, limit, k);
            n < |todo| ==> todo[n].hash in Hashes(todo[..n]) || BehindBlock(ledger, limit, j, b, todo, n)
    ensures forall i :: 0 <= i < |ledger| ==>
              (Nth(ledger, i).hash in Hashes((PageNo(ledger, limit, k) + Pages(ledger, limit, k))[..n])
               <==> InShape(limit, j, b, i) && i < k * limit + limit)
  {
    var page := PageNo(ledger, limit, k);
    var pages := Pages(ledger, limit, k);
    if n < |page| {
      assert (page + pages)[..n] == page[..n];
      j, b := k, n;
      PageAt(ledger, limit, k, n);
      forall i | 0 <= i < |ledger|
        ensures Nth(ledger, i).hash in Hashes(page[..n]) <==> k * limit <= i < k * limit + n
      {
        PagePrefix(ledger, limit, k, n, i);
      }
    } else {
      var rest := n - |page|;
      var j0, b0 := PagesPrefix(ledger, limit, k, rest);
      assert (page + pages)[..n] == page + pages[..rest];
      HashesOfConcat(page, pages[..rest]);
      j, b := j0, if j0 == k then limit else b0;
      if rest < |pages| && j0 == k {
        PageHashes(ledger, limit, k, k * limit + b0);
      }
      forall i | 0 <= i < |ledger|
        ensures Nth(ledger, i).hash in Hashes(page + pages[..rest]) <==> InShape(limit, j, b, i) && i < k * limit + limit
      {
        PageHashes(ledger, limit, k, i);
        WithWholePage(limit, k, j0, b0, i);
      }
    }
  }

  lemma WithWholePage(limit: nat, k: nat, j: nat, b: nat, i: nat)
    requires j <= k && b <= limit
    ensures (k * limit <= i < k * limit + limit || (InShape(limit, j, b, i) && i < k * limit + limit))
            <==> InShape(limit, j, if j == k then limit else b, i) && i < k * limit + limit
  {
    if j < k {
      MulMono(j + 1, k, limit);
      assert (j + 1) * limit == j * limit + limit;
    }
  }

  // ---------------------------------------------------------------- the run after

  /** `h` is the oldest unprocessed transaction. */
  ghost predicate OldestUnprocessed(done: set<Hash>, ledger: seq<Tx>, h: nat) {
    h < |ledger| && Nth(ledger, h).hash !in done && forall i :: h < i < |ledger| ==> Nth(ledger, i).hash in done
  }

  /**
   From any processed set a quiet run that gets through completes iff the oldest unprocessed transaction lies on no
   older page than the newest processed one.
   */
  lemma RecoveryIff(done: set<Hash>, ledger: seq<Tx>, limit: nat, m: nat, h: nat)
    requires limit > 0 && ValidLedger(ledger)
    requires NewestProcessed(done, ledger, m) && OldestUnprocessed(done, ledger, h)
    ensures Complete(AfterRun(done, ledger, ledger, limit), ledger) <==> h / limit <= m / limit
  {
    StopIsNewest(done, ledger, limit, m);
    QuietComplete(done, ledger, limit);
    PageEnd(h, m / limit, limit);
  }

  /** `p` is the index of the newest recorded transaction of a ledger without holes, its length if there is none. */
  ghost predicate RecordedFrom(done: set<Hash>, ledger: seq<Tx>, p: nat) {
    p <= |ledger| && forall i :: 0 <= i < |ledger| ==> (Nth(ledger, i).hash in done <==> i >= p)
  }

  lemma {:induction false} FirstRecorded(done: set<Hash>, ledger: seq<Tx>, n: nat) returns (p: nat)
    requires NoHoles(done, ledger) && n <= |ledger| && forall i :: 0 <= i < n ==> Nth(ledger, i).hash !in done
    ensures RecordedFrom(done, ledger, p)
    decreases |ledger| - n
  {
    p := n;
    if n < |ledger| && Nth(ledger, n).hash !in done {
      p := FirstRecorded(done, ledger, n + 1);
    }
  }

  /** Older transactions from p on were recorded before; an abort added its shape; `later` has grown since. */
  ghost predicate Aborted(done: set<Hash>, aborted: set<Hash>, ledger: seq<Tx>, later: seq<Tx>,
                          limit: nat, p: nat, j: nat, b: nat) {
    && limit > 0 && b <= limit && ledger <= later && ValidLedger(later)
    && RecordedFrom(done, ledger, p) && ArrivedSince(aborted, ledger, later)
    && (forall i :: 0 <= i < |ledger| ==>
          (Nth(ledger, i).hash in aborted <==> Nth(ledger, i).hash in done || InShape(limit, j, b, i)))
  }

  /** Where the unrecorded part of page j ends. */
  function HoleEnd(limit: nat, p: nat, j: nat): nat {
    Min(j * limit + limit, p)
  }

  /** The abort left part of page j unrecorded behind a recorded transaction of that page. */
  predicate HasHole(limit: nat, p: nat, j: nat, b: nat) {
    b > 0 && j * limit + b < HoleEnd(limit, p, j)
  }

  /**
   Exactly when the next quiet run makes up for an abort: if it left no hole in page j, or if with the arrivals the
   recorded block and the hole behind it still share a page.
   */
  lemma AfterAbort(done: set<Hash>, aborted: set<Hash>, ledger: seq<Tx>, later: seq<Tx>, limit: nat, p: nat, j: nat, b: nat)
    requires Aborted(done, aborted, ledger, later, limit, p, j, b)
    ensures Complete(AfterRun(aborted, later, later, limit), later) <==>
            !HasHole(limit, p, j, b) || (|later| - |ledger|) % limit + HoleEnd(limit, p, j) <= j * limit + limit
  {
    if HasHole(limit, p, j, b) {
      var a := |later| - |ledger|;
      HoleBounds(done, aborted, ledger, later, limit, p, j, b);
      RecoveryIff(aborted, later, limit, a + j * limit, a + HoleEnd(limit, p, j) - 1);
      SamePage(a, j, j * limit, HoleEnd(limit, p, j) - 1 - j * limit, limit);
    } else {
      NoHoleLeft(done, aborted, ledger, later, limit, p, j, b);
      QuietNoHoles(aborted, later, limit);
    }
  }

  lemma HoleBounds(done: set<Hash>, aborted: set<Hash>, ledger: seq<Tx>, later: seq<Tx>, limit: nat, p: nat, j: nat, b: nat)
    requires Aborted(done, aborted, ledger, later, limit, p, j, b) && HasHole(limit, p, j, b)
    ensures NewestProcessed(aborted, later, |later| - |ledger| + j * limit)
    ensures OldestUnprocessed(aborted, later, |later| - |ledger| + HoleEnd(limit, p, j) - 1)
  {
    forall i | 0 <= i < |later| {
      Shifted(aborted, ledger, later, i);
    }
  }

  lemma NoHoleLeft(done: set<Hash>, aborted: set<Hash>, ledger: seq<Tx>, later: seq<Tx>, limit: nat, p: nat, j: nat, b: nat)
    requires Aborted(done, aborted, ledger, later, limit, p, j, b) && !HasHole(limit, p, j, b)
    ensures NoHoles(aborted, later)
  {
    var a := |later| - |ledger|;
    forall x, y | 0 <= x <= y < |later| && Nth(later, x).hash in aborted ensures Nth(later, y).hash in aborted {
      Shifted(aborted, ledger, later, x);
      Shifted(aborted, ledger, later, y);
      assert x >= a;
      assert x - a >= p || InShape(limit, j, b, x - a);
      assert y - a >= p || InShape(limit, j, b, y - a);
    }
  }

  /** Two transactions fewer than a page apart, the newer one at the start of a page of the old grid. */
  lemma SamePage(a: nat, j: nat, jl: nat, d: nat, limit: nat)
    requires limit > 0 && jl == j * limit && d < limit
    ensures (a + jl + d) / limit <= (a + jl) / limit <==> a % limit + d < limit
  {
    var c, r := a / limit, a % limit;
    assert a == c * limit + r;
    assert (j + c) * limit == j * limit + c * limit;
    SameMultiple(a + jl, d, j + c, r, limit);
  }

  lemma SameMultiple(n: nat, d: nat, q: nat, r: nat, limit: nat)
    requires limit > 0 && d < limit && n == q * limit + r && r < limit
    ensures (n + d) / limit <= n / limit <==> r + d < limit
  {
    DivUnique(n, limit, q);
    if r + d < limit {
      DivUnique(n + d, limit, q);
    } else {
      assert (q + 1) * limit == q * limit + limit;
      DivUnique(n + d, limit, q + 1);
    }
  }

  /** An abort after any number of commits, any number of arrivals, and then exactly when the next quiet run completes. */
  lemma AbortThenRun(done: set<Hash>, ledger: seq<Tx>, later: seq<Tx>, limit: nat, handled: nat)
      returns (p: nat, j: nat, b: nat)
    requires limit > 0 && ledger <= later && ValidLedger(later) && NoHoles(done, ledger)
    requires handled <= |Itinerary(done, ledger, ledger, limit)|
    requires ArrivedSince(done + Hashes(Itinerary(done, ledger, ledger, limit)[..handled]), ledger, later)
    ensures var aborted := done + Hashes(Itinerary(done, ledger, ledger, limit)[..handled]);
            && Aborted(done, aborted, ledger, later, limit, p, j, b)
            && (Complete(AfterRun(aborted, later, later, limit), later) <==>
                !HasHole(limit, p, j, b) || (|later| - |ledger|) % limit + HoleEnd(limit, p, j) <= j * limit + limit)
  {
    var aborted := done + Hashes(Itinerary(done, ledger, ledger, limit)[..handled]);
    j, b := AbortShape(done, ledger, limit, handled);
    p := FirstRecorded(done, ledger, 0);
    AfterAbort(done, aborted, ledger, later, limit, p, j, b);
  }

  /** So after whole pages of new transactions, which keep the grid aligned, a run that gets through repairs everything. */
  lemma AlignedRecovery(done: set<Hash>, ledger: seq<Tx>, later: seq<Tx>, limit: nat, handled: nat)
    requires limit > 0 && ledger <= later && ValidLedger(later) && NoHoles(done, ledger)
    requires handled <= |Itinerary(done, ledger, ledger, limit)|
    requires ArrivedSince(done + Hashes(Itinerary(done, ledger, ledger, limit)[..handled]), ledger, later)
    requires (|later| - |ledger|) % limit == 0
    ensures var aborted := done + Hashes(Itinerary(done, ledger, ledger, limit)[..handled]);
            Complete(AfterRun(aborted, later, later, limit), later)
  {
    var p, j, b := AbortThenRun(done, ledger, later, limit, handled);
  }

  /**
   A single transaction arriving after an abort can be enough to lose one, whatever the page size above 1: one full
   page of new transactions, cut short after one commit. With pages of 1 every number of arrivals is aligned.
   */
  lemma MisalignedLoses(ledger: seq<Tx>, t: Tx, limit: nat)
    requires limit > 1 && |ledger| == limit && ValidLedger(ledger + [t])
    ensures var done := {} + Hashes(Itinerary({}, ledger, ledger, limit)[..1]);
            done == {ledger[limit - 1].hash} && ledger[0].hash !in AfterRun(done, ledger + [t], ledger + [t], limit)
  {
    PlanOfOnePage(ledger, limit);
    FirstOfPage(ledger, limit);
    var later := ledger + [t];
    assert Nth(later, 1) == ledger[limit - 1] && Nth(later, limit) == ledger[0];
    OldestLost(later, limit, {ledger[limit - 1].hash});
  }

  lemma FirstOfPage(ledger: seq<Tx>, limit: nat)
    requires limit > 0 && |ledger| == limit
    ensures Hashes(PageNo(ledger, limit, 0)[..1]) == {ledger[limit - 1].hash}
  {
    var newest := ledger[limit - 1];
    assert PageNo(ledger, limit, 0)[..1] == [newest];
    assert [newest][0].hash in Hashes([newest]);
  }

  lemma OldestLost(later: seq<Tx>, limit: nat, done: set<Hash>)
    requires limit > 1 && |later| == limit + 1 && ValidLedger(later) && done == {Nth(later, 1).hash}
    ensures Nth(later, limit).hash !in AfterRun(done, later, later, limit)
  {
    assert NewestProcessed(done, later, 1);
    DivUnique(1, limit, 0);
    StopIsNewest(done, later, limit, 1);
    ExactCoverage(done, later, later, limit, limit);
    assert Nth(later, limit).hash != Nth(later, 1).hash;
  }

  lemma PlanOfOnePage(ledger: seq<Tx>, limit: nat)
    requires limit > 0 && |ledger| == limit
    ensures Itinerary({}, ledger, ledger, limit) == PageNo(ledger, limit, 0)
  {
    NoStop({}, ledger, limit);
    PlanFrom(None, ledger, ledger, limit, 1);
    assert PageNo(ledger, limit, 1) == [];
    assert Descent(ledger, limit, 1) == [] + Descent(ledger, limit, 0) == [];
    assert [] + ([] + PageNo(ledger, limit, 0)) == PageNo(ledger, limit, 0);
  }

  /**
   A single transaction arriving during a run of several pages can be enough too, whatever the page size: one full page
   of new transactions, the run's first fetch, and one more before its last.
   */
  lemma GrowthLoses(head: seq<Tx>, t: Tx, limit: nat)
    requires limit > 0 && |head| == limit && ValidLedger(head + [t])
    ensures head[0].hash !in AfterRun({}, head, head + [t], limit)
  {
    var tail := head + [t];
    NoStop({}, head, limit);
    ExactCoverage({}, head, tail, limit, limit);
    assert Nth(tail, limit) == head[0];
  }
}

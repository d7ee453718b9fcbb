/** The cursor stack of `TONTransactionIterator`. */
module Iterator {
  import opened Base
  import opened Ledger
  import opened Tables
  import opened World

  ghost predicate AtPage(base: seq<Tx>, limit: nat, cursor: Cursor, j: nat) {
    j * limit <= |base| && cursor == GridCursor(base, limit, j)
  }

  /**
   The stack holds exactly the cursors of pages 0 to m - 1 of the grid, and the live cursor
   is that of page m, or of page m - 1 once the short last page has been fetched.
   */
  ghost predicate OnGrid(base: seq<Tx>, limit: nat, stack: seq<Cursor>, cursor: Cursor, canNext: bool) {
    && |stack| <= LastPage(base, limit) + 1
    && (forall i :: 0 <= i < |stack| ==> AtPage(base, limit, stack[i], i))
    && (limit == 0 && stack != [] ==> !canNext)
    && (AtPage(base, limit, cursor, |stack|) || (!canNext && stack != [] && AtPage(base, limit, cursor, |stack| - 1)))
  }

  class TransactionIterator {
    const provider: World
    const limit: nat

    var stack: seq<Cursor>
    var cursor: Cursor
    var canNext: bool

    /** The ledger as the fetch of page 0 saw it; it anchors the page grid. */
    ghost var base: seq<Tx>

    constructor (provider: World, limit: nat)
      ensures Valid() && stack == [] && canNext && this.provider == provider && this.limit == limit
    {
      this.provider, this.limit := provider, limit;
      stack, cursor, canNext := [], Newest, true;
      base := [];
    }

    ghost predicate Valid()
      reads this, provider
    {
      && base <= provider.ledgerAt(provider.clock)
      && OnGrid(base, limit, stack, cursor, canNext)
    }

    predicate CanNext()
      reads this
    {
      canNext
    }

    predicate CanBack()
      reads this
    {
      |stack| > 0
    }

    /** How far the forward scan can still go, however the ledger grows. */
    ghost function Ahead(): nat
      reads this
    {
      if !canNext then 0 else if stack == [] then 1 else 1 + Start(base, limit, |stack|)
    }

    method Next() returns (r: Result<seq<Tx>>)
      requires provider.Valid() && Valid()
      modifies this, provider
      ensures provider.Valid() && Valid()
      ensures Moved(provider.Others(), old(provider.db), provider.db)
      ensures r == Err(CannotNext) <==> !old(canNext)
      ensures r.Err? ==> stack == old(stack) && cursor == old(cursor) && canNext == old(canNext) && base == old(base)
      ensures provider.clock == old(provider.clock) + if old(canNext) then 1 else 0
      ensures r.Err? && old(canNext) ==> r == Err(Network) && provider.fault(old(provider.clock)) != Fine
      ensures r.Ok? ==>
                && base == (if old(stack) == [] then provider.ledgerAt(old(provider.clock)) else old(base))
                && stack == old(stack) + [old(cursor)]
                && r.value == PageNo(base, limit, |old(stack)|)
                && canNext == (|old(stack)| < LastPage(base, limit))
                && (old(stack) != [] ==> Ahead() < old(Ahead()))
    {
      if !CanNext() {
        return Err(CannotNext);
      }
      ghost var now := provider.clock;
      r := provider.GetTransactions(cursor, limit);
      if r.Ok? {
        FetchLive(if stack == [] then provider.ledgerAt(now) else base, provider.ledgerAt(now), limit, stack, cursor);
        Record(r.value, if stack == [] then provider.ledgerAt(now) else base);
      }
    }

    /** The part of `next` after the fetch. */
    method Record(transactions: seq<Tx>, ghost grid: seq<Tx>)
      requires stack == [] ==> cursor == Newest
      requires stack != [] ==> grid == base && OnGrid(base, limit, stack, cursor, true)
      requires canNext && transactions == PageNo(grid, limit, |stack|)
      modifies this
      ensures OnGrid(base, limit, stack, cursor, canNext) && base == grid
      ensures stack == old(stack) + [old(cursor)]
      ensures canNext == (|old(stack)| < LastPage(base, limit))
      ensures old(stack) != [] ==> Ahead() < old(Ahead())
    {
      base := grid;
      PushKeepsGrid(base, limit, stack, cursor);
      stack := stack + [cursor];
      if |transactions| < limit {
        canNext := false;
      } else {
        if |transactions| > 0 {
          var lastTx := transactions[|transactions| - 1];
          cursor := CursorOf(lastTx);
        } else {
          canNext := false;
        }
      }
    }

    method Back() returns (r: Result<seq<Tx>>)
      requires provider.Valid() && Valid()
      modifies this, provider
      ensures provider.Valid() && Valid()
      ensures Moved(provider.Others(), old(provider.db), provider.db)
      ensures r == Err(CannotBack) <==> old(stack) == []
      ensures base == old(base) && canNext == old(canNext)
      ensures old(stack) == [] ==> stack == [] && provider.clock == old(provider.clock)
      ensures old(stack) != [] ==>
                && stack == old(stack)[..|old(stack)| - 1]
                && provider.clock == old(provider.clock) + 1
                && (r.Err? ==> r == Err(Network) && provider.fault(old(provider.clock)) != Fine)
                && (r.Ok? && |stack| == 0 ==> r.value == PageNo(provider.ledgerAt(old(provider.clock)), limit, 0))
                && (r.Ok? && |stack| > 0 && limit > 0 ==> r.value == PageNo(base, limit, |stack|))
    {
      if !CanBack() {
        return Err(CannotBack);
      }
      ghost var now, m := provider.clock, |stack| - 1;
      cursor := stack[|stack| - 1];
      stack := stack[..|stack| - 1];
      r := provider.GetTransactions(cursor, limit);
      if r.Ok? && m > 0 && limit > 0 {
        NextPagePositive(m, limit);
        PageStable(base, provider.ledgerAt(now), limit, m);
      }
    }
  }

  /** `next` m times on a fresh iterator. */
  method Forth(it: TransactionIterator, m: nat) returns (forth: seq<seq<Tx>>)
    requires it.provider.Valid() && it.Valid() && it.stack == [] && it.canNext
    requires forall t :: it.provider.fault(t) == Fine
    requires m <= LastPage(it.provider.ledgerAt(it.provider.clock), it.limit) + 1
    modifies it, it.provider
    ensures it.provider.Valid() && it.Valid() && it.provider.clock >= old(it.provider.clock)
    ensures |it.stack| == |forth| == m && (m > 0 ==> it.base == it.provider.ledgerAt(old(it.provider.clock)))
    ensures forall j :: 0 <= j < m ==> forth[j] == PageNo(it.provider.ledgerAt(old(it.provider.clock)), it.limit, j)
  {
    ghost var head := it.provider.ledgerAt(it.provider.clock);
    ghost var start := it.provider.clock;
    forth := [];
    while |forth| < m
      invariant it.provider.Valid() && it.Valid() && it.provider.clock >= start
      invariant |it.stack| == |forth| <= m && (forth == [] ==> it.provider.clock == start && it.canNext)
      invariant forth != [] ==> it.base == head && it.canNext == (|forth| - 1 < LastPage(head, it.limit))
      invariant forall j :: 0 <= j < |forth| ==> forth[j] == PageNo(head, it.limit, j)
    {
      var page := it.Next();
      forth := forth + [page.value];
    }
  }

  /**
   `next` m times and `back` m times on a fresh iterator: the same pages in reverse order, however the ledger grows
   in between, except that the newest page comes back as it is by then; on a quiet ledger that one is the same too.
   */
  method ThereAndBack(it: TransactionIterator, m: nat) returns (forth: seq<seq<Tx>>, back: seq<seq<Tx>>, ghost last: nat)
    requires it.provider.Valid() && it.Valid() && it.stack == [] && it.canNext
    requires forall t :: it.provider.fault(t) == Fine
    requires m <= LastPage(it.provider.ledgerAt(it.provider.clock), it.limit) + 1
    modifies it, it.provider
    ensures it.provider.Valid() && it.Valid() && it.stack == []
    ensures |forth| == |back| == m
    ensures forall j :: 0 <= j < m ==> forth[j] == PageNo(it.provider.ledgerAt(old(it.provider.clock)), it.limit, j)
    ensures forall j :: 0 < j < m ==> back[m - 1 - j] == forth[j]
    ensures m > 0 ==> last >= old(it.provider.clock) && back[m - 1] == PageNo(it.provider.ledgerAt(last), it.limit, 0)
    ensures m > 0 && it.provider.ledgerAt(last) == it.provider.ledgerAt(old(it.provider.clock)) ==> back[m - 1] == forth[0]
  {
    ghost var head := it.provider.ledgerAt(it.provider.clock);
    ghost var start := it.provider.clock;
    forth := Forth(it, m);
    back, last := [], start;
    SecondPage(head, it.limit, m);
    while |back| < m
      invariant it.provider.Valid() && it.Valid() && it.provider.clock >= start
      invariant |it.stack| + |back| == m && (m > 0 ==> it.base == head)
      invariant forall j :: 0 < j < m && |it.stack| <= j ==> back[m - 1 - j] == forth[j]
      invariant m > 0 && |back| == m ==> last >= start && back[m - 1] == PageNo(it.provider.ledgerAt(last), it.limit, 0)
    {
      last := it.provider.clock;
      var page := it.Back();
      back := back + [page.value];
    }
  }

  lemma SecondPage(ledger: seq<Tx>, limit: nat, m: nat)
    requires m <= LastPage(ledger, limit) + 1
    ensures m > 1 ==> limit > 0
  {
  }

  lemma NextPagePositive(m: nat, limit: nat)
    requires m > 0 && limit > 0
    ensures m * limit > 0
  {
  }

  /** While the scan can go on, the live cursor fetches the page whose number is the stack height. */
  lemma FetchLive(base: seq<Tx>, ledger: seq<Tx>, limit: nat, stack: seq<Cursor>, cursor: Cursor)
    requires base <= ledger && ValidLedger(ledger)
    requires stack == [] ==> base == ledger && cursor == Newest
    requires stack != [] ==> OnGrid(base, limit, stack, cursor, true)
    ensures Fetch(ledger, cursor, limit) == PageNo(base, limit, |stack|)
  {
    if stack != [] {
      NextPagePositive(|stack|, limit);
      PageStable(base, ledger, limit, |stack|);
    }
  }

  /** Pushing the live cursor and moving to the last transaction of a full page stays on the grid. */
  lemma PushKeepsGrid(base: seq<Tx>, limit: nat, stack: seq<Cursor>, cursor: Cursor)
    requires stack == [] ==> cursor == Newest
    requires stack != [] ==> OnGrid(base, limit, stack, cursor, true)
    ensures var m := |stack|;
            var page := PageNo(base, limit, m);
            if limit > 0 && |page| == limit then
              m < LastPage(base, limit)
              && OnGrid(base, limit, stack + [cursor], CursorOf(page[limit - 1]), true)
              && Start(base, limit, m + 1) < Start(base, limit, m)
            else
              |page| <= limit && (|page| == limit ==> limit == 0) && m == LastPage(base, limit)
              && OnGrid(base, limit, stack + [cursor], cursor, false)
  {
    var m := |stack|;
    assert AtPage(base, limit, cursor, m);
    assert (m + 1) * limit == m * limit + limit;
    if limit > 0 {
      PageFits(base, limit, m);
      if m < LastPage(base, limit) {
        assert base[|base| - m * limit - limit] == PageNo(base, limit, m)[limit - 1];
        assert AtPage(base, limit, CursorOf(PageNo(base, limit, m)[limit - 1]), m + 1);
      }
    }
  }
}

/**
 The account ledger as the page-fetch API shows it: an append-only sequence of
 transactions, kept here oldest first, read in pages that run newest first.
 */
module Ledger {
  import opened Base

  type Hash = string
  type Address = string

  datatype Token = TON | USDT | NOT

  /** A forward payload: `op` is None when fewer than 32 bits remain, `text` is None when reading it throws. */
  datatype Payload = Payload(op: Option<nat>, text: Option<string>)

  /** The jetton fields after the opcode; the source address and the forwarding fields carry no decision. */
  datatype Transfer = Transfer(amount: nat, payload: Option<Payload>)

  /** A message body: `transfer` is None when one of the jetton field reads throws. */
  datatype Body = Body(op: Option<nat>, text: Option<string>, transfer: Option<Transfer>)

  datatype Message =
    | External
    | Internal(src: Address, dest: Address, coins: nat, body: Body)

  /** `account` is the watched wallet (one per token) whose ledger holds the transaction. */
  datatype Tx = Tx(lt: nat, hash: Hash, account: Token, inMsg: Option<Message>, outMsgs: nat)

  datatype Cursor = Newest | OlderThan(lt: nat, hash: Hash)

  ghost predicate ValidLedger(ledger: seq<Tx>) {
    forall i, j :: 0 <= i < j < |ledger| ==> ledger[i].hash != ledger[j].hash
  }

  function CursorOf(tx: Tx): Cursor {
    OlderThan(tx.lt, tx.hash)
  }

  /** How many transactions are strictly older than the cursor. */
  function Position(ledger: seq<Tx>, cursor: Cursor): (p: nat)
    ensures p <= |ledger|
  {
    if cursor == Newest || ledger == [] then |ledger|
    else if CursorOf(ledger[|ledger| - 1]) == cursor then |ledger| - 1
    else Position(ledger[..|ledger| - 1], cursor)
  }

  /** The newest `limit` of the `p` oldest transactions, newest first. */
  function Page(ledger: seq<Tx>, p: nat, limit: nat): (page: seq<Tx>)
    requires p <= |ledger|
    ensures |page| == Min(limit, p)
    ensures forall i :: 0 <= i < |page| ==> page[i] == ledger[p - 1 - i]
  {
    seq(Min(limit, p), i requires 0 <= i < Min(limit, p) => ledger[p - 1 - i])
  }

  /** The assumed contract of the page-fetch call. */
  function Fetch(ledger: seq<Tx>, cursor: Cursor, limit: nat): seq<Tx> {
    Page(ledger, Position(ledger, cursor), limit)
  }

  function Hashes(txs: seq<Tx>): set<Hash> {
    set i | 0 <= i < |txs| :: txs[i].hash
  }

  // ---------------------------------------------------------------- the page grid

  /** Position at which page `j` of the grid ends; pages past the oldest transaction end at 0. */
  function Start(ledger: seq<Tx>, limit: nat, j: nat): (p: nat)
    ensures p <= |ledger|
  {
    if j * limit <= |ledger| then |ledger| - j * limit else 0
  }

  /** Page `j` of the grid: newest-first indices j*limit up to (j+1)*limit - 1. */
  function PageNo(ledger: seq<Tx>, limit: nat, j: nat): seq<Tx> {
    Page(ledger, Start(ledger, limit, j), limit)
  }

  /** The cursor under which page `j` is fetched. */
  function GridCursor(ledger: seq<Tx>, limit: nat, j: nat): Cursor
    requires j * limit <= |ledger|
  {
    if j * limit == 0 then Newest else CursorOf(ledger[|ledger| - j * limit])
  }

  /** The first page shorter than `limit`, which ends the forward scan (page 0 when the limit is 0). */
  function LastPage(ledger: seq<Tx>, limit: nat): nat {
    if limit == 0 then 0 else |ledger| / limit
  }

  lemma {:induction false} PositionOf(ledger: seq<Tx>, i: nat)
    requires ValidLedger(ledger) && i < |ledger|
    ensures Position(ledger, CursorOf(ledger[i])) == i
  {
    var n := |ledger|;
    if i < n - 1 {
      assert ledger[i].hash != ledger[n - 1].hash;
      PositionOf(ledger[..n - 1], i);
    }
  }

  /** Every page but the cursor-less one reads the same after the ledger has grown. */
  lemma PageStable(before: seq<Tx>, after: seq<Tx>, limit: nat, j: nat)
    requires before <= after && ValidLedger(after)
    requires 0 < j * limit <= |before|
    ensures Position(after, GridCursor(before, limit, j)) == |before| - j * limit
    ensures Fetch(after, GridCursor(before, limit, j), limit) == PageNo(before, limit, j)
  {
    PositionOf(after, |before| - j * limit);
  }

  lemma LastPageBounds(ledger: seq<Tx>, limit: nat)
    requires limit > 0
    ensures LastPage(ledger, limit) * limit <= |ledger| < LastPage(ledger, limit) * limit + limit
  {
  }

  lemma PageFits(ledger: seq<Tx>, limit: nat, j: nat)
    requires limit > 0
    ensures j <= LastPage(ledger, limit) <==> j * limit <= |ledger|
    ensures j < LastPage(ledger, limit) <==> j * limit + limit <= |ledger|
  {
    var q := LastPage(ledger, limit);
    LastPageBounds(ledger, limit);
    assert (q + 1) * limit == q * limit + limit && (j + 1) * limit == j * limit + limit;
    MulMono(j, q, limit);
    MulMono(q + 1, j, limit);
    MulMono(j + 1, q, limit);
    MulMono(q, j, limit);
  }

  // ---------------------------------------------------------------- partition

  /** The pages from `j` down to the last one, one after the other. */
  function Scan(ledger: seq<Tx>, limit: nat, j: nat): seq<Tx>
    requires j <= LastPage(ledger, limit)
    decreases LastPage(ledger, limit) - j
  {
    PageNo(ledger, limit, j) + (if j == LastPage(ledger, limit) then [] else Scan(ledger, limit, j + 1))
  }

  lemma JoinPages(ledger: seq<Tx>, p: nat, limit: nat, page: seq<Tx>, rest: seq<Tx>)
    requires p <= |ledger| && page == Page(ledger, p, limit)
    requires rest == if p < limit then [] else Page(ledger, p - limit, |ledger|)
    ensures page + rest == Page(ledger, p, |ledger|)
  {
    var whole := Page(ledger, p, |ledger|);
    if p < limit {
      assert page + [] == page;
      assert page == whole;
    } else {
      forall i | 0 <= i < p ensures (page + rest)[i] == whole[i] {
        if i >= limit {
          assert rest[i - limit] == ledger[p - 1 - i];
        }
      }
      assert |page + rest| == |whole|;
    }
  }

  /**
   The pages of an exhausted scan are the whole ledger, newest first, each transaction once;
   also when the ledger length is a multiple of the limit and the last page is empty.
   */
  lemma {:induction false} ScanFrom(ledger: seq<Tx>, limit: nat, j: nat)
    requires limit > 0 && j <= LastPage(ledger, limit)
    ensures Scan(ledger, limit, j) == Page(ledger, Start(ledger, limit, j), |ledger|)
    decreases LastPage(ledger, limit) - j
  {
    var p := Start(ledger, limit, j);
    PageFits(ledger, limit, j);
    if j == LastPage(ledger, limit) {
      LastPageBounds(ledger, limit);
      JoinPages(ledger, p, limit, PageNo(ledger, limit, j), []);
    } else {
      ScanFrom(ledger, limit, j + 1);
      NextStart(ledger, limit, j);
      JoinPages(ledger, p, limit, PageNo(ledger, limit, j), Scan(ledger, limit, j + 1));
    }
  }

  lemma NextStart(ledger: seq<Tx>, limit: nat, j: nat)
    requires j * limit + limit <= |ledger|
    ensures Start(ledger, limit, j) >= limit && Start(ledger, limit, j + 1) == Start(ledger, limit, j) - limit
  {
    assert (j + 1) * limit == j * limit + limit;
  }

  lemma Partition(ledger: seq<Tx>, limit: nat)
    requires limit > 0
    ensures |Scan(ledger, limit, 0)| == |ledger|
    ensures forall i :: 0 <= i < |ledger| ==> Scan(ledger, limit, 0)[i] == ledger[|ledger| - 1 - i]
  {
    ScanFrom(ledger, limit, 0);
  }

  // ---------------------------------------------------------------- hashes

  lemma HashesOfConcat(a: seq<Tx>, b: seq<Tx>)
    ensures Hashes(a + b) == Hashes(a) + Hashes(b)
  {
    forall h | h in Hashes(a) + Hashes(b) ensures h in Hashes(a + b) {
      if h in Hashes(a) {
        var i :| 0 <= i < |a| && a[i].hash == h;
        assert (a + b)[i].hash == h;
      } else {
        var i :| 0 <= i < |b| && b[i].hash == h;
        assert (a + b)[|a| + i].hash == h;
      }
    }
  }
}

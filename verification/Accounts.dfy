/** The ledgers of the watched accounts within the chain of the composed system. */
module Accounts {
  import opened Base
  import opened Ledger
  import opened Tables
  import opened Coverage
  import opened System
  import opened Invariants

  /** `ledger` is what stands at the places `at` of the chain: in its order, all of the account and nothing else. */
  ghost predicate Picks(chain: seq<Tx>, token: Token, ledger: seq<Tx>, at: seq<nat>) {
    && |at| == |ledger|
    && (forall i :: 0 <= i < |at| ==> at[i] < |chain| && chain[at[i]] == ledger[i] && ledger[i].account == token)
    && (forall i, j :: 0 <= i < j < |at| ==> at[i] < at[j])
    && (forall k: nat :: k < |chain| && chain[k].account == token ==> k in at)
  }

  /** The ledger a daemon fetches from is exactly that part of the chain. */
  lemma {:induction false} LedgerPicks(chain: seq<Tx>, token: Token) returns (at: seq<nat>)
    ensures Picks(chain, token, LedgerOf(chain, token), at)
    decreases |chain|
  {
    if chain == [] {
      at := [];
    } else {
      var n := |chain| - 1;
      at := LedgerPicks(chain[..n], token);
      if chain[n].account == token {
        var before := at;
        at := at + [n];
        forall k: nat | k < |chain| && chain[k].account == token ensures k in at {
          if k < n {
            assert chain[..n][k] == chain[k];
            assert k in before;
          }
        }
      } else {
        forall k: nat | k < |chain| && chain[k].account == token ensures k in at {
          assert chain[..n][k] == chain[k];
        }
      }
    }
  }

  lemma LedgerHolds(chain: seq<Tx>, token: Token, tx: Tx)
    ensures tx in LedgerOf(chain, token) <==> tx in chain && tx.account == token
  {
    var at := LedgerPicks(chain, token);
    if tx in chain && tx.account == token {
      var k :| 0 <= k < |chain| && chain[k] == tx;
      assert k in at;
    }
  }

  /** Whatever arrives, on this account or another, every ledger only grows at its end. */
  lemma {:induction false} LedgerGrows(chain: seq<Tx>, chain': seq<Tx>, token: Token)
    requires chain <= chain'
    ensures LedgerOf(chain, token) <= LedgerOf(chain', token)
    decreases |chain'|
  {
    if |chain| < |chain'| {
      LedgerGrows(chain, chain'[..|chain'| - 1], token);
    } else {
      assert chain == chain';
    }
  }

  lemma {:induction false} LedgerOfValid(chain: seq<Tx>, token: Token)
    requires ValidLedger(chain)
    ensures ValidLedger(LedgerOf(chain, token))
  {
    var at := LedgerPicks(chain, token);
    var ledger := LedgerOf(chain, token);
    forall i, j | 0 <= i < j < |ledger| ensures ledger[i].hash != ledger[j].hash {
      assert at[i] < at[j];
    }
  }

  /** So over any run each daemon's ledger is one that the daemons' own contracts assume: valid, and only growing. */
  lemma LedgersGrow(c: Config, before: seq<Action>, more: seq<Action>, token: Token)
    requires ValidConfig(c)
    ensures ValidLedger(LedgerOf(Run(c, before).chain, token))
    ensures LedgerOf(Run(c, before).chain, token) <= LedgerOf(Run(c, before + more).chain, token)
  {
    Reachable(c, before);
    LedgerOfValid(Run(c, before).chain, token);
    OnlyAccumulates(c, before, more);
    LedgerGrows(Run(c, before).chain, Run(c, before + more).chain, token);
  }

  /** Of the account's transactions on the chain, those older than a recorded one are recorded. */
  ghost predicate NoHolesOnChain(done: set<Hash>, chain: seq<Tx>, token: Token) {
    forall i, j :: 0 <= i < j < |chain| && chain[i].account == token && chain[j].account == token ==>
      chain[j].hash in done ==> chain[i].hash in done
  }

  lemma HolelessLedger(done: set<Hash>, chain: seq<Tx>, token: Token)
    requires NoHolesOnChain(done, chain, token)
    ensures NoHoles(done, LedgerOf(chain, token))
  {
    var at := LedgerPicks(chain, token);
    var ledger := LedgerOf(chain, token);
    var n := |ledger|;
    forall i, j | 0 <= i <= j < n && Nth(ledger, i).hash in done ensures Nth(ledger, j).hash in done {
      if i < j {
        assert at[n - 1 - j] < at[n - 1 - i];
        assert chain[at[n - 1 - i]].hash in done;
      }
    }
  }

  /** An index of the ledger for every transaction of the account. */
  lemma LedgerIndex(chain: seq<Tx>, token: Token, tx: Tx) returns (i: nat)
    requires tx in chain && tx.account == token
    ensures i < |LedgerOf(chain, token)| && Nth(LedgerOf(chain, token), i) == tx
  {
    LedgerHolds(chain, token, tx);
    var ledger := LedgerOf(chain, token);
    var p :| 0 <= p < |ledger| && ledger[p] == tx;
    i := |ledger| - 1 - p;
  }
}

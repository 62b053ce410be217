/** The transaction ledger: newest entry first, each new entry numbered one past
    the ledger's length at the time it is prepended. */
module Ledger {
  import opened Optional
  import opened JsString
  import opened Inventory

  /** `transactions.unshift({ id: (transactions.length + 1).toString(), ... })`,
      snapshotting the product as it is after its stock change. */
  function Record(txs: seq<Transaction>, p: Product, kind: string, quantity: int,
                  notes: string, orderId: Option<string>, at: string): (r: seq<Transaction>)
    ensures |r| == |txs| + 1 && r[1..] == txs
  {
    [Transaction(NatToString(|txs| + 1), p.id, p.productCode, p.name, p.category, kind,
                 quantity, p.unit, p.currentStock, notes, orderId, at)] + txs
  }

  /** Every entry's id is its position counted from the oldest entry, starting at 1:
      the numbering a ledger built only by `Record` from empty has. */
  predicate Numbered(txs: seq<Transaction>) {
    forall i :: 0 <= i < |txs| ==> txs[i].id == NatToString(|txs| - i)
  }

  /** `after` is `before` with exactly `n` entries put in front of it. */
  predicate Grown(before: seq<Transaction>, after: seq<Transaction>, n: nat) {
    |after| == |before| + n && after[n..] == before
  }

  lemma RecordNumbered(txs: seq<Transaction>, p: Product, kind: string, quantity: int,
                       notes: string, orderId: Option<string>, at: string)
    requires Numbered(txs)
    ensures Numbered(Record(txs, p, kind, quantity, notes, orderId, at))
  {
    var r := Record(txs, p, kind, quantity, notes, orderId, at);
    assert r[0].id == NatToString(|r|);
    forall i | 1 <= i < |r| ensures r[i].id == NatToString(|r| - i) {
      var k := |txs| - (i - 1);
      assert r[i] == r[1..][i - 1] == txs[i - 1];
      assert txs[i - 1].id == NatToString(k);
      assert |r| - i == k;
    }
  }

  lemma RecordGrown(txs: seq<Transaction>, p: Product, kind: string, quantity: int,
                    notes: string, orderId: Option<string>, at: string)
    ensures Grown(txs, Record(txs, p, kind, quantity, notes, orderId, at), 1)
  {
  }

  lemma GrownNone(txs: seq<Transaction>)
    ensures Grown(txs, txs, 0)
  {
  }

  /** Below the `n` new entries sits the old ledger, head first. */
  lemma GrownHead(before: seq<Transaction>, after: seq<Transaction>, n: nat)
    requires Grown(before, after, n) && |before| > 0
    ensures after[n] == before[0] && after[n + 1..] == before[1..]
  {
    assert after[n] == after[n..][0];
    assert after[n + 1..] == after[n..][1..];
  }

  lemma GrownTrans(a: seq<Transaction>, b: seq<Transaction>, c: seq<Transaction>, n: nat, m: nat)
    requires Grown(a, b, n) && Grown(b, c, m)
    ensures Grown(a, c, m + n)
  {
    assert c[m + n..] == c[m..][n..];
  }

  /** In a numbered ledger no two entries share an id. */
  lemma NumberedIdsDistinct(txs: seq<Transaction>, i: nat, j: nat)
    requires Numbered(txs) && i < j < |txs|
    ensures txs[i].id != txs[j].id
  {
    if txs[i].id == txs[j].id {
      NatToStringInjective(|txs| - i, |txs| - j);
    }
  }
}

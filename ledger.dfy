/** The stock table: one row per (product, warehouse) pair, keyed by the
    compound unique key `productId_warehouseId`. An absent row reads as 0. */
module Ledger {

  datatype Key = Key(product: int, warehouse: int)

  type Stock = map<Key, int>

  function Qty(m: Stock, k: Key): int {
    if k in m then m[k] else 0
  }

  /** No stock row holds a negative quantity. */
  predicate NonNegative(m: Stock) {
    forall k :: k in m ==> m[k] >= 0
  }

  /** `stock.upsert` with `increment: q` on update and `quantity: q` on create:
      the row becomes its old value (0 when absent) plus `q`, and it exists afterwards. */
  function Increment(m: Stock, k: Key, q: int): (r: Stock)
    ensures k in r && r[k] == Qty(m, k) + q
    ensures r.Keys == m.Keys + {k}
    ensures forall k' :: k' != k && k' in m ==> r[k'] == m[k']
    ensures NonNegative(m) && q >= 0 ==> NonNegative(r)
  {
    if k in m then m[k := m[k] + q] else m[k := q]
  }

  /** `stock.update` with `decrement: q`; the store throws when the row is
      missing, so every caller checks that it exists first. */
  function Decrement(m: Stock, k: Key, q: int): (r: Stock)
    requires k in m
    ensures r.Keys == m.Keys && r[k] == m[k] - q
    ensures forall k' :: k' != k && k' in m ==> r[k'] == m[k']
    ensures NonNegative(m) && q <= m[k] ==> NonNegative(r)
  {
    m[k := m[k] - q]
  }

  /** One transfer line: decrement the source row, then upsert-increment the destination row. */
  function Move(m: Stock, p: int, from: int, to: int, q: int): (r: Stock)
    requires Key(p, from) in m
    ensures from != to ==> Qty(r, Key(p, from)) == m[Key(p, from)] - q
    ensures from != to ==> Qty(r, Key(p, to)) == Qty(m, Key(p, to)) + q
    ensures from == to ==> r == m
    ensures forall k :: k != Key(p, from) && k != Key(p, to) ==> (k in r <==> k in m) && Qty(r, k) == Qty(m, k)
    ensures NonNegative(m) && 0 <= q <= m[Key(p, from)] ==> NonNegative(r)
  {
    Increment(Decrement(m, Key(p, from), q), Key(p, to), q)
  }

  predicate Distinct(ws: seq<int>) {
    forall i, j :: 0 <= i < j < |ws| ==> ws[i] != ws[j]
  }

  /** The quantity of product `p` summed over the warehouses `ws`. */
  function Total(m: Stock, p: int, ws: seq<int>): int {
    if ws == [] then 0 else Qty(m, Key(p, ws[0])) + Total(m, p, ws[1..])
  }

  /** Writing `v` into row `k` changes a product's total over distinct
      warehouses by exactly the change of that row, when the row counts. */
  lemma {:induction false} TotalAfterWrite(m: Stock, k: Key, v: int, p: int, ws: seq<int>)
    requires Distinct(ws)
    ensures Total(m[k := v], p, ws)
         == Total(m, p, ws) + (if k.product == p && k.warehouse in ws then v - Qty(m, k) else 0)
  {
    if ws != [] {
      var rest := ws[1..];
      assert Distinct(rest) by {
        forall i, j | 0 <= i < j < |rest| ensures rest[i] != rest[j] {
          assert rest[i] == ws[i + 1] && rest[j] == ws[j + 1];
        }
      }
      TotalAfterWrite(m, k, v, p, rest);
      if k == Key(p, ws[0]) {
        forall j | 0 <= j < |rest| ensures rest[j] != k.warehouse {
          assert rest[j] == ws[j + 1];
        }
      }
      assert k.warehouse in ws <==> k.warehouse == ws[0] || k.warehouse in rest;
    }
  }

  /** A move between two different warehouses of the list leaves every
      product's total over that list unchanged. */
  lemma MoveKeepsTotal(m: Stock, p: int, from: int, to: int, q: int, p': int, ws: seq<int>)
    requires Key(p, from) in m
    requires from != to && from in ws && to in ws && Distinct(ws)
    ensures Total(Move(m, p, from, to, q), p', ws) == Total(m, p', ws)
  {
    var src, dst := Key(p, from), Key(p, to);
    var m1 := Decrement(m, src, q);
    TotalAfterWrite(m, src, m[src] - q, p', ws);
    assert m1 == m[src := m[src] - q];
    TotalAfterWrite(m1, dst, Qty(m1, dst) + q, p', ws);
    assert Increment(m1, dst, q) == m1[dst := Qty(m1, dst) + q];
    assert Qty(m1, dst) == Qty(m, dst);
  }

  /** Two tables that agree on a product's rows in the listed warehouses give
      it the same total there. */
  lemma {:induction false} TotalAgrees(a: Stock, b: Stock, p: int, ws: seq<int>)
    requires forall w :: w in ws ==> Qty(a, Key(p, w)) == Qty(b, Key(p, w))
    ensures Total(a, p, ws) == Total(b, p, ws)
  {
    if ws != [] {
      assert ws[0] in ws;
      assert forall w :: w in ws[1..] ==> w in ws;
      TotalAgrees(a, b, p, ws[1..]);
    }
  }

  /** A product with no rows in the listed warehouses has total 0 there. */
  lemma {:induction false} TotalOfAbsent(m: Stock, p: int, ws: seq<int>)
    requires forall w :: w in ws ==> Key(p, w) !in m
    ensures Total(m, p, ws) == 0
  {
    if ws != [] {
      assert ws[0] in ws;
      assert forall w :: w in ws[1..] ==> w in ws;
      TotalOfAbsent(m, p, ws[1..]);
    }
  }
}

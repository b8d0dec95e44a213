/**
 * The positions table (internal/repository/postgres/position_repo.go) as a
 * map keyed by (portfolio, symbol): the key is the table's conflict key, so
 * the map shape itself says there is at most one row per pair.
 */
module Positions {
  import opened Wrappers
  import opened Domain

  type Key = (PortfolioId, Symbol)
  type Table = map<Key, Position>

  /** GetBySymbolTx: a missing row is "no position", not an error. */
  function GetBySymbol(t: Table, p: PortfolioId, s: Symbol): (r: Option<Position>)
    ensures r.None? <==> (p, s) !in t
    ensures r.Some? ==> (p, s) in t && r.value == t[(p, s)]
  {
    if (p, s) in t then Some(t[(p, s)]) else None
  }

  /** The upsert's averaging divides by the summed quantity; SQL raises an error on zero. */
  predicate UpsertDividesByZero(t: Table, p: PortfolioId, s: Symbol, qty: real)
  {
    (p, s) in t && t[(p, s)].quantity + qty == 0.0
  }

  /** The row UpsertTx leaves behind, given the row it found (if any). */
  function Upserted(existing: Option<Position>, qty: real, price: real): (r: Position)
    requires existing.Some? ==> existing.value.quantity + qty != 0.0
    ensures existing.None? ==> r == Position(qty, price)
    ensures existing.Some? ==> r.quantity == existing.value.quantity + qty
    ensures existing.Some? ==>
      r.quantity * r.avgCost == existing.value.quantity * existing.value.avgCost + qty * price
  {
    match existing
    case None => Position(qty, price)
    case Some(held) =>
      Position(held.quantity + qty,
               (held.quantity * held.avgCost + qty * price) / (held.quantity + qty))
  }

  /** UpsertTx: insert, or on conflict add to the quantity and re-average the cost. */
  function Upsert(t: Table, p: PortfolioId, s: Symbol, qty: real, price: real): (r: Table)
    requires !UpsertDividesByZero(t, p, s, qty)
    ensures r.Keys == t.Keys + {(p, s)}
    ensures r[(p, s)] == Upserted(GetBySymbol(t, p, s), qty, price)
    ensures forall k :: k in t && k != (p, s) ==> r[k] == t[k]
  {
    t[(p, s) := Upserted(GetBySymbol(t, p, s), qty, price)]
  }

  /** UpdateQtyTx: sets the quantity of that one row; updating a missing row changes nothing. */
  function UpdateQty(t: Table, p: PortfolioId, s: Symbol, newQty: real): (r: Table)
    ensures r.Keys == t.Keys
    ensures (p, s) in t ==> r[(p, s)] == Position(newQty, t[(p, s)].avgCost)
    ensures forall k :: k in t && k != (p, s) ==> r[k] == t[k]
  {
    if (p, s) in t then t[(p, s) := t[(p, s)].(quantity := newQty)] else t
  }

  /** DeleteTx: removes that one row and leaves the others as they were. */
  function Delete(t: Table, p: PortfolioId, s: Symbol): (r: Table)
    ensures r.Keys == t.Keys - {(p, s)}
    ensures forall k :: k in r ==> r[k] == t[k]
  {
    t - {(p, s)}
  }

  /** A factor times a positive number keeps its sign. */
  lemma SignOfScaled(x: real, n: real)
    requires n > 0.0
    ensures x * n >= 0.0 ==> x >= 0.0
    ensures x * n <= 0.0 ==> x <= 0.0
  {
    if x < 0.0 {
      assert x * n < 0.0;
    }
    if x > 0.0 {
      assert x * n > 0.0;
    }
  }

  /** The weighted average of two positive lots lies between the two prices. */
  lemma AvgCostBetween(held: Position, qty: real, price: real)
    requires held.quantity > 0.0 && qty > 0.0
    ensures var r := Upserted(Some(held), qty, price);
      (held.avgCost <= price ==> held.avgCost <= r.avgCost <= price) &&
      (price <= held.avgCost ==> price <= r.avgCost <= held.avgCost)
  {
    var r := Upserted(Some(held), qty, price);
    var n := held.quantity + qty;
    var above := r.avgCost - held.avgCost;
    var below := r.avgCost - price;
    assert r.avgCost * n == held.quantity * held.avgCost + qty * price;
    assert above * n == qty * (price - held.avgCost);
    assert below * n == held.quantity * (held.avgCost - price);
    if held.avgCost <= price {
      assert qty * (price - held.avgCost) >= 0.0;
      assert held.quantity * (held.avgCost - price) <= 0.0;
    }
    if price <= held.avgCost {
      assert qty * (price - held.avgCost) <= 0.0;
      assert held.quantity * (held.avgCost - price) >= 0.0;
    }
    SignOfScaled(above, n);
    SignOfScaled(below, n);
  }
}

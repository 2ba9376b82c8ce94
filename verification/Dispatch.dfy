/** The idempotent outbound stock ledger (MockReverseExecutor in backend/app/after_sales/reverse_execution.py). */
module Dispatch {
  import opened Wrappers
  import opened MapSums
  import opened Payloads

  /** A dispatch reference, named by what it is the digest of. */
  datatype Shipment = Shipment(order: OrderId, sku: Sku, kind: string, key: Key)

  const RESEND := "resend"

  datatype Warehouse = Warehouse(
    inventory: Option<map<Sku, nat>>, // None: stock is not tracked
    outbound: map<Key, Shipment>)

  function Stock(inventory: map<Sku, nat>, sku: Sku): nat { if sku in inventory then inventory[sku] else 0 }

  function DispatchOnce(w: Warehouse, o: OrderId, sku: Sku, kind: string, key: Key): Option<(Warehouse, Shipment)> {
    if key in w.outbound then Some((w, w.outbound[key]))
    else
      var shipment := Shipment(o, sku, kind, key);
      if kind == RESEND && w.inventory.Some? then
        if Stock(w.inventory.value, sku) < 1 then None
        else Some((Warehouse(Some(w.inventory.value[sku := Stock(w.inventory.value, sku) - 1]),
                             w.outbound[key := shipment]), shipment))
      else Some((w.(outbound := w.outbound[key := shipment]), shipment))
  }

  class MockReverseExecutor {
    var inventory: Option<map<Sku, nat>>
    var outbound: map<Key, Shipment>

    ghost function State(): Warehouse reads this { Warehouse(inventory, outbound) }

    constructor (initial: Option<map<Sku, nat>>)
      ensures State() == Warehouse(initial, map[])
    {
      inventory, outbound := initial, map[];
    }

    method Dispatch(o: OrderId, sku: Sku, kind: string, key: Key) returns (shipment: Option<Shipment>)
      modifies this
      ensures shipment.Some? <==> DispatchOnce(old(State()), o, sku, kind, key).Some?
      ensures shipment.Some? ==> Some((State(), shipment.value)) == DispatchOnce(old(State()), o, sku, kind, key)
      ensures shipment.None? ==> State() == old(State())
    {
      if key in outbound { return Some(outbound[key]); }
      if kind == RESEND && inventory.Some? {
        var stock := if sku in inventory.value then inventory.value[sku] else 0;
        if stock < 1 { return None; }
        inventory := Some(inventory.value[sku := stock - 1]);
      }
      outbound := outbound[key := Shipment(o, sku, kind, key)];
      shipment := Some(outbound[key]);
    }
  }

  datatype Order = Order(order: OrderId, sku: Sku, kind: string, key: Key)

  function After(w: Warehouse, r: Order): Warehouse {
    match DispatchOnce(w, r.order, r.sku, r.kind, r.key) case Some(p) => p.0 case None => w
  }

  function AfterAll(w: Warehouse, rs: seq<Order>): Warehouse
    decreases |rs|
  {
    if rs == [] then w else AfterAll(After(w, rs[0]), rs[1..])
  }

  ghost function ResentSku(sku: Sku): Shipment -> nat {
    (s: Shipment) => if s.kind == RESEND && s.sku == sku then 1 else 0
  }

  /** Units of one SKU, whether on the shelf or sent out once per key. */
  ghost function Units(w: Warehouse, sku: Sku): nat {
    (if w.inventory.Some? then Stock(w.inventory.value, sku) else 0) + Sum(w.outbound, ResentSku(sku))
  }

  /** Stock plus distinct resends is constant, and a reference never changes. */
  lemma {:induction false} StockConserved(w: Warehouse, rs: seq<Order>, sku: Sku)
    requires w.inventory.Some?
    ensures AfterAll(w, rs).inventory.Some? && Units(AfterAll(w, rs), sku) == Units(w, sku)
    ensures forall k :: k in w.outbound ==>
            k in AfterAll(w, rs).outbound && AfterAll(w, rs).outbound[k] == w.outbound[k]
    decreases |rs|
  {
    if rs != [] {
      var r := rs[0];
      if r.key !in w.outbound {
        SumInsert(w.outbound, ResentSku(sku), r.key, Shipment(r.order, r.sku, r.kind, r.key));
      }
      StockConserved(After(w, r), rs[1..], sku);
    }
  }

  /** A resend under a new key needs one unit of tracked stock and takes exactly that one; other kinds, and
      untracked stock, take none; a known key always answers with its first shipment. */
  lemma DispatchMoves(w: Warehouse, o: OrderId, sku: Sku, kind: string, key: Key, other: Sku)
    ensures DispatchOnce(w, o, sku, kind, key).Some? <==>
              key in w.outbound || kind != "resend" || w.inventory.None? || Stock(w.inventory.value, sku) >= 1
    ensures key in w.outbound ==> DispatchOnce(w, o, sku, kind, key) == Some((w, w.outbound[key]))
    ensures key !in w.outbound && DispatchOnce(w, o, sku, kind, key).Some? ==>
              var (u, shipment) := DispatchOnce(w, o, sku, kind, key).value;
              && shipment == Shipment(o, sku, kind, key) && u.outbound == w.outbound[key := shipment]
              && (u.inventory.None? <==> w.inventory.None?)
              && (w.inventory.Some? ==>
                    Stock(u.inventory.value, other)
                    == Stock(w.inventory.value, other) - (if kind == "resend" && other == sku then 1 else 0))
  {
  }
}

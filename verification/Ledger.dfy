/** The authorize-then-capture refund ledger (MockRefundExecutor in backend/app/after_sales/actions.py). */
module Ledger {
  import opened Wrappers
  import opened MapSums
  import opened Payloads

  /** A transaction id, named by the order, amount and key it is the digest of. */
  datatype Receipt = Receipt(order: OrderId, amount: nat, key: Key)

  datatype Books = Books(
    available: map<OrderId, nat>,
    reserved: map<OrderId, nat>,
    transactions: map<Key, Receipt>)

  function Of(m: map<OrderId, nat>, o: OrderId): nat { if o in m then m[o] else 0 }

  function Reserve(b: Books, o: OrderId, amount: nat): Option<Books> {
    if Of(b.available, o) < amount then None
    else Some(Books(b.available[o := Of(b.available, o) - amount],
                    b.reserved[o := Of(b.reserved, o) + amount], b.transactions))
  }

  function Released(b: Books, o: OrderId, amount: nat): nat {
    if Of(b.reserved, o) <= amount then Of(b.reserved, o) else amount
  }

  function Release(b: Books, o: OrderId, amount: nat): Books {
    var n := Released(b, o, amount);
    Books(b.available[o := Of(b.available, o) + n], b.reserved[o := Of(b.reserved, o) - n], b.transactions)
  }

  /** Capture once per key: a known key replays its receipt and moves nothing. */
  function Refund(b: Books, o: OrderId, amount: nat, key: Key): Option<(Books, Receipt)> {
    if key in b.transactions then Some((b, b.transactions[key]))
    else if Of(b.reserved, o) < amount then None
    else
      var receipt := Receipt(o, amount, key);
      Some((Books(b.available, b.reserved[o := Of(b.reserved, o) - amount], b.transactions[key := receipt]), receipt))
  }

  /** The executor itself: three dictionaries updated in place. */
  class MockRefundExecutor {
    var available: map<OrderId, nat>
    var reserved: map<OrderId, nat>
    var transactions: map<Key, Receipt>

    ghost function State(): Books reads this { Books(available, reserved, transactions) }

    constructor (initial: map<OrderId, nat>)
      ensures State() == Books(initial, map[], map[])
    {
      available, reserved, transactions := initial, map[], map[];
    }

    function BalanceOf(o: OrderId): nat reads this { if o in available then available[o] else 0 }

    function ReservedOf(o: OrderId): nat reads this { if o in reserved then reserved[o] else 0 }

    method TryReserve(o: OrderId, amount: nat) returns (ok: bool)
      modifies this
      ensures ok <==> amount <= Of(old(available), o)
      ensures ok ==> Some(State()) == Reserve(old(State()), o, amount)
      ensures !ok ==> State() == old(State())
    {
      var balance := BalanceOf(o);
      if balance < amount { return false; }
      available := available[o := balance - amount];
      reserved := reserved[o := ReservedOf(o) + amount];
      ok := true;
    }

    method GiveBack(o: OrderId, amount: nat)
      modifies this
      ensures State() == Release(old(State()), o, amount)
    {
      var held := ReservedOf(o);
      var released := if held <= amount then held else amount;
      reserved := reserved[o := held - released];
      available := available[o := BalanceOf(o) + released];
    }

    method Capture(o: OrderId, amount: nat, key: Key) returns (receipt: Option<Receipt>)
      modifies this
      ensures receipt.Some? <==> Refund(old(State()), o, amount, key).Some?
      ensures receipt.Some? ==> Some((State(), receipt.value)) == Refund(old(State()), o, amount, key)
      ensures receipt.None? ==> State() == old(State())
    {
      if key !in transactions {
        var held := ReservedOf(o);
        if held < amount { return None; }
        transactions := transactions[key := Receipt(o, amount, key)];
        reserved := reserved[o := held - amount];
      }
      receipt := Some(transactions[key]);
    }
  }

  // ---- conservation and single capture over any sequence of calls ----

  datatype Call =
    | CallReserve(order: OrderId, amount: nat)
    | CallRelease(order: OrderId, amount: nat)
    | CallRefund(order: OrderId, amount: nat, key: Key)

  function After(b: Books, c: Call): Books {
    match c
    case CallReserve(o, n) => (match Reserve(b, o, n) case Some(r) => r case None => b)
    case CallRelease(o, n) => Release(b, o, n)
    case CallRefund(o, n, k) => (match Refund(b, o, n, k) case Some(r) => r.0 case None => b)
  }

  function AfterAll(b: Books, cs: seq<Call>): Books
    decreases |cs|
  {
    if cs == [] then b else AfterAll(After(b, cs[0]), cs[1..])
  }

  ghost function CapturedOn(o: OrderId): Receipt -> nat {
    (r: Receipt) => if r.order == o then r.amount else 0
  }

  ghost function Captured(b: Books, o: OrderId): nat { Sum(b.transactions, CapturedOn(o)) }

  /** Everything the order ever held: free, frozen or paid out. */
  ghost function Worth(b: Books, o: OrderId): nat {
    Of(b.available, o) + Of(b.reserved, o) + Captured(b, o)
  }

  lemma ReserveConserves(b: Books, p: OrderId, amount: nat, o: OrderId)
    requires Reserve(b, p, amount).Some?
    ensures Worth(Reserve(b, p, amount).value, o) == Worth(b, o)
  {
  }

  lemma ReleaseConserves(b: Books, p: OrderId, amount: nat, o: OrderId)
    ensures Worth(Release(b, p, amount), o) == Worth(b, o)
  {
  }

  lemma RefundConserves(b: Books, p: OrderId, amount: nat, key: Key, o: OrderId)
    requires Refund(b, p, amount, key).Some?
    ensures Worth(Refund(b, p, amount, key).value.0, o) == Worth(b, o)
    ensures Captured(b, o) <= Captured(Refund(b, p, amount, key).value.0, o)
  {
    if key !in b.transactions { SumInsert(b.transactions, CapturedOn(o), key, Receipt(p, amount, key)); }
  }

  lemma CallConserves(b: Books, c: Call, o: OrderId)
    ensures Worth(After(b, c), o) == Worth(b, o)
    ensures Captured(b, o) <= Captured(After(b, c), o)
  {
    match c
    case CallReserve(p, amount) => if Reserve(b, p, amount).Some? { ReserveConserves(b, p, amount, o); }
    case CallRelease(p, amount) => ReleaseConserves(b, p, amount, o);
    case CallRefund(p, amount, key) => if Refund(b, p, amount, key).Some? { RefundConserves(b, p, amount, key, o); }
  }

  /** Conservation over whole histories: no call creates or loses money on any order. */
  lemma {:induction false} Conservation(b: Books, cs: seq<Call>, o: OrderId)
    ensures Worth(AfterAll(b, cs), o) == Worth(b, o)
    ensures Captured(b, o) <= Captured(AfterAll(b, cs), o)
    decreases |cs|
  {
    if cs != [] {
      CallConserves(b, cs[0], o);
      Conservation(After(b, cs[0]), cs[1..], o);
    }
  }

  /** A receipt, once issued, is issued forever and unchanged. */
  lemma {:induction false} ReceiptsAreFinal(b: Books, cs: seq<Call>, key: Key)
    requires key in b.transactions
    ensures key in AfterAll(b, cs).transactions
    ensures AfterAll(b, cs).transactions[key] == b.transactions[key]
    decreases |cs|
  {
    if cs != [] {
      ReceiptsAreFinal(After(b, cs[0]), cs[1..], key);
    }
  }

  /** Single capture: whatever happens in between and whatever is asked, a second refund
      under a captured key pays nothing and hands back the first transaction id. */
  lemma SingleCapture(b: Books, first: Call, between: seq<Call>, o: OrderId, amount: nat)
    requires first.CallRefund? && Refund(b, first.order, first.amount, first.key).Some?
    ensures var later := AfterAll(After(b, first), between);
            Refund(later, o, amount, first.key)
            == Some((later, Refund(b, first.order, first.amount, first.key).value.1))
  {
    ReceiptsAreFinal(After(b, first), between, first.key);
  }

  /** Releasing right after reserving puts every balance back, and the pair is only refused for want of funds. */
  lemma ReserveThenRelease(b: Books, o: OrderId, amount: nat, p: OrderId)
    ensures Reserve(b, o, amount).Some? <==> amount <= Of(b.available, o)
    ensures Reserve(b, o, amount).Some? ==>
              var r := Release(Reserve(b, o, amount).value, o, amount);
              && Of(r.available, p) == Of(b.available, p)
              && Of(r.reserved, p) == Of(b.reserved, p)
              && r.transactions == b.transactions
  {
  }

  // ---- what each movement does to every order ----

  /** A reservation moves exactly its amount, on its own order, and is refused only for want of it. */
  lemma ReserveMoves(b: Books, o: OrderId, amount: nat, p: OrderId)
    ensures Reserve(b, o, amount).Some? <==> amount <= Of(b.available, o)
    ensures Reserve(b, o, amount).Some? ==>
              var r := Reserve(b, o, amount).value;
              var moved := if p == o then amount else 0;
              && Of(r.available, p) == Of(b.available, p) - moved && Of(r.reserved, p) == Of(b.reserved, p) + moved
              && r.transactions == b.transactions
  {
  }

  /** A release moves its amount back, or all that is reserved if that is less, on its own order. */
  lemma ReleaseMoves(b: Books, o: OrderId, amount: nat, p: OrderId)
    ensures var r := Release(b, o, amount);
            var moved := if p != o then 0 else if Of(b.reserved, o) < amount then Of(b.reserved, o) else amount;
            && Of(r.available, p) == Of(b.available, p) + moved && Of(r.reserved, p) == Of(b.reserved, p) - moved
            && r.transactions == b.transactions
  {
  }

  /** A refund under a new key takes its amount from its order's reservation, and is refused only for want of
      it; under a known key it always answers and moves nothing. */
  lemma RefundMoves(b: Books, o: OrderId, amount: nat, key: Key, p: OrderId)
    ensures Refund(b, o, amount, key).Some? <==> key in b.transactions || amount <= Of(b.reserved, o)
    ensures key in b.transactions ==> Refund(b, o, amount, key) == Some((b, b.transactions[key]))
    ensures key !in b.transactions && amount <= Of(b.reserved, o) ==>
              var (r, receipt) := Refund(b, o, amount, key).value;
              && receipt == Receipt(o, amount, key) && r.transactions == b.transactions[key := receipt]
              && Of(r.available, p) == Of(b.available, p)
              && Of(r.reserved, p) == Of(b.reserved, p) - (if p == o then amount else 0)
  {
  }
}

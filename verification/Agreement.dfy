/** The ledger and the records agree: reserved money is exactly what live records and requests
    in flight hold, step by step. */
module Agreement {
  import opened Wrappers
  import opened MapSums
  import opened Payloads
  import opened Actions
  import L = Ledger
  import opened Desk
  import opened Protocol

  /** Money a record holds frozen on an order. */
  ghost function Held(o: OrderId): Action -> nat {
    (a: Action) => if a.reserved && a.payload.order == o then Amount(a) else 0
  }

  /** Money a request in flight froze for itself and has neither saved nor given back. */
  ghost function Pledged(o: OrderId): Call -> nat {
    (c: Call) =>
      match c
      case ApproveCall(_, _, after, order, _, _) => if after.reserved && order == o then Amount(after) else 0
      case CreateCall(_, draft, order, _, _) => if draft.reserved && order == o then Amount(draft) else 0
  }

  ghost predicate AgreedOn(s: System, o: OrderId) {
    L.Of(s.desk.books.reserved, o) == Sum(s.desk.actions, Held(o)) + Sum(s.calls, Pledged(o))
  }

  ghost predicate Agreed(s: System) { forall o :: AgreedOn(s, o) }

  function AtRest(d: Desk, now: int): System { System(d, map[], now, {}, {}) }

  /** The invariant of a desk between whole requests: frozen money is the sum of the reserved records. */
  ghost predicate Balanced(d: Desk, now: int) { Sound(AtRest(d, now)) && Agreed(AtRest(d, now)) }

  /** What one step leaves behind: a sound, agreed desk whose records only evolved. */
  ghost predicate Kept(s: System, t: System) {
    && Sound(t) && Agreed(t)
    && s.clock <= t.clock
    && (forall id :: id in s.desk.actions ==> id in t.desk.actions && Evolves(s.desk.actions[id], t.desk.actions[id]))
  }

  // ---- one ledger movement matched by one write ----

  /** A record that starts to hold money, paid for by the same reservation. */
  lemma HoldMore(s: System, t: System, id: ActionId, o: OrderId)
    requires Agreed(s) && id in s.desk.actions && id in t.desk.actions && t.calls == s.calls
    requires t.desk.actions == s.desk.actions[id := t.desk.actions[id]]
    requires var a, b := s.desk.actions[id], t.desk.actions[id];
             && b.payload == a.payload && !a.reserved
             && (if b.reserved then Some(t.desk.books) == L.Reserve(s.desk.books, b.payload.order, Amount(b))
                 else t.desk.books == s.desk.books)
    ensures AgreedOn(t, o)
  {
    assert AgreedOn(s, o);
    SumUpdate(s.desk.actions, Held(o), id, t.desk.actions[id]);
  }

  /** A new record, its money reserved if it holds any. */
  lemma HoldNew(s: System, t: System, id: ActionId, o: OrderId)
    requires Agreed(s) && id !in s.desk.actions && id in t.desk.actions && t.calls == s.calls
    requires var b := t.desk.actions[id];
             && t.desk.actions == s.desk.actions[id := b]
             && (if b.reserved then Some(t.desk.books) == L.Reserve(s.desk.books, b.payload.order, Amount(b))
                 else t.desk.books == s.desk.books)
    ensures AgreedOn(t, o)
  {
    assert AgreedOn(s, o);
    SumInsert(s.desk.actions, Held(o), id, t.desk.actions[id]);
  }

  lemma HoldSame(s: System, t: System, id: ActionId, o: OrderId)
    requires Agreed(s) && id in s.desk.actions && id in t.desk.actions && t.calls == s.calls
             && t.desk.books == s.desk.books
    requires t.desk.actions == s.desk.actions[id := t.desk.actions[id]]
    requires t.desk.actions[id].payload == s.desk.actions[id].payload
             && t.desk.actions[id].reserved == s.desk.actions[id].reserved
    ensures AgreedOn(t, o)
  {
    assert AgreedOn(s, o);
    SumUpdate(s.desk.actions, Held(o), id, t.desk.actions[id]);
  }

  /** A record that stops holding money, its reservation given back. */
  lemma HoldLess(s: System, t: System, id: ActionId, o: OrderId)
    requires Agreed(s) && id in s.desk.actions && id in t.desk.actions && t.calls == s.calls
    requires t.desk.actions == s.desk.actions[id := t.desk.actions[id]]
    requires var a, b := s.desk.actions[id], t.desk.actions[id];
             && b.payload == a.payload && !b.reserved
             && t.desk.books == (if a.reserved then L.Release(s.desk.books, a.payload.order, Amount(a))
                                 else s.desk.books)
    ensures AgreedOn(t, o)
  {
    assert AgreedOn(s, o);
    SumCovers(s.desk.actions, Held(o), id);
    SumUpdate(s.desk.actions, Held(o), id, t.desk.actions[id]);
  }

  /** While they agree, a release never clamps: the ledger holds at least what any record holds. */
  lemma ReleaseIsExact(s: System, id: ActionId)
    requires Agreed(s) && id in s.desk.actions && s.desk.actions[id].reserved
    ensures Amount(s.desk.actions[id]) <= L.Of(s.desk.books.reserved, s.desk.actions[id].payload.order)
  {
    var o := s.desk.actions[id].payload.order;
    assert AgreedOn(s, o);
    SumCovers(s.desk.actions, Held(o), id);
  }

  /** A request begins: what it reserved is what it pledges. */
  lemma BeginAgrees(s: System, t: System, call: CallId, o: OrderId)
    requires Agreed(s) && call !in s.calls && call in t.calls
    requires t.calls == s.calls[call := t.calls[call]] && t.desk.actions == s.desk.actions
    requires var c := t.calls[call];
             var pledged := if c.ApproveCall? then c.after else c.draft;
             if pledged.reserved then Some(t.desk.books) == L.Reserve(s.desk.books, c.order, Amount(pledged))
             else t.desk.books == s.desk.books
    ensures AgreedOn(t, o)
  {
    assert AgreedOn(s, o);
    SumInsert(s.calls, Pledged(o), call, t.calls[call]);
  }

  /** A request that lost its race gives back exactly what it had pledged. */
  lemma LoseAgrees(s: System, t: System, call: CallId, o: OrderId)
    requires Agreed(s) && call in s.calls && t.calls == s.calls - {call} && t.desk.actions == s.desk.actions
    requires var c := s.calls[call];
             var pledged := if c.ApproveCall? then c.after else c.draft;
             t.desk.books == (if pledged.reserved then L.Release(s.desk.books, c.order, Amount(pledged))
                              else s.desk.books)
    ensures AgreedOn(t, o)
  {
    assert AgreedOn(s, o);
    SumRemove(s.calls, Pledged(o), call);
  }

  /** A saved request turns its pledge into the record's holding. */
  lemma SaveAgrees(s: System, t: System, call: CallId, id: ActionId, o: OrderId)
    requires Agreed(s) && call in s.calls && t.calls == s.calls - {call} && t.desk.books == s.desk.books
    requires id in t.desk.actions && t.desk.actions == s.desk.actions[id := t.desk.actions[id]]
    requires id in s.desk.actions ==> !s.desk.actions[id].reserved
    requires var c := s.calls[call];
             && t.desk.actions[id] == (if c.ApproveCall? then c.after else c.draft)
             && t.desk.actions[id].payload.order == c.order
    ensures AgreedOn(t, o)
  {
    assert AgreedOn(s, o);
    SumRemove(s.calls, Pledged(o), call);
    if id in s.desk.actions {
      SumUpdate(s.desk.actions, Held(o), id, t.desk.actions[id]);
    } else {
      SumInsert(s.desk.actions, Held(o), id, t.desk.actions[id]);
    }
  }

  // ---- approval ----

  lemma BeginApproveFacts(s: System, id: ActionId, actor: Actor, role: Role, expected: nat)
    requires Sound(s) && BeginApprove(s.desk, id, actor, role, expected, s.clock).Ok?
    ensures var c := BeginApprove(s.desk, id, actor, role, expected, s.clock).value.call;
            && c.ApproveCall? && c.id == id && id in s.desk.actions && c.before == s.desk.actions[id]
            && (!(MovesMoney(c.before) && c.before.reserved) ==> ApproveCallOk(s, c))
            && Evolves(c.before, c.after)
            && c.after.payload == c.before.payload && Active(c.after)
            && (MovesMoney(c.before) ==> c.after.reserved) && (!MovesMoney(c.before) ==> !c.after.reserved)
            && c.order == c.before.payload.order && c.expected == c.before.version
  {
    assert RowOk(s, id);
  }

  /** What finishing an approval writes. */
  lemma FinishApproveShape(d: Desk, c: Call)
    requires c.ApproveCall?
    ensures var e := FinishApprove(d, c).desk;
            && SameOrders(d.cases, e.cases) && e.books.transactions == d.books.transactions
            && e.warehouse == d.warehouse
            && (if SaveAccepted(d, c.id, c.expected) then e.actions == d.actions[c.id := c.after] && e.books == d.books
                else && e.actions == d.actions && e.cases == d.cases
                     && e.books == if MovesMoney(c.before) && c.after.reserved
                                   then L.Release(d.books, c.order, Amount(c.after)) else d.books)
  {
  }

  lemma ApproveNowShape(s: System, id: ActionId, actor: Actor, role: Role, expected: nat)
    requires Sound(s) && BeginApprove(s.desk, id, actor, role, expected, s.clock).Ok?
    ensures var d, e := s.desk, Approve(s.desk, id, actor, role, expected, s.clock).desk;
            && id in d.actions && id in e.actions && SameOrders(d.cases, e.cases)
            && e.actions == d.actions[id := e.actions[id]] && Evolves(d.actions[id], e.actions[id])
            && Active(e.actions[id])
            && e.books.transactions == d.books.transactions
            && (MovesMoney(d.actions[id]) <==> e.actions[id].reserved)
            && (if MovesMoney(d.actions[id]) && !d.actions[id].reserved
                then Some(e.books) == L.Reserve(d.books, d.actions[id].payload.order, Amount(d.actions[id]))
                else e.books == d.books)
  {
    BeginApproveFacts(s, id, actor, role, expected);
    var started := BeginApprove(s.desk, id, actor, role, expected, s.clock).value;
    FinishApproveShape(s.desk.(books := started.books), started.call);
  }

  lemma ApproveNowKeeps(s: System, id: ActionId, actor: Actor, role: Role, expected: nat, t: System)
    requires Sound(s) && Agreed(s)
    requires t == s.(desk := Approve(s.desk, id, actor, role, expected, s.clock).desk, requests := t.requests)
    ensures Kept(s, t)
  {
    if BeginApprove(s.desk, id, actor, role, expected, s.clock).Ok? {
      ApproveNowShape(s, id, actor, role, expected);
      SignedKeeps(s, t, id);
    } else {
      IdleKeeps(s, t);
      assert forall o :: AgreedOn(s, o) ==> AgreedOn(t, o);
    }
  }

  lemma SignedKeeps(s: System, t: System, id: ActionId)
    requires Sound(s) && Agreed(s) && t.calls == s.calls && t.clock == s.clock
    requires var d, e := s.desk, t.desk;
             && id in d.actions && id in e.actions && SameOrders(d.cases, e.cases)
             && e.actions == d.actions[id := e.actions[id]] && Evolves(d.actions[id], e.actions[id])
             && Active(e.actions[id])
             && e.books.transactions == d.books.transactions
             && (MovesMoney(d.actions[id]) <==> e.actions[id].reserved)
             && (if MovesMoney(d.actions[id]) && !d.actions[id].reserved
                 then Some(e.books) == L.Reserve(d.books, d.actions[id].payload.order, Amount(d.actions[id]))
                 else e.books == d.books)
    ensures Kept(s, t)
  {
    assert RowOk(s, id);
    PutKeeps(s, t, id);
    forall o ensures AgreedOn(t, o) {
      if s.desk.actions[id].reserved { HoldSame(s, t, id, o); } else { HoldMore(s, t, id, o); }
    }
  }

  lemma ApproveSplitKeeps(s: System, call: CallId, id: ActionId, actor: Actor, role: Role, expected: nat, t: System)
    requires Sound(s) && Agreed(s) && call !in s.calls
    requires id in s.desk.actions ==> !(MovesMoney(s.desk.actions[id]) && s.desk.actions[id].reserved)
    requires BeginApprove(s.desk, id, actor, role, expected, s.clock).Ok?
    requires var started := BeginApprove(s.desk, id, actor, role, expected, s.clock).value;
             t == s.(desk := s.desk.(books := started.books), calls := s.calls[call := started.call],
                 requests := t.requests)
    ensures Kept(s, t)
  {
    BeginApproveFacts(s, id, actor, role, expected);
    var c := t.calls[call];
    IdleKeeps(s, t.(calls := s.calls));
    assert ApproveCallOk(t, c);
    assert CallsOk(t) by {
      forall k | k in t.calls && k != call
        ensures CallOk(t, t.calls[k])
      {
        assert k in s.calls && t.calls[k] == s.calls[k];
        assert CallOk(s, s.calls[k]);
      }
    }
    RowsCarry(s, t);
    forall o ensures AgreedOn(t, o) { BeginAgrees(s, t, call, o); }
  }

  /** Only the calls changed, so the rest of the invariant carries over. */
  lemma RowsCarry(s: System, t: System)
    requires Sound(s) && t.desk.actions == s.desk.actions && t.desk.cases == s.desk.cases && s.clock <= t.clock
    requires t.desk.books.transactions == s.desk.books.transactions
    ensures RowsOk(t) && KeysOk(t.desk) && ReceiptsOk(t.desk)
  {
    IdleKeeps(s, t.(calls := map[]));
    forall i | i in t.desk.actions ensures RowOk(t, i) { assert RowOk(t.(calls := map[]), i); }
  }

  lemma SavedApprovalKeeps(s: System, call: CallId, t: System)
    requires Sound(s) && Agreed(s) && call in s.calls && s.calls[call].ApproveCall? && t.calls == s.calls - {call}
             && t.clock == s.clock
    requires var c := s.calls[call];
             && SaveAccepted(s.desk, c.id, c.expected) && t.desk.actions == s.desk.actions[c.id := c.after]
             && t.desk.books == s.desk.books && SameOrders(s.desk.cases, t.desk.cases)
    ensures Kept(s, t)
  {
    var c := s.calls[call];
    SavedRow(s, c, t);
    PutKeeps(s, t, c.id);
    forall o ensures AgreedOn(t, o) { SaveAgrees(s, t, call, c.id, o); }
  }

  /** The row a split approval saves over is the one it read, and the one it leaves is in order. */
  lemma SavedRow(s: System, c: Call, t: System)
    requires Sound(s) && c.ApproveCall? && CallOk(s, c) && SaveAccepted(s.desk, c.id, c.expected)
    requires t.desk.actions == s.desk.actions[c.id := c.after] && SameOrders(s.desk.cases, t.desk.cases)
    ensures s.desk.actions[c.id] == c.before && !c.before.reserved && c.before.status == PendingApproval
    ensures Evolves(c.before, c.after) && c.after.payload.order == c.order && RowOk(t, c.id)
  {
    assert RowOk(s, c.id);
  }

  lemma FinishApproveKeeps(s: System, call: CallId, t: System)
    requires Sound(s) && Agreed(s) && call in s.calls && s.calls[call].ApproveCall?
    requires t == s.(desk := FinishApprove(s.desk, s.calls[call]).desk, calls := s.calls - {call})
    ensures Kept(s, t)
  {
    var c := s.calls[call];
    FinishApproveShape(s.desk, c);
    if SaveAccepted(s.desk, c.id, c.expected) {
      SavedApprovalKeeps(s, call, t);
    } else {
      assert CallOk(s, c);
      IdleKeeps(s, t);
      forall o ensures AgreedOn(t, o) { LoseAgrees(s, t, call, o); }
    }
  }

  // ---- creation ----

  lemma BeginCreateFacts(s: System, id: ActionId, caseId: CaseId, actor: Actor)
    requires Sound(s) && BeginCreate(s.desk, id, caseId, actor, s.clock).Ok?
    ensures var c := BeginCreate(s.desk, id, caseId, actor, s.clock).value.call;
            c.CreateCall? && c.id == id && CreateCallOk(s, c) && c.draft.caseId == caseId
  {
  }

  /** What finishing a creation writes. */
  lemma FinishCreateShape(d: Desk, c: Call)
    requires c.CreateCall?
    ensures var e := FinishCreate(d, c).desk;
            && SameOrders(d.cases, e.cases) && e.books.transactions == d.books.transactions
            && e.warehouse == d.warehouse
            && (if InsertAccepted(d, c.id, c.draft, c.owner)
                then e.actions == d.actions[c.id := c.draft] && e.books == d.books
                else && e.actions == d.actions && e.cases == d.cases
                     && e.books == if MovesMoney(c.draft) && c.draft.reserved
                                   then L.Release(d.books, c.order, Amount(c.draft)) else d.books)
  {
  }

  /** What beginning a creation froze. */
  lemma BegunCreateBooks(d: Desk, id: ActionId, caseId: CaseId, actor: Actor, now: int)
    requires BeginCreate(d, id, caseId, actor, now).Ok?
    ensures var started := BeginCreate(d, id, caseId, actor, now).value;
            var c := started.call;
            && c.CreateCall? && started.books.transactions == d.books.transactions
            && (if c.draft.reserved then Some(started.books) == L.Reserve(d.books, c.order, Amount(c.draft))
                else started.books == d.books)
  {
  }

  lemma CreateNowKeeps(s: System, id: ActionId, caseId: CaseId, actor: Actor, t: System)
    requires Sound(s) && Agreed(s)
    requires t == s.(desk := Create(s.desk, id, caseId, actor, s.clock).desk)
    ensures Kept(s, t)
  {
    if BeginCreate(s.desk, id, caseId, actor, s.clock).Ok? {
      BeginCreateFacts(s, id, caseId, actor);
      BegunCreateBooks(s.desk, id, caseId, actor, s.clock);
      var started := BeginCreate(s.desk, id, caseId, actor, s.clock).value;
      FinishCreateShape(s.desk.(books := started.books), started.call);
      CreatedKeeps(s, started, t);
    } else {
      IdleKeeps(s, t);
      assert forall o :: AgreedOn(s, o) ==> AgreedOn(t, o);
    }
  }

  /** Reserving and inserting at once, or reserving and giving back. */
  lemma CreatedKeeps(s: System, started: Started, t: System)
    requires Sound(s) && Agreed(s) && started.call.CreateCall? && CreateCallOk(s, started.call) && t.calls == s.calls
             && t.clock == s.clock
    requires started.books.transactions == s.desk.books.transactions
             && t.desk.books.transactions == s.desk.books.transactions
    requires SameOrders(s.desk.cases, t.desk.cases)
    requires var c := started.call;
             && (if c.draft.reserved then Some(started.books) == L.Reserve(s.desk.books, c.order, Amount(c.draft))
                 else started.books == s.desk.books)
             && (if InsertAccepted(s.desk, c.id, c.draft, c.owner)
                 then t.desk.actions == s.desk.actions[c.id := c.draft] && t.desk.books == started.books
                 else && t.desk.actions == s.desk.actions
                      && t.desk.books == if c.draft.reserved then L.Release(started.books, c.order, Amount(c.draft))
                                         else started.books)
    ensures Kept(s, t)
  {
    var c := started.call;
    if InsertAccepted(s.desk, c.id, c.draft, c.owner) {
      InsertKeeps(s, t, c.id, c.owner);
      forall o ensures AgreedOn(t, o) { HoldNew(s, t, c.id, o); }
    } else {
      IdleKeeps(s, t);
      forall o ensures AgreedOn(t, o) {
        assert AgreedOn(s, o);
        if c.draft.reserved { L.ReserveThenRelease(s.desk.books, c.order, Amount(c.draft), o); }
      }
    }
  }

  lemma CreateSplitKeeps(s: System, call: CallId, id: ActionId, caseId: CaseId, actor: Actor, t: System)
    requires Sound(s) && Agreed(s) && call !in s.calls && BeginCreate(s.desk, id, caseId, actor, s.clock).Ok?
    requires var started := BeginCreate(s.desk, id, caseId, actor, s.clock).value;
             t == s.(desk := s.desk.(books := started.books), calls := s.calls[call := started.call])
    ensures Kept(s, t)
  {
    BeginCreateFacts(s, id, caseId, actor);
    RowsCarry(s, t);
    assert CallsOk(t) by {
      forall k | k in t.calls
        ensures CallOk(t, t.calls[k])
      {
        if k != call {
          assert CallOk(s, s.calls[k]);
        }
      }
    }
    forall o ensures AgreedOn(t, o) { BeginAgrees(s, t, call, o); }
  }

  lemma FinishCreateKeeps(s: System, call: CallId, t: System)
    requires Sound(s) && Agreed(s) && call in s.calls && s.calls[call].CreateCall?
    requires t == s.(desk := FinishCreate(s.desk, s.calls[call]).desk, calls := s.calls - {call})
    ensures Kept(s, t)
  {
    var c := s.calls[call];
    assert CreateCallOk(s, c);
    if InsertAccepted(s.desk, c.id, c.draft, c.owner) {
      assert t.desk.actions == s.desk.actions[c.id := c.draft];
      InsertKeeps(s, t, c.id, c.owner);
      forall o ensures AgreedOn(t, o) { SaveAgrees(s, t, call, c.id, o); }
    } else {
      IdleKeeps(s, t);
      forall o ensures AgreedOn(t, o) { LoseAgrees(s, t, call, o); }
    }
  }

  // ---- rejection and execution ----

  lemma RejectShape(s: System, id: ActionId, actor: Actor, role: Role, expected: nat, comment: bool)
    requires Sound(s) && Reject(s.desk, id, actor, role, expected, comment, s.clock).outcome.Ok?
    ensures var d, e := s.desk, Reject(s.desk, id, actor, role, expected, comment, s.clock).desk;
            && id in d.actions && id in e.actions && e.actions == d.actions[id := e.actions[id]]
            && SameOrders(d.cases, e.cases)
            && Evolves(d.actions[id], e.actions[id]) && e.actions[id].status == Rejected && !e.actions[id].reserved
            && d.actions[id].status == PendingApproval
            && e.books == (if d.actions[id].reserved
                           then L.Release(d.books, d.actions[id].payload.order, Amount(d.actions[id])) else d.books)
  {
    assert RowOk(s, id);
  }

  /** Settling a live record, its reservation given back if it had one, keeps the desk in order. */
  lemma RetiredKeeps(s: System, t: System, id: ActionId)
    requires Sound(s) && Agreed(s) && t.calls == s.calls && t.clock == s.clock
    requires id in s.desk.actions && id in t.desk.actions && t.desk.actions == s.desk.actions[id := t.desk.actions[id]]
    requires Active(s.desk.actions[id]) && !Active(t.desk.actions[id]) && !t.desk.actions[id].reserved
    requires Evolves(s.desk.actions[id], t.desk.actions[id]) && SameOrders(s.desk.cases, t.desk.cases)
    requires var a := s.desk.actions[id];
             t.desk.books == (if a.reserved then L.Release(s.desk.books, a.payload.order, Amount(a)) else s.desk.books)
    ensures Kept(s, t)
  {
    assert RowOk(s, id);
    PutKeeps(s, t, id);
    forall o ensures AgreedOn(t, o) { HoldLess(s, t, id, o); }
  }

  lemma RejectKeeps(s: System, id: ActionId, actor: Actor, role: Role, expected: nat, comment: bool, t: System)
    requires Sound(s) && Agreed(s)
    requires t == s.(desk := Reject(s.desk, id, actor, role, expected, comment, s.clock).desk)
    ensures Kept(s, t)
  {
    if Reject(s.desk, id, actor, role, expected, comment, s.clock).outcome.Ok? {
      RejectShape(s, id, actor, role, expected, comment);
      RetiredKeeps(s, t, id);
    } else {
      IdleKeeps(s, t);
      assert forall o :: AgreedOn(s, o) ==> AgreedOn(t, o);
    }
  }

  lemma CaptureAgrees(s: System, t: System, id: ActionId, o: OrderId)
    requires Agreed(s) && id in s.desk.actions && id in t.desk.actions && t.calls == s.calls
    requires t.desk.actions == s.desk.actions[id := t.desk.actions[id]]
    requires var a := s.desk.actions[id];
             && a.reserved && !t.desk.actions[id].reserved && a.payload.order in t.desk.books.reserved
             && t.desk.books.reserved
                   == s.desk.books.reserved[a.payload.order := t.desk.books.reserved[a.payload.order]]
             && t.desk.books.reserved[a.payload.order] + Amount(a) == L.Of(s.desk.books.reserved, a.payload.order)
    ensures AgreedOn(t, o)
  {
    assert AgreedOn(s, o);
    SumUpdate(s.desk.actions, Held(o), id, t.desk.actions[id]);
  }

  /** In a sound desk an approved, unexpired refund is reserved and not yet captured. */
  lemma ApprovedIsReserved(s: System, id: ActionId)
    requires Sound(s) && id in s.desk.actions && s.desk.actions[id].status == Approved
    requires MovesMoney(s.desk.actions[id]) && s.clock < s.desk.actions[id].expiresAt
    ensures s.desk.actions[id].reserved && KeyOf(s.desk.actions[id]) !in s.desk.books.transactions
    ensures s.desk.actions[id].caseId in s.desk.cases
    ensures s.desk.actions[id].payload.order == s.desk.cases[s.desk.actions[id].caseId].order
  {
    assert RowOk(s, id);
    CapturedIsCompleted(s.desk, id);
  }

  /** What a refund execution leaves: the record completed, one receipt more, the reservation spent. */
  lemma RefundShape(s: System, id: ActionId, role: Role, payload: Payload, expected: nat)
    requires Sound(s) && CaptureFor(s.desk, id, role, payload, expected, s.clock).Ok? && MovesMoney(s.desk.actions[id])
    ensures var a := s.desk.actions[id];
            var receipt := L.Receipt(a.payload.order, Amount(a), KeyOf(a));
            var after := CompletedWith(a, MoneyMoved(receipt)).(reserved := false);
            var books := s.desk.books;
            && a.status == Approved && a.reserved && KeyOf(a) !in books.transactions
            && Amount(a) <= L.Of(books.reserved, a.payload.order)
            && CaptureFor(s.desk, id, role, payload, expected, s.clock).value
               == Capture(L.Books(books.available,
                                  books.reserved[a.payload.order := L.Of(books.reserved, a.payload.order) - Amount(a)],
                                  books.transactions[KeyOf(a) := receipt]), s.desk.warehouse, after)
  {
    ApprovedIsReserved(s, id);
  }

  lemma CompleteSound(s: System, id: ActionId, done: Capture, t: System)
    requires Sound(s) && id in s.desk.actions && s.desk.actions[id].status == Approved
    requires var a := s.desk.actions[id];
             var receipt := L.Receipt(a.payload.order, Amount(a), KeyOf(a));
             && KeyOf(a) !in s.desk.books.transactions
             && done.action == CompletedWith(a, MoneyMoved(receipt)).(reserved := false)
             && done.books.transactions == s.desk.books.transactions[KeyOf(a) := receipt]
    requires t.desk.actions == s.desk.actions[id := done.action] && t.desk.books == done.books && t.calls == s.calls
    requires SameOrders(s.desk.cases, t.desk.cases) && s.clock == t.clock
    ensures Sound(t) && Evolves(s.desk.actions[id], t.desk.actions[id])
  {
    assert RowOk(s, id);
    assert RowOk(t, id);
    CompleteKeeps(s, t, id);
  }

  lemma CapturedKeeps(s: System, id: ActionId, done: Capture, t: System)
    requires Sound(s) && Agreed(s) && id in s.desk.actions && s.desk.actions[id].status == Approved
             && s.desk.actions[id].reserved
    requires var a := s.desk.actions[id];
             var receipt := L.Receipt(a.payload.order, Amount(a), KeyOf(a));
             && KeyOf(a) !in s.desk.books.transactions && Amount(a) <= L.Of(s.desk.books.reserved, a.payload.order)
             && done.action == CompletedWith(a, MoneyMoved(receipt)).(reserved := false)
             && done.books.transactions == s.desk.books.transactions[KeyOf(a) := receipt]
             && done.books.reserved
                == s.desk.books.reserved[a.payload.order := L.Of(s.desk.books.reserved, a.payload.order) - Amount(a)]
    requires t.desk.actions == s.desk.actions[id := done.action] && t.desk.books == done.books && t.calls == s.calls
    requires SameOrders(s.desk.cases, t.desk.cases) && s.clock == t.clock
    ensures Kept(s, t)
  {
    CompleteSound(s, id, done, t);
    CapturedAgrees(s, id, done, t);
  }

  lemma CapturedAgrees(s: System, id: ActionId, done: Capture, t: System)
    requires Agreed(s) && id in s.desk.actions && s.desk.actions[id].reserved && !done.action.reserved
    requires var a := s.desk.actions[id];
             && Amount(a) <= L.Of(s.desk.books.reserved, a.payload.order)
             && done.books.reserved
                == s.desk.books.reserved[a.payload.order := L.Of(s.desk.books.reserved, a.payload.order) - Amount(a)]
    requires t.desk.actions == s.desk.actions[id := done.action] && t.desk.books == done.books && t.calls == s.calls
    ensures Agreed(t)
  {
    forall o ensures AgreedOn(t, o) { CaptureAgrees(s, t, id, o); }
  }

  lemma ExecuteRefundKeeps(s: System, id: ActionId, role: Role, payload: Payload, expected: nat, t: System)
    requires Sound(s) && Agreed(s) && CaptureFor(s.desk, id, role, payload, expected, s.clock).Ok?
    requires MovesMoney(s.desk.actions[id])
    requires t == s.(desk := Execute(s.desk, id, role, payload, expected, s.clock).desk)
    ensures Kept(s, t)
  {
    RefundShape(s, id, role, payload, expected);
    CapturedKeeps(s, id, CaptureFor(s.desk, id, role, payload, expected, s.clock).value, t);
  }

  lemma ExecuteResendKeeps(s: System, id: ActionId, role: Role, payload: Payload, expected: nat, t: System)
    requires Sound(s) && Agreed(s) && CaptureFor(s.desk, id, role, payload, expected, s.clock).Ok?
    requires !MovesMoney(s.desk.actions[id])
    requires t == s.(desk := Execute(s.desk, id, role, payload, expected, s.clock).desk)
    ensures Kept(s, t)
  {
    ResendShape(s, id, role, payload, expected);
    RetiredKeeps(s, t, id);
  }

  lemma ResendShape(s: System, id: ActionId, role: Role, payload: Payload, expected: nat)
    requires Sound(s) && CaptureFor(s.desk, id, role, payload, expected, s.clock).Ok? && !MovesMoney(s.desk.actions[id])
    ensures var d, e := s.desk, Execute(s.desk, id, role, payload, expected, s.clock).desk;
            && id in e.actions && e.actions == d.actions[id := e.actions[id]] && SameOrders(d.cases, e.cases)
            && d.actions[id].status == Approved && !d.actions[id].reserved && !e.actions[id].reserved
            && e.actions[id].status == Completed && Evolves(d.actions[id], e.actions[id]) && e.books == d.books
  {
    assert RowOk(s, id);
  }

  lemma ExecuteKeeps(s: System, id: ActionId, role: Role, payload: Payload, expected: nat, t: System)
    requires Sound(s) && Agreed(s)
    requires t == s.(desk := Execute(s.desk, id, role, payload, expected, s.clock).desk)
    ensures Kept(s, t)
  {
    if CaptureFor(s.desk, id, role, payload, expected, s.clock).Ok? {
      if MovesMoney(s.desk.actions[id]) {
        ExecuteRefundKeeps(s, id, role, payload, expected, t);
      } else {
        ExecuteResendKeeps(s, id, role, payload, expected, t);
      }
    } else {
      IdleKeeps(s, t);
      assert forall o :: AgreedOn(s, o) ==> AgreedOn(t, o);
    }
  }

  // ---- sweeps ----

  lemma ReapOneKeeps(s: System, id: ActionId, t: System)
    requires Sound(s) && Agreed(s) && id in s.desk.actions && Due(s.desk.actions[id], s.clock)
    requires t == s.(desk := ReapOne(s.desk, id))
    ensures Kept(s, t)
    ensures t.desk.actions == s.desk.actions[id := s.desk.actions[id].(reserved := false)]
  {
    assert RowOk(s, id);
    PutKeeps(s, t, id);
    forall o ensures AgreedOn(t, o) { HoldLess(s, t, id, o); }
  }

  /** A sweep clears the flag of the listed records and changes nothing else about any record. */
  lemma {:induction false} ReapAllRows(d: Desk, listing: seq<ActionId>)
    requires forall id :: id in listing ==> id in d.actions && d.actions[id].caseId in d.cases
    ensures ReapAll(d, listing).actions.Keys == d.actions.Keys
    ensures ReapAll(d, listing).cases == d.cases
    ensures forall id :: id in d.actions ==>
              ReapAll(d, listing).actions[id] == if id in listing
                then d.actions[id].(reserved := false)
                else d.actions[id]
    decreases |listing|
  {
    if listing != [] {
      ReapAllRows(ReapOne(d, listing[0]), listing[1..]);
      assert listing == [listing[0]] + listing[1..];
    }
  }

  lemma {:induction false} ReapAllAgrees(s: System, listing: seq<ActionId>)
    requires Sound(s) && Agreed(s)
    requires forall id :: id in listing ==> id in s.desk.actions && Due(s.desk.actions[id], s.clock)
    requires forall i, j :: 0 <= i < j < |listing| ==> listing[i] != listing[j]
    ensures Sound(s.(desk := ReapAll(s.desk, listing))) && Agreed(s.(desk := ReapAll(s.desk, listing)))
    decreases |listing|
  {
    if listing != [] {
      var mid := s.(desk := ReapOne(s.desk, listing[0]));
      ReapOneKeeps(s, listing[0], mid);
      forall id | id in listing[1..] ensures id in mid.desk.actions && Due(mid.desk.actions[id], mid.clock) {
        assert id in listing && id != listing[0];
      }
      ReapAllAgrees(mid, listing[1..]);
    } else {
      assert s.(desk := s.desk) == s;
    }
  }

  lemma ReapAllKeeps(s: System, listing: seq<ActionId>, t: System)
    requires Sound(s) && Agreed(s)
    requires Lists(listing, DueSet(s.desk, s.clock))
    requires t == s.(desk := ReapAll(s.desk, listing))
    ensures Kept(s, t)
    ensures forall id :: id in s.desk.actions ==>
              t.desk.actions[id] == if Due(s.desk.actions[id], s.clock)
                then s.desk.actions[id].(reserved := false)
                else s.desk.actions[id]
  {
    assert forall id :: id in listing ==> id in s.desk.actions && RowOk(s, id);
    ReapAllRows(s.desk, listing);
    ReapAllAgrees(s, listing);
  }

  lemma InvalidateOneKeeps(s: System, id: ActionId, t: System)
    requires Sound(s) && Agreed(s) && id in s.desk.actions && Active(s.desk.actions[id])
    requires t == s.(desk := InvalidateOne(s.desk, id))
    ensures Kept(s, t)
    ensures t.desk.actions == s.desk.actions[id := Invalidated(s.desk.actions[id])]
    ensures t.desk.cases == s.desk.cases
  {
    assert RowOk(s, id);
    PutKeeps(s, t, id);
    forall o ensures AgreedOn(t, o) { HoldLess(s, t, id, o); }
  }

  /** Invalidation rewrites the listed records and nothing else about any record or case. */
  lemma {:induction false} InvalidateAllRows(d: Desk, listing: seq<ActionId>)
    requires forall id :: id in listing ==> id in d.actions && d.actions[id].caseId in d.cases
    requires forall i, j :: 0 <= i < j < |listing| ==> listing[i] != listing[j]
    ensures InvalidateAll(d, listing).actions.Keys == d.actions.Keys
    ensures InvalidateAll(d, listing).cases == d.cases
    ensures forall id :: id in d.actions ==>
              InvalidateAll(d, listing).actions[id] == if id in listing
                then Invalidated(d.actions[id])
                else d.actions[id]
    decreases |listing|
  {
    if listing != [] {
      assert listing == [listing[0]] + listing[1..];
      InvalidateAllRows(InvalidateOne(d, listing[0]), listing[1..]);
    }
  }

  lemma {:induction false} InvalidateAllAgrees(s: System, listing: seq<ActionId>)
    requires Sound(s) && Agreed(s)
    requires forall id :: id in listing ==> id in s.desk.actions && Active(s.desk.actions[id])
    requires forall i, j :: 0 <= i < j < |listing| ==> listing[i] != listing[j]
    ensures Sound(s.(desk := InvalidateAll(s.desk, listing))) && Agreed(s.(desk := InvalidateAll(s.desk, listing)))
    decreases |listing|
  {
    if listing != [] {
      var mid := s.(desk := InvalidateOne(s.desk, listing[0]));
      InvalidateOneKeeps(s, listing[0], mid);
      forall id | id in listing[1..] ensures id in mid.desk.actions && Active(mid.desk.actions[id]) {
        assert id in listing && id != listing[0];
      }
      InvalidateAllAgrees(mid, listing[1..]);
    } else {
      assert s.(desk := s.desk) == s;
    }
  }

  lemma InvalidateAllKeeps(s: System, listing: seq<ActionId>, t: System)
    requires Sound(s) && Agreed(s)
    requires forall id :: id in listing ==> id in s.desk.actions && Active(s.desk.actions[id])
    requires forall i, j :: 0 <= i < j < |listing| ==> listing[i] != listing[j]
    requires t == s.(desk := InvalidateAll(s.desk, listing))
    ensures Kept(s, t)
    ensures t.desk.cases == s.desk.cases && t.desk.actions.Keys == s.desk.actions.Keys
    ensures forall id :: id in s.desk.actions ==>
              t.desk.actions[id] == if id in listing then Invalidated(s.desk.actions[id]) else s.desk.actions[id]
  {
    assert forall id :: id in listing ==> id in s.desk.actions && RowOk(s, id);
    InvalidateAllRows(s.desk, listing);
    InvalidateAllAgrees(s, listing);
    forall id | id in s.desk.actions ensures Evolves(s.desk.actions[id], t.desk.actions[id]) {
      InvalidatedEvolves(s.desk.actions[id]);
    }
  }

  lemma InvalidatedEvolves(a: Action)
    ensures Active(a) ==> Evolves(a, Invalidated(a))
    ensures Evolves(a, a)
  {
  }

  /** A case without a live record may change its order. */
  lemma ReassessKeeps(s: System, caseId: CaseId, c: Case, t: System)
    requires Sound(s) && Agreed(s) && caseId in s.desk.cases && ActiveOf(s.desk, caseId) == {}
    requires forall k :: k in s.calls && s.calls[k].CreateCall? && s.calls[k].draft.caseId == caseId ==>
             s.calls[k].order == c.order
    requires t == s.(desk := s.desk.(cases := s.desk.cases[caseId := c]), assessed := t.assessed)
    ensures Kept(s, t)
  {
    forall id | id in t.desk.actions ensures RowOk(t, id) {
      assert RowOk(s, id);
      assert id !in ActiveOf(s.desk, caseId);
    }
    forall k | k in t.desk.books.transactions ensures exists j :: Receipted(t.desk, k, j) {
      var j :| Receipted(s.desk, k, j);
      assert Receipted(t.desk, k, j);
    }
    forall k | k in t.calls
      ensures CallOk(t, t.calls[k])
    {
      assert CallOk(s, s.calls[k]);
    }
    assert forall o :: AgreedOn(s, o) ==> AgreedOn(t, o);
  }

  /** Retire the case's live record, then let its facts change. */
  lemma SupplementKeeps(s: System, caseId: CaseId, listing: seq<ActionId>, order: OrderId, status: CaseStatus,
                        plan: Plan, t: System)
    requires Sound(s) && Agreed(s) && caseId in s.desk.cases
    requires Lists(listing, ActiveOf(s.desk, caseId))
    requires forall c :: c in s.calls && s.calls[c].CreateCall? && s.calls[c].draft.caseId == caseId ==>
             s.calls[c].order == order
    requires t == s.(desk := Supplement(s.desk, caseId, listing, order, status, plan), assessed := t.assessed)
    ensures Kept(s, t)
  {
    var mid := s.(desk := InvalidateAll(s.desk, listing));
    InvalidateAllKeeps(s, listing, mid);
    var c := s.desk.cases[caseId];
    assert ActiveOf(mid.desk, caseId) == {};
    ReassessKeeps(mid, caseId, Case(c.owner, order, status, plan, c.version + 1), t);
  }

  // ---- every step, every run ----

  lemma WaitKeeps(s: System, wait: nat)
    requires Sound(s) && Agreed(s)
    ensures Sound(Wait(s, wait)) && Agreed(Wait(s, wait))
  {
    var t := Wait(s, wait);
    IdleKeeps(s, t);
    assert forall o :: AgreedOn(s, o) ==> AgreedOn(t, o);
  }

  lemma OpenKeeps(s: System, caseId: CaseId, c: Case, t: System)
    requires Sound(s) && Agreed(s) && caseId !in s.desk.cases
    requires t == s.(desk := s.desk.(cases := s.desk.cases[caseId := c]), assessed := t.assessed)
    ensures Kept(s, t)
  {
    IdleKeeps(s, t);
    assert forall o :: AgreedOn(s, o) ==> AgreedOn(t, o);
  }

  lemma ActKeeps(s: System, op: Op)
    requires Sound(s) && Agreed(s) && Admissible(s, op)
    ensures Kept(s, Act(s, op))
  {
    var t := Act(s, op);
    match op
    case OpenCase(caseId, owner, order, status, plan) =>
      if caseId !in s.desk.cases { OpenKeeps(s, caseId, Case(owner, order, status, plan, 1), t); }
    case SupplementCase(caseId, actor, listing, order, status, plan) =>
      if caseId in s.desk.cases && s.desk.cases[caseId].owner == actor && Lists(listing, ActiveOf(s.desk, caseId)) {
        SupplementKeeps(s, caseId, listing, order, status, plan, t);
      }
    case CreateNow(id, caseId, actor) => CreateNowKeeps(s, id, caseId, actor, t);
    case CreateSplit(call, id, caseId, actor) =>
      if call !in s.calls && BeginCreate(s.desk, id, caseId, actor, s.clock).Ok? {
        CreateSplitKeeps(s, call, id, caseId, actor, t);
      }
    case ApproveNow(id, actor, role, expected) => ApproveNowKeeps(s, id, actor, role, expected, t);
    case ApproveSplit(call, id, actor, role, expected) =>
      if call !in s.calls && BeginApprove(s.desk, id, actor, role, expected, s.clock).Ok? {
        ApproveSplitKeeps(s, call, id, actor, role, expected, t);
      } else {
        IdleKeeps(s, t);
        assert forall o :: AgreedOn(s, o) ==> AgreedOn(t, o);
      }
    case Finish(call) =>
      if call in s.calls {
        if s.calls[call].ApproveCall? { FinishApproveKeeps(s, call, t); } else { FinishCreateKeeps(s, call, t); }
      }
    case RejectNow(id, actor, role, expected, comment) => RejectKeeps(s, id, actor, role, expected, comment, t);
    case ExecuteNow(id, role, payload, expected) => ExecuteKeeps(s, id, role, payload, expected, t);
    case ExecuteLost(_, _, _, _) =>
    case Sweep(listing) =>
      if Lists(listing, DueSet(s.desk, s.clock)) { ReapAllKeeps(s, listing, t); }
  }

  /** Every admissible step keeps the desk sound and agreed, and only evolves its records. */
  lemma StepKeeps(s: System, step: Step)
    requires Sound(s) && Agreed(s) && Admissible(s, step.op)
    ensures Kept(s, Do(s, step))
  {
    WaitKeeps(s, step.wait);
    ActKeeps(Wait(s, step.wait), step.op);
  }

  lemma OpeningOk(balances: map<OrderId, nat>, inventory: Option<map<Sku, nat>>, clock: int)
    ensures Sound(Opening(balances, inventory, clock)) && Agreed(Opening(balances, inventory, clock))
  {
    var s := Opening(balances, inventory, clock);
    forall o ensures AgreedOn(s, o) {
      SumZero(s.desk.actions, Held(o));
      SumZero(s.calls, Pledged(o));
    }
  }

  lemma {:induction false} RunKeeps(s: System, steps: seq<Step>)
    requires Sound(s) && Agreed(s) && AdmissibleRun(s, steps)
    ensures Sound(Run(s, steps)) && Agreed(Run(s, steps)) && s.clock <= Run(s, steps).clock
    decreases |steps|
  {
    if steps != [] {
      StepKeeps(s, steps[0]);
      RunKeeps(Do(s, steps[0]), steps[1..]);
    }
  }
}

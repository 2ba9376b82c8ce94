/** What the ledger has paid out, against the records: receipts over runs with lost saves, and captured
    money as the sum of the completed refunds. */
module Settlement {
  import opened Wrappers
  import opened MapSums
  import opened Payloads
  import opened Actions
  import L = Ledger
  import opened Desk
  import opened Protocol
  import opened Agreement

  // ---- receipts are final over every history, lost saves included ----

  /** Whatever was paid or sent under a key stays, with its transaction id. */
  predicate ReceiptsStand(d: Desk, e: Desk) {
    && (forall k :: k in d.books.transactions ==>
          k in e.books.transactions && e.books.transactions[k] == d.books.transactions[k])
    && (forall k :: k in d.warehouse.outbound ==>
          k in e.warehouse.outbound && e.warehouse.outbound[k] == d.warehouse.outbound[k])
  }

  /** Invalidations and sweeps pay and send nothing. */
  lemma {:induction false} FoldsPayNothing(d: Desk, listing: seq<ActionId>)
    ensures InvalidateAll(d, listing).books.transactions == d.books.transactions
    ensures ReapAll(d, listing).books.transactions == d.books.transactions
    ensures InvalidateAll(d, listing).warehouse == d.warehouse && ReapAll(d, listing).warehouse == d.warehouse
    decreases |listing|
  {
    if listing != [] {
      FoldsPayNothing(InvalidateOne(d, listing[0]), listing[1..]);
      FoldsPayNothing(ReapOne(d, listing[0]), listing[1..]);
    }
  }

  predicate Executes(op: Op) { op.ExecuteNow? || op.ExecuteLost? }

  lemma SignaturesPayNothing(d: Desk, id: ActionId, actor: Actor, role: Role, expected: nat, now: int)
    ensures Approve(d, id, actor, role, expected, now).desk.books.transactions == d.books.transactions
    ensures Approve(d, id, actor, role, expected, now).desk.warehouse == d.warehouse
  {
    var begun := BeginApprove(d, id, actor, role, expected, now);
    if begun.Ok? { FinishApproveShape(d.(books := begun.value.books), begun.value.call); }
  }

  lemma CreationsPayNothing(d: Desk, id: ActionId, caseId: CaseId, actor: Actor, now: int)
    ensures Create(d, id, caseId, actor, now).desk.books.transactions == d.books.transactions
    ensures Create(d, id, caseId, actor, now).desk.warehouse == d.warehouse
  {
    var begun := BeginCreate(d, id, caseId, actor, now);
    if begun.Ok? {
      BegunCreateBooks(d, id, caseId, actor, now);
      FinishCreateShape(d.(books := begun.value.books), begun.value.call);
    }
  }

  lemma RejectionsPayNothing(d: Desk, id: ActionId, actor: Actor, role: Role, expected: nat, comment: bool, now: int)
    ensures Reject(d, id, actor, role, expected, comment, now).desk.books.transactions == d.books.transactions
    ensures Reject(d, id, actor, role, expected, comment, now).desk.warehouse == d.warehouse
  {
  }

  lemma FinishPaysNothing(d: Desk, c: Call)
    ensures FinishCall(d, c).desk.books.transactions == d.books.transactions
            && FinishCall(d, c).desk.warehouse == d.warehouse
  {
    if c.ApproveCall? { FinishApproveShape(d, c); } else { FinishCreateShape(d, c); }
  }

  lemma OnlyExecutionsPay(s: System, op: Op)
    requires !Executes(op)
    ensures Act(s, op).desk.books.transactions == s.desk.books.transactions
    ensures Act(s, op).desk.warehouse == s.desk.warehouse
  {
    match op
    case SupplementCase(_, _, listing, _, _, _) => FoldsPayNothing(s.desk, listing);
    case CreateNow(id, caseId, actor) => CreationsPayNothing(s.desk, id, caseId, actor, s.clock);
    case ApproveNow(id, actor, role, expected) => SignaturesPayNothing(s.desk, id, actor, role, expected, s.clock);
    case Finish(call) => if call in s.calls { FinishPaysNothing(s.desk, s.calls[call]); }
    case RejectNow(id, actor, role, expected, comment) =>
      RejectionsPayNothing(s.desk, id, actor, role, expected, comment, s.clock);
    case Sweep(listing) => FoldsPayNothing(s.desk, listing);
    case _ =>
  }

  lemma ExecutionsKeepReceipts(d: Desk, id: ActionId, role: Role, payload: Payload, expected: nat, now: int)
    requires CaptureFor(d, id, role, payload, expected, now).Ok?
    ensures var done := CaptureFor(d, id, role, payload, expected, now).value;
            ReceiptsStand(d, d.(books := done.books, warehouse := done.warehouse))
  {
  }

  lemma ActKeepsReceipts(s: System, op: Op)
    ensures ReceiptsStand(s.desk, Act(s, op).desk)
  {
    if Executes(op) {
      if CaptureFor(s.desk, op.id, op.role, op.payload, op.expected, s.clock).Ok? {
        ExecutionsKeepReceipts(s.desk, op.id, op.role, op.payload, op.expected, s.clock);
      }
    } else {
      OnlyExecutionsPay(s, op);
    }
  }

  lemma {:induction false} ReceiptsStay(s: System, steps: seq<Step>)
    ensures ReceiptsStand(s.desk, Run(s, steps).desk)
    decreases |steps|
  {
    if steps != [] {
      ActKeepsReceipts(Wait(s, steps[0].wait), steps[0].op);
      ReceiptsStay(Do(s, steps[0]), steps[1..]);
    }
  }

  /** The reference a captured action carries is on file under its key. */
  lemma CaptureLeavesReceipt(d: Desk, id: ActionId, role: Role, payload: Payload, expected: nat, now: int)
    requires CaptureFor(d, id, role, payload, expected, now).Ok?
    ensures var done := CaptureFor(d, id, role, payload, expected, now).value;
            var k := KeyOf(d.actions[id]);
            if MovesMoney(d.actions[id])
            then k in done.books.transactions && done.action.reference == Some(MoneyMoved(done.books.transactions[k]))
            else k in done.warehouse.outbound && done.action.reference == Some(GoodsSent(done.warehouse.outbound[k]))
  {
  }

  lemma CaptureReplays(d: Desk, id: ActionId, role: Role, payload: Payload, expected: nat, now: int)
    requires CaptureFor(d, id, role, payload, expected, now).Ok?
    ensures var done := CaptureFor(d, id, role, payload, expected, now).value;
            var k := KeyOf(d.actions[id]);
            && (MovesMoney(d.actions[id]) && k in d.books.transactions ==>
                  done.books == d.books && done.warehouse == d.warehouse
                  && done.action.reference == Some(MoneyMoved(d.books.transactions[k])))
            && (!MovesMoney(d.actions[id]) && k in d.warehouse.outbound ==>
                  done.books == d.books && done.warehouse == d.warehouse
                  && done.action.reference == Some(GoodsSent(d.warehouse.outbound[k])))
  {
  }

  /** An execution whose save was lost, then any history at all, then an execution under the same key:
      the reference is the one first issued, and no money and no stock moves again. */
  lemma LostCaptureIsReplayed(s: System, id: ActionId, role: Role, payload: Payload, expected: nat, steps: seq<Step>,
                              again: ActionId, role': Role, payload': Payload, expected': nat)
    requires CaptureFor(s.desk, id, role, payload, expected, s.clock).Ok?
    requires var u := Run(Act(s, ExecuteLost(id, role, payload, expected)), steps);
             && CaptureFor(u.desk, again, role', payload', expected', u.clock).Ok?
             && KeyOf(u.desk.actions[again]) == KeyOf(s.desk.actions[id])
    ensures var u := Run(Act(s, ExecuteLost(id, role, payload, expected)), steps);
            var first := CaptureFor(s.desk, id, role, payload, expected, s.clock).value;
            var second := CaptureFor(u.desk, again, role', payload', expected', u.clock).value;
            && second.books == u.desk.books && second.warehouse == u.desk.warehouse
            && second.action.reference == first.action.reference
  {
    ReceiptsStay(Act(s, ExecuteLost(id, role, payload, expected)), steps);
    CaptureLeavesReceipt(s.desk, id, role, payload, expected, s.clock);
    var u := Run(Act(s, ExecuteLost(id, role, payload, expected)), steps);
    CaptureReplays(u.desk, again, role', payload', expected', u.clock);
  }

  // ---- captured money is the sum of the completed refunds ----

  ghost function PaidBy(o: OrderId): Action -> nat {
    (a: Action) => if a.status == Completed && MovesMoney(a) && a.payload.order == o then Amount(a) else 0
  }

  ghost predicate SettledOn(d: Desk, o: OrderId) { L.Captured(d.books, o) == Sum(d.actions, PaidBy(o)) }

  predicate Done(d: Desk, id: ActionId) { id in d.actions && d.actions[id].status == Completed }

  /** A step that pays nothing and completes nothing keeps both sums. */
  lemma NothingCompleted(s: System, t: System, o: OrderId)
    requires SettledOn(s.desk, o) && Kept(s, t)
    requires t.desk.books.transactions == s.desk.books.transactions
    requires forall id :: Done(t.desk, id) ==> Done(s.desk, id)
    ensures SettledOn(t.desk, o)
  {
    forall id | id in t.desk.actions && PaidBy(o)(t.desk.actions[id]) != 0
      ensures id in s.desk.actions && s.desk.actions[id] == t.desk.actions[id]
    {
      assert Done(t.desk, id) && Done(s.desk, id);
    }
    SumAgree(s.desk.actions, t.desk.actions, PaidBy(o));
  }

  lemma SignaturesCompleteNothing(d: Desk, id: ActionId, actor: Actor, role: Role, expected: nat, now: int, k: ActionId)
    ensures Done(Approve(d, id, actor, role, expected, now).desk, k) ==> Done(d, k)
  {
  }

  lemma CreationsCompleteNothing(d: Desk, id: ActionId, caseId: CaseId, actor: Actor, now: int, k: ActionId)
    ensures Done(Create(d, id, caseId, actor, now).desk, k) ==> Done(d, k)
  {
  }

  lemma RejectionsCompleteNothing(d: Desk, id: ActionId, actor: Actor, role: Role, expected: nat, comment: bool,
                                  now: int, k: ActionId)
    ensures Done(Reject(d, id, actor, role, expected, comment, now).desk, k) ==> Done(d, k)
  {
  }

  lemma {:induction false} FoldsCompleteNothing(d: Desk, listing: seq<ActionId>, k: ActionId)
    ensures Done(InvalidateAll(d, listing), k) ==> Done(d, k)
    ensures Done(ReapAll(d, listing), k) ==> Done(d, k)
    decreases |listing|
  {
    if listing != [] {
      FoldsCompleteNothing(InvalidateOne(d, listing[0]), listing[1..], k);
      FoldsCompleteNothing(ReapOne(d, listing[0]), listing[1..], k);
    }
  }

  /** Only an execution completes a record. */
  lemma OnlyExecutionsComplete(s: System, op: Op, id: ActionId)
    requires Sound(s) && !op.ExecuteNow? && Done(Act(s, op).desk, id)
    ensures Done(s.desk, id)
  {
    match op
    case SupplementCase(_, _, listing, _, _, _) => FoldsCompleteNothing(s.desk, listing, id);
    case CreateNow(k, caseId, actor) => CreationsCompleteNothing(s.desk, k, caseId, actor, s.clock, id);
    case ApproveNow(k, actor, role, expected) =>
      SignaturesCompleteNothing(s.desk, k, actor, role, expected, s.clock, id);
    case RejectNow(k, actor, role, expected, comment) =>
      RejectionsCompleteNothing(s.desk, k, actor, role, expected, comment, s.clock, id);
    case Sweep(listing) => FoldsCompleteNothing(s.desk, listing, id);
    case Finish(call) => if call in s.calls { FinishCompletesNothing(s, call, id); }
    case _ =>
  }

  lemma FinishCompletesNothing(s: System, call: CallId, id: ActionId)
    requires Sound(s) && call in s.calls && Done(FinishCall(s.desk, s.calls[call]).desk, id)
    ensures Done(s.desk, id)
  {
    var c := s.calls[call];
    if c.ApproveCall? { assert ApproveCallOk(s, c); } else { assert CreateCallOk(s, c); }
  }

  /** An execution debits the ledger and completes its record by the same amount. */
  lemma ExecutionSettles(s: System, id: ActionId, role: Role, payload: Payload, expected: nat, o: OrderId)
    requires Sound(s) && SettledOn(s.desk, o) && CaptureFor(s.desk, id, role, payload, expected, s.clock).Ok?
    ensures SettledOn(Execute(s.desk, id, role, payload, expected, s.clock).desk, o)
  {
    var a := s.desk.actions[id];
    var done := CaptureFor(s.desk, id, role, payload, expected, s.clock).value;
    SumUpdate(s.desk.actions, PaidBy(o), id, done.action);
    if MovesMoney(a) {
      RefundShape(s, id, role, payload, expected);
      SumInsert(s.desk.books.transactions, L.CapturedOn(o), KeyOf(a), L.Receipt(a.payload.order, Amount(a), KeyOf(a)));
    }
  }

  lemma ActSettles(s: System, op: Op, o: OrderId)
    requires Sound(s) && Agreed(s) && Admissible(s, op) && SettledOn(s.desk, o)
    ensures SettledOn(Act(s, op).desk, o)
  {
    if op.ExecuteNow? {
      if CaptureFor(s.desk, op.id, op.role, op.payload, op.expected, s.clock).Ok? {
        ExecutionSettles(s, op.id, op.role, op.payload, op.expected, o);
      }
    } else {
      ActKeeps(s, op);
      OnlyExecutionsPay(s, op);
      forall id | Done(Act(s, op).desk, id) ensures Done(s.desk, id) { OnlyExecutionsComplete(s, op, id); }
      NothingCompleted(s, Act(s, op), o);
    }
  }

  lemma {:induction false} RunSettles(s: System, steps: seq<Step>, o: OrderId)
    requires Sound(s) && Agreed(s) && AdmissibleRun(s, steps) && SettledOn(s.desk, o)
    ensures SettledOn(Run(s, steps).desk, o)
    decreases |steps|
  {
    if steps != [] {
      WaitKeeps(s, steps[0].wait);
      ActSettles(Wait(s, steps[0].wait), steps[0].op, o);
      StepKeeps(s, steps[0]);
      RunSettles(Do(s, steps[0]), steps[1..], o);
    }
  }

  /** In every reachable state the money captured on an order is exactly what its completed refunds record:
      nothing is paid without a record, and no record claims a payment that was not made. */
  lemma CapturedIsRecorded(balances: map<OrderId, nat>, inventory: Option<map<Sku, nat>>, clock: int, steps: seq<Step>,
                           o: OrderId)
    requires AdmissibleRun(Opening(balances, inventory, clock), steps)
    ensures var d := Run(Opening(balances, inventory, clock), steps).desk;
            L.Captured(d.books, o) == Sum(d.actions, PaidBy(o))
  {
    var s := Opening(balances, inventory, clock);
    OpeningOk(balances, inventory, clock);
    SumZero(s.desk.actions, PaidBy(o));
    SumZero(s.desk.books.transactions, L.CapturedOn(o));
    RunSettles(s, steps, o);
  }
}

/** Runs of the approval desk: whole handlers and split ones interleaved under an advancing clock. */
module Protocol {
  import opened Wrappers
  import opened Payloads
  import opened Decision
  import opened Actions
  import L = Ledger
  import opened Dispatch
  import opened Desk

  type CallId = nat

  /** One request reaching the desk. Begin and Finish split a handler around its save. */
  datatype Op =
    | OpenCase(caseId: CaseId, owner: Actor, order: OrderId, status: CaseStatus, plan: Plan)
    | SupplementCase(caseId: CaseId, actor: Actor, listing: seq<ActionId>, order: OrderId, status: CaseStatus,
                     plan: Plan)
    | CreateNow(id: ActionId, caseId: CaseId, actor: Actor)
    | CreateSplit(call: CallId, id: ActionId, caseId: CaseId, actor: Actor)
    | ApproveNow(id: ActionId, actor: Actor, role: Role, expected: nat)
    | ApproveSplit(call: CallId, id: ActionId, actor: Actor, role: Role, expected: nat)
    | Finish(call: CallId)
    | RejectNow(id: ActionId, actor: Actor, role: Role, expected: nat, comment: bool)
    | ExecuteNow(id: ActionId, role: Role, payload: Payload, expected: nat)
    | ExecuteLost(id: ActionId, role: Role, payload: Payload, expected: nat) // the save never reaches the store
    | Sweep(listing: seq<ActionId>)

  datatype Step = Step(wait: nat, op: Op)

  datatype Request = Request(id: ActionId, actor: Actor, role: Role)

  /** The desk, the requests in flight, the clock, and two records of history:
      who asked to approve what under which role, and what each case was ever assessed on. */
  datatype System = System(
    desk: Desk,
    calls: map<CallId, Call>,
    clock: int,
    requests: set<Request>,
    assessed: set<(CaseId, Facts)>)

  function Opening(balances: map<OrderId, nat>, inventory: Option<map<Sku, nat>>, clock: int): System {
    System(Desk(map[], map[], L.Books(balances, map[], map[]), Warehouse(inventory, map[])), map[], clock, {}, {})
  }

  function Assessed(caseId: CaseId, plan: Plan): set<(CaseId, Facts)> {
    if plan.RefundPlan? then {(caseId, plan.facts)} else {}
  }

  function FinishCall(d: Desk, call: Call): Reply {
    if call.ApproveCall? then FinishApprove(d, call) else FinishCreate(d, call)
  }

  ghost function Do(s: System, step: Step): System { Act(Wait(s, step.wait), step.op) }

  function Wait(s: System, wait: nat): System { s.(clock := s.clock + wait) }

  ghost function Act(s: System, op: Op): System {
    var d := s.desk;
    match op
    case OpenCase(caseId, owner, order, status, plan) =>
      if caseId in d.cases then s
      else s.(desk := d.(cases := d.cases[caseId := Case(owner, order, status, plan, 1)]),
              assessed := s.assessed + Assessed(caseId, plan))
    case SupplementCase(caseId, actor, listing, order, status, plan) =>
      if caseId in d.cases && d.cases[caseId].owner == actor && Lists(listing, ActiveOf(d, caseId))
      then s.(desk := Supplement(d, caseId, listing, order, status, plan),
              assessed := s.assessed + Assessed(caseId, plan))
      else s
    case CreateNow(id, caseId, actor) =>
      s.(desk := Create(d, id, caseId, actor, s.clock).desk)
    case CreateSplit(call, id, caseId, actor) =>
      if call in s.calls then s
      else (match BeginCreate(d, id, caseId, actor, s.clock)
            case Err(_) => s
            case Ok(started) => s.(desk := d.(books := started.books), calls := s.calls[call := started.call]))
    case ApproveNow(id, actor, role, expected) =>
      s.(desk := Approve(d, id, actor, role, expected, s.clock).desk,
         requests := s.requests + {Request(id, actor, role)})
    case ApproveSplit(call, id, actor, role, expected) =>
      var asked := s.(requests := s.requests + {Request(id, actor, role)});
      if call in s.calls then asked
      else (match BeginApprove(d, id, actor, role, expected, s.clock)
            case Err(_) => asked
            case Ok(started) => asked.(desk := d.(books := started.books), calls := s.calls[call := started.call]))
    case Finish(call) =>
      if call !in s.calls then s
      else s.(desk := FinishCall(d, s.calls[call]).desk, calls := s.calls - {call})
    case RejectNow(id, actor, role, expected, comment) =>
      s.(desk := Reject(d, id, actor, role, expected, comment, s.clock).desk)
    case ExecuteNow(id, role, payload, expected) =>
      s.(desk := Execute(d, id, role, payload, expected, s.clock).desk)
    case ExecuteLost(id, role, payload, expected) =>
      s.(desk := ExecuteUnsaved(d, id, role, payload, expected, s.clock))
    case Sweep(listing) =>
      if Lists(listing, DueSet(d, s.clock)) then s.(desk := ReapAll(d, listing)) else s
  }

  ghost function Run(s: System, steps: seq<Step>): System
    decreases |steps|
  {
    if steps == [] then s else Run(Do(s, steps[0]), steps[1..])
  }

  /** What a caller must respect when handlers overlap. Whole handlers alone always do:
      an approval may be split only if it makes its own reservation, and a supplement may not
      move a case to another order while a creation for it is between its read and its insert.
      An execution whose save is lost is not admissible: the ledger has moved and the record has not. */
  predicate Admissible(s: System, op: Op) {
    match op
    case ApproveSplit(_, id, _, _, _) =>
      id in s.desk.actions ==> !(MovesMoney(s.desk.actions[id]) && s.desk.actions[id].reserved)
    case SupplementCase(caseId, _, _, order, _, _) =>
      forall c :: c in s.calls && s.calls[c].CreateCall? && s.calls[c].draft.caseId == caseId ==>
          s.calls[c].order == order
    case ExecuteLost(_, _, _, _) => false
    case _ => true
  }

  ghost predicate AdmissibleRun(s: System, steps: seq<Step>)
    decreases |steps|
  {
    steps == [] || (Admissible(s, steps[0].op) && AdmissibleRun(Do(s, steps[0]), steps[1..]))
  }

  predicate Whole(op: Op) { !op.ApproveSplit? && !op.CreateSplit? && !op.Finish? && !op.ExecuteLost? }

  // ---- the invariant ----

  ghost predicate RowOk(s: System, id: ActionId)
    requires id in s.desk.actions
  {
    var a := s.desk.actions[id];
    && a.caseId in s.desk.cases
    && (Active(a) ==> a.payload.order == s.desk.cases[a.caseId].order)
    && (a.reserved ==> Active(a) && MovesMoney(a))
    && (a.status == Approved && MovesMoney(a) && !a.reserved ==> a.expiresAt < s.clock)
  }

  ghost predicate RowsOk(s: System) { forall id :: id in s.desk.actions ==> RowOk(s, id) }

  /** No two records share a key, and a case has at most one live record. */
  ghost predicate KeysOk(d: Desk) {
    forall i, j :: i in d.actions && j in d.actions && i != j ==>
      && KeyOf(d.actions[i]) != KeyOf(d.actions[j])
      && !(Active(d.actions[i]) && Active(d.actions[j]) && d.actions[i].caseId == d.actions[j].caseId)
  }

  ghost predicate Receipted(d: Desk, k: Key, id: ActionId)
    requires k in d.books.transactions
  {
    && id in d.actions && KeyOf(d.actions[id]) == k && d.actions[id].status == Completed
    && d.actions[id].reference == Some(MoneyMoved(d.books.transactions[k]))
    && d.books.transactions[k] == L.Receipt(k.payload.order, Amount(d.actions[id]), k)
  }

  /** Every transaction belongs to a completed record that carries it. */
  ghost predicate ReceiptsOk(d: Desk) {
    forall k :: k in d.books.transactions ==> exists id :: Receipted(d, k, id)
  }

  /** A split approval remembers a row that has not changed at its version, and reserved for itself. */
  ghost predicate ApproveCallOk(s: System, c: Call)
    requires c.ApproveCall?
  {
    && c.id in s.desk.actions
    && s.desk.actions[c.id].version >= c.expected
    && (s.desk.actions[c.id].version == c.expected ==> s.desk.actions[c.id] == c.before)
    && c.before.status == PendingApproval && c.before.version == c.expected && !c.before.reserved
    && c.after == c.before.(status := c.after.status, approvers := c.after.approvers,
                            version := c.before.version + 1, reserved := MovesMoney(c.before))
    && c.after.status in {PendingApproval, Approved}
    && c.before.approvers <= c.after.approvers
    && c.order == c.before.payload.order
  }

  ghost predicate CreateCallOk(s: System, c: Call)
    requires c.CreateCall?
  {
    && c.draft.caseId in s.desk.cases
    && s.desk.cases[c.draft.caseId].order == c.order
    && c.draft.payload.order == c.order
    && Active(c.draft)
    && (c.draft.reserved <==> MovesMoney(c.draft) && c.draft.status == Approved)
  }

  ghost predicate CallOk(s: System, c: Call) {
    if c.ApproveCall? then ApproveCallOk(s, c) else CreateCallOk(s, c)
  }

  ghost predicate CallsOk(s: System) { forall c :: c in s.calls ==> CallOk(s, s.calls[c]) }

  ghost predicate Sound(s: System) {
    RowsOk(s) && KeysOk(s.desk) && ReceiptsOk(s.desk) && CallsOk(s)
  }

  // ---- how one record may change ----

  predicate NextStatus(x: Status, y: Status) {
    || x == y
    || (x == PendingApproval && y in {Approved, Rejected})
    || (x == Approved && y in {Completed, Rejected})
  }

  /** Identity, money and approval need are fixed; signatures only grow; a settled record is frozen;
      every write raises the version, except the reaper's, which only clears the reservation flag. */
  predicate Evolves(a: Action, b: Action) {
    && b.caseId == a.caseId && b.payload == a.payload && b.requestedBy == a.requestedBy
    && b.requiredRole == a.requiredRole && b.approversRequired == a.approversRequired && b.expiresAt == a.expiresAt
    && a.approvers <= b.approvers
    && NextStatus(a.status, b.status)
    && (!Active(a) ==> b == a)
    && (b.version > a.version || b == a || (a.reserved && b == a.(reserved := false)))
  }

  predicate SameOrders(c: map<CaseId, Case>, d: map<CaseId, Case>) {
    c.Keys == d.Keys && forall k :: k in c ==> c[k].order == d[k].order
  }

  predicate KeepsOrders(c: map<CaseId, Case>, d: map<CaseId, Case>) {
    forall k :: k in c ==> k in d && d[k].order == c[k].order
  }

  // ---- one write at a time ----

  lemma OtherRowsKept(s: System, t: System, id: ActionId)
    requires RowsOk(s) && id in t.desk.actions && t.desk.actions == s.desk.actions[id := t.desk.actions[id]]
             && RowOk(t, id)
    requires KeepsOrders(s.desk.cases, t.desk.cases) && s.clock <= t.clock
    ensures RowsOk(t)
  {
    forall i | i in t.desk.actions ensures RowOk(t, i) {
      if i != id { assert RowOk(s, i); }
    }
  }

  lemma ReceiptsKept(d: Desk, e: Desk)
    requires ReceiptsOk(d) && e.books.transactions == d.books.transactions
    requires forall id :: id in d.actions && d.actions[id].status == Completed ==>
             id in e.actions && e.actions[id] == d.actions[id]
    ensures ReceiptsOk(e)
  {
    forall k | k in e.books.transactions ensures exists j :: Receipted(e, k, j) {
      var j :| Receipted(d, k, j);
      assert Receipted(e, k, j);
    }
  }

  lemma CallKept(s: System, t: System, c: Call)
    requires CallOk(s, c) && KeepsOrders(s.desk.cases, t.desk.cases)
    requires c.ApproveCall? ==> c.id in t.desk.actions && Evolves(s.desk.actions[c.id], t.desk.actions[c.id])
    ensures CallOk(t, c)
  {
  }

  lemma CallsKept(s: System, t: System)
    requires CallsOk(s) && KeepsOrders(s.desk.cases, t.desk.cases)
    requires forall id :: id in s.desk.actions ==>
             id in t.desk.actions && Evolves(s.desk.actions[id], t.desk.actions[id])
    requires forall c :: c in t.calls ==> c in s.calls && t.calls[c] == s.calls[c]
    ensures CallsOk(t)
  {
    forall c | c in t.calls ensures CallOk(t, t.calls[c]) {
      assert CallOk(s, s.calls[c]);
      CallKept(s, t, s.calls[c]);
    }
  }

  lemma KeysPut(d: Desk, e: Desk, id: ActionId)
    requires KeysOk(d) && id in d.actions && id in e.actions && e.actions == d.actions[id := e.actions[id]]
    requires Evolves(d.actions[id], e.actions[id])
    ensures KeysOk(e)
  {
    assert KeyOf(e.actions[id]) == KeyOf(d.actions[id]);
    assert Active(e.actions[id]) ==> Active(d.actions[id]);
  }

  /** Rewriting one record along Evolves keeps the desk sound. */
  lemma PutKeeps(s: System, t: System, id: ActionId)
    requires Sound(s) && id in s.desk.actions && id in t.desk.actions
    requires t.desk.actions == s.desk.actions[id := t.desk.actions[id]]
    requires Evolves(s.desk.actions[id], t.desk.actions[id])
    requires SameOrders(s.desk.cases, t.desk.cases) && s.clock <= t.clock
    requires RowOk(t, id)
    requires forall c :: c in t.calls ==> c in s.calls && t.calls[c] == s.calls[c]
    requires t.desk.books.transactions == s.desk.books.transactions && s.desk.actions[id].status != Completed
    ensures Sound(t)
  {
    OtherRowsKept(s, t, id);
    ReceiptsKept(s.desk, t.desk);
    CallsKept(s, t);
    KeysPut(s.desk, t.desk, id);
  }

  /** A refund captured and recorded in one go keeps the desk sound. */
  lemma CompleteKeeps(s: System, t: System, id: ActionId)
    requires Sound(s) && id in s.desk.actions && id in t.desk.actions
    requires t.desk.actions == s.desk.actions[id := t.desk.actions[id]]
    requires Evolves(s.desk.actions[id], t.desk.actions[id])
    requires SameOrders(s.desk.cases, t.desk.cases) && s.clock <= t.clock && t.calls == s.calls
    requires s.desk.actions[id].status == Approved && t.desk.actions[id].status == Completed
             && !t.desk.actions[id].reserved
    requires KeyOf(s.desk.actions[id]) !in s.desk.books.transactions
    requires var a := s.desk.actions[id];
             var r := L.Receipt(a.payload.order, Amount(a), KeyOf(a));
             && t.desk.books.transactions == s.desk.books.transactions[KeyOf(a) := r]
             && t.desk.actions[id].reference == Some(MoneyMoved(r))
    ensures Sound(t)
  {
    assert RowOk(t, id) by { assert RowOk(s, id); }
    OtherRowsKept(s, t, id);
    CallsKept(s, t);
    KeysPut(s.desk, t.desk, id);
    ReceiptAdded(s.desk, t.desk, id);
  }

  lemma ReceiptAdded(d: Desk, e: Desk, id: ActionId)
    requires ReceiptsOk(d) && id in d.actions && id in e.actions && e.actions == d.actions[id := e.actions[id]]
    requires d.actions[id].status != Completed
    requires var k := KeyOf(d.actions[id]);
             && k in e.books.transactions && e.books.transactions == d.books.transactions[k := e.books.transactions[k]]
             && Receipted(e, k, id)
    ensures ReceiptsOk(e)
  {
    forall k | k in e.books.transactions ensures exists j :: Receipted(e, k, j) {
      if k == KeyOf(d.actions[id]) {
        assert Receipted(e, k, id);
      } else {
        var j :| Receipted(d, k, j);
        assert Receipted(e, k, j);
      }
    }
  }

  /** Inserting a record the store accepts keeps the desk sound. */
  lemma InsertKeeps(s: System, t: System, id: ActionId, owner: Actor)
    requires Sound(s) && id in t.desk.actions
    requires InsertAccepted(s.desk, id, t.desk.actions[id], owner)
    requires t.desk.actions == s.desk.actions[id := t.desk.actions[id]]
    requires SameOrders(s.desk.cases, t.desk.cases) && s.clock <= t.clock
    requires RowOk(t, id)
    requires forall c :: c in t.calls ==> c in s.calls && t.calls[c] == s.calls[c]
    requires t.desk.books.transactions == s.desk.books.transactions
    ensures Sound(t)
  {
    OtherRowsKept(s, t, id);
    ReceiptsKept(s.desk, t.desk);
    CallsKept(s, t);
  }

  /** Changes that touch no record and no order keep the desk sound. */
  lemma IdleKeeps(s: System, t: System)
    requires Sound(s)
    requires t.desk.actions == s.desk.actions && t.desk.books.transactions == s.desk.books.transactions
    requires KeepsOrders(s.desk.cases, t.desk.cases) && s.clock <= t.clock
    requires forall c :: c in t.calls ==> c in s.calls && t.calls[c] == s.calls[c]
    ensures Sound(t)
  {
    forall i | i in t.desk.actions ensures RowOk(t, i) { assert RowOk(s, i); }
    ReceiptsKept(s.desk, t.desk);
    CallsKept(s, t);
  }

  /** Transactions never name a live record. */
  lemma CapturedIsCompleted(d: Desk, id: ActionId)
    requires KeysOk(d) && ReceiptsOk(d) && id in d.actions
    ensures KeyOf(d.actions[id]) in d.books.transactions ==> d.actions[id].status == Completed
  {
    if KeyOf(d.actions[id]) in d.books.transactions {
      var j :| Receipted(d, KeyOf(d.actions[id]), j);
      assert j == id;
    }
  }
}

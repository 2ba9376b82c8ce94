/** The approval desk as a value: what each handler does to the cases, the action records,
    the refund ledger and the stock (operations.py, repository.py, routers/after_sales.py). */
module Desk {
  import opened Wrappers
  import opened Payloads
  import opened Decision
  import opened Ledger
  import opened Dispatch
  import opened Reverse
  import opened Actions

  datatype CaseStatus =
    | AwaitingClarification | AwaitingMoreEvidence | ReadyForAction
    | CaseInApproval | CaseApproved | CaseRejected | CaseExecuting | CaseCompleted

  /** The stored decision of a case, kept as the facts it was computed from. */
  datatype Plan =
    | NoPlan
    | RefundPlan(facts: Facts)
    | ReversePlan(decision: ReverseDecision, sku: Option<Sku>) // sku: None when the order is unknown

  datatype Case = Case(owner: Actor, order: OrderId, status: CaseStatus, plan: Plan, version: nat)

  datatype Desk = Desk(
    cases: map<CaseId, Case>,
    actions: map<ActionId, Action>,
    books: Books,
    warehouse: Warehouse)

  datatype Reply = Reply(desk: Desk, outcome: Result<Action, Refusal>)

  /** A request between its read and its save: what it read, and what it wants to store. */
  datatype Call =
    | ApproveCall(id: ActionId, before: Action, after: Action, order: OrderId, caseVersion: nat, expected: nat)
    | CreateCall(id: ActionId, draft: Action, order: OrderId, owner: Actor, caseVersion: nat)

  datatype Started = Started(books: Books, call: Call)

  // ---- the store ----

  predicate SaveAccepted(d: Desk, id: ActionId, expected: nat) {
    id in d.actions && d.actions[id].version == expected
  }

  predicate InsertAccepted(d: Desk, id: ActionId, draft: Action, owner: Actor) {
    && draft.caseId in d.cases && d.cases[draft.caseId].owner == owner
    && id !in d.actions
    && (forall other :: other in d.actions ==>
          && KeyOf(d.actions[other]) != KeyOf(draft)
          && !(Active(d.actions[other]) && d.actions[other].caseId == draft.caseId))
  }

  function CaseStatusFor(s: Status): CaseStatus {
    match s
    case PendingApproval => CaseInApproval
    case Approved => CaseApproved
    case Rejected => CaseRejected
    case Completed => CaseCompleted
  }

  /** Version-guarded case update; a case that moved on is left alone. */
  function Touch(d: Desk, caseId: CaseId, expected: nat, status: CaseStatus): Desk {
    if caseId in d.cases && d.cases[caseId].version == expected
    then d.(cases := d.cases[caseId := d.cases[caseId].(status := status, version := expected + 1)])
    else d
  }

  predicate Touches(d: Desk, caseId: CaseId, expected: nat) {
    caseId in d.cases && d.cases[caseId].version == expected
  }

  predicate MovesMoney(a: Action) { a.payload.RefundPayload? }

  // ---- approve ----

  function BeginApprove(d: Desk, id: ActionId, actor: Actor, role: Role, expected: nat,
                        now: int): Result<Started, Refusal> {
    if role != Admin then Err(AdminOnly)
    else if id !in d.actions || d.actions[id].caseId !in d.cases then Err(NotFound)
    else
      var a, c := d.actions[id], d.cases[d.actions[id].caseId];
      if MovesMoney(a) && !a.reserved && Of(d.books.available, a.payload.order) < Amount(a)
      then Err(InsufficientAvailable)
      else
        match ApproveAction(a, actor, role, expected, now)
        case Err(why) => Err(why)
        case Ok(signed) =>
          if MovesMoney(a) && !a.reserved then
            match Reserve(d.books, c.order, Amount(a))
            case None => Err(InsufficientAvailable)
            case Some(books) =>
              Ok(Started(books, ApproveCall(id, a, signed.(reserved := true), c.order, c.version, expected)))
          else
            Ok(Started(d.books, ApproveCall(id, a, signed, c.order, c.version, expected)))
  }

  function FinishApprove(d: Desk, call: Call): Reply
    requires call.ApproveCall?
  {
    if SaveAccepted(d, call.id, call.expected) then
      var saved := d.(actions := d.actions[call.id := call.after]);
      Reply(Touch(saved, call.after.caseId, call.caseVersion, CaseStatusFor(call.after.status)),
            if Touches(saved, call.after.caseId, call.caseVersion) then Ok(call.after) else Err(CaseChanged))
    else if MovesMoney(call.before) && call.after.reserved then
      Reply(d.(books := Release(d.books, call.order, Amount(call.after))), Err(VersionConflict))
    else
      Reply(d, Err(VersionConflict))
  }

  /** The whole handler with nothing in between. */
  function Approve(d: Desk, id: ActionId, actor: Actor, role: Role, expected: nat, now: int): Reply {
    match BeginApprove(d, id, actor, role, expected, now)
    case Err(why) => Reply(d, Err(why))
    case Ok(started) => FinishApprove(d.(books := started.books), started.call)
  }

  // ---- create ----

  function Draft(c: Case, caseId: CaseId, actor: Actor, now: int): Result<Action, Refusal> {
    if c.status != ReadyForAction || c.plan.NoPlan? then Err(CaseNotReady)
    else
      match c.plan
      case ReversePlan(decision, sku) =>
        if decision.action != ResendWithoutReturn then Err(ManualFulfilment)
        else if sku.None? then Err(OrderUnavailable)
        else Ok(CreateResend(caseId, c.order, sku.value, actor, decision.cost, now))
      case RefundPlan(facts) => CreateRefund(caseId, c.order, actor, Decide(facts), now)
  }

  function BeginCreate(d: Desk, id: ActionId, caseId: CaseId, actor: Actor, now: int): Result<Started, Refusal> {
    if caseId !in d.cases || d.cases[caseId].owner != actor then Err(NotFound)
    else
      var c := d.cases[caseId];
      match Draft(c, caseId, actor, now)
      case Err(why) => Err(why)
      case Ok(draft) =>
        if MovesMoney(draft) && draft.status == Approved then
          match Reserve(d.books, c.order, Amount(draft))
          case None => Err(InsufficientAvailable)
          case Some(books) => Ok(Started(books, CreateCall(id, draft.(reserved := true), c.order, actor, c.version)))
        else
          Ok(Started(d.books, CreateCall(id, draft, c.order, actor, c.version)))
  }

  function FinishCreate(d: Desk, call: Call): Reply
    requires call.CreateCall?
  {
    if InsertAccepted(d, call.id, call.draft, call.owner) then
      var saved := d.(actions := d.actions[call.id := call.draft]);
      Reply(Touch(saved, call.draft.caseId, call.caseVersion, CaseStatusFor(call.draft.status)),
            if Touches(saved, call.draft.caseId, call.caseVersion) then Ok(call.draft) else Err(CaseChanged))
    else if MovesMoney(call.draft) && call.draft.reserved then
      Reply(d.(books := Release(d.books, call.order, Amount(call.draft))), Err(ActiveActionExists))
    else
      Reply(d, Err(ActiveActionExists))
  }

  function Create(d: Desk, id: ActionId, caseId: CaseId, actor: Actor, now: int): Reply {
    match BeginCreate(d, id, caseId, actor, now)
    case Err(why) => Reply(d, Err(why))
    case Ok(started) => FinishCreate(d.(books := started.books), started.call)
  }

  // ---- reject ----

  function Reject(d: Desk, id: ActionId, actor: Actor, role: Role, expected: nat, comment: bool, now: int): Reply {
    if role != Admin then Reply(d, Err(AdminOnly))
    else if id !in d.actions || d.actions[id].caseId !in d.cases then Reply(d, Err(NotFound))
    else
      var a, c := d.actions[id], d.cases[d.actions[id].caseId];
      match RejectAction(a, actor, role, expected, now, comment)
      case Err(why) => Reply(d, Err(why))
      case Ok(updated) =>
        var held := MovesMoney(a) && a.reserved;
        var after := if held then updated.(reserved := false) else updated;
        var books := if held then Release(d.books, c.order, Amount(a)) else d.books;
        Reply(Touch(d.(books := books, actions := d.actions[id := after]), a.caseId, c.version, CaseRejected),
              Ok(after))
  }

  // ---- execute ----

  datatype Capture = Capture(books: Books, warehouse: Warehouse, action: Action)

  /** Everything up to the save: guards, then the money or the goods move. */
  function CaptureFor(d: Desk, id: ActionId, role: Role, payload: Payload, expected: nat,
                      now: int): Result<Capture, Refusal> {
    if role != Admin then Err(AdminOnly)
    else if id !in d.actions || d.actions[id].caseId !in d.cases then Err(NotFound)
    else
      var a, c := d.actions[id], d.cases[d.actions[id].caseId];
      if MovesMoney(a) then
        match ExecuteRefund(a, payload, expected, Of(d.books.reserved, c.order), d.books, now)
        case Err(why) => Err(why)
        case Ok(paid) => Ok(Capture(paid.books, d.warehouse, paid.action.(reserved := false)))
      else
        match ExecuteResend(a, payload, expected, d.warehouse, now)
        case Err(why) => Err(why)
        case Ok(sent) => Ok(Capture(d.books, sent.warehouse, sent.action))
  }

  function Execute(d: Desk, id: ActionId, role: Role, payload: Payload, expected: nat, now: int): Reply {
    match CaptureFor(d, id, role, payload, expected, now)
    case Err(why) => Reply(d, Err(why))
    case Ok(done) =>
      var moved := d.(books := done.books, warehouse := done.warehouse, actions := d.actions[id := done.action]);
      var c := d.cases[done.action.caseId];
      var shown := if MovesMoney(done.action) then CaseExecuting else CaseCompleted;
      Reply(Touch(moved, done.action.caseId, c.version, shown), Ok(done.action))
  }

  /** The same request when its save never reaches the store: the ledger keeps the transaction. */
  function ExecuteUnsaved(d: Desk, id: ActionId, role: Role, payload: Payload, expected: nat, now: int): Desk {
    match CaptureFor(d, id, role, payload, expected, now)
    case Err(why) => d
    case Ok(done) => d.(books := done.books, warehouse := done.warehouse)
  }

  // ---- supplement ----

  ghost predicate Lists<T(!new)>(listing: seq<T>, members: set<T>) {
    && (forall x :: x in listing <==> x in members)
    && (forall i, j :: 0 <= i < j < |listing| ==> listing[i] != listing[j])
  }

  function ActiveOf(d: Desk, caseId: CaseId): set<ActionId> {
    set id | id in d.actions && d.actions[id].caseId == caseId && Active(d.actions[id])
  }

  /** One invalidated action: rejected, and its reservation given back with a second save. */
  function Invalidated(a: Action): Action {
    if MovesMoney(a) && a.reserved
    then a.(status := Rejected, reserved := false, version := a.version + 2)
    else a.(status := Rejected, version := a.version + 1)
  }

  function InvalidateOne(d: Desk, id: ActionId): Desk {
    if id !in d.actions || d.actions[id].caseId !in d.cases then d
    else
      var a := d.actions[id];
      var order := d.cases[a.caseId].order;
      d.(actions := d.actions[id := Invalidated(a)],
         books := if MovesMoney(a) && a.reserved then Release(d.books, order, Amount(a)) else d.books)
  }

  function InvalidateAll(d: Desk, listing: seq<ActionId>): Desk
    decreases |listing|
  {
    if listing == [] then d else InvalidateAll(InvalidateOne(d, listing[0]), listing[1..])
  }

  /** New facts replace the case's order, status and decision, and retire its active action. */
  function Supplement(d: Desk, caseId: CaseId, listing: seq<ActionId>, order: OrderId, status: CaseStatus,
                      plan: Plan): Desk
    requires caseId in d.cases
  {
    var cleared := InvalidateAll(d, listing);
    var c := d.cases[caseId];
    cleared.(cases := d.cases[caseId := Case(c.owner, order, status, plan, c.version + 1)])
  }

  // ---- the reaper ----

  predicate Due(a: Action, now: int) { a.reserved && Active(a) && a.expiresAt < now }

  function DueSet(d: Desk, now: int): set<ActionId> {
    set id | id in d.actions && Due(d.actions[id], now)
  }

  function ReapOne(d: Desk, id: ActionId): Desk {
    if id !in d.actions || d.actions[id].caseId !in d.cases then d
    else
      var a := d.actions[id];
      d.(books := Release(d.books, d.cases[a.caseId].order, Amount(a)),
         actions := d.actions[id := a.(reserved := false)])
  }

  function ReapAll(d: Desk, listing: seq<ActionId>): Desk
    decreases |listing|
  {
    if listing == [] then d else ReapAll(ReapOne(d, listing[0]), listing[1..])
  }
}

/** The persisted action record and its state machine (backend/app/after_sales/actions.py). */
module Actions {
  import opened Wrappers
  import opened Payloads
  import opened Decision
  import opened Ledger
  import opened Dispatch
  import opened RiskScoring

  datatype Status = PendingApproval | Approved | Rejected | Completed

  datatype Role = Admin | User

  datatype Reference = MoneyMoved(receipt: Receipt) | GoodsSent(shipment: Shipment)

  datatype Action = Action(
    caseId: CaseId,
    payload: Payload,
    status: Status,
    requestedBy: Actor,
    requiredRole: Role,
    approvers: seq<Actor>,
    approversRequired: nat,
    expiresAt: int,
    reserved: bool,
    version: nat,
    reference: Option<Reference>)

  datatype Refusal =
    | NotFound | AdminOnly
    | NotPending | NotApproved | VersionConflict | Expired
    | MissingRole | OwnRequest | AlreadySigned
    | PayloadMismatch | ReturnRequired | BalanceChanged | InsufficientReserve | InsufficientAvailable
    | OutOfStockNow | CaseNotReady | NotEligible | NoExecutableRefund | ManualFulfilment | OrderUnavailable
    | ActiveActionExists | CaseChanged | BlankComment

  const TTL := 24 * 3600

  function KeyOf(a: Action): Key { Key(a.caseId, a.payload) }

  predicate Active(a: Action) { a.status in {PendingApproval, Approved} }

  /** The money an action would move; a resend moves none. */
  function Amount(a: Action): nat {
    match a.payload case RefundPayload(_, amount, _) => amount case ResendPayload(_, _, _) => 0
  }

  function CreateRefund(caseId: CaseId, order: OrderId, requester: Actor, d: Resolution,
                        now: int): Result<Action, Refusal> {
    if d.eligibility !in {Eligible, EligibleWithApproval} then Err(NotEligible)
    else if d.action == ManualReview || d.refundAmount == 0 then Err(NoExecutableRefund)
    else
      Ok(Action(caseId,
                RefundPayload(order, d.refundAmount, d.action == ReturnAndRefund),
                if !d.approvalRequired && d.level != High then Approved else PendingApproval,
                requester, Admin, [], if d.tier == FourEyes then 2 else 1, now + TTL, false, 1, None))
  }

  function CreateResend(caseId: CaseId, order: OrderId, sku: Sku, requester: Actor, cost: nat, now: int): Action {
    Action(caseId, ResendPayload(order, sku, cost), PendingApproval, requester, Admin, [], 1, now + TTL, false, 1, None)
  }

  /** The checks shared by approval and rejection, in order. */
  function CheckDecision(a: Action, actor: Actor, role: Role, expected: nat, now: int): Option<Refusal> {
    if a.status != PendingApproval then Some(NotPending)
    else if a.version != expected then Some(VersionConflict)
    else if now >= a.expiresAt then Some(Expired)
    else if a.requiredRole != role then Some(MissingRole)
    else if a.requestedBy == actor then Some(OwnRequest)
    else None
  }

  function ApproveAction(a: Action, actor: Actor, role: Role, expected: nat, now: int): Result<Action, Refusal> {
    match CheckDecision(a, actor, role, expected, now)
    case Some(why) => Err(why)
    case None =>
      if actor in a.approvers then Err(AlreadySigned)
      else
        var signers := a.approvers + [actor];
        Ok(a.(status := if |signers| >= a.approversRequired then Approved else PendingApproval,
              approvers := signers, version := a.version + 1))
  }

  function RejectAction(a: Action, actor: Actor, role: Role, expected: nat, now: int,
                        comment: bool): Result<Action, Refusal> {
    if !comment then Err(BlankComment)
    else
      match CheckDecision(a, actor, role, expected, now)
      case Some(why) => Err(why)
      case None => Ok(a.(status := Rejected, version := a.version + 1))
  }

  /** Guards of execution, in order, before any money or stock is touched. */
  function CheckExecution(a: Action, payload: Payload, expected: nat, now: int): Option<Refusal> {
    if a.status != Approved then Some(NotApproved)
    else if a.version != expected then Some(VersionConflict)
    else if now >= a.expiresAt then Some(Expired)
    else if payload != a.payload then Some(PayloadMismatch)
    else None
  }

  function CompletedWith(a: Action, r: Reference): Action {
    a.(status := Completed, reference := Some(r), version := a.version + 1)
  }

  datatype Paid = Paid(books: Books, action: Action)

  function ExecuteRefund(a: Action, payload: Payload, expected: nat, balance: nat, b: Books,
                         now: int): Result<Paid, Refusal>
    requires a.payload.RefundPayload?
  {
    match CheckExecution(a, payload, expected, now)
    case Some(why) => Err(why)
    case None =>
      if a.payload.requiresReturn then Err(ReturnRequired)
      else if KeyOf(a) !in b.transactions && balance < a.payload.amount then Err(BalanceChanged)
      else
        match Refund(b, a.payload.order, a.payload.amount, KeyOf(a))
        case None => Err(InsufficientReserve)
        case Some((b', receipt)) => Ok(Paid(b', CompletedWith(a, MoneyMoved(receipt))))
  }

  datatype Sent = Sent(warehouse: Warehouse, action: Action)

  function ExecuteResend(a: Action, payload: Payload, expected: nat, w: Warehouse, now: int): Result<Sent, Refusal>
    requires a.payload.ResendPayload?
  {
    match CheckExecution(a, payload, expected, now)
    case Some(why) => Err(why)
    case None =>
      match DispatchOnce(w, a.payload.order, a.payload.sku, RESEND, KeyOf(a))
      case None => Err(OutOfStockNow)
      case Some((w', shipment)) => Ok(Sent(w', CompletedWith(a, GoodsSent(shipment))))
  }
}

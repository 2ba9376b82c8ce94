/** What each request does, stated on the facts of the case and the record: when it goes through, what it
    writes, and why it is refused. */
module Outcomes {
  import opened Wrappers
  import opened Payloads
  import opened Decision
  import opened RiskScoring
  import opened Actions
  import L = Ledger
  import opened Dispatch
  import opened Reverse
  import opened Desk
  import opened Protocol
  import opened Agreement

  // ---- drafting ----

  /** A case can be turned into a record exactly when it is ready and its plan is a claim that is paid, or a
      returnless resend of a known item. */
  lemma DraftedExactly(c: Case, caseId: CaseId, actor: Actor, now: int)
    ensures Draft(c, caseId, actor, now).Ok? <==>
              && c.status == ReadyForAction
              && match c.plan
                 case NoPlan => false
                 case ReversePlan(decision, sku) => decision.action == ResendWithoutReturn && sku.Some?
                 case RefundPlan(f) =>
                   f.issue in f.policy.covered && !LacksEvidence(f) && f.balance > 0 && Asked(f) > 0
  {
    if c.plan.RefundPlan? {
      DecidedOnFacts(c.plan.facts);
      DraftedRefund(c.plan.facts, caseId, c.order, actor, now);
    }
  }

  lemma DraftedRefund(f: Facts, caseId: CaseId, order: OrderId, actor: Actor, now: int)
    ensures CreateRefund(caseId, order, actor, Decide(f), now).Ok? <==>
              f.issue in f.policy.covered && !LacksEvidence(f) && f.balance > 0 && Asked(f) > 0
  {
    DecidedOnFacts(f);
    if f.issue in f.policy.covered && !LacksEvidence(f) && f.balance > 0 { PaidOnFacts(f); }
  }

  /** The draft of a paid claim: the lesser of what was asked and what is left, on the case's order, held back
      exactly when the goods must return; approved at once exactly when it is within both limits at low risk,
      and needing two signatures exactly when it is high risk and at least half a million. */
  lemma RefundDraft(c: Case, caseId: CaseId, actor: Actor, now: int)
    requires c.plan.RefundPlan? && Draft(c, caseId, actor, now).Ok?
    ensures var f, a := c.plan.facts, Draft(c, caseId, actor, now).value;
            var amount := if f.balance < Asked(f) then f.balance else Asked(f);
            && a.payload == RefundPayload(c.order, amount, f.issue in f.policy.returnRequired)
            && a.status == (if && amount <= f.operatorLimit && amount < f.policy.manualReviewAmount
                               && Decide(f).level == Low
                            then Approved else PendingApproval)
            && a.approversRequired == (if Decide(f).level == High && amount >= 500_000 then 2 else 1)
            && a == Action(caseId, a.payload, a.status, actor, Admin, [], a.approversRequired, now + 86_400, false,
                           1, None)
  {
    DraftedExactly(c, caseId, actor, now);
    PaidOnFacts(c.plan.facts);
    NoReasonApplies(c.plan.facts);
  }

  /** A paid claim needs no approval exactly when it is within both limits at low risk. */
  lemma NoReasonApplies(f: Facts)
    requires f.issue in f.policy.covered && !LacksEvidence(f) && f.balance > 0
    ensures var d := Decide(f);
            !d.approvalRequired <==>
              d.refundAmount <= f.operatorLimit && d.refundAmount < f.policy.manualReviewAmount && d.level == Low
  {
    PaidOnFacts(f);
    var d := Decide(f);
    if d.approvalReasons != [] {
      var r := d.approvalReasons[0];
      assert r in d.approvalReasons;
    }
  }

  /** The draft of a resend: the planned item on the case's order, waiting for one signature. */
  lemma ResendDraft(c: Case, caseId: CaseId, actor: Actor, now: int)
    requires c.plan.ReversePlan? && Draft(c, caseId, actor, now).Ok?
    ensures Draft(c, caseId, actor, now).value
         == Action(caseId, ResendPayload(c.order, c.plan.sku.value, c.plan.decision.cost), PendingApproval,
                   actor, Admin, [], 1, now + 86_400, false, 1, None)
  {
  }

  /** A creation goes through exactly when the case is the requester's own and can be drafted, its record would
      be the case's only live one and the only one for its payload, and a refund that needs no signature finds
      its money; the record stored is the draft, funded if it is a refund that needs no signature. */
  lemma CreationSucceedsExactly(d: Desk, id: ActionId, caseId: CaseId, actor: Actor, now: int)
    ensures var r := Create(d, id, caseId, actor, now);
            r.outcome.Ok? <==>
              && caseId in d.cases && d.cases[caseId].owner == actor && id !in d.actions
              && Draft(d.cases[caseId], caseId, actor, now).Ok?
              && var a := Draft(d.cases[caseId], caseId, actor, now).value;
              && (forall k :: k in d.actions && d.actions[k].caseId == caseId ==>
                    d.actions[k].status in {Rejected, Completed} && d.actions[k].payload != a.payload)
              && (MovesMoney(a) && a.status == Approved ==>
                    a.payload.amount <= L.Of(d.books.available, d.cases[caseId].order))
    ensures var r := Create(d, id, caseId, actor, now);
            r.outcome.Ok? ==>
              var a := Draft(d.cases[caseId], caseId, actor, now).value;
              r.outcome.value == a.(reserved := MovesMoney(a) && a.status == Approved)
  {
    if caseId in d.cases && d.cases[caseId].owner == actor && Draft(d.cases[caseId], caseId, actor, now).Ok? {
      var a := Draft(d.cases[caseId], caseId, actor, now).value;
      DraftIsItsCases(d.cases[caseId], caseId, actor, now);
      InsertedExactly(d, id, a, actor);
      InsertedExactly(d, id, a.(reserved := true), actor);
      CreatedExactly(d, id, caseId, actor, now);
    }
  }

  lemma DraftIsItsCases(c: Case, caseId: CaseId, actor: Actor, now: int)
    requires Draft(c, caseId, actor, now).Ok?
    ensures var a := Draft(c, caseId, actor, now).value; a.caseId == caseId && a.payload.order == c.order && !a.reserved
  {
  }

  lemma InsertedExactly(d: Desk, id: ActionId, a: Action, owner: Actor)
    requires a.caseId in d.cases && d.cases[a.caseId].owner == owner
    ensures InsertAccepted(d, id, a, owner) <==>
              && id !in d.actions
              && (forall k :: k in d.actions && d.actions[k].caseId == a.caseId ==>
                    d.actions[k].status in {Rejected, Completed} && d.actions[k].payload != a.payload)
  {
    forall k | k in d.actions
      ensures (KeyOf(d.actions[k]) != KeyOf(a) && !(Active(d.actions[k]) && d.actions[k].caseId == a.caseId))
         <==> (d.actions[k].caseId == a.caseId ==>
                 d.actions[k].status in {Rejected, Completed} && d.actions[k].payload != a.payload)
    {
      LiveOrSettled(d.actions[k]);
      assert KeyOf(d.actions[k]) == KeyOf(a) <==> d.actions[k].caseId == a.caseId && d.actions[k].payload == a.payload;
    }
  }

  lemma LiveOrSettled(a: Action)
    ensures Active(a) <==> !(a.status in {Rejected, Completed})
  {
    assert a.status.PendingApproval? || a.status.Approved? || a.status.Rejected? || a.status.Completed?;
  }

  /** Creation in terms of the store's answer. */
  lemma CreatedExactly(d: Desk, id: ActionId, caseId: CaseId, actor: Actor, now: int)
    requires caseId in d.cases && d.cases[caseId].owner == actor && Draft(d.cases[caseId], caseId, actor, now).Ok?
    ensures var r := Create(d, id, caseId, actor, now);
            var a := Draft(d.cases[caseId], caseId, actor, now).value;
            var funded := MovesMoney(a) && a.status == Approved;
            && (r.outcome.Ok? <==>
                  && InsertAccepted(d, id, a.(reserved := funded || a.reserved), actor)
                  && (funded ==> a.payload.amount <= L.Of(d.books.available, d.cases[caseId].order)))
            && (r.outcome.Ok? ==> r.outcome.value == a.(reserved := funded || a.reserved))
  {
    var a := Draft(d.cases[caseId], caseId, actor, now).value;
    DraftIsItsCases(d.cases[caseId], caseId, actor, now);
    var begun := BeginCreate(d, id, caseId, actor, now);
    if begun.Ok? { InsertIgnoresBooks(d, begun.value.books, id, begun.value.call.draft, actor); }
  }

  lemma InsertIgnoresBooks(d: Desk, books: L.Books, id: ActionId, a: Action, owner: Actor)
    ensures InsertAccepted(d.(books := books), id, a, owner) <==> InsertAccepted(d, id, a, owner)
  {
  }

  // ---- signing and rejecting ----

  /** What an accepted signature writes. */
  lemma SignedExactly(d: Desk, id: ActionId, actor: Actor, role: Role, expected: nat, now: int)
    requires Approve(d, id, actor, role, expected, now).outcome.Ok?
    ensures var r, a := Approve(d, id, actor, role, expected, now), d.actions[id];
            var enough := |a.approvers| + 1 >= a.approversRequired;
            && r.outcome.value == a.(status := if enough then Approved else PendingApproval,
                                     approvers := a.approvers + [actor], version := a.version + 1,
                                     reserved := a.reserved || MovesMoney(a))
            && r.desk.actions == d.actions[id := r.outcome.value] && r.desk.warehouse == d.warehouse
            && (if MovesMoney(a) && !a.reserved
                then Some(r.desk.books) == L.Reserve(d.books, d.cases[a.caseId].order, a.payload.amount)
                else r.desk.books == d.books)
  {
  }

  /** On any desk at all, agreed or not: a signature is accepted exactly when the request is in order and an
      unfunded refund fits both what the order it names and what its case's order have available. */
  lemma SigningOnAnyDesk(d: Desk, id: ActionId, actor: Actor, role: Role, expected: nat, now: int)
    ensures Approve(d, id, actor, role, expected, now).outcome.Ok? <==>
              && role == Admin && id in d.actions && d.actions[id].caseId in d.cases
              && var a := d.actions[id];
              && a.status == PendingApproval && a.version == expected && now < a.expiresAt && a.requiredRole == Admin
              && actor != a.requestedBy && actor !in a.approvers
              && (MovesMoney(a) && !a.reserved ==>
                    && a.payload.amount <= L.Of(d.books.available, a.payload.order)
                    && a.payload.amount <= L.Of(d.books.available, d.cases[a.caseId].order))
  {
  }

  /** A rejection is accepted exactly when an administrator other than the requester, with a comment and the
      current version, rejects a waiting record before its deadline. */
  lemma RejectionSucceedsExactly(d: Desk, id: ActionId, actor: Actor, role: Role, expected: nat, comment: bool,
                                 now: int)
    ensures Reject(d, id, actor, role, expected, comment, now).outcome.Ok? <==>
              && role == Admin && id in d.actions && d.actions[id].caseId in d.cases
              && var a := d.actions[id];
              && comment && a.status == PendingApproval && a.version == expected && now < a.expiresAt
              && a.requiredRole == Admin && actor != a.requestedBy
  {
  }

  /** What an accepted rejection writes: the record rejected and unfunded, its money back on the case's order. */
  lemma RejectedExactly(d: Desk, id: ActionId, actor: Actor, role: Role, expected: nat, comment: bool, now: int)
    requires Reject(d, id, actor, role, expected, comment, now).outcome.Ok?
    requires d.actions[id].reserved ==> MovesMoney(d.actions[id])
    ensures var r, a := Reject(d, id, actor, role, expected, comment, now), d.actions[id];
            && r.outcome.value == a.(status := Rejected, version := a.version + 1, reserved := false)
            && r.desk.actions == d.actions[id := r.outcome.value] && r.desk.warehouse == d.warehouse
            && r.desk.books == if a.reserved
                               then L.Release(d.books, d.cases[a.caseId].order, a.payload.amount) else d.books
  {
  }

  // ---- executing ----

  /** A resend executes exactly when the request is in order and the item is on the shelf, unless it was sent
      already or stock is not tracked. */
  lemma ResendSucceedsExactly(d: Desk, id: ActionId, role: Role, payload: Payload, expected: nat, now: int)
    requires id in d.actions && d.actions[id].caseId in d.cases && !MovesMoney(d.actions[id])
    ensures var a := d.actions[id];
            Execute(d, id, role, payload, expected, now).outcome.Ok? <==>
              && role == Admin && a.status == Approved && a.version == expected && now < a.expiresAt
              && payload == a.payload
              && (|| KeyOf(a) in d.warehouse.outbound || d.warehouse.inventory.None?
                  || Stock(d.warehouse.inventory.value, a.payload.sku) >= 1)
  {
    var a := d.actions[id];
    DispatchMoves(d.warehouse, a.payload.order, a.payload.sku, RESEND, KeyOf(a), a.payload.sku);
  }

  /** An executed resend takes one unit of its own item off a tracked shelf, once per key, and the record
      carries the reference of a resend of that item on that order. */
  lemma ResendTakesOneUnit(d: Desk, id: ActionId, role: Role, payload: Payload, expected: nat, now: int, other: Sku)
    requires Execute(d, id, role, payload, expected, now).outcome.Ok? && !MovesMoney(d.actions[id])
    ensures var r, a := Execute(d, id, role, payload, expected, now), d.actions[id];
            var w, u := d.warehouse, r.desk.warehouse;
            && r.desk.books == d.books && r.outcome.value.status == Completed
            && (u.inventory.Some? <==> w.inventory.Some?)
            && (KeyOf(a) !in w.outbound ==>
                  && r.outcome.value.reference
                     == Some(GoodsSent(Shipment(a.payload.order, a.payload.sku, "resend", KeyOf(a))))
                  && (w.inventory.Some? ==>
                        Stock(u.inventory.value, other)
                        == Stock(w.inventory.value, other) - (if other == a.payload.sku then 1 else 0)))
            && (KeyOf(a) in w.outbound ==>
                  u == w && r.outcome.value.reference == Some(GoodsSent(w.outbound[KeyOf(a)])))
  {
    var a := d.actions[id];
    DispatchMoves(d.warehouse, a.payload.order, a.payload.sku, RESEND, KeyOf(a), other);
  }

  /** On any desk at all: a refund executes exactly when the request is in order, wants no goods back, and was
      either paid already or finds its amount frozen on both its own and its case's order. */
  lemma RefundOnAnyDesk(d: Desk, id: ActionId, role: Role, payload: Payload, expected: nat, now: int)
    requires id in d.actions && MovesMoney(d.actions[id])
    ensures var a := d.actions[id];
            Execute(d, id, role, payload, expected, now).outcome.Ok? <==>
              && role == Admin && a.caseId in d.cases && a.status == Approved && a.version == expected
              && now < a.expiresAt && payload == a.payload && !a.payload.requiresReturn
              && (KeyOf(a) in d.books.transactions
                  || (&& a.payload.amount <= L.Of(d.books.reserved, d.cases[a.caseId].order)
                      && a.payload.amount <= L.Of(d.books.reserved, a.payload.order)))
  {
  }

  /** What an executed refund writes: the record completed and no longer holding money, with the receipt of its
      own payment; the stock is not touched. */
  lemma RefundPaysExactly(d: Desk, id: ActionId, role: Role, payload: Payload, expected: nat, now: int)
    requires Execute(d, id, role, payload, expected, now).outcome.Ok? && MovesMoney(d.actions[id])
    ensures var r, a := Execute(d, id, role, payload, expected, now), d.actions[id];
            && r.desk.warehouse == d.warehouse && !a.payload.requiresReturn && KeyOf(a) in r.desk.books.transactions
            && r.outcome.value == a.(status := Completed, version := a.version + 1, reserved := false,
                                     reference := Some(MoneyMoved(r.desk.books.transactions[KeyOf(a)])))
            && (if KeyOf(a) in d.books.transactions then r.desk.books == d.books
                else && r.desk.books.transactions[KeyOf(a)] == L.Receipt(a.payload.order, a.payload.amount, KeyOf(a))
                     && r.desk.books.available == d.books.available
                     && L.Of(r.desk.books.reserved, a.payload.order) + a.payload.amount
                        == L.Of(d.books.reserved, a.payload.order))
  {
  }

  // ---- supplementing ----

  /** A supplement gives its case exactly the order, status and decision it brings, rejects and unfunds exactly
      the case's live records, and leaves every other case and record alone. */
  lemma SupplementedExactly(d: Desk, caseId: CaseId, listing: seq<ActionId>, order: OrderId, status: CaseStatus,
                            plan: Plan)
    requires caseId in d.cases && Lists(listing, ActiveOf(d, caseId))
    requires forall id :: id in d.actions && d.actions[id].reserved ==> MovesMoney(d.actions[id])
    ensures var e := Supplement(d, caseId, listing, order, status, plan);
            var c := d.cases[caseId];
            && e.cases == d.cases[caseId := Case(c.owner, order, status, plan, c.version + 1)]
            && e.actions.Keys == d.actions.Keys
            && (forall id :: id in d.actions ==>
                  var a := d.actions[id];
                  e.actions[id] == if a.caseId == caseId && a.status in {PendingApproval, Approved}
                                   then a.(status := Rejected, reserved := false,
                                           version := a.version + if a.reserved then 2 else 1)
                                   else a)
  {
    forall id | id in listing ensures id in d.actions && d.actions[id].caseId in d.cases {
      assert id in ActiveOf(d, caseId);
    }
    InvalidateAllRows(d, listing);
    forall id | id in d.actions ensures id in listing <==> id in ActiveOf(d, caseId) {
    }
  }

  /** The next record drafted after a supplement is the one its new decision calls for. */
  lemma SupplementIsDrafted(d: Desk, caseId: CaseId, listing: seq<ActionId>, order: OrderId, f: Facts, now: int)
    requires caseId in d.cases
    ensures var e := Supplement(d, caseId, listing, order, ReadyForAction, RefundPlan(f));
            var owner := d.cases[caseId].owner;
            Draft(e.cases[caseId], caseId, owner, now) == CreateRefund(caseId, order, owner, Decide(f), now)
  {
  }

  lemma SupplementIsResent(d: Desk, caseId: CaseId, listing: seq<ActionId>, order: OrderId, decision: ReverseDecision,
                           sku: Sku, now: int)
    requires caseId in d.cases && decision.action == ResendWithoutReturn
    ensures var e := Supplement(d, caseId, listing, order, ReadyForAction, ReversePlan(decision, Some(sku)));
            var owner := d.cases[caseId].owner;
            Draft(e.cases[caseId], caseId, owner, now)
            == Ok(CreateResend(caseId, order, sku, owner, decision.cost, now))
  {
  }

  // ---- saves that come late ----

  /** A split signature or creation that is saved marks its case exactly when the case is as it was read; a case
      that moved on keeps its status, and no other case changes. */
  lemma LateSaveMarksCase(d: Desk, c: Call)
    requires if c.ApproveCall? then SaveAccepted(d, c.id, c.expected) else InsertAccepted(d, c.id, c.draft, c.owner)
    ensures var e := FinishCall(d, c).desk;
            var a := if c.ApproveCall? then c.after else c.draft;
            && e.actions == d.actions[c.id := a] && e.books == d.books && e.warehouse == d.warehouse
            && (if a.caseId in d.cases && d.cases[a.caseId].version == c.caseVersion
                then e.cases == d.cases[a.caseId := d.cases[a.caseId].(status := CaseStatusFor(a.status),
                                                                      version := c.caseVersion + 1)]
                else e.cases == d.cases)
  {
  }

  // ---- requests as steps of a run ----

  /** A step of a run leaves the desk exactly as the request it stands for does. */
  lemma StepsAreRequests(s: System, id: ActionId, caseId: CaseId, actor: Actor, role: Role, payload: Payload,
                         expected: nat, comment: bool)
    ensures Do(s, Step(0, CreateNow(id, caseId, actor))).desk == Create(s.desk, id, caseId, actor, s.clock).desk
    ensures Do(s, Step(0, ApproveNow(id, actor, role, expected))).desk
         == Approve(s.desk, id, actor, role, expected, s.clock).desk
    ensures Do(s, Step(0, RejectNow(id, actor, role, expected, comment))).desk
         == Reject(s.desk, id, actor, role, expected, comment, s.clock).desk
    ensures Do(s, Step(0, ExecuteNow(id, role, payload, expected))).desk
         == Execute(s.desk, id, role, payload, expected, s.clock).desk
    ensures Do(s, Step(0, ExecuteLost(id, role, payload, expected))).desk.actions == s.desk.actions
    ensures Do(s, Step(0, ExecuteLost(id, role, payload, expected))).desk.books
         == Execute(s.desk, id, role, payload, expected, s.clock).desk.books
  {
    assert Wait(s, 0) == s;
  }

  /** A supplement by its owner and a sweep do the same with the listing they were given, after the time they waited. */
  lemma ListingStepsAreRequests(s: System, wait: nat, caseId: CaseId, listing: seq<ActionId>, order: OrderId,
                                status: CaseStatus, plan: Plan)
    ensures caseId in s.desk.cases && Lists(listing, ActiveOf(s.desk, caseId)) ==>
              Do(s, Step(wait, SupplementCase(caseId, s.desk.cases[caseId].owner, listing, order, status, plan))).desk
              == Supplement(s.desk, caseId, listing, order, status, plan)
    ensures Lists(listing, DueSet(s.desk, s.clock + wait)) ==>
              && Do(s, Step(wait, Sweep(listing))).desk == ReapAll(s.desk, listing)
              && Do(s, Step(wait, Sweep(listing))).clock == s.clock + wait
  {
  }

  /** A split request begun and finished with nothing in between is the whole request. */
  lemma SplitThenFinished(s: System, call: CallId, id: ActionId, caseId: CaseId, actor: Actor, role: Role,
                          expected: nat)
    requires call !in s.calls
    ensures Do(Do(s, Step(0, CreateSplit(call, id, caseId, actor))), Step(0, Finish(call))).desk
         == Create(s.desk, id, caseId, actor, s.clock).desk
    ensures Do(Do(s, Step(0, ApproveSplit(call, id, actor, role, expected))), Step(0, Finish(call))).desk
         == Approve(s.desk, id, actor, role, expected, s.clock).desk
  {
    assert Wait(s, 0) == s;
  }

  // ---- why requests are refused ----

  /** A refusal that a signature, a rejection or an execution of the record can meet is only given when it is true. */
  predicate Truthful(why: Refusal, d: Desk, id: ActionId, actor: Actor, role: Role, expected: nat, now: int) {
    match why
    case AdminOnly => role != Admin
    case NotFound => id !in d.actions || d.actions[id].caseId !in d.cases
    case NotPending => id in d.actions && d.actions[id].status != PendingApproval
    case NotApproved => id in d.actions && d.actions[id].status != Approved
    case VersionConflict => id in d.actions && d.actions[id].version != expected
    case Expired => id in d.actions && now >= d.actions[id].expiresAt
    case MissingRole => id in d.actions && d.actions[id].requiredRole != role
    case OwnRequest => id in d.actions && d.actions[id].requestedBy == actor
    case AlreadySigned => id in d.actions && actor in d.actions[id].approvers
    case InsufficientAvailable =>
      && id in d.actions && d.actions[id].caseId in d.cases && MovesMoney(d.actions[id]) && !d.actions[id].reserved
      && (|| L.Of(d.books.available, d.actions[id].payload.order) < Amount(d.actions[id])
          || L.Of(d.books.available, d.cases[d.actions[id].caseId].order) < Amount(d.actions[id]))
    case BalanceChanged =>
      && id in d.actions && d.actions[id].caseId in d.cases && KeyOf(d.actions[id]) !in d.books.transactions
      && L.Of(d.books.reserved, d.cases[d.actions[id].caseId].order) < Amount(d.actions[id])
    case InsufficientReserve =>
      && id in d.actions && KeyOf(d.actions[id]) !in d.books.transactions
      && L.Of(d.books.reserved, d.actions[id].payload.order) < Amount(d.actions[id])
    case OutOfStockNow =>
      && id in d.actions && d.actions[id].payload.ResendPayload? && d.warehouse.inventory.Some?
      && Stock(d.warehouse.inventory.value, d.actions[id].payload.sku) == 0
    case ReturnRequired => id in d.actions && MovesMoney(d.actions[id]) && d.actions[id].payload.requiresReturn
    case _ => false
  }

  lemma SigningRefusedTruthfully(d: Desk, id: ActionId, actor: Actor, role: Role, expected: nat, now: int)
    ensures var r := Approve(d, id, actor, role, expected, now).outcome;
            r.Err? ==> Truthful(r.error, d, id, actor, role, expected, now)
  {
  }

  lemma RejectionRefusedTruthfully(d: Desk, id: ActionId, actor: Actor, role: Role, expected: nat, comment: bool,
                                   now: int)
    ensures var r := Reject(d, id, actor, role, expected, comment, now).outcome;
            r.Err? ==> if r.error == BlankComment then !comment
                else Truthful(r.error, d, id, actor, role, expected, now)
  {
  }

  lemma ExecutionRefusedTruthfully(d: Desk, id: ActionId, actor: Actor, role: Role, payload: Payload, expected: nat,
                                   now: int)
    ensures var r := Execute(d, id, role, payload, expected, now).outcome;
            r.Err? ==> if r.error == PayloadMismatch then id in d.actions && payload != d.actions[id].payload
                       else Truthful(r.error, d, id, actor, role, expected, now)
  {
  }

  /** A case that cannot be drafted says why. */
  lemma DraftRefusedTruthfully(c: Case, caseId: CaseId, actor: Actor, now: int)
    requires Draft(c, caseId, actor, now).Err?
    ensures match Draft(c, caseId, actor, now).error
            case CaseNotReady => c.status != ReadyForAction || c.plan.NoPlan?
            case ManualFulfilment => c.plan.ReversePlan? && c.plan.decision.action != ResendWithoutReturn
            case OrderUnavailable => c.plan.ReversePlan? && c.plan.sku.None?
            case NotEligible => c.plan.RefundPlan? && Decide(c.plan.facts).reason != PolicyMatched
            case NoExecutableRefund => c.plan.RefundPlan? && Decide(c.plan.facts).refundAmount == 0
            case _ => false
  {
    if c.status == ReadyForAction && c.plan.RefundPlan? {
      RefundRefusedTruthfully(c.plan.facts, caseId, c.order, actor, now);
    }
  }

  lemma RefundRefusedTruthfully(f: Facts, caseId: CaseId, order: OrderId, actor: Actor, now: int)
    requires CreateRefund(caseId, order, actor, Decide(f), now).Err?
    ensures match CreateRefund(caseId, order, actor, Decide(f), now).error
            case NotEligible => Decide(f).reason != PolicyMatched
            case NoExecutableRefund => Decide(f).refundAmount == 0
            case _ => false
  {
    DecidedOnFacts(f);
    if Decide(f).reason == PolicyMatched { PaidOnFacts(f); }
  }

  /** A refused creation names a reason that holds: someone else's case, a case that cannot be drafted, money
      that is not there, or a record in the way. */
  lemma CreationRefusedTruthfully(d: Desk, id: ActionId, caseId: CaseId, actor: Actor, now: int)
    requires Create(d, id, caseId, actor, now).outcome.Err?
    ensures var why := Create(d, id, caseId, actor, now).outcome.error;
            if caseId !in d.cases || d.cases[caseId].owner != actor then why == NotFound
            else
              match Draft(d.cases[caseId], caseId, actor, now)
              case Err(unready) => why == unready
              case Ok(a) =>
                if MovesMoney(a) && a.status == Approved && L.Of(d.books.available, d.cases[caseId].order) < Amount(a)
                then why == InsufficientAvailable
                else && why == ActiveActionExists
                     && (id in d.actions || exists k :: k in d.actions && d.actions[k].caseId == caseId)
  {
    if caseId in d.cases && d.cases[caseId].owner == actor && Draft(d.cases[caseId], caseId, actor, now).Ok? {
      var a := Draft(d.cases[caseId], caseId, actor, now).value;
      var funded := MovesMoney(a) && a.status == Approved;
      DraftIsItsCases(d.cases[caseId], caseId, actor, now);
      CreatedExactly(d, id, caseId, actor, now);
      InsertedExactly(d, id, a.(reserved := funded || a.reserved), actor);
      LateCreationRefused(d, id, caseId, actor, now);
    }
  }

  lemma LateCreationRefused(d: Desk, id: ActionId, caseId: CaseId, actor: Actor, now: int)
    requires caseId in d.cases && d.cases[caseId].owner == actor && Draft(d.cases[caseId], caseId, actor, now).Ok?
    requires Create(d, id, caseId, actor, now).outcome.Err?
    ensures var a := Draft(d.cases[caseId], caseId, actor, now).value;
            Create(d, id, caseId, actor, now).outcome.error
            == if MovesMoney(a) && a.status == Approved && L.Of(d.books.available, d.cases[caseId].order) < Amount(a)
               then InsufficientAvailable else ActiveActionExists
  {
  }
}

/** What goes wrong when a supplement moves a case under a creation, and when a captured record is
    superseded before its save arrives: exact conditions on the ledger, and runs that reach both. */
module Stranded {
  import opened Wrappers
  import opened MapSums
  import opened Payloads
  import opened Decision
  import opened RiskScoring
  import opened Actions
  import L = Ledger
  import opened Desk
  import opened Protocol
  import opened Agreement
  import opened History

  // ---- a creation that lands after its case moved ----

  ghost predicate Lands(s: System, call: CallId, listing: seq<ActionId>, order: OrderId, status: CaseStatus,
                        plan: Plan) {
    && call in s.calls && s.calls[call].CreateCall?
    && var c := s.calls[call];
    && c.draft.caseId in s.desk.cases && s.desk.cases[c.draft.caseId].owner == c.owner
    && Lists(listing, ActiveOf(s.desk, c.draft.caseId))
    && InsertAccepted(Supplement(s.desk, c.draft.caseId, listing, order, status, plan), c.id, c.draft, c.owner)
  }

  /** The supplement, then the insert. */
  ghost function Landed(s: System, call: CallId, listing: seq<ActionId>, order: OrderId, status: CaseStatus,
                        plan: Plan): System
    requires call in s.calls && s.calls[call].CreateCall?
  {
    var c := s.calls[call];
    Act(Act(s, SupplementCase(c.draft.caseId, c.owner, listing, order, status, plan)), Finish(call))
  }

  /** A creation that lands after a supplement re-assessed its case leaves a live record whose money sits
      on the order it was read with. The books still agree; the record names its case's order exactly when
      the supplement kept it. */
  lemma MovedCaseStrandsCreation(s: System, call: CallId, listing: seq<ActionId>, order: OrderId, status: CaseStatus,
                                 plan: Plan)
    requires Sound(s) && Agreed(s) && Lands(s, call, listing, order, status, plan)
    ensures var c := s.calls[call];
            var t := Landed(s, call, listing, order, status, plan);
            && c.id in t.desk.actions && t.desk.actions[c.id] == c.draft && Active(c.draft)
            && c.draft.caseId in t.desk.cases && t.desk.cases[c.draft.caseId].order == order
            && c.draft.payload.order == c.order
            && Agreed(t)
            && (RowOk(t, c.id) <==> order == c.order)
  {
    var c := s.calls[call];
    var mid := s.(desk := InvalidateAll(s.desk, listing));
    var moved := Act(s, SupplementCase(c.draft.caseId, c.owner, listing, order, status, plan));
    var t := Landed(s, call, listing, order, status, plan);
    assert CreateCallOk(s, c);
    InvalidateAllKeeps(s, listing, mid);
    assert forall o :: AgreedOn(mid, o) ==> AgreedOn(moved, o);
    assert t.desk.actions == moved.desk.actions[c.id := c.draft] && t.desk.books == moved.desk.books;
    forall o ensures AgreedOn(t, o) { SaveAgrees(moved, t, call, c.id, o); }
  }

  /** Sweeping one overdue record of an agreed desk: the record's order stays in agreement exactly when it
      is still its case's order; otherwise it keeps the record's money frozen for nobody, and the case's
      new order is short by whatever the release could take from it. */
  lemma StrandedSweep(s: System, id: ActionId)
    requires Agreed(s) && id in s.desk.actions && s.desk.actions[id].caseId in s.desk.cases
    requires Due(s.desk.actions[id], s.clock) && Amount(s.desk.actions[id]) > 0
    ensures var a := s.desk.actions[id];
            var o, moved := a.payload.order, s.desk.cases[a.caseId].order;
            var t := s.(desk := ReapOne(s.desk, id));
            && (AgreedOn(t, o) <==> moved == o)
            && (moved != o ==>
                  && L.Of(t.desk.books.reserved, o)
                     == Sum(t.desk.actions, Held(o)) + Sum(t.calls, Pledged(o)) + Amount(a)
                  && L.Of(t.desk.books.reserved, moved) + L.Released(s.desk.books, moved, Amount(a))
                     == Sum(t.desk.actions, Held(moved)) + Sum(t.calls, Pledged(moved)))
  {
    var a := s.desk.actions[id];
    var o, moved := a.payload.order, s.desk.cases[a.caseId].order;
    assert AgreedOn(s, o) && AgreedOn(s, moved);
    SumUpdate(s.desk.actions, Held(o), id, a.(reserved := false));
    SumUpdate(s.desk.actions, Held(moved), id, a.(reserved := false));
    ReleaseIsExact(s, id);
  }

  /** Put together: such a creation, once overdue and swept, leaves the ledger in agreement on the order
      it froze money on if and only if the supplement kept that order. */
  lemma MovedThenSwept(s: System, call: CallId, listing: seq<ActionId>, order: OrderId, status: CaseStatus, plan: Plan,
                       wait: nat)
    requires Sound(s) && Agreed(s) && Lands(s, call, listing, order, status, plan)
    requires s.calls[call].draft.reserved && Amount(s.calls[call].draft) > 0
    requires s.calls[call].draft.expiresAt < s.clock + wait
    ensures var c := s.calls[call];
            var t := Wait(Landed(s, call, listing, order, status, plan), wait);
            AgreedOn(t.(desk := ReapOne(t.desk, c.id)), c.order) <==> order == c.order
  {
    MovedCaseStrandsCreation(s, call, listing, order, status, plan);
    var landed := Landed(s, call, listing, order, status, plan);
    var t := Wait(landed, wait);
    assert forall o :: AgreedOn(landed, o) ==> AgreedOn(t, o);
    StrandedSweep(t, s.calls[call].id);
  }

  /** Superseding a reserved record once more fails in the same way. */
  lemma StrandedInvalidation(s: System, id: ActionId)
    requires Agreed(s) && id in s.desk.actions && s.desk.actions[id].caseId in s.desk.cases
    requires MovesMoney(s.desk.actions[id]) && s.desk.actions[id].reserved && Amount(s.desk.actions[id]) > 0
    ensures AgreedOn(s.(desk := InvalidateOne(s.desk, id)), s.desk.actions[id].payload.order)
       <==> s.desk.cases[s.desk.actions[id].caseId].order == s.desk.actions[id].payload.order
  {
    var a := s.desk.actions[id];
    assert AgreedOn(s, a.payload.order);
    SumUpdate(s.desk.actions, Held(a.payload.order), id, Invalidated(a));
    ReleaseIsExact(s, id);
  }

  /** Signing an unfunded refund freezes its money on the case's order: the books stay in agreement on the
      order the record names if and only if the two are the same, and otherwise that order is short by the
      amount and the case's order holds it for nobody. */
  lemma StrandedApproval(s: System, id: ActionId, actor: Actor, role: Role, expected: nat)
    requires Agreed(s) && id in s.desk.actions && MovesMoney(s.desk.actions[id]) && !s.desk.actions[id].reserved
    requires Amount(s.desk.actions[id]) > 0 && Approve(s.desk, id, actor, role, expected, s.clock).outcome.Ok?
    ensures var a := s.desk.actions[id];
            var o, moved := a.payload.order, s.desk.cases[a.caseId].order;
            var t := Act(s, ApproveNow(id, actor, role, expected));
            && (AgreedOn(t, o) <==> moved == o)
            && (moved != o ==>
                  && L.Of(t.desk.books.reserved, o) + Amount(a)
                     == Sum(t.desk.actions, Held(o)) + Sum(t.calls, Pledged(o))
                  && L.Of(t.desk.books.reserved, moved)
                     == Sum(t.desk.actions, Held(moved)) + Sum(t.calls, Pledged(moved)) + Amount(a))
  {
    var a := s.desk.actions[id];
    var o, moved := a.payload.order, s.desk.cases[a.caseId].order;
    var t := Act(s, ApproveNow(id, actor, role, expected));
    ApprovalWrites(s.desk, id, actor, role, expected, s.clock);
    assert AgreedOn(s, o) && AgreedOn(s, moved);
    SumUpdate(s.desk.actions, Held(o), id, t.desk.actions[id]);
    SumUpdate(s.desk.actions, Held(moved), id, t.desk.actions[id]);
  }

  lemma ApprovalWrites(d: Desk, id: ActionId, actor: Actor, role: Role, expected: nat, now: int)
    requires id in d.actions && MovesMoney(d.actions[id]) && !d.actions[id].reserved
    requires Approve(d, id, actor, role, expected, now).outcome.Ok?
    ensures var a, e := d.actions[id], Approve(d, id, actor, role, expected, now).desk;
            && a.caseId in d.cases && id in e.actions && e.actions == d.actions[id := e.actions[id]]
            && e.actions[id].reserved && e.actions[id].payload == a.payload
            && Some(e.books) == L.Reserve(d.books, d.cases[a.caseId].order, Amount(a))
  {
  }

  /** A refund that lands unfunded and is then signed leaves the books in agreement on the order it names if
      and only if the supplement kept that order; no sweep is needed to break them. */
  lemma MovedThenApproved(s: System, call: CallId, listing: seq<ActionId>, order: OrderId, status: CaseStatus,
                          plan: Plan, wait: nat, actor: Actor, role: Role, expected: nat)
    requires Sound(s) && Agreed(s) && Lands(s, call, listing, order, status, plan)
    requires MovesMoney(s.calls[call].draft) && !s.calls[call].draft.reserved && Amount(s.calls[call].draft) > 0
    requires var t := Wait(Landed(s, call, listing, order, status, plan), wait);
             Approve(t.desk, s.calls[call].id, actor, role, expected, t.clock).outcome.Ok?
    ensures var c := s.calls[call];
            var t := Wait(Landed(s, call, listing, order, status, plan), wait);
            AgreedOn(Act(t, ApproveNow(c.id, actor, role, expected)), c.order) <==> order == c.order
  {
    MovedCaseStrandsCreation(s, call, listing, order, status, plan);
    var landed := Landed(s, call, listing, order, status, plan);
    var t := Wait(landed, wait);
    assert forall o :: AgreedOn(landed, o) ==> AgreedOn(t, o);
    StrandedApproval(t, s.calls[call].id, actor, role, expected);
  }

  /** A refund that lands already approved executes if and only if the supplement kept its order or the new
      order happens to hold enough frozen money: being approved no longer means being funded. */
  lemma MovedThenExecuted(s: System, call: CallId, listing: seq<ActionId>, order: OrderId, status: CaseStatus,
                          plan: Plan)
    requires Sound(s) && Agreed(s) && Lands(s, call, listing, order, status, plan)
    requires var a := s.calls[call].draft;
             MovesMoney(a) && a.status == Approved && s.clock < a.expiresAt && !a.payload.requiresReturn
    ensures var c := s.calls[call];
            var t := Landed(s, call, listing, order, status, plan);
            Execute(t.desk, c.id, Admin, c.draft.payload, c.draft.version, t.clock).outcome.Ok?
            <==> (order == c.order || Amount(c.draft) <= L.Of(t.desk.books.reserved, order))
  {
    var c := s.calls[call];
    var t := Landed(s, call, listing, order, status, plan);
    assert CreateCallOk(s, c);
    MovedCaseStrandsCreation(s, call, listing, order, status, plan);
    ReleaseIsExact(t, c.id);
    LandedHasNoReceipt(s, call, listing, order, status, plan);
    StrandedExecution(t.desk, c.id, t.clock);
  }

  lemma StrandedExecution(d: Desk, id: ActionId, now: int)
    requires id in d.actions && d.actions[id].caseId in d.cases
    requires var a := d.actions[id];
             && MovesMoney(a) && a.status == Approved && now < a.expiresAt && !a.payload.requiresReturn
             && KeyOf(a) !in d.books.transactions && Amount(a) <= L.Of(d.books.reserved, a.payload.order)
    ensures var a := d.actions[id];
            Execute(d, id, Admin, a.payload, a.version, now).outcome.Ok?
            <==> Amount(a) <= L.Of(d.books.reserved, d.cases[a.caseId].order)
  {
  }

  lemma LandedHasNoReceipt(s: System, call: CallId, listing: seq<ActionId>, order: OrderId, status: CaseStatus,
                           plan: Plan)
    requires Sound(s) && Agreed(s) && Lands(s, call, listing, order, status, plan)
    ensures KeyOf(s.calls[call].draft) !in Landed(s, call, listing, order, status, plan).desk.books.transactions
  {
    var c := s.calls[call];
    var mid := s.(desk := InvalidateAll(s.desk, listing));
    InvalidateAllKeeps(s, listing, mid);
    assert Landed(s, call, listing, order, status, plan).desk.books == mid.desk.books;
  }

  // ---- runs that get there ----

  ghost predicate Reaches(s: System, t: System) { exists steps :: Run(s, steps) == t }

  lemma ReachesItself(s: System)
    ensures Reaches(s, s)
  {
    assert Run(s, []) == s;
  }

  lemma ReachesNext(s: System, t: System, step: Step)
    requires Reaches(s, t)
    ensures Reaches(s, Do(t, step))
  {
    var steps :| Run(s, steps) == t;
    RunConcat(s, steps, [step]);
    assert [step][1..] == [];
    assert Run(s, steps + [step]) == Do(t, step);
  }

  /** A small, unsuspicious claim, paid without a signature. */
  function SmallClaim(): Facts {
    Facts(QualityIssue, 1_000, 0, 1_000, None, 0, 0, Policy({QualityIssue}, {}, {}, 100_000, 50_000),
          20_000, false, None, None, None, 0, false)
  }

  lemma NoClaimPoints(s: Signals)
    requires s.notReceivedClaims == 0 && !s.deliveryNotReceived && !s.highValue && s.refundCases == 0
    ensures ClaimPoints(s) == 0 && !Decisive(s)
  {
  }

  lemma NoCustomerPoints(s: Signals)
    requires s.receiptHours.None? && s.accountAgeDays.None? && s.refundRate.None? && s.addressChanges == 0
             && !s.deviceReuse
    ensures CustomerPoints(s) == 0
  {
  }

  lemma LowWithoutPoints(s: Signals)
    requires ClaimPoints(s) + CustomerPoints(s) == 0 && !Decisive(s) && s.notReceivedClaims != 2 && !s.highValue
    ensures Level(s) == Low
  {
  }

  /** A customer without history who claims a small amount raises no signal. */
  lemma QuietClaimIsLow(c: Facts)
    requires c.claims == 0 && c.refundCases == 0 && c.issue == QualityIssue
             && RefundAmount(c) < c.policy.highValueAmount
    requires c.receiptHours.None? && c.accountAgeDays.None? && c.refundRate.None? && c.addressChanges == 0
             && !c.deviceReuse
    ensures Level(RiskSignals(c)) == Low
  {
    var s := RiskSignals(c);
    NoClaimPoints(s);
    NoCustomerPoints(s);
    LowWithoutPoints(s);
  }

  lemma SmallClaimAmount()
    ensures RefundAmount(SmallClaim()) == 1_000
  {
  }

  /** A covered claim within both limits and at low risk is simply paid. */
  lemma LowRiskIsPaid(c: Facts)
    requires c.issue in c.policy.covered && c.issue !in c.policy.returnRequired && MissingEvidence(c) == []
             && c.balance > 0
    requires Level(RiskSignals(c)) == Low
    requires RefundAmount(c) <= c.operatorLimit && RefundAmount(c) < c.policy.manualReviewAmount
    ensures var d := Decide(c);
            && d.action == RefundOriginalPayment && d.refundAmount == RefundAmount(c)
            && !d.approvalRequired && d.eligibility == Eligible && d.level == Low && d.tier == Auto
  {
  }

  lemma SmallClaimNeedsNoSignature()
    ensures var d := Decide(SmallClaim());
            && d.action == RefundOriginalPayment && d.refundAmount == 1_000
            && !d.approvalRequired && d.eligibility == Eligible && d.level == Low && d.tier == Auto
  {
    SmallClaimAmount();
    QuietClaimIsLow(SmallClaim());
    LowRiskIsPaid(SmallClaim());
  }

  /** A case on order o, ready to be paid. */
  function SmallCase(o: OrderId): Case { Case("maker", o, ReadyForAction, RefundPlan(SmallClaim()), 1) }

  /** The record it is drafted into, frozen at once. */
  function SmallRefund(caseId: CaseId, o: OrderId): Action {
    Action(caseId, RefundPayload(o, 1_000, false), Approved, "maker", Admin, [], 1, TTL, true, 1, None)
  }

  lemma SmallClaimPaysItself(caseId: CaseId, o: OrderId)
    ensures Draft(SmallCase(o), caseId, "maker", 0) == Ok(SmallRefund(caseId, o).(reserved := false))
  {
    SmallClaimNeedsNoSignature();
  }

  lemma CaseOpened(s: System, caseId: CaseId, o: OrderId)
    requires caseId !in s.desk.cases
    ensures Do(s, Step(0, OpenCase(caseId, "maker", o, ReadyForAction, RefundPlan(SmallClaim())))).desk
         == s.desk.(cases := s.desk.cases[caseId := SmallCase(o)])
    ensures Do(s, Step(0, OpenCase(caseId, "maker", o, ReadyForAction, RefundPlan(SmallClaim())))).calls == s.calls
    ensures Do(s, Step(0, OpenCase(caseId, "maker", o, ReadyForAction, RefundPlan(SmallClaim())))).clock == s.clock
  {
  }

  // the first failure: created, moved, landed, swept

  lemma CreationBegun(s: System, caseId: CaseId, o: OrderId)
    requires caseId in s.desk.cases && s.desk.cases[caseId] == SmallCase(o) && s.calls == map[] && s.clock == 0
    requires L.Of(s.desk.books.available, o) == 1_000 && L.Of(s.desk.books.reserved, o) == 0
    ensures var t := Do(s, Step(0, CreateSplit(0, "a", caseId, "maker")));
            && t.desk.cases == s.desk.cases && t.desk.actions == s.desk.actions && t.clock == 0
            && t.calls == map[0 := CreateCall("a", SmallRefund(caseId, o), o, "maker", 1)]
            && t.desk.books.reserved == s.desk.books.reserved[o := 1_000]
  {
    SmallCreationBegins(s.desk, "a", caseId, o);
  }

  /** Beginning the creation of a small refund freezes its money. */
  lemma SmallCreationBegins(d: Desk, id: ActionId, caseId: CaseId, o: OrderId)
    requires caseId in d.cases && d.cases[caseId] == SmallCase(o) && L.Of(d.books.available, o) >= 1_000
    ensures L.Reserve(d.books, o, 1_000).Some?
    ensures BeginCreate(d, id, caseId, "maker", 0)
         == Ok(Started(L.Reserve(d.books, o, 1_000).value, CreateCall(id, SmallRefund(caseId, o), o, "maker", 1)))
  {
    SmallClaimPaysItself(caseId, o);
  }

  lemma CaseMoved(s: System, caseId: CaseId, o: OrderId, p: OrderId)
    requires s.desk.cases == map[caseId := SmallCase(o)] && s.desk.actions == map[]
    ensures var t := Do(s, Step(0, SupplementCase(caseId, "maker", [], p, AwaitingClarification, NoPlan)));
            && t.desk.cases == map[caseId := Case("maker", p, AwaitingClarification, NoPlan, 2)]
            && t.desk.actions == map[] && t.desk.books == s.desk.books && t.clock == s.clock && t.calls == s.calls
  {
    assert Lists([], ActiveOf(s.desk, caseId));
  }

  lemma CreationLanded(s: System, caseId: CaseId, draft: Action, o: OrderId)
    requires s.calls == map[0 := CreateCall("a", draft, o, "maker", 1)] && s.desk.actions == map[]
             && draft.caseId == caseId
    requires caseId in s.desk.cases && s.desk.cases[caseId].owner == "maker" && s.desk.cases[caseId].version == 2
    ensures var t := Do(s, Step(0, Finish(0)));
            && t.desk == s.desk.(actions := map["a" := draft]) && t.calls == map[] && t.clock == s.clock
  {
    assert InsertAccepted(s.desk, "a", draft, "maker");
    assert s.calls - {0} == map[];
  }

  lemma StrandedReaped(s: System, caseId: CaseId, draft: Action, p: OrderId)
    requires s.desk.actions == map["a" := draft] && draft.caseId == caseId && s.clock == 0
    requires caseId in s.desk.cases && s.desk.cases[caseId].order == p != draft.payload.order
    requires draft.reserved && Active(draft) && draft.expiresAt == TTL
    ensures var t := Do(s, Step(TTL + 1, Sweep(["a"])));
            && t.desk.actions == map["a" := draft.(reserved := false)] && t.calls == s.calls
            && L.Of(t.desk.books.reserved, draft.payload.order) == L.Of(s.desk.books.reserved, draft.payload.order)
  {
    var waited := Wait(s, TTL + 1);
    assert Lists(["a"], DueSet(waited.desk, waited.clock));
    assert ["a"][1..] == [];
    assert ReapAll(s.desk, ["a"]) == ReapOne(s.desk, "a");
  }

  /** From a desk with nothing but a balance, five requests reach a ledger that keeps the whole balance
      frozen for no record and no request in flight. */
  lemma MovedCaseCanStrand(o: OrderId, p: OrderId) returns (t: System)
    requires o != p
    ensures Reaches(Opening(map[o := 1_000], None, 0), t) && t.calls == map[]
    ensures t.desk.actions == map["a" := SmallRefund("c", o).(reserved := false)]
    ensures L.Of(t.desk.books.reserved, o) == 1_000 && Sum(t.desk.actions, Held(o)) == 0
  {
    var s := Opening(map[o := 1_000], None, 0);
    ReachesItself(s);
    CaseOpened(s, "c", o);
    var step := Step(0, OpenCase("c", "maker", o, ReadyForAction, RefundPlan(SmallClaim())));
    ReachesNext(s, s, step);
    var ready := Do(s, step);
    assert ready.desk.cases == map["c" := SmallCase(o)];
    CreationBegun(ready, "c", o);
    ReachesNext(s, ready, Step(0, CreateSplit(0, "a", "c", "maker")));
    var begun := Do(ready, Step(0, CreateSplit(0, "a", "c", "maker")));
    CaseMoved(begun, "c", o, p);
    ReachesNext(s, begun, Step(0, SupplementCase("c", "maker", [], p, AwaitingClarification, NoPlan)));
    var moved := Do(begun, Step(0, SupplementCase("c", "maker", [], p, AwaitingClarification, NoPlan)));
    CreationLanded(moved, "c", SmallRefund("c", o), o);
    ReachesNext(s, moved, Step(0, Finish(0)));
    var landed := Do(moved, Step(0, Finish(0)));
    StrandedReaped(landed, "c", SmallRefund("c", o), p);
    ReachesNext(s, landed, Step(TTL + 1, Sweep(["a"])));
    t := Do(landed, Step(TTL + 1, Sweep(["a"])));
    SumZero(t.desk.actions, Held(o));
  }

  // the second failure: a captured record superseded before its save arrives

  /** A small claim turned into a record: funded at once. */
  lemma SmallRefundCreated(s: System, id: ActionId, caseId: CaseId, o: OrderId)
    requires caseId in s.desk.cases && s.desk.cases[caseId] == SmallCase(o) && id !in s.desk.actions && s.clock == 0
    requires forall k :: k in s.desk.actions ==> s.desk.actions[k].caseId != caseId
    requires L.Of(s.desk.books.available, o) >= 1_000
    ensures var t := Do(s, Step(0, CreateNow(id, caseId, "maker")));
            && t.desk.actions == s.desk.actions[id := SmallRefund(caseId, o)] && t.clock == 0 && t.calls == s.calls
            && Some(t.desk.books) == L.Reserve(s.desk.books, o, 1_000)
            && t.desk.cases == s.desk.cases[caseId := SmallCase(o).(status := CaseApproved, version := 2)]
  {
    SmallCreationBegins(s.desk, id, caseId, o);
    SmallRefundInserted(s.desk.(books := L.Reserve(s.desk.books, o, 1_000).value), id, caseId, o);
  }

  lemma SmallRefundInserted(d: Desk, id: ActionId, caseId: CaseId, o: OrderId)
    requires caseId in d.cases && d.cases[caseId] == SmallCase(o) && id !in d.actions
    requires forall k :: k in d.actions ==> d.actions[k].caseId != caseId
    ensures FinishCreate(d, CreateCall(id, SmallRefund(caseId, o), o, "maker", 1)).desk
         == d.(actions := d.actions[id := SmallRefund(caseId, o)],
               cases := d.cases[caseId := SmallCase(o).(status := CaseApproved, version := 2)])
  {
    assert InsertAccepted(d, id, SmallRefund(caseId, o), "maker");
  }

  /** The money is captured, the record is not saved. */
  lemma SaveLost(s: System, o: OrderId)
    requires "a" in s.desk.actions && s.desk.actions["a"] == SmallRefund("c", o) && s.clock == 0
    requires "c" in s.desk.cases && s.desk.cases["c"].order == o
    requires L.Of(s.desk.books.reserved, o) == 2_000 && s.desk.books.transactions == map[]
    ensures var t := Do(s, Step(0, ExecuteLost("a", Admin, SmallRefund("c", o).payload, 1)));
            && t.desk.cases == s.desk.cases && t.desk.actions == s.desk.actions && t.clock == 0 && t.calls == s.calls
            && L.Of(t.desk.books.reserved, o) == 1_000
            && t.desk.books.transactions.Keys == {KeyOf(SmallRefund("c", o))}
  {
  }

  /** Superseding the captured record releases the other record's money. */
  lemma CapturedSuperseded(s: System, o: OrderId)
    requires s.desk.actions == map["a" := SmallRefund("c", o), "b" := SmallRefund("d", o)]
    requires "c" in s.desk.cases && s.desk.cases["c"].owner == "maker" && s.desk.cases["c"].order == o
    requires "d" in s.desk.cases && s.desk.cases["d"].order == o
    requires L.Of(s.desk.books.reserved, o) == 1_000
    ensures var t := Do(s, Step(0, SupplementCase("c", "maker", ["a"], o, AwaitingClarification, NoPlan)));
            && "b" in t.desk.actions && t.desk.actions["b"] == SmallRefund("d", o)
            && "d" in t.desk.cases && t.desk.cases["d"].order == o && t.clock == s.clock
            && L.Of(t.desk.books.reserved, o) == 0 && t.desk.books.transactions == s.desk.books.transactions
  {
    assert Lists(["a"], ActiveOf(s.desk, "c"));
    assert ["a"][1..] == [];
    assert InvalidateAll(s.desk, ["a"]) == InvalidateOne(s.desk, "a");
  }

  lemma SecondStarves(d: Desk, o: OrderId)
    requires "b" in d.actions && d.actions["b"] == SmallRefund("d", o) && "d" in d.cases && d.cases["d"].order == o
    requires L.Of(d.books.reserved, o) == 0 && d.books.transactions.Keys == {KeyOf(SmallRefund("c", o))}
    ensures Execute(d, "b", Admin, SmallRefund("d", o).payload, 1, 0).outcome == Err(BalanceChanged)
  {
  }

  /** From a desk with nothing but a balance, six requests reach an approved, unexpired refund that is
      flagged as funded while the ledger holds nothing for it, so that its execution is refused. */
  lemma LostCaptureCanStarve(o: OrderId) returns (t: System)
    ensures Reaches(Opening(map[o := 2_000], None, 0), t) && t.clock == 0
    ensures "b" in t.desk.actions && t.desk.actions["b"] == SmallRefund("d", o) && L.Of(t.desk.books.reserved, o) == 0
    ensures Execute(t.desk, "b", Admin, SmallRefund("d", o).payload, 1, t.clock).outcome == Err(BalanceChanged)
  {
    var s := Opening(map[o := 2_000], None, 0);
    var two := TwoRefunds(o);
    SaveLost(two, o);
    ReachesNext(s, two, Step(0, ExecuteLost("a", Admin, SmallRefund("c", o).payload, 1)));
    var lost := Do(two, Step(0, ExecuteLost("a", Admin, SmallRefund("c", o).payload, 1)));
    CapturedSuperseded(lost, o);
    ReachesNext(s, lost, Step(0, SupplementCase("c", "maker", ["a"], o, AwaitingClarification, NoPlan)));
    t := Do(lost, Step(0, SupplementCase("c", "maker", ["a"], o, AwaitingClarification, NoPlan)));
    SecondStarves(t.desk, o);
  }

  /** Two funded refunds of different cases on one order. */
  lemma TwoRefunds(o: OrderId) returns (t: System)
    ensures Reaches(Opening(map[o := 2_000], None, 0), t) && t.clock == 0 && t.calls == map[]
    ensures t.desk.actions == map["a" := SmallRefund("c", o), "b" := SmallRefund("d", o)]
    ensures "c" in t.desk.cases && t.desk.cases["c"].owner == "maker" && t.desk.cases["c"].order == o
    ensures "d" in t.desk.cases && t.desk.cases["d"].order == o
    ensures L.Of(t.desk.books.reserved, o) == 2_000 && t.desk.books.transactions == map[]
  {
    var s := Opening(map[o := 2_000], None, 0);
    var openC := Step(0, OpenCase("c", "maker", o, ReadyForAction, RefundPlan(SmallClaim())));
    var openD := Step(0, OpenCase("d", "maker", o, ReadyForAction, RefundPlan(SmallClaim())));
    ReachesItself(s);
    CaseOpened(s, "c", o);
    ReachesNext(s, s, openC);
    var one := Do(s, openC);
    CaseOpened(one, "d", o);
    ReachesNext(s, one, openD);
    var both := Do(one, openD);
    SmallRefundCreated(both, "a", "c", o);
    ReachesNext(s, both, Step(0, CreateNow("a", "c", "maker")));
    var first := Do(both, Step(0, CreateNow("a", "c", "maker")));
    SmallRefundCreated(first, "b", "d", o);
    ReachesNext(s, first, Step(0, CreateNow("b", "d", "maker")));
    t := Do(first, Step(0, CreateNow("b", "d", "maker")));
  }
}

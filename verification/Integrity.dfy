/** Who may move money: every approved or completed refund is traced to a decision and its signatures. */
module Integrity {
  import opened Wrappers
  import opened Payloads
  import opened Decision
  import opened RiskScoring
  import opened Actions
  import L = Ledger
  import opened Dispatch
  import opened Desk
  import opened Protocol

  predicate Distinct(xs: seq<Actor>) { forall i, j :: 0 <= i < j < |xs| ==> xs[i] != xs[j] }

  /** The record carries out decision f: its money, its return condition and its signature count. */
  predicate CarriesOut(a: Action, f: Facts)
    requires MovesMoney(a)
  {
    var d := Decide(f);
    && d.reason == PolicyMatched
    && a.payload.amount == d.refundAmount > 0
    && (a.payload.requiresReturn <==> f.issue in f.policy.returnRequired)
    && a.approversRequired == (if d.tier == FourEyes then 2 else 1)
    && (a.status in {Approved, Completed} ==> |a.approvers| >= SignaturesNeeded(d))
    && (a.status == PendingApproval ==> SignaturesNeeded(d) != 0)
    && (a.status == Completed ==> !a.payload.requiresReturn)
  }

  ghost predicate Backed(a: Action, assessed: set<(CaseId, Facts)>) {
    if MovesMoney(a) then exists f :: (a.caseId, f) in assessed && CarriesOut(a, f)
    else a.approversRequired == 1 && (a.status in {Approved, Completed} ==> |a.approvers| >= 1)
  }

  /** Signatures are distinct, never the requester's, and each was asked for under the required role. */
  ghost predicate Signed(s: System, id: ActionId, a: Action) {
    && a.requiredRole == Admin
    && Distinct(a.approvers) && a.requestedBy !in a.approvers
    && (forall p :: p in a.approvers ==> Request(id, p, Admin) in s.requests)
    && Backed(a, s.assessed)
  }

  ghost predicate AllSigned(s: System) {
    && (forall id :: id in s.desk.actions ==> Signed(s, id, s.desk.actions[id]))
    && (forall c :: c in s.calls ==> CallSigned(s, s.calls[c]))
    && (forall k :: k in s.desk.cases && s.desk.cases[k].plan.RefundPlan? ==>
          (k, s.desk.cases[k].plan.facts) in s.assessed)
  }

  ghost predicate CallSigned(s: System, c: Call) {
    match c
    case ApproveCall(id, _, after, _, _, _) => Signed(s, id, after)
    case CreateCall(id, draft, _, _, _) => Signed(s, id, draft)
  }

  lemma SignedLater(s: System, t: System, id: ActionId, a: Action)
    requires Signed(s, id, a) && s.requests <= t.requests && s.assessed <= t.assessed
    ensures Signed(t, id, a)
  {
    if MovesMoney(a) {
      var f :| (a.caseId, f) in s.assessed && CarriesOut(a, f);
      assert (a.caseId, f) in t.assessed;
    }
  }

  /** A settled copy of a signed record is signed. */
  lemma SignedSettled(s: System, id: ActionId, a: Action, b: Action)
    requires Signed(s, id, a)
    requires b.caseId == a.caseId && b.payload == a.payload && b.requestedBy == a.requestedBy
             && b.requiredRole == a.requiredRole
    requires b.approversRequired == a.approversRequired && b.approvers == a.approvers
    requires || b.status == a.status || b.status == Rejected
             || (a.status == Approved && b.status == Completed && (MovesMoney(a) ==> !a.payload.requiresReturn))
    ensures Signed(s, id, b)
  {
    if MovesMoney(a) {
      var f :| (a.caseId, f) in s.assessed && CarriesOut(a, f);
      assert CarriesOut(b, f);
    }
  }

  /** One more signature, asked for under the right role by someone new. */
  lemma SignedOnceMore(s: System, id: ActionId, a: Action, actor: Actor, role: Role, expected: nat, now: int)
    requires Signed(s, id, a) && ApproveAction(a, actor, role, expected, now).Ok?
    requires Request(id, actor, role) in s.requests
    ensures Signed(s, id, ApproveAction(a, actor, role, expected, now).value)
  {
    var b := ApproveAction(a, actor, role, expected, now).value;
    if MovesMoney(a) {
      var f :| (a.caseId, f) in s.assessed && CarriesOut(a, f);
      assert CarriesOut(b, f);
    }
  }

  lemma SignedFlag(s: System, id: ActionId, a: Action, flag: bool)
    requires Signed(s, id, a)
    ensures Signed(s, id, a.(reserved := flag))
  {
    SignedSettled(s, id, a, a.(reserved := flag));
  }

  lemma DraftSigned(s: System, id: ActionId, caseId: CaseId, actor: Actor, now: int)
    requires AllSigned(s) && caseId in s.desk.cases && Draft(s.desk.cases[caseId], caseId, actor, now).Ok?
    ensures Signed(s, id, Draft(s.desk.cases[caseId], caseId, actor, now).value)
  {
    var c := s.desk.cases[caseId];
    var a := Draft(c, caseId, actor, now).value;
    if c.plan.RefundPlan? {
      assert (caseId, c.plan.facts) in s.assessed;
      assert CarriesOut(a, c.plan.facts);
    }
  }

  lemma BegunSigned(s: System, id: ActionId, actor: Actor, role: Role, expected: nat, now: int)
    requires AllSigned(s) && Request(id, actor, role) in s.requests
    requires BeginApprove(s.desk, id, actor, role, expected, now).Ok?
    ensures CallSigned(s, BeginApprove(s.desk, id, actor, role, expected, now).value.call)
    ensures BeginApprove(s.desk, id, actor, role, expected, now).value.call.ApproveCall?
  {
    var a := s.desk.actions[id];
    SignedOnceMore(s, id, a, actor, role, expected, now);
    SignedFlag(s, id, ApproveAction(a, actor, role, expected, now).value, true);
  }

  lemma DraftedSigned(s: System, id: ActionId, caseId: CaseId, actor: Actor, now: int)
    requires AllSigned(s) && BeginCreate(s.desk, id, caseId, actor, now).Ok?
    ensures CallSigned(s, BeginCreate(s.desk, id, caseId, actor, now).value.call)
    ensures BeginCreate(s.desk, id, caseId, actor, now).value.call.CreateCall?
  {
    DraftSigned(s, id, caseId, actor, now);
    SignedFlag(s, id, Draft(s.desk.cases[caseId], caseId, actor, now).value, true);
  }

  /** Records, requests and plans of t all come from s or are signed themselves. */
  lemma AllSignedFrom(s: System, t: System)
    requires AllSigned(s) && s.requests <= t.requests && s.assessed <= t.assessed
    requires forall id :: id in t.desk.actions ==>
               (id in s.desk.actions && t.desk.actions[id] == s.desk.actions[id]) || Signed(s, id, t.desk.actions[id])
    requires forall c :: c in t.calls ==> (c in s.calls && t.calls[c] == s.calls[c]) || CallSigned(s, t.calls[c])
    requires forall k :: k in t.desk.cases && t.desk.cases[k].plan.RefundPlan? ==>
               || (k, t.desk.cases[k].plan.facts) in t.assessed
               || (k in s.desk.cases && t.desk.cases[k].plan == s.desk.cases[k].plan)
    ensures AllSigned(t)
  {
    forall id | id in t.desk.actions ensures Signed(t, id, t.desk.actions[id]) {
      SignedLater(s, t, id, t.desk.actions[id]);
    }
    forall c | c in t.calls ensures CallSigned(t, t.calls[c]) {
      match t.calls[c]
      case ApproveCall(id, _, after, _, _, _) => SignedLater(s, t, id, after);
      case CreateCall(id, draft, _, _, _) => SignedLater(s, t, id, draft);
    }
  }

  lemma {:induction false} FoldsSigned(s: System, d: Desk, listing: seq<ActionId>)
    requires forall id :: id in d.actions ==> Signed(s, id, d.actions[id])
    ensures forall id :: id in InvalidateAll(d, listing).actions ==>
            Signed(s, id, InvalidateAll(d, listing).actions[id])
    ensures forall id :: id in ReapAll(d, listing).actions ==> Signed(s, id, ReapAll(d, listing).actions[id])
    ensures InvalidateAll(d, listing).cases == d.cases && ReapAll(d, listing).cases == d.cases
    decreases |listing|
  {
    if listing != [] {
      var id := listing[0];
      if id in d.actions {
        SignedSettled(s, id, d.actions[id], Invalidated(d.actions[id]));
        SignedFlag(s, id, d.actions[id], false);
      }
      FoldsSigned(s, InvalidateOne(d, id), listing[1..]);
      FoldsSigned(s, ReapOne(d, id), listing[1..]);
    }
  }

  lemma FinishSigned(s: System, d: Desk, call: Call)
    requires AllSigned(s) && CallSigned(s, call) && d.actions == s.desk.actions && d.cases == s.desk.cases
    ensures AllSigned(s.(desk := FinishCall(d, call).desk))
  {
    AllSignedFrom(s, s.(desk := FinishCall(d, call).desk));
  }

  lemma RejectSigned(s: System, id: ActionId, actor: Actor, role: Role, expected: nat, comment: bool)
    requires AllSigned(s)
    ensures AllSigned(s.(desk := Reject(s.desk, id, actor, role, expected, comment, s.clock).desk))
  {
    var t := s.(desk := Reject(s.desk, id, actor, role, expected, comment, s.clock).desk);
    if id in s.desk.actions && t.desk.actions[id] != s.desk.actions[id] {
      SignedSettled(s, id, s.desk.actions[id], t.desk.actions[id]);
    }
    AllSignedFrom(s, t);
  }

  lemma ExecuteSigned(s: System, id: ActionId, role: Role, payload: Payload, expected: nat)
    requires AllSigned(s)
    ensures AllSigned(s.(desk := Execute(s.desk, id, role, payload, expected, s.clock).desk))
  {
    var t := s.(desk := Execute(s.desk, id, role, payload, expected, s.clock).desk);
    if id in s.desk.actions && t.desk.actions[id] != s.desk.actions[id] {
      SignedSettled(s, id, s.desk.actions[id], t.desk.actions[id]);
    }
    AllSignedFrom(s, t);
  }

  lemma SupplementSigned(s: System, caseId: CaseId, listing: seq<ActionId>, order: OrderId, status: CaseStatus,
                         plan: Plan)
    requires AllSigned(s) && caseId in s.desk.cases
    ensures AllSigned(s.(desk := Supplement(s.desk, caseId, listing, order, status, plan),
                         assessed := s.assessed + Assessed(caseId, plan)))
  {
    FoldsSigned(s, s.desk, listing);
    AllSignedFrom(s, s.(desk := Supplement(s.desk, caseId, listing, order, status, plan),
                        assessed := s.assessed + Assessed(caseId, plan)));
  }

  lemma CreateSigned(s: System, id: ActionId, caseId: CaseId, actor: Actor, t: System)
    requires AllSigned(s) && t == s.(desk := Create(s.desk, id, caseId, actor, s.clock).desk)
    ensures AllSigned(t)
  {
    var begun := BeginCreate(s.desk, id, caseId, actor, s.clock);
    if begun.Ok? {
      DraftedSigned(s, id, caseId, actor, s.clock);
      FinishSigned(s, s.desk.(books := begun.value.books), begun.value.call);
    }
  }

  lemma ApproveSigned(s: System, id: ActionId, actor: Actor, role: Role, expected: nat, t: System)
    requires AllSigned(s) && Request(id, actor, role) in s.requests
    requires t == s.(desk := Approve(s.desk, id, actor, role, expected, s.clock).desk)
    ensures AllSigned(t)
  {
    var begun := BeginApprove(s.desk, id, actor, role, expected, s.clock);
    if begun.Ok? {
      BegunSigned(s, id, actor, role, expected, s.clock);
      FinishSigned(s, s.desk.(books := begun.value.books), begun.value.call);
    }
  }

  lemma BeginSigned(s: System, call: CallId, started: Started, t: System)
    requires AllSigned(s) && CallSigned(s, started.call)
    requires t == s.(desk := s.desk.(books := started.books), calls := s.calls[call := started.call])
    ensures AllSigned(t)
  {
    AllSignedFrom(s, t);
  }

  lemma AskedSigned(s: System, r: Request)
    requires AllSigned(s)
    ensures AllSigned(s.(requests := s.requests + {r}))
  {
    AllSignedFrom(s, s.(requests := s.requests + {r}));
  }

  lemma CallDoneSigned(s: System, call: CallId, t: System)
    requires AllSigned(s) && call in s.calls
    requires t == s.(desk := FinishCall(s.desk, s.calls[call]).desk, calls := s.calls - {call})
    ensures AllSigned(t)
  {
    FinishSigned(s, s.desk, s.calls[call]);
    AllSignedFrom(s.(desk := t.desk), t);
  }

  lemma SweepSigned(s: System, listing: seq<ActionId>)
    requires AllSigned(s)
    ensures AllSigned(s.(desk := ReapAll(s.desk, listing)))
  {
    FoldsSigned(s, s.desk, listing);
    AllSignedFrom(s, s.(desk := ReapAll(s.desk, listing)));
  }

  lemma OpenSigned(s: System, caseId: CaseId, c: Case, t: System)
    requires AllSigned(s)
    requires t == s.(desk := s.desk.(cases := s.desk.cases[caseId := c]),
             assessed := s.assessed + Assessed(caseId, c.plan))
    ensures AllSigned(t)
  {
    AllSignedFrom(s, t);
  }

  /** Signatures and backing survive every step, admissible or not. */
  lemma ActSigned(s: System, op: Op)
    requires AllSigned(s)
    ensures AllSigned(Act(s, op))
  {
    var t := Act(s, op);
    match op
    case OpenCase(caseId, owner, order, status, plan) =>
      if caseId !in s.desk.cases { OpenSigned(s, caseId, Case(owner, order, status, plan, 1), t); }
    case SupplementCase(caseId, actor, listing, order, status, plan) =>
      if caseId in s.desk.cases { SupplementSigned(s, caseId, listing, order, status, plan); }
    case CreateNow(id, caseId, actor) => CreateSigned(s, id, caseId, actor, t);
    case CreateSplit(call, id, caseId, actor) =>
      var begun := BeginCreate(s.desk, id, caseId, actor, s.clock);
      if call !in s.calls && begun.Ok? {
        DraftedSigned(s, id, caseId, actor, s.clock);
        BeginSigned(s, call, begun.value, t);
      }
    case ApproveNow(id, actor, role, expected) =>
      AskedSigned(s, Request(id, actor, role));
      ApproveSigned(s.(requests := s.requests + {Request(id, actor, role)}), id, actor, role, expected, t);
    case ApproveSplit(call, id, actor, role, expected) =>
      var asked := s.(requests := s.requests + {Request(id, actor, role)});
      AskedSigned(s, Request(id, actor, role));
      var begun := BeginApprove(s.desk, id, actor, role, expected, s.clock);
      if call !in s.calls && begun.Ok? {
        BegunSigned(asked, id, actor, role, expected, s.clock);
        BeginSigned(asked, call, begun.value, t);
      }
    case Finish(call) => if call in s.calls { CallDoneSigned(s, call, t); }
    case RejectNow(id, actor, role, expected, comment) => RejectSigned(s, id, actor, role, expected, comment);
    case ExecuteNow(id, role, payload, expected) => ExecuteSigned(s, id, role, payload, expected);
    case ExecuteLost(id, role, payload, expected) => AllSignedFrom(s, t);
    case Sweep(listing) => SweepSigned(s, listing);
  }

  lemma {:induction false} RunSigned(s: System, steps: seq<Step>)
    requires AllSigned(s)
    ensures AllSigned(Run(s, steps))
    decreases |steps|
  {
    if steps != [] {
      AllSignedFrom(s, Wait(s, steps[0].wait));
      ActSigned(Wait(s, steps[0].wait), steps[0].op);
      RunSigned(Do(s, steps[0]), steps[1..]);
    }
  }

  /** Approval integrity, over every history, overlapping handlers included: a completed refund pays
      what some decision on its own case granted, and either that decision needed no signature
      (within both limits, lowest tier) or enough distinct administrators other than the requester
      asked to approve exactly this record; a four-eyes decision always had two. */
  lemma ApprovalIntegrity(balances: map<OrderId, nat>, inventory: Option<map<Sku, nat>>, clock: int, steps: seq<Step>,
                          id: ActionId)
    requires var t := Run(Opening(balances, inventory, clock), steps);
             id in t.desk.actions && MovesMoney(t.desk.actions[id]) && t.desk.actions[id].status == Completed
    ensures var t := Run(Opening(balances, inventory, clock), steps);
            var a := t.desk.actions[id];
            exists f :: (a.caseId, f) in t.assessed
              && f.issue in f.policy.covered && f.issue !in f.policy.returnRequired && !LacksEvidence(f)
              && a.payload.amount == (if f.balance < Asked(f) then f.balance else Asked(f)) > 0
              && Decide(f).reason == PolicyMatched && a.payload.amount == Decide(f).refundAmount
              && a.approversRequired == (if Decide(f).tier == FourEyes then 2 else 1)
              && |a.approvers| >= SignaturesNeeded(Decide(f))
              && Distinct(a.approvers) && a.requestedBy !in a.approvers
              && (forall p :: p in a.approvers ==> Request(id, p, Admin) in t.requests)
              && (|| |a.approvers| >= a.approversRequired
                  || (Decide(f).tier == Auto && a.payload.amount <= f.operatorLimit
                      && a.payload.amount < f.policy.manualReviewAmount))
              && (Decide(f).tier == FourEyes ==> |a.approvers| >= 2)
  {
    RunSigned(Opening(balances, inventory, clock), steps);
    var t := Run(Opening(balances, inventory, clock), steps);
    var a := t.desk.actions[id];
    assert Signed(t, id, a);
    var f :| (a.caseId, f) in t.assessed && CarriesOut(a, f);
    AutoPaysExactly(f);
    DecidedOnFacts(f);
    PaidOnFacts(f);
  }

  // ---- money and stock over every history ----

  lemma {:induction false} FoldsConserve(d: Desk, listing: seq<ActionId>, o: OrderId)
    ensures L.Worth(InvalidateAll(d, listing).books, o) == L.Worth(d.books, o)
    ensures L.Worth(ReapAll(d, listing).books, o) == L.Worth(d.books, o)
    ensures InvalidateAll(d, listing).warehouse == d.warehouse && ReapAll(d, listing).warehouse == d.warehouse
    decreases |listing|
  {
    if listing != [] {
      FoldsConserve(InvalidateOne(d, listing[0]), listing[1..], o);
      FoldsConserve(ReapOne(d, listing[0]), listing[1..], o);
    }
  }

  lemma CaptureConserves(d: Desk, id: ActionId, role: Role, payload: Payload, expected: nat, now: int, o: OrderId)
    requires CaptureFor(d, id, role, payload, expected, now).Ok?
    ensures L.Worth(CaptureFor(d, id, role, payload, expected, now).value.books, o) == L.Worth(d.books, o)
  {
    var a := d.actions[id];
    if MovesMoney(a) {
      L.CallConserves(d.books, L.CallRefund(a.payload.order, a.payload.amount, KeyOf(a)), o);
    }
  }

  lemma CaptureConservesStock(d: Desk, id: ActionId, role: Role, payload: Payload, expected: nat, now: int, sku: Sku)
    requires CaptureFor(d, id, role, payload, expected, now).Ok? && d.warehouse.inventory.Some?
    ensures var w := CaptureFor(d, id, role, payload, expected, now).value.warehouse;
            w.inventory.Some? && Units(w, sku) == Units(d.warehouse, sku)
  {
    var a := d.actions[id];
    if !MovesMoney(a) {
      var r := Order(a.payload.order, a.payload.sku, RESEND, KeyOf(a));
      StockConserved(d.warehouse, [r], sku);
      assert AfterAll(d.warehouse, [r]) == AfterAll(After(d.warehouse, r), []);
    }
  }

  lemma FinishConserves(d: Desk, call: Call, o: OrderId)
    ensures L.Worth(FinishCall(d, call).desk.books, o) == L.Worth(d.books, o)
    ensures FinishCall(d, call).desk.warehouse == d.warehouse
  {
  }

  lemma BeginConserves(d: Desk, id: ActionId, caseId: CaseId, actor: Actor, role: Role, expected: nat, now: int,
                       o: OrderId)
    ensures BeginApprove(d, id, actor, role, expected, now).Ok?
            ==> L.Worth(BeginApprove(d, id, actor, role, expected, now).value.books, o) == L.Worth(d.books, o)
    ensures BeginCreate(d, id, caseId, actor, now).Ok?
            ==> L.Worth(BeginCreate(d, id, caseId, actor, now).value.books, o) == L.Worth(d.books, o)
  {
  }

  lemma ApproveConserves(d: Desk, id: ActionId, actor: Actor, role: Role, expected: nat, now: int, o: OrderId)
    ensures L.Worth(Approve(d, id, actor, role, expected, now).desk.books, o) == L.Worth(d.books, o)
    ensures Approve(d, id, actor, role, expected, now).desk.warehouse == d.warehouse
  {
    BeginConserves(d, id, "", actor, role, expected, now, o);
    var begun := BeginApprove(d, id, actor, role, expected, now);
    if begun.Ok? { FinishConserves(d.(books := begun.value.books), begun.value.call, o); }
  }

  lemma CreateConserves(d: Desk, id: ActionId, caseId: CaseId, actor: Actor, now: int, o: OrderId)
    ensures L.Worth(Create(d, id, caseId, actor, now).desk.books, o) == L.Worth(d.books, o)
    ensures Create(d, id, caseId, actor, now).desk.warehouse == d.warehouse
  {
    BeginConserves(d, id, caseId, actor, User, 0, now, o);
    var begun := BeginCreate(d, id, caseId, actor, now);
    if begun.Ok? { FinishConserves(d.(books := begun.value.books), begun.value.call, o); }
  }

  lemma RejectConserves(d: Desk, id: ActionId, actor: Actor, role: Role, expected: nat, comment: bool, now: int,
                        o: OrderId)
    ensures L.Worth(Reject(d, id, actor, role, expected, comment, now).desk.books, o) == L.Worth(d.books, o)
    ensures Reject(d, id, actor, role, expected, comment, now).desk.warehouse == d.warehouse
  {
  }

  lemma ActConserves(s: System, op: Op, o: OrderId)
    ensures L.Worth(Act(s, op).desk.books, o) == L.Worth(s.desk.books, o)
  {
    var d := s.desk;
    match op
    case OpenCase(_, _, _, _, _) =>
    case SupplementCase(_, _, listing, _, _, _) => FoldsConserve(d, listing, o);
    case CreateNow(id, caseId, actor) => CreateConserves(d, id, caseId, actor, s.clock, o);
    case CreateSplit(call, id, caseId, actor) => BeginConserves(d, id, caseId, actor, User, 0, s.clock, o);
    case ApproveNow(id, actor, role, expected) => ApproveConserves(d, id, actor, role, expected, s.clock, o);
    case ApproveSplit(call, id, actor, role, expected) => BeginConserves(d, id, "", actor, role, expected, s.clock, o);
    case Finish(call) => if call in s.calls { FinishConserves(d, s.calls[call], o); }
    case RejectNow(id, actor, role, expected, comment) =>
      RejectConserves(d, id, actor, role, expected, comment, s.clock, o);
    case ExecuteNow(id, role, payload, expected) =>
      if CaptureFor(d, id, role, payload, expected, s.clock).Ok? {
        CaptureConserves(d, id, role, payload, expected, s.clock, o);
      }
    case ExecuteLost(id, role, payload, expected) =>
      if CaptureFor(d, id, role, payload, expected, s.clock).Ok? {
        CaptureConserves(d, id, role, payload, expected, s.clock, o);
      }
    case Sweep(listing) => FoldsConserve(d, listing, o);
  }

  ghost predicate StockKept(w: Warehouse, u: Warehouse, sku: Sku) {
    u.inventory.Some? == w.inventory.Some? && Units(u, sku) == Units(w, sku)
  }

  lemma ActConservesStock(s: System, op: Op, sku: Sku)
    requires s.desk.warehouse.inventory.Some?
    ensures StockKept(s.desk.warehouse, Act(s, op).desk.warehouse, sku)
  {
    var d := s.desk;
    match op
    case SupplementCase(_, _, listing, _, _, _) => FoldsConserve(d, listing, None);
    case CreateNow(id, caseId, actor) => CreateConserves(d, id, caseId, actor, s.clock, None);
    case ApproveNow(id, actor, role, expected) => ApproveConserves(d, id, actor, role, expected, s.clock, None);
    case Finish(call) => if call in s.calls { FinishConserves(d, s.calls[call], None); }
    case RejectNow(id, actor, role, expected, comment) =>
      RejectConserves(d, id, actor, role, expected, comment, s.clock, None);
    case ExecuteNow(id, role, payload, expected) =>
      if CaptureFor(d, id, role, payload, expected, s.clock).Ok? {
        CaptureConservesStock(d, id, role, payload, expected, s.clock, sku);
      }
    case ExecuteLost(id, role, payload, expected) =>
      if CaptureFor(d, id, role, payload, expected, s.clock).Ok? {
        CaptureConservesStock(d, id, role, payload, expected, s.clock, sku);
      }
    case Sweep(listing) => FoldsConserve(d, listing, None);
    case _ =>
  }

  /** No history of requests, however they overlap and whichever saves are lost, creates or loses money on an order. */
  lemma {:induction false} RunConserves(s: System, steps: seq<Step>, o: OrderId)
    ensures var b := Run(s, steps).desk.books;
            L.Of(b.available, o) + L.Of(b.reserved, o) + L.Captured(b, o) == L.Worth(s.desk.books, o)
    decreases |steps|
  {
    if steps != [] {
      ActConserves(Wait(s, steps[0].wait), steps[0].op, o);
      RunConserves(Do(s, steps[0]), steps[1..], o);
    }
  }

  /** Nor a unit of tracked stock. */
  lemma {:induction false} RunConservesStock(s: System, steps: seq<Step>, sku: Sku)
    requires s.desk.warehouse.inventory.Some?
    ensures StockKept(s.desk.warehouse, Run(s, steps).desk.warehouse, sku)
    decreases |steps|
  {
    if steps != [] {
      ActConservesStock(Wait(s, steps[0].wait), steps[0].op, sku);
      RunConservesStock(Do(s, steps[0]), steps[1..], sku);
    }
  }
}

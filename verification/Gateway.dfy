/** The running desk: a mutable store, the two executors, and the handlers that drive them in order
    (repository.py, operations.py, routers/after_sales.py). */
module Gateway {
  import opened Wrappers
  import opened Payloads
  import opened Actions
  import opened Ledger
  import opened Dispatch
  import D = Desk
  import I = Agreement

  predicate OwnedBy(cases: map<CaseId, D.Case>, caseId: CaseId, owner: Actor) {
    caseId in cases && cases[caseId].owner == owner
  }

  /** The case and action tables, with their uniqueness constraints and version-guarded updates. */
  class AfterSalesRepository {
    var cases: map<CaseId, D.Case>
    var actions: map<ActionId, Action>

    constructor ()
      ensures cases == map[] && actions == map[]
    {
      cases, actions := map[], map[];
    }

    /** Saves against the version that was read; a given owner must own the record's case. */
    method SaveAction(id: ActionId, action: Action, expected: nat, owner: Option<Actor>) returns (ok: bool)
      modifies this`actions
      ensures ok <==> && id in old(actions) && old(actions)[id].version == expected
                      && (owner.Some? ==> OwnedBy(old(cases), old(actions)[id].caseId, owner.value))
      ensures actions == if ok then old(actions)[id := action] else old(actions)
    {
      ok := && id in actions && actions[id].version == expected
            && (owner.Some? ==> OwnedBy(cases, actions[id].caseId, owner.value));
      if ok { actions := actions[id := action]; }
    }

    method CreateAction(id: ActionId, action: Action, owner: Actor) returns (ok: bool)
      modifies this`actions
      ensures forall books, warehouse {:trigger D.Desk(old(cases), old(actions), books, warehouse)} ::
                ok <==> D.InsertAccepted(D.Desk(old(cases), old(actions), books, warehouse), id, action, owner)
      ensures actions == if ok then old(actions)[id := action] else old(actions)
    {
      if action.caseId !in cases || cases[action.caseId].owner != owner { return false; }
      if exists other | other in actions :: actions[other].caseId == action.caseId && Active(actions[other]) {
        return false;
      }
      if id in actions || exists other | other in actions :: KeyOf(actions[other]) == KeyOf(action) { return false; }
      actions := actions[id := action];
      ok := true;
    }

    method UpdateCase(caseId: CaseId, owner: Actor, expected: nat, values: D.Case) returns (ok: bool)
      modifies this`cases
      ensures ok <==> OwnedBy(old(cases), caseId, owner) && old(cases)[caseId].version == expected
      ensures cases == if ok then old(cases)[caseId := values.(version := expected + 1)] else old(cases)
    {
      ok := OwnedBy(cases, caseId, owner) && cases[caseId].version == expected;
      if ok { cases := cases[caseId := values.(version := expected + 1)]; }
    }

    method Rows(ids: set<ActionId>) returns (listing: seq<ActionId>)
      ensures D.Lists(listing, ids)
    {
      listing := [];
      var left := ids;
      while left != {}
        invariant left <= ids
        invariant D.Lists(listing, ids - left)
        decreases |left|
      {
        var id :| id in left;
        listing := listing + [id];
        left := left - {id};
      }
    }
  }

  class Gateway {
    const repo: AfterSalesRepository
    const ledger: MockRefundExecutor
    const dispatcher: MockReverseExecutor

    constructor (repo: AfterSalesRepository, ledger: MockRefundExecutor, dispatcher: MockReverseExecutor)
      ensures this.repo == repo && this.ledger == ledger && this.dispatcher == dispatcher
    {
      this.repo, this.ledger, this.dispatcher := repo, ledger, dispatcher;
    }

    ghost function View(): D.Desk
      reads this, repo, ledger, dispatcher
    {
      D.Desk(repo.cases, repo.actions, ledger.State(), dispatcher.State())
    }

    /** Read the action and its case, sign, and freeze the money: everything before the save. */
    method BeginApprove(id: ActionId, actor: Actor, role: Role, expected: nat, now: int)
      returns (r: Result<D.Call, Refusal>)
      modifies ledger
      ensures match D.BeginApprove(old(View()), id, actor, role, expected, now)
              case Err(why) => r == Err(why) && View() == old(View())
              case Ok(started) => r == Ok(started.call) && View() == old(View()).(books := started.books)
    {
      if role != Admin { return Err(AdminOnly); }
      if id !in repo.actions || repo.actions[id].caseId !in repo.cases { return Err(NotFound); }
      var a := repo.actions[id];
      var c := repo.cases[a.caseId];
      if D.MovesMoney(a) && !a.reserved {
        var balance := ledger.BalanceOf(a.payload.order);
        if balance < Amount(a) { return Err(InsufficientAvailable); }
      }
      var signed := ApproveAction(a, actor, role, expected, now);
      if signed.Err? { return Err(signed.error); }
      var updated := signed.value;
      if D.MovesMoney(a) && !a.reserved {
        var funded := ledger.TryReserve(c.order, Amount(updated));
        if !funded { return Err(InsufficientAvailable); }
        updated := updated.(reserved := true);
      }
      r := Ok(D.ApproveCall(id, a, updated, c.order, c.version, expected));
    }

    /** Save against the version that was read, or put the reservation back. */
    method FinishApprove(call: D.Call) returns (outcome: Result<Action, Refusal>)
      requires call.ApproveCall?
      modifies repo, ledger
      ensures D.Reply(View(), outcome) == D.FinishApprove(old(View()), call)
    {
      var saved := repo.SaveAction(call.id, call.after, call.expected, None);
      if !saved {
        if D.MovesMoney(call.before) && call.after.reserved {
          ledger.GiveBack(call.order, Amount(call.after));
        }
        return Err(VersionConflict);
      }
      var touched := TouchCase(call.after.caseId, call.caseVersion, D.CaseStatusFor(call.after.status));
      outcome := if touched then Ok(call.after) else Err(CaseChanged);
    }

    method Approve(id: ActionId, actor: Actor, role: Role, expected: nat, now: int)
      returns (outcome: Result<Action, Refusal>)
      modifies repo, ledger
      ensures D.Reply(View(), outcome) == D.Approve(old(View()), id, actor, role, expected, now)
      ensures I.Balanced(old(View()), now) ==> I.Balanced(View(), now)
    {
      ghost var before := View();
      var begun := BeginApprove(id, actor, role, expected, now);
      if begun.Err? { return Err(begun.error); }
      outcome := FinishApprove(begun.value);
      if I.Balanced(before, now) {
        I.ApproveNowKeeps(I.AtRest(before, now), id, actor, role, expected, I.AtRest(View(), now));
      }
    }

    method TouchCase(caseId: CaseId, expected: nat, status: D.CaseStatus) returns (ok: bool)
      modifies repo
      ensures View() == D.Touch(old(View()), caseId, expected, status)
      ensures ok <==> D.Touches(old(View()), caseId, expected)
      ensures repo.actions == old(repo.actions)
    {
      if caseId !in repo.cases { return false; }
      ok := repo.UpdateCase(caseId, repo.cases[caseId].owner, expected, repo.cases[caseId].(status := status));
    }

    method BeginCreate(id: ActionId, caseId: CaseId, actor: Actor, now: int) returns (r: Result<D.Call, Refusal>)
      modifies ledger
      ensures match D.BeginCreate(old(View()), id, caseId, actor, now)
              case Err(why) => r == Err(why) && View() == old(View())
              case Ok(started) => r == Ok(started.call) && View() == old(View()).(books := started.books)
    {
      if caseId !in repo.cases || repo.cases[caseId].owner != actor { return Err(NotFound); }
      var c := repo.cases[caseId];
      var drafted := D.Draft(c, caseId, actor, now);
      if drafted.Err? { return Err(drafted.error); }
      var action := drafted.value;
      if D.MovesMoney(action) && action.status == Approved {
        var funded := ledger.TryReserve(c.order, Amount(action));
        if !funded { return Err(InsufficientAvailable); }
        action := action.(reserved := true);
      }
      r := Ok(D.CreateCall(id, action, c.order, actor, c.version));
    }

    method FinishCreate(call: D.Call) returns (outcome: Result<Action, Refusal>)
      requires call.CreateCall?
      modifies repo, ledger
      ensures D.Reply(View(), outcome) == D.FinishCreate(old(View()), call)
    {
      var before := View();
      var saved := repo.CreateAction(call.id, call.draft, call.owner);
      assert saved <==> D.InsertAccepted(before, call.id, call.draft, call.owner);
      if !saved {
        if D.MovesMoney(call.draft) && call.draft.reserved {
          ledger.GiveBack(call.order, Amount(call.draft));
        }
        return Err(ActiveActionExists);
      }
      var touched := TouchCase(call.draft.caseId, call.caseVersion, D.CaseStatusFor(call.draft.status));
      outcome := if touched then Ok(call.draft) else Err(CaseChanged);
    }

    method CreateCaseAction(id: ActionId, caseId: CaseId, actor: Actor, now: int)
      returns (outcome: Result<Action, Refusal>)
      modifies repo, ledger
      ensures D.Reply(View(), outcome) == D.Create(old(View()), id, caseId, actor, now)
      ensures I.Balanced(old(View()), now) ==> I.Balanced(View(), now)
    {
      ghost var before := View();
      var begun := BeginCreate(id, caseId, actor, now);
      if begun.Err? { return Err(begun.error); }
      outcome := FinishCreate(begun.value);
      if I.Balanced(before, now) {
        I.CreateNowKeeps(I.AtRest(before, now), id, caseId, actor, I.AtRest(View(), now));
      }
    }

    method Reject(id: ActionId, actor: Actor, role: Role, expected: nat, comment: bool, now: int)
      returns (outcome: Result<Action, Refusal>)
      modifies repo, ledger
      ensures D.Reply(View(), outcome) == D.Reject(old(View()), id, actor, role, expected, comment, now)
      ensures I.Balanced(old(View()), now) ==> I.Balanced(View(), now)
    {
      ghost var before := View();
      if role != Admin { return Err(AdminOnly); }
      if id !in repo.actions || repo.actions[id].caseId !in repo.cases { return Err(NotFound); }
      var a := repo.actions[id];
      var c := repo.cases[a.caseId];
      var rejected := RejectAction(a, actor, role, expected, now, comment);
      if rejected.Err? { return Err(rejected.error); }
      var updated := rejected.value;
      if D.MovesMoney(a) && a.reserved {
        ledger.GiveBack(c.order, Amount(updated));
        updated := updated.(reserved := false);
      }
      var saved := repo.SaveAction(id, updated, expected, None);
      var touched := TouchCase(a.caseId, c.version, D.CaseRejected);
      outcome := Ok(updated);
      if I.Balanced(before, now) {
        I.RejectKeeps(I.AtRest(before, now), id, actor, role, expected, comment, I.AtRest(View(), now));
      }
    }

    method ExecuteCaseAction(id: ActionId, role: Role, payload: Payload, expected: nat, now: int)
      returns (outcome: Result<Action, Refusal>)
      modifies repo, ledger, dispatcher
      ensures D.Reply(View(), outcome) == D.Execute(old(View()), id, role, payload, expected, now)
      ensures I.Balanced(old(View()), now) ==> I.Balanced(View(), now)
    {
      ghost var before := View();
      if role != Admin { return Err(AdminOnly); }
      if id !in repo.actions || repo.actions[id].caseId !in repo.cases { return Err(NotFound); }
      var a := repo.actions[id];
      var c := repo.cases[a.caseId];
      var refused := CheckExecution(a, payload, expected, now);
      if refused.Some? { return Err(refused.value); }
      var updated: Action;
      if D.MovesMoney(a) {
        if a.payload.requiresReturn { return Err(ReturnRequired); }
        var held := ledger.ReservedOf(c.order);
        if KeyOf(a) !in ledger.transactions && held < a.payload.amount { return Err(BalanceChanged); }
        var receipt := ledger.Capture(a.payload.order, a.payload.amount, KeyOf(a));
        if receipt.None? { return Err(InsufficientReserve); }
        updated := CompletedWith(a, MoneyMoved(receipt.value)).(reserved := false);
      } else {
        var shipment := dispatcher.Dispatch(a.payload.order, a.payload.sku, RESEND, KeyOf(a));
        if shipment.None? { return Err(OutOfStockNow); }
        updated := CompletedWith(a, GoodsSent(shipment.value));
      }
      var saved := repo.SaveAction(id, updated, expected, None);
      var touched := TouchCase(a.caseId, c.version, if D.MovesMoney(a) then D.CaseExecuting else D.CaseCompleted);
      outcome := Ok(updated);
      if I.Balanced(before, now) {
        I.ExecuteKeeps(I.AtRest(before, now), id, role, payload, expected, I.AtRest(View(), now));
      }
    }

    /** Retire every listed action: reject it, then give its reservation back and save again. */
    method InvalidateActiveActions(listing: seq<ActionId>, owner: Actor)
      requires forall id :: id in listing ==> id in repo.actions && OwnedBy(repo.cases, repo.actions[id].caseId, owner)
      requires forall i, j :: 0 <= i < j < |listing| ==> listing[i] != listing[j]
      modifies repo, ledger
      ensures View() == D.InvalidateAll(old(View()), listing)
    {
      var i := 0;
      ghost var start := View();
      while i < |listing|
        invariant 0 <= i <= |listing|
        invariant repo.cases == old(repo.cases)
        invariant forall id :: id in listing[i..] ==>
            id in repo.actions && OwnedBy(repo.cases, repo.actions[id].caseId, owner)
        invariant D.InvalidateAll(View(), listing[i..]) == D.InvalidateAll(start, listing)
      {
        var id := listing[i];
        var a := repo.actions[id];
        ghost var before := View();
        var rejected := a.(status := Rejected, version := a.version + 1);
        var saved := repo.SaveAction(id, rejected, a.version, Some(owner));
        if D.MovesMoney(a) && a.reserved {
          ledger.GiveBack(repo.cases[a.caseId].order, Amount(a));
          var released := rejected.(reserved := false, version := rejected.version + 1);
          saved := repo.SaveAction(id, released, rejected.version, Some(owner));
        }
        assert repo.actions == before.actions[id := D.Invalidated(a)];
        assert View() == D.InvalidateOne(before, id);
        assert listing[i..][0] == id && listing[i..][1..] == listing[i + 1..];
        i := i + 1;
      }
    }

    /** Supplement, once the case's active action is known: retire it, then replace the facts. */
    method ReplaceFacts(caseId: CaseId, listing: seq<ActionId>, order: OrderId, status: D.CaseStatus, plan: D.Plan)
      requires caseId in repo.cases
      requires D.Lists(listing, D.ActiveOf(View(), caseId))
      modifies repo, ledger
      ensures View() == D.Supplement(old(View()), caseId, listing, order, status, plan)
    {
      var c := repo.cases[caseId];
      InvalidateKeepsCases(View(), listing);
      InvalidateActiveActions(listing, c.owner);
      var saved := repo.UpdateCase(caseId, c.owner, c.version, D.Case(c.owner, order, status, plan, c.version));
    }

    /** New facts in, active action out. */
    method ContinueIntakeCase(caseId: CaseId, actor: Actor, order: OrderId, status: D.CaseStatus, plan: D.Plan,
                              ghost now: int)
      returns (found: bool, listing: seq<ActionId>)
      modifies repo, ledger
      ensures found <==> caseId in old(repo.cases) && old(repo.cases)[caseId].owner == actor
      ensures !found ==> View() == old(View())
      ensures found ==> D.Lists(listing, D.ActiveOf(old(View()), caseId))
      ensures found ==> View() == D.Supplement(old(View()), caseId, listing, order, status, plan)
      ensures I.Balanced(old(View()), now) ==> I.Balanced(View(), now)
    {
      ghost var before := View();
      if caseId !in repo.cases || repo.cases[caseId].owner != actor { return false, []; }
      var active := set id | id in repo.actions && repo.actions[id].caseId == caseId && Active(repo.actions[id]);
      assert active == D.ActiveOf(before, caseId);
      listing := repo.Rows(active);
      ReplaceFacts(caseId, listing, order, status, plan);
      if I.Balanced(before, now) { SupplementBalances(before, caseId, listing, order, status, plan, now); }
      found := true;
    }

    /** The reaper: give back every expired reservation and clear its flag. */
    method ReleaseExpiredReservations(now: int) returns (listing: seq<ActionId>)
      requires forall id :: id in repo.actions ==> repo.actions[id].caseId in repo.cases
      modifies repo, ledger
      ensures D.Lists(listing, D.DueSet(old(View()), now))
      ensures View() == D.ReapAll(old(View()), listing)
      ensures I.Balanced(old(View()), now) ==> I.Balanced(View(), now)
    {
      var due := set id | id in repo.actions && D.Due(repo.actions[id], now);
      listing := repo.Rows(due);
      ghost var start := View();
      var i := 0;
      while i < |listing|
        invariant 0 <= i <= |listing|
        invariant repo.cases == old(repo.cases) && repo.actions.Keys == old(repo.actions).Keys
        invariant forall id :: id in listing ==> id in repo.actions
        invariant forall id :: id in repo.actions ==> repo.actions[id].caseId in repo.cases
        invariant D.ReapAll(View(), listing[i..]) == D.ReapAll(start, listing)
      {
        var id := listing[i];
        var a := repo.actions[id];
        ghost var before := View();
        ledger.GiveBack(repo.cases[a.caseId].order, Amount(a));
        var saved := repo.SaveAction(id, a.(reserved := false), a.version, None);
        assert View() == D.ReapOne(before, id);
        assert listing[i..][0] == id && listing[i..][1..] == listing[i + 1..];
        i := i + 1;
      }
      if I.Balanced(start, now) {
        I.ReapAllKeeps(I.AtRest(start, now), listing, I.AtRest(View(), now));
      }
    }
  }

  lemma SupplementBalances(d: D.Desk, caseId: CaseId, listing: seq<ActionId>, order: OrderId, status: D.CaseStatus,
                           plan: D.Plan, now: int)
    requires caseId in d.cases && D.Lists(listing, D.ActiveOf(d, caseId)) && I.Balanced(d, now)
    ensures I.Balanced(D.Supplement(d, caseId, listing, order, status, plan), now)
  {
    I.SupplementKeeps(I.AtRest(d, now), caseId, listing, order, status, plan,
                      I.AtRest(D.Supplement(d, caseId, listing, order, status, plan), now));
  }

  lemma {:induction false} InvalidateKeepsCases(d: D.Desk, listing: seq<ActionId>)
    ensures D.InvalidateAll(d, listing).cases == d.cases
    ensures D.InvalidateAll(d, listing).warehouse == d.warehouse
    decreases |listing|
  {
    if listing != [] {
      InvalidateKeepsCases(D.InvalidateOne(d, listing[0]), listing[1..]);
    }
  }
}

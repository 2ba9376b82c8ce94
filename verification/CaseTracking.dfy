/** A case's status follows its live record, over every history of whole requests. */
module CaseTracking {
  import opened Wrappers
  import opened Payloads
  import opened Actions
  import opened Desk
  import opened Protocol
  import opened Agreement
  import opened Guarantees

  ghost predicate Tracks(d: Desk) {
    forall id :: id in d.actions && Active(d.actions[id]) && d.actions[id].caseId in d.cases ==>
      d.cases[d.actions[id].caseId].status == CaseStatusFor(d.actions[id].status)
  }

  lemma WriteTracks(s: System, e: Desk, id: ActionId, status: CaseStatus)
    requires Sound(s) && Tracks(s.desk) && OnlyThisRecord(s.desk, e, id, status)
    requires id in s.desk.actions ==> Active(s.desk.actions[id]) && s.desk.actions[id].caseId == e.actions[id].caseId
    requires id !in s.desk.actions ==> forall k :: k in s.desk.actions ==>
             !(Active(s.desk.actions[k]) && s.desk.actions[k].caseId == e.actions[id].caseId)
    requires Active(e.actions[id]) ==> status == CaseStatusFor(e.actions[id].status)
    ensures Tracks(e)
  {
    forall k | k in e.actions && Active(e.actions[k]) && e.actions[k].caseId in e.cases
      ensures e.cases[e.actions[k].caseId].status == CaseStatusFor(e.actions[k].status)
    {
      if k != id { assert k in s.desk.actions && e.actions[k] == s.desk.actions[k]; }
    }
  }

  lemma SignatureTracks(s: System, id: ActionId, actor: Actor, role: Role, expected: nat)
    requires Sound(s) && Tracks(s.desk)
    ensures Tracks(Approve(s.desk, id, actor, role, expected, s.clock).desk)
  {
    var r := Approve(s.desk, id, actor, role, expected, s.clock);
    if r.outcome.Ok? {
      CaseFollowsSignature(s.desk, id, actor, role, expected, s.clock);
      WriteTracks(s, r.desk, id, CaseStatusFor(r.outcome.value.status));
    } else {
      RefusalsChangeNothing(s.desk, id, actor, role, ResendPayload(None, "", 0), expected, false, s.clock);
    }
  }

  lemma CreationTracks(s: System, id: ActionId, caseId: CaseId, actor: Actor)
    requires Sound(s) && Tracks(s.desk)
    ensures Tracks(Create(s.desk, id, caseId, actor, s.clock).desk)
  {
    var r := Create(s.desk, id, caseId, actor, s.clock);
    if r.outcome.Ok? {
      NewRecord(s.desk, id, caseId, actor, s.clock);
      WriteTracks(s, r.desk, id, CaseStatusFor(r.outcome.value.status));
    } else {
      RefusedCreationChangesNothing(s.desk, id, caseId, actor, s.clock, None);
    }
  }

  lemma RejectionTracks(s: System, id: ActionId, actor: Actor, role: Role, expected: nat, comment: bool)
    requires Sound(s) && Tracks(s.desk)
    ensures Tracks(Reject(s.desk, id, actor, role, expected, comment, s.clock).desk)
  {
    var r := Reject(s.desk, id, actor, role, expected, comment, s.clock);
    if r.outcome.Ok? {
      CaseFollowsRejection(s.desk, id, actor, role, expected, comment, s.clock);
      WriteTracks(s, r.desk, id, CaseRejected);
    } else {
      RefusalsChangeNothing(s.desk, id, actor, role, ResendPayload(None, "", 0), expected, comment, s.clock);
    }
  }

  lemma ExecutedWasLive(d: Desk, id: ActionId, role: Role, payload: Payload, expected: nat, now: int)
    requires Execute(d, id, role, payload, expected, now).outcome.Ok?
    ensures id in d.actions && Active(d.actions[id])
    ensures Execute(d, id, role, payload, expected, now).outcome.value.caseId == d.actions[id].caseId
  {
  }

  lemma ExecutionTracks(s: System, id: ActionId, role: Role, payload: Payload, expected: nat)
    requires Sound(s) && Tracks(s.desk)
    ensures Tracks(Execute(s.desk, id, role, payload, expected, s.clock).desk)
  {
    var r := Execute(s.desk, id, role, payload, expected, s.clock);
    if r.outcome.Ok? {
      CaseFollowsExecution(s.desk, id, role, payload, expected, s.clock);
      ExecutedWasLive(s.desk, id, role, payload, expected, s.clock);
      WriteTracks(s, r.desk, id, if MovesMoney(r.outcome.value) then CaseExecuting else CaseCompleted);
    } else {
      RefusalsChangeNothing(s.desk, id, "", role, payload, expected, false, s.clock);
    }
  }

  lemma ActTracks(s: System, op: Op)
    requires Sound(s) && Agreed(s) && Whole(op) && Tracks(s.desk)
    ensures Tracks(Act(s, op).desk)
  {
    match op
    case OpenCase(caseId, _, _, _, _) => assert forall id :: id in s.desk.actions ==> RowOk(s, id);
    case SupplementCase(caseId, actor, listing, _, _, _) =>
      if caseId in s.desk.cases && s.desk.cases[caseId].owner == actor && Lists(listing, ActiveOf(s.desk, caseId)) {
        InvalidateAllKeeps(s, listing, s.(desk := InvalidateAll(s.desk, listing)));
      }
    case CreateNow(id, caseId, actor) => CreationTracks(s, id, caseId, actor);
    case ApproveNow(id, actor, role, expected) => SignatureTracks(s, id, actor, role, expected);
    case RejectNow(id, actor, role, expected, comment) => RejectionTracks(s, id, actor, role, expected, comment);
    case ExecuteNow(id, role, payload, expected) => ExecutionTracks(s, id, role, payload, expected);
    case Sweep(listing) =>
      if Lists(listing, DueSet(s.desk, s.clock)) {
        ReapAllKeeps(s, listing, Act(s, op));
        ReapAllRows(s.desk, listing);
      }
  }

  lemma {:induction false} RunTracks(s: System, steps: seq<Step>)
    requires Sound(s) && Agreed(s) && s.calls == map[] && Tracks(s.desk)
    requires forall i :: 0 <= i < |steps| ==> Whole(steps[i].op)
    ensures Tracks(Run(s, steps).desk)
    decreases |steps|
  {
    if steps != [] {
      WaitKeeps(s, steps[0].wait);
      ActTracks(Wait(s, steps[0].wait), steps[0].op);
      WholeRuns(s, steps);
      StepKeeps(s, steps[0]);
      RunTracks(Do(s, steps[0]), steps[1..]);
    }
  }

  /** After any history of whole requests, the case of a live record exists, names the record's order,
      and shows the record's own status. */
  lemma CasesTrackRecords(balances: map<OrderId, nat>, inventory: Option<map<Sku, nat>>, clock: int, steps: seq<Step>,
                          id: ActionId)
    requires forall i :: 0 <= i < |steps| ==> Whole(steps[i].op)
    requires var d := Run(Opening(balances, inventory, clock), steps).desk; id in d.actions && Active(d.actions[id])
    ensures var d := Run(Opening(balances, inventory, clock), steps).desk;
            var a := d.actions[id];
            && a.caseId in d.cases && d.cases[a.caseId].order == a.payload.order
            && d.cases[a.caseId].status == (if a.status == Approved then CaseApproved else CaseInApproval)
  {
    var s := Opening(balances, inventory, clock);
    OpeningOk(balances, inventory, clock);
    WholeRuns(s, steps);
    RunKeeps(s, steps);
    RunTracks(s, steps);
    assert RowOk(Run(s, steps), id);
  }
}

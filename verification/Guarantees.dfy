/** What the approval desk promises in every reachable state, and where overlapping handlers break it. */
module Guarantees {
  import opened Wrappers
  import opened MapSums
  import opened Payloads
  import opened Actions
  import L = Ledger
  import opened Desk
  import opened Protocol
  import opened Agreement

  // ---- whole handlers only: the ledger is the sum of the records ----

  lemma {:induction false} WholeRuns(s: System, steps: seq<Step>)
    requires s.calls == map[] && forall i :: 0 <= i < |steps| ==> Whole(steps[i].op)
    ensures AdmissibleRun(s, steps) && Run(s, steps).calls == map[]
    decreases |steps|
  {
    if steps != [] {
      WholeRuns(Do(s, steps[0]), steps[1..]);
    }
  }

  /** After any history of whole handlers, every order's frozen money is exactly the sum of its reserved records. */
  lemma ReservedIsRecorded(balances: map<OrderId, nat>, inventory: Option<map<Sku, nat>>, clock: int, steps: seq<Step>,
                           o: OrderId)
    requires forall i :: 0 <= i < |steps| ==> Whole(steps[i].op)
    ensures var t := Run(Opening(balances, inventory, clock), steps);
            L.Of(t.desk.books.reserved, o) == Sum(t.desk.actions, Held(o))
  {
    var s := Opening(balances, inventory, clock);
    OpeningOk(balances, inventory, clock);
    WholeRuns(s, steps);
    RunKeeps(s, steps);
    assert AgreedOn(Run(s, steps), o);
    SumZero(Run(s, steps).calls, Pledged(o));
  }

  /** With overlapping requests, frozen money is what records hold plus what requests in flight pledged. */
  lemma ReservedIsRecordedOrInFlight(balances: map<OrderId, nat>, inventory: Option<map<Sku, nat>>, clock: int,
                                     steps: seq<Step>, o: OrderId)
    requires AdmissibleRun(Opening(balances, inventory, clock), steps)
    ensures var t := Run(Opening(balances, inventory, clock), steps);
            L.Of(t.desk.books.reserved, o) == Sum(t.desk.actions, Held(o)) + Sum(t.calls, Pledged(o))
  {
    OpeningOk(balances, inventory, clock);
    RunKeeps(Opening(balances, inventory, clock), steps);
    assert AgreedOn(Run(Opening(balances, inventory, clock), steps), o);
  }

  /** No case ever has two live records, and no case pays one payload under two records. */
  lemma RecordsAreUnique(balances: map<OrderId, nat>, inventory: Option<map<Sku, nat>>, clock: int, steps: seq<Step>,
                         i: ActionId, j: ActionId)
    requires AdmissibleRun(Opening(balances, inventory, clock), steps)
    requires var d := Run(Opening(balances, inventory, clock), steps).desk;
             i in d.actions && j in d.actions && i != j && d.actions[i].caseId == d.actions[j].caseId
    ensures var d := Run(Opening(balances, inventory, clock), steps).desk;
            && !(Active(d.actions[i]) && Active(d.actions[j]))
            && d.actions[i].payload != d.actions[j].payload
  {
    OpeningOk(balances, inventory, clock);
    RunKeeps(Opening(balances, inventory, clock), steps);
    var d := Run(Opening(balances, inventory, clock), steps).desk;
    assert KeyOf(d.actions[i]) != KeyOf(d.actions[j]);
  }

  // ---- losing a race ----

  /** The money a request in flight would put back is still there. */
  lemma PledgeIsCovered(s: System, call: CallId, o: OrderId)
    requires Agreed(s) && call in s.calls
    ensures Pledged(o)(s.calls[call]) <= L.Of(s.desk.books.reserved, o)
  {
    assert AgreedOn(s, o);
    SumCovers(s.calls, Pledged(o), call);
  }

  ghost predicate Loses(d: Desk, c: Call) {
    if c.ApproveCall? then !SaveAccepted(d, c.id, c.expected) else !InsertAccepted(d, c.id, c.draft, c.owner)
  }

  /** A request that lost its race leaves every record, every case and every balance as if it had
      never run: its release returns exactly the amount it froze, whatever happened in between. */
  lemma LoserLeavesNoTrace(s: System, call: CallId, o: OrderId)
    requires Sound(s) && Agreed(s) && call in s.calls && Loses(s.desk, s.calls[call])
    ensures var d := FinishCall(s.desk, s.calls[call]).desk;
            var mine := Pledged(o)(s.calls[call]);
            && d.actions == s.desk.actions && d.cases == s.desk.cases && d.warehouse == s.desk.warehouse
            && L.Of(d.books.available, o) == L.Of(s.desk.books.available, o) + mine
            && L.Of(d.books.reserved, o) == L.Of(s.desk.books.reserved, o) - mine
            && d.books.transactions == s.desk.books.transactions
  {
    var c := s.calls[call];
    PledgeIsCovered(s, call, c.order);
    var mine := if c.ApproveCall? then c.after else c.draft;
    if c.ApproveCall? { assert ApproveCallOk(s, c); } else { assert CreateCallOk(s, c); }
    if mine.reserved { ReleaseCovered(s.desk.books, c.order, Amount(mine), o); }
  }

  lemma ReleaseCovered(b: L.Books, o: OrderId, amount: nat, p: OrderId)
    requires amount <= L.Of(b.reserved, o)
    ensures var r := L.Release(b, o, amount);
            var moved := if p == o then amount else 0;
            && L.Of(r.available, p) == L.Of(b.available, p) + moved
            && L.Of(r.reserved, p) == L.Of(b.reserved, p) - moved
            && r.transactions == b.transactions
  {
  }

  // ---- approved means funded ----

  /** In a sound, agreed desk a refund executes exactly when the request itself is in order:
      the money is always there. */
  lemma ApprovedMeansFunded(s: System, id: ActionId, role: Role, payload: Payload, expected: nat)
    requires Sound(s) && Agreed(s) && id in s.desk.actions && MovesMoney(s.desk.actions[id])
    ensures var a := s.desk.actions[id];
            Execute(s.desk, id, role, payload, expected, s.clock).outcome.Ok?
            <==> (&& role == Admin && a.status == Approved && a.version == expected && s.clock < a.expiresAt
                  && payload == a.payload && !a.payload.requiresReturn)
  {
    assert RowOk(s, id);
    var a := s.desk.actions[id];
    if a.status == Approved && s.clock < a.expiresAt {
      ApprovedIsReserved(s, id);
      ReleaseIsExact(s, id);
    }
  }

  /** The same over every admissible history: an approved refund never fails for want of money. */
  lemma ApprovedMeansFundedAlways(balances: map<OrderId, nat>, inventory: Option<map<Sku, nat>>, clock: int,
                                  steps: seq<Step>, id: ActionId)
    requires AdmissibleRun(Opening(balances, inventory, clock), steps)
    requires var t := Run(Opening(balances, inventory, clock), steps);
             && id in t.desk.actions && MovesMoney(t.desk.actions[id]) && t.desk.actions[id].status == Approved
             && t.clock < t.desk.actions[id].expiresAt && !t.desk.actions[id].payload.requiresReturn
    ensures var t := Run(Opening(balances, inventory, clock), steps);
            var a := t.desk.actions[id];
            var paid := Execute(t.desk, id, Admin, a.payload, a.version, t.clock);
            && paid.outcome.Ok? && paid.outcome.value.status == Completed
            && L.Captured(paid.desk.books, a.payload.order) == L.Captured(t.desk.books, a.payload.order) + Amount(a)
  {
    OpeningOk(balances, inventory, clock);
    RunKeeps(Opening(balances, inventory, clock), steps);
    var t := Run(Opening(balances, inventory, clock), steps);
    var a := t.desk.actions[id];
    ApprovedMeansFunded(t, id, Admin, a.payload, a.version);
    RefundShape(t, id, Admin, a.payload, a.version);
    SumInsert(t.desk.books.transactions, L.CapturedOn(a.payload.order), KeyOf(a),
              L.Receipt(a.payload.order, Amount(a), KeyOf(a)));
  }

  /** The same for signing: a signature is refused only for a reason the signer can see. */
  lemma SigningSucceedsExactly(s: System, id: ActionId, actor: Actor, role: Role, expected: nat)
    requires Sound(s) && id in s.desk.actions
    ensures var a := s.desk.actions[id];
            Approve(s.desk, id, actor, role, expected, s.clock).outcome.Ok?
            <==> (&& role == Admin == a.requiredRole && a.status == PendingApproval && a.version == expected
                  && s.clock < a.expiresAt
                  && actor != a.requestedBy && actor !in a.approvers
                  && (MovesMoney(a) && !a.reserved ==> Amount(a) <= L.Of(s.desk.books.available, a.payload.order)))
  {
    assert RowOk(s, id);
  }

  /** A refused signature, rejection or execution changes nothing at all. */
  lemma RefusalsChangeNothing(d: Desk, id: ActionId, actor: Actor, role: Role, payload: Payload,
                              expected: nat, comment: bool, now: int)
    ensures Approve(d, id, actor, role, expected, now).outcome.Err? ==>
            Approve(d, id, actor, role, expected, now).desk == d
    ensures Reject(d, id, actor, role, expected, comment, now).outcome.Err?
            ==> Reject(d, id, actor, role, expected, comment, now).desk == d
    ensures Execute(d, id, role, payload, expected, now).outcome.Err?
            ==> Execute(d, id, role, payload, expected, now).desk == d
  {
  }

  /** A refused creation leaves every record, case and balance where it was. */
  lemma RefusedCreationChangesNothing(d: Desk, id: ActionId, caseId: CaseId, actor: Actor, now: int, o: OrderId)
    requires Create(d, id, caseId, actor, now).outcome.Err?
    ensures var r := Create(d, id, caseId, actor, now).desk;
            && r.actions == d.actions && r.cases == d.cases && r.warehouse == d.warehouse
            && r.books.transactions == d.books.transactions
            && L.Of(r.books.available, o) == L.Of(d.books.available, o)
            && L.Of(r.books.reserved, o) == L.Of(d.books.reserved, o)
  {
    var begun := BeginCreate(d, id, caseId, actor, now);
    if begun.Ok? && begun.value.call.draft.reserved {
      L.ReserveThenRelease(d.books, begun.value.call.order, Amount(begun.value.call.draft), o);
    }
  }

  /** A handler that goes through rewrites its own record and its case's status, and nothing else. */
  predicate OnlyThisRecord(d: Desk, e: Desk, id: ActionId, status: CaseStatus) {
    && id in e.actions && (forall k :: k in d.actions ==> k in e.actions)
    && (forall k :: k in e.actions && k != id ==> k in d.actions && e.actions[k] == d.actions[k])
    && e.actions[id].caseId in d.cases && e.cases.Keys == d.cases.Keys
    && var caseId := e.actions[id].caseId;
    && e.cases[caseId] == d.cases[caseId].(status := status, version := d.cases[caseId].version + 1)
    && (forall k :: k in d.cases && k != caseId ==> e.cases[k] == d.cases[k])
  }

  /** The case's status follows its record through signing, rejection and execution. */
  lemma CaseFollowsSignature(d: Desk, id: ActionId, actor: Actor, role: Role, expected: nat, now: int)
    requires Approve(d, id, actor, role, expected, now).outcome.Ok?
    ensures var r := Approve(d, id, actor, role, expected, now);
            && OnlyThisRecord(d, r.desk, id,
                              if r.outcome.value.status == Approved then CaseApproved else CaseInApproval)
            && r.desk.actions[id] == r.outcome.value
            && r.outcome.value.approvers == d.actions[id].approvers + [actor]
            && (r.outcome.value.status == Approved <==> |r.outcome.value.approvers| >= d.actions[id].approversRequired)
  {
  }

  lemma CaseFollowsRejection(d: Desk, id: ActionId, actor: Actor, role: Role, expected: nat, comment: bool, now: int)
    requires Reject(d, id, actor, role, expected, comment, now).outcome.Ok?
    ensures var r := Reject(d, id, actor, role, expected, comment, now);
            && OnlyThisRecord(d, r.desk, id, CaseRejected)
            && r.desk.actions[id] == r.outcome.value && r.outcome.value.status == Rejected
  {
  }

  lemma CaseFollowsExecution(d: Desk, id: ActionId, role: Role, payload: Payload, expected: nat, now: int)
    requires Execute(d, id, role, payload, expected, now).outcome.Ok?
    ensures var r := Execute(d, id, role, payload, expected, now);
            && OnlyThisRecord(d, r.desk, id, if MovesMoney(r.outcome.value) then CaseExecuting else CaseCompleted)
            && r.desk.actions[id] == r.outcome.value && r.outcome.value.status == Completed
            && r.outcome.value.reference.Some?
  {
  }

  /** A new record starts unsigned, for its own case and requester, with a day to live; a refund is
      funded at once if it needs no signature and is unfunded if it does. */
  lemma NewRecord(d: Desk, id: ActionId, caseId: CaseId, actor: Actor, now: int)
    requires Create(d, id, caseId, actor, now).outcome.Ok?
    ensures var r := Create(d, id, caseId, actor, now);
            var a := r.outcome.value;
            && OnlyThisRecord(d, r.desk, id, if a.status == Approved then CaseApproved else CaseInApproval)
            && id !in d.actions && r.desk.actions[id] == a
            && a.caseId == caseId && a.requestedBy == actor == d.cases[caseId].owner
            && a.payload.order == d.cases[caseId].order
            && a.version == 1 && a.approvers == [] && a.reference.None? && a.expiresAt == now + 24 * 3600
            && (MovesMoney(a) && a.status == Approved ==>
                  a.reserved && Some(r.desk.books) == L.Reserve(d.books, a.payload.order, Amount(a)))
            && (!(MovesMoney(a) && a.status == Approved) ==>
                  !a.reserved && r.desk.books == d.books && a.status == PendingApproval)
  {
  }

  // ---- executions whose save was lost ----

  /** The same execution attempted again and again, none of the saves arriving. */
  function Unsaved(d: Desk, id: ActionId, role: Role, payload: Payload, expected: nat, times: seq<int>): Desk
    decreases |times|
  {
    if times == [] then d
    else Unsaved(ExecuteUnsaved(d, id, role, payload, expected, times[0]), id, role, payload, expected, times[1..])
  }

  lemma UnsavedOnce(d: Desk, id: ActionId, role: Role, payload: Payload, expected: nat, now: int, later: int)
    requires CaptureFor(d, id, role, payload, expected, now).Ok? && later < d.actions[id].expiresAt
    ensures CaptureFor(ExecuteUnsaved(d, id, role, payload, expected, now), id, role, payload, expected, later)
         == CaptureFor(d, id, role, payload, expected, now)
    ensures ExecuteUnsaved(d, id, role, payload, expected, now).actions == d.actions
    ensures ExecuteUnsaved(d, id, role, payload, expected, now).cases == d.cases
  {
  }

  /** Any number of lost saves followed by one that arrives is the same as one execution:
      one debit, one shipment, one transaction id. */
  lemma {:induction false} LostSavesAreHarmlessToRetry(d: Desk, id: ActionId, role: Role, payload: Payload,
                                                       expected: nat, times: seq<int>, last: int)
    requires CaptureFor(d, id, role, payload, expected, last).Ok?
    requires forall i :: 0 <= i < |times| ==> times[i] < d.actions[id].expiresAt
    ensures Execute(Unsaved(d, id, role, payload, expected, times), id, role, payload, expected, last)
         == Execute(d, id, role, payload, expected, last)
    decreases |times|
  {
    if times != [] {
      assert CaptureFor(d, id, role, payload, expected, times[0]) == CaptureFor(d, id, role, payload, expected, last);
      UnsavedOnce(d, id, role, payload, expected, times[0], last);
      var once := ExecuteUnsaved(d, id, role, payload, expected, times[0]);
      LostSavesAreHarmlessToRetry(once, id, role, payload, expected, times[1..], last);
    }
  }

  /** Releasing a record whose captured execution was never saved is not harmless: the release pays
      itself from other reservations on the order, so they stay whole exactly when there are none. */
  lemma ReleasingACapturedRecord(s: System, id: ActionId, role: Role, payload: Payload, expected: nat)
    requires Sound(s) && Agreed(s) && CaptureFor(s.desk, id, role, payload, expected, s.clock).Ok?
    requires MovesMoney(s.desk.actions[id]) && Amount(s.desk.actions[id]) > 0
    ensures var o := s.desk.actions[id].payload.order;
            var others := Sum(s.desk.actions - {id}, Held(o)) + Sum(s.calls, Pledged(o));
            var t := InvalidateOne(ExecuteUnsaved(s.desk, id, role, payload, expected, s.clock), id);
            && L.Of(t.books.reserved, o) == (if others <= Amount(s.desk.actions[id]) then 0
                                                else others - Amount(s.desk.actions[id]))
            && (L.Of(t.books.reserved, o) == others <==> others == 0)
  {
    var a := s.desk.actions[id];
    var o := a.payload.order;
    RefundShape(s, id, role, payload, expected);
    ApprovedIsReserved(s, id);
    assert AgreedOn(s, o);
    SumRemove(s.desk.actions, Held(o), id);
  }

  // ---- the reaper ----

  /** Reserved money of records past their deadline. */
  ghost function Overdue(o: OrderId, now: int): Action -> nat {
    (a: Action) => if a.reserved && a.expiresAt < now && a.payload.order == o then Amount(a) else 0
  }

  lemma SweepMovesOne(s: System, id: ActionId, o: OrderId)
    requires Sound(s) && Agreed(s) && id in s.desk.actions && Due(s.desk.actions[id], s.clock)
    ensures var d := ReapOne(s.desk, id);
            && L.Of(d.books.available, o) + Sum(d.actions, Overdue(o, s.clock))
               == L.Of(s.desk.books.available, o) + Sum(s.desk.actions, Overdue(o, s.clock))
            && d.books.transactions == s.desk.books.transactions
  {
    assert RowOk(s, id);
    ReleaseIsExact(s, id);
    SumUpdate(s.desk.actions, Overdue(o, s.clock), id, s.desk.actions[id].(reserved := false));
  }

  lemma {:induction false} SweepMoves(s: System, listing: seq<ActionId>, o: OrderId)
    requires Sound(s) && Agreed(s)
    requires forall id :: id in listing ==> id in s.desk.actions && Due(s.desk.actions[id], s.clock)
    requires forall i, j :: 0 <= i < j < |listing| ==> listing[i] != listing[j]
    ensures var t := ReapAll(s.desk, listing);
            && L.Of(t.books.available, o) + Sum(t.actions, Overdue(o, s.clock))
               == L.Of(s.desk.books.available, o) + Sum(s.desk.actions, Overdue(o, s.clock))
            && t.books.transactions == s.desk.books.transactions
    decreases |listing|
  {
    if listing != [] {
      var id := listing[0];
      var mid := s.(desk := ReapOne(s.desk, id));
      ReapOneKeeps(s, id, mid);
      SweepMovesOne(s, id, o);
      forall k | k in listing[1..] ensures k in mid.desk.actions && Due(mid.desk.actions[k], mid.clock) {
        assert k in listing && k != id;
      }
      SweepMoves(mid, listing[1..], o);
    }
  }

  /** Record by record: a sweep clears the flag of every live reserved record past its deadline, however long
      past, and leaves every other record, every case and every receipt alone. */
  lemma SweptExactly(d: Desk, listing: seq<ActionId>, now: int)
    requires Lists(listing, DueSet(d, now)) && forall id :: id in d.actions ==> d.actions[id].caseId in d.cases
    ensures var e := ReapAll(d, listing);
            && e.actions.Keys == d.actions.Keys && e.cases == d.cases
            && (forall id :: id in d.actions ==>
                  var a := d.actions[id];
                  e.actions[id] == if a.reserved && a.status in {PendingApproval, Approved} && a.expiresAt < now
                                   then a.(reserved := false) else a)
  {
    forall id | id in listing ensures id in d.actions && d.actions[id].caseId in d.cases {
      assert id in DueSet(d, now);
    }
    ReapAllRows(d, listing);
    forall id | id in d.actions ensures id in listing <==> Due(d.actions[id], now) {
      assert id in listing <==> id in DueSet(d, now);
    }
  }

  /** A sweep leaves no reservation past its deadline, and returns exactly that money to the available side. */
  lemma SweepReturnsTheOverdue(s: System, listing: seq<ActionId>, o: OrderId)
    requires Sound(s) && Agreed(s) && Lists(listing, DueSet(s.desk, s.clock))
    ensures var d := ReapAll(s.desk, listing);
            && DueSet(d, s.clock) == {}
            && (forall id :: id in d.actions && d.actions[id].reserved ==> s.clock <= d.actions[id].expiresAt)
            && L.Of(d.books.available, o) == L.Of(s.desk.books.available, o) + Sum(s.desk.actions, Overdue(o, s.clock))
            && L.Of(d.books.reserved, o) == Sum(d.actions, Held(o)) + Sum(s.calls, Pledged(o))
  {
    var t := s.(desk := ReapAll(s.desk, listing));
    ReapAllKeeps(s, listing, t);
    SweepMoves(s, listing, o);
    NothingOverdue(s, listing, o);
    assert AgreedOn(t, o);
  }

  lemma NothingOverdue(s: System, listing: seq<ActionId>, o: OrderId)
    requires Sound(s) && Lists(listing, DueSet(s.desk, s.clock))
    ensures var d := ReapAll(s.desk, listing);
            && DueSet(d, s.clock) == {} && Sum(d.actions, Overdue(o, s.clock)) == 0
            && (forall id :: id in d.actions && d.actions[id].reserved ==> s.clock <= d.actions[id].expiresAt)
  {
    assert forall id :: id in s.desk.actions ==> RowOk(s, id);
    SweptExactly(s.desk, listing, s.clock);
    SumZero(ReapAll(s.desk, listing).actions, Overdue(o, s.clock));
  }

  lemma SomethingListed(listing: seq<ActionId>)
    ensures listing != [] ==> exists id :: id in listing
  {
    if listing != [] { assert listing[0] in listing; }
  }

  /** Sweeping again at the same time finds nothing and moves nothing. */
  lemma SecondSweepIsIdle(s: System, listing: seq<ActionId>, again: seq<ActionId>)
    requires Sound(s) && Agreed(s) && Lists(listing, DueSet(s.desk, s.clock))
    requires Lists(again, DueSet(ReapAll(s.desk, listing), s.clock))
    ensures again == [] && ReapAll(ReapAll(s.desk, listing), again) == ReapAll(s.desk, listing)
  {
    SweepReturnsTheOverdue(s, listing, None);
    SomethingListed(again);
  }

  /** A record past its deadline without money behind it, which no request in flight can still sign. */
  ghost predicate Lapsed(s: System, id: ActionId) {
    && id in s.desk.actions && MovesMoney(s.desk.actions[id])
    && !s.desk.actions[id].reserved && s.desk.actions[id].expiresAt < s.clock
    && s.desk.actions[id].status != Completed
    && (forall c :: c in s.calls && s.calls[c].ApproveCall? && s.calls[c].id == id ==>
          s.calls[c].expected != s.desk.actions[id].version)
  }

  lemma SweptLapses(s: System, listing: seq<ActionId>, id: ActionId)
    requires Sound(s) && Agreed(s) && Lists(listing, DueSet(s.desk, s.clock))
    requires id in s.desk.actions && Due(s.desk.actions[id], s.clock)
    ensures Lapsed(Do(s, Step(0, Sweep(listing))), id)
  {
    assert s.(clock := s.clock + 0) == s;
    ReapAllKeeps(s, listing, Do(s, Step(0, Sweep(listing))));
    assert RowOk(s, id);
    forall c | c in s.calls && s.calls[c].ApproveCall? && s.calls[c].id == id
      ensures s.calls[c].expected != s.desk.actions[id].version
    {
      assert ApproveCallOk(s, s.calls[c]);
    }
  }

  ghost predicate StillLapsed(s: System, t: System, id: ActionId) {
    && Lapsed(t, id)
    && id in s.desk.actions
    && t.desk.actions[id].approvers == s.desk.actions[id].approvers
    && (t.desk.actions[id].status == s.desk.actions[id].status || t.desk.actions[id].status == Rejected)
  }

  lemma LapsedFold(s: System, listing: seq<ActionId>, id: ActionId)
    requires Sound(s) && Agreed(s) && Lapsed(s, id)
    requires forall k :: k in listing ==> k in s.desk.actions && Active(s.desk.actions[k])
    requires forall i, j :: 0 <= i < j < |listing| ==> listing[i] != listing[j]
    ensures StillLapsed(s, s.(desk := InvalidateAll(s.desk, listing)), id)
  {
    InvalidateAllKeeps(s, listing, s.(desk := InvalidateAll(s.desk, listing)));
    forall c | c in s.calls && s.calls[c].ApproveCall? && s.calls[c].id == id
      ensures s.calls[c].expected != Invalidated(s.desk.actions[id]).version
    {
      assert ApproveCallOk(s, s.calls[c]);
    }
  }

  /** A step that leaves the record alone and starts no signature on it leaves it lapsed. */
  lemma LapsedUntouched(s: System, t: System, id: ActionId)
    requires Lapsed(s, id) && id in t.desk.actions && t.desk.actions[id] == s.desk.actions[id] && s.clock <= t.clock
    requires forall c :: c in t.calls && t.calls[c].ApproveCall? && t.calls[c].id == id ==>
             c in s.calls && s.calls[c] == t.calls[c]
    ensures StillLapsed(s, t, id)
  {
  }

  lemma LapsedFinish(s: System, call: CallId, t: System, id: ActionId)
    requires Sound(s) && Lapsed(s, id) && call in s.calls
    requires t == s.(desk := FinishCall(s.desk, s.calls[call]).desk, calls := s.calls - {call})
    ensures StillLapsed(s, t, id)
  {
    LapsedUntouched(s, t, id);
  }

  lemma LapsedCreate(s: System, k: ActionId, caseId: CaseId, actor: Actor, t: System, id: ActionId)
    requires Lapsed(s, id)
    requires t == s.(desk := Create(s.desk, k, caseId, actor, s.clock).desk)
    ensures StillLapsed(s, t, id)
  {
    LapsedUntouched(s, t, id);
  }

  lemma LapsedApprove(s: System, k: ActionId, actor: Actor, role: Role, expected: nat, t: System, id: ActionId)
    requires Lapsed(s, id)
    requires t == s.(desk := Approve(s.desk, k, actor, role, expected, s.clock).desk, requests := t.requests)
    ensures StillLapsed(s, t, id)
  {
    LapsedUntouched(s, t, id);
  }

  lemma LapsedReject(s: System, k: ActionId, actor: Actor, role: Role, expected: nat, comment: bool, t: System,
                     id: ActionId)
    requires Lapsed(s, id)
    requires t == s.(desk := Reject(s.desk, k, actor, role, expected, comment, s.clock).desk)
    ensures StillLapsed(s, t, id)
  {
    LapsedUntouched(s, t, id);
  }

  lemma LapsedExecute(s: System, k: ActionId, role: Role, payload: Payload, expected: nat, t: System, id: ActionId)
    requires Lapsed(s, id)
    requires t == s.(desk := Execute(s.desk, k, role, payload, expected, s.clock).desk)
    ensures StillLapsed(s, t, id)
  {
    LapsedUntouched(s, t, id);
  }

  lemma LapsedBegin(s: System, call: CallId, started: Started, t: System, id: ActionId)
    requires Lapsed(s, id) && call !in s.calls
    requires started.call.ApproveCall? ==> started.call.id != id
    requires t == s.(desk := s.desk.(books := started.books), calls := s.calls[call := started.call],
             requests := t.requests)
    ensures StillLapsed(s, t, id)
  {
    LapsedUntouched(s, t, id);
  }

  lemma LapsedStep(before: System, step: Step, id: ActionId)
    requires Sound(before) && Agreed(before) && Admissible(before, step.op) && Lapsed(before, id)
    ensures StillLapsed(before, Do(before, step), id)
  {
    WaitKeeps(before, step.wait);
    LapsedUntouched(before, Wait(before, step.wait), id);
    LapsedAct(Wait(before, step.wait), step.op, id);
  }

  /** No signature on a lapsed record ever gets as far as its save. */
  lemma BegunSignature(s: System, k: ActionId, actor: Actor, role: Role, expected: nat, id: ActionId)
    requires Lapsed(s, id) && BeginApprove(s.desk, k, actor, role, expected, s.clock).Ok?
    ensures var c := BeginApprove(s.desk, k, actor, role, expected, s.clock).value.call;
            c.ApproveCall? && c.id == k != id
  {
  }

  lemma BegunCreation(d: Desk, k: ActionId, caseId: CaseId, actor: Actor, now: int)
    requires BeginCreate(d, k, caseId, actor, now).Ok?
    ensures BeginCreate(d, k, caseId, actor, now).value.call.CreateCall?
  {
  }

  lemma LapsedAct(s: System, op: Op, id: ActionId)
    requires Sound(s) && Agreed(s) && Admissible(s, op) && Lapsed(s, id)
    ensures StillLapsed(s, Act(s, op), id)
  {
    var t := Act(s, op);
    match op
    case OpenCase(_, _, _, _, _) => LapsedUntouched(s, t, id);
    case SupplementCase(caseId, actor, listing, order, status, plan) =>
      if caseId in s.desk.cases && s.desk.cases[caseId].owner == actor && Lists(listing, ActiveOf(s.desk, caseId)) {
        LapsedSupplement(s, caseId, listing, order, status, plan, t, id);
      }
    case CreateNow(k, caseId, actor) => LapsedCreate(s, k, caseId, actor, t, id);
    case CreateSplit(call, k, caseId, actor) =>
      var begun := BeginCreate(s.desk, k, caseId, actor, s.clock);
      if call !in s.calls && begun.Ok? {
        BegunCreation(s.desk, k, caseId, actor, s.clock);
        LapsedBegin(s, call, begun.value, t, id);
      }
    case ApproveNow(k, actor, role, expected) => LapsedApprove(s, k, actor, role, expected, t, id);
    case ApproveSplit(call, k, actor, role, expected) =>
      var begun := BeginApprove(s.desk, k, actor, role, expected, s.clock);
      if call !in s.calls && begun.Ok? {
        BegunSignature(s, k, actor, role, expected, id);
        LapsedBegin(s, call, begun.value, t, id);
      }
    case Finish(call) => if call in s.calls { LapsedFinish(s, call, t, id); }
    case RejectNow(k, actor, role, expected, comment) => LapsedReject(s, k, actor, role, expected, comment, t, id);
    case ExecuteNow(k, role, payload, expected) => LapsedExecute(s, k, role, payload, expected, t, id);
    case ExecuteLost(_, _, _, _) =>
    case Sweep(listing) =>
      if Lists(listing, DueSet(s.desk, s.clock)) { LapsedSweep(s, listing, t, id); }
  }

  lemma LapsedSweep(s: System, listing: seq<ActionId>, t: System, id: ActionId)
    requires Sound(s) && Agreed(s) && Lapsed(s, id) && Lists(listing, DueSet(s.desk, s.clock))
    requires t == s.(desk := ReapAll(s.desk, listing))
    ensures StillLapsed(s, t, id)
  {
    ReapAllKeeps(s, listing, t);
    LapsedUntouched(s, t, id);
  }

  lemma LapsedSupplement(s: System, caseId: CaseId, listing: seq<ActionId>, order: OrderId, status: CaseStatus,
                         plan: Plan, t: System, id: ActionId)
    requires Sound(s) && Agreed(s) && Lapsed(s, id) && caseId in s.desk.cases
             && Lists(listing, ActiveOf(s.desk, caseId))
    requires t == s.(desk := Supplement(s.desk, caseId, listing, order, status, plan), assessed := t.assessed)
    ensures StillLapsed(s, t, id)
  {
    LapsedFold(s, listing, id);
  }

  /** No swept record can ever again be signed, approved or captured. */
  lemma {:induction false} SweptStaysDead(s: System, steps: seq<Step>, id: ActionId)
    requires Sound(s) && Agreed(s) && AdmissibleRun(s, steps) && Lapsed(s, id)
    ensures StillLapsed(s, Run(s, steps), id)
    ensures KeyOf(s.desk.actions[id]) !in Run(s, steps).desk.books.transactions
    decreases |steps|
  {
    if steps != [] {
      var t := Do(s, steps[0]);
      StepKeeps(s, steps[0]);
      LapsedStep(s, steps[0], id);
      SweptStaysDead(t, steps[1..], id);
    } else {
      CapturedIsCompleted(s.desk, id);
    }
  }
}

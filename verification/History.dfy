/** The life of one record over any history, and what splitting a further signature on a funded record breaks. */
module History {
  import opened Wrappers
  import opened MapSums
  import opened Payloads
  import opened Actions
  import L = Ledger
  import opened Desk
  import opened Protocol
  import opened Agreement
  import opened Decision
  import opened RiskScoring
  import opened Guarantees

  /** What any stretch of history may do to a record. */
  predicate Later(a: Action, b: Action) {
    && b.caseId == a.caseId && b.payload == a.payload && b.requestedBy == a.requestedBy
    && b.requiredRole == a.requiredRole && b.approversRequired == a.approversRequired && b.expiresAt == a.expiresAt
    && a.approvers <= b.approvers && a.version <= b.version
    && (a.status == Approved ==> b.status != PendingApproval)
    && (!Active(a) ==> b == a)
  }

  /** Records are never dropped, never go back, and rejected or completed ones never change again. */
  lemma {:induction false} RecordsOnlyAdvance(s: System, steps: seq<Step>, id: ActionId)
    requires Sound(s) && Agreed(s) && AdmissibleRun(s, steps) && id in s.desk.actions
    ensures id in Run(s, steps).desk.actions && Later(s.desk.actions[id], Run(s, steps).desk.actions[id])
    decreases |steps|
  {
    if steps != [] {
      StepKeeps(s, steps[0]);
      RecordsOnlyAdvance(Do(s, steps[0]), steps[1..], id);
    }
  }

  /** A record cannot jump from waiting to paid: a completed record was approved in an earlier state. */
  lemma {:induction false} CompletedWasApproved(s: System, steps: seq<Step>, id: ActionId) returns (k: nat)
    requires Sound(s) && Agreed(s) && AdmissibleRun(s, steps) && id in s.desk.actions
    requires s.desk.actions[id].status != Completed && Run(s, steps).desk.actions.Keys >= {id}
    requires Run(s, steps).desk.actions[id].status == Completed
    ensures k < |steps| && id in Run(s, steps[..k]).desk.actions
    ensures Run(s, steps[..k]).desk.actions[id].status == Approved
    decreases |steps|
  {
    var t := Do(s, steps[0]);
    StepKeeps(s, steps[0]);
    if s.desk.actions[id].status == Approved {
      k := 0;
      assert steps[..0] == [];
    } else {
      var j := CompletedWasApproved(t, steps[1..], id);
      k := j + 1;
      assert steps[..k][0] == steps[0] && steps[..k][1..] == steps[1..][..j];
    }
  }

  // ---- at most one commit per version ----

  lemma {:induction false} RunConcat(s: System, xs: seq<Step>, ys: seq<Step>)
    ensures Run(s, xs + ys) == Run(Run(s, xs), ys)
    ensures AdmissibleRun(s, xs + ys) <==> AdmissibleRun(s, xs) && AdmissibleRun(Run(s, xs), ys)
    decreases |xs|
  {
    if xs == [] {
      assert xs + ys == ys;
    } else {
      assert (xs + ys)[1..] == xs[1..] + ys;
      RunConcat(Do(s, xs[0]), xs[1..], ys);
    }
  }

  lemma RunPrefix(s: System, steps: seq<Step>, k: nat)
    requires k < |steps|
    ensures Run(s, steps[..k + 1]) == Do(Run(s, steps[..k]), steps[k])
  {
    assert steps[..k + 1] == steps[..k] + [steps[k]];
    RunConcat(s, steps[..k], [steps[k]]);
    assert [steps[k]][1..] == [];
  }

  /** The step rewrites the record as it stood at version read; the reaper clearing a flag does not count. */
  ghost predicate Commits(s: System, step: Step, id: ActionId, read: nat) {
    && id in s.desk.actions && s.desk.actions[id].version == read
    && id in Do(s, step).desk.actions
    && Do(s, step).desk.actions[id].(reserved := s.desk.actions[id].reserved) != s.desk.actions[id]
  }

  /** Of all the steps of a run, whole or split, that rewrite one version of a record, at most one exists:
      signatures, rejections, executions and invalidations that read the same version exclude each other. */
  lemma AtMostOneCommit(s: System, steps: seq<Step>, id: ActionId, read: nat, i: nat, j: nat)
    requires Sound(s) && Agreed(s) && AdmissibleRun(s, steps) && i < j < |steps|
    ensures !(Commits(Run(s, steps[..i]), steps[i], id, read) && Commits(Run(s, steps[..j]), steps[j], id, read))
  {
    var u, v := Run(s, steps[..i]), Run(s, steps[..i + 1]);
    if Commits(u, steps[i], id, read) {
      assert steps == steps[..i] + steps[i..] && steps[i..][0] == steps[i];
      RunConcat(s, steps[..i], steps[i..]);
      RunKeeps(s, steps[..i]);
      StepKeeps(u, steps[i]);
      RunPrefix(s, steps, i);
      VersionStaysPast(s, steps, id, read, i + 1, j);
    }
  }

  /** Once a record is past a version it stays past it. */
  lemma VersionStaysPast(s: System, steps: seq<Step>, id: ActionId, read: nat, i: nat, j: nat)
    requires Sound(s) && Agreed(s) && AdmissibleRun(s, steps) && i <= j <= |steps|
    requires var v := Run(s, steps[..i]).desk; id in v.actions && v.actions[id].version > read
    ensures var w := Run(s, steps[..j]).desk; id in w.actions && w.actions[id].version > read
  {
    assert steps == steps[..j] + steps[j..] && steps[..j] == steps[..i] + steps[i..j];
    RunConcat(s, steps[..j], steps[j..]);
    RunConcat(s, steps[..i], steps[i..j]);
    RunKeeps(s, steps[..i]);
    RecordsOnlyAdvance(Run(s, steps[..i]), steps[i..j], id);
  }

  /** Once the version has moved on, no save, signature, rejection or execution against the old one
      ever succeeds. */
  lemma OneCommitPerVersion(s: System, steps: seq<Step>, id: ActionId, read: nat, actor: Actor, role: Role,
                            payload: Payload, comment: bool)
    requires Sound(s) && Agreed(s) && AdmissibleRun(s, steps) && id in s.desk.actions
             && read < s.desk.actions[id].version
    ensures var t := Run(s, steps);
            && !SaveAccepted(t.desk, id, read)
            && Approve(t.desk, id, actor, role, read, t.clock).outcome.Err?
            && Reject(t.desk, id, actor, role, read, comment, t.clock).outcome.Err?
            && Execute(t.desk, id, role, payload, read, t.clock).outcome.Err?
  {
    RecordsOnlyAdvance(s, steps, id);
  }

  /** A signature, rejection or execution that goes through moves the version past the one it read, and so
      do the save of a split signature and a supplement's invalidation. */
  lemma CommitMovesVersion(d: Desk, id: ActionId, actor: Actor, role: Role, payload: Payload, read: nat, comment: bool,
                           now: int)
    requires id in d.actions
    ensures Approve(d, id, actor, role, read, now).outcome.Ok?
            ==> && d.actions[id].version == read
                && Approve(d, id, actor, role, read, now).desk.actions[id].version == read + 1
    ensures Reject(d, id, actor, role, read, comment, now).outcome.Ok?
            ==> && d.actions[id].version == read
                && Reject(d, id, actor, role, read, comment, now).desk.actions[id].version == read + 1
    ensures Execute(d, id, role, payload, read, now).outcome.Ok?
            ==> && d.actions[id].version == read
                && Execute(d, id, role, payload, read, now).desk.actions[id].version == read + 1
    ensures InvalidateOne(d, id).actions[id] == d.actions[id]
            || InvalidateOne(d, id).actions[id].version > d.actions[id].version
  {
  }

  lemma SplitCommitMovesVersion(s: System, call: CallId)
    requires Sound(s) && call in s.calls && s.calls[call].ApproveCall? && !Loses(s.desk, s.calls[call])
    ensures var c := s.calls[call];
            && s.desk.actions[c.id] == c.before && c.before.version == c.expected
            && FinishApprove(s.desk, c).desk.actions[c.id] == c.after && c.after.version == c.expected + 1
  {
    assert ApproveCallOk(s, s.calls[call]);
  }

  // ---- what goes wrong when an approval of an already reserved record is split ----

  /** Two administrators both read a record that already holds money and lacks one signature; the
      first save approves it, the second loses and gives back the money it never froze. The record
      ends approved and reserved while the ledger is short by exactly its amount. */
  lemma RivalSecondSignatures(s: System, id: ActionId, a: Actor, b: Actor)
    requires Sound(s) && Agreed(s) && id in s.desk.actions && s.calls == map[] && a != b
    requires var r := s.desk.actions[id];
             && MovesMoney(r) && r.reserved && r.status == PendingApproval && r.requiredRole == Admin
             && s.clock < r.expiresAt && |r.approvers| + 1 == r.approversRequired
             && a !in r.approvers && b !in r.approvers && a != r.requestedBy && b != r.requestedBy
    ensures var r := s.desk.actions[id];
            var s1 := Act(s, ApproveSplit(1, id, a, Admin, r.version));
            var s2 := Act(s1, ApproveSplit(2, id, b, Admin, r.version));
            var s3 := Act(s2, Finish(1));
            var t := Act(s3, Finish(2));
            var o := r.payload.order;
            && t.calls == map[] && id in t.desk.actions
            && t.desk.actions[id].status == Approved && t.desk.actions[id].reserved
            && L.Of(t.desk.books.reserved, o) + Amount(r) == Sum(t.desk.actions, Held(o))
  {
    var r := s.desk.actions[id];
    var o := r.payload.order;
    assert RowOk(s, id);
    var s1 := Act(s, ApproveSplit(1, id, a, Admin, r.version));
    var s2 := Act(s1, ApproveSplit(2, id, b, Admin, r.version));
    var s3 := Act(s2, Finish(1));
    var t := Act(s3, Finish(2));
    assert s1.desk == s.desk && s2.desk == s.desk;
    var approved := s2.calls[1].after;
    assert s3.desk.actions == s.desk.actions[id := approved] && s3.desk.books == s.desk.books;
    assert t.desk.actions == s3.desk.actions && t.desk.books == L.Release(s.desk.books, o, Amount(r));
    assert t.calls == map[];
    ReleasedTwice(s, id, approved);
  }

  /** Giving back money that a record still holds leaves the ledger short by its amount. */
  lemma ReleasedTwice(s: System, id: ActionId, b: Action)
    requires Agreed(s) && s.calls == map[] && id in s.desk.actions && s.desk.actions[id].reserved
    requires b.reserved && b.payload == s.desk.actions[id].payload
    ensures var o := b.payload.order;
            L.Of(L.Release(s.desk.books, o, Amount(b)).reserved, o) + Amount(b) == Sum(s.desk.actions[id := b], Held(o))
  {
    var o := b.payload.order;
    assert AgreedOn(s, o);
    SumZero(s.calls, Pledged(o));
    SumUpdate(s.desk.actions, Held(o), id, b);
    SumCovers(s.desk.actions, Held(o), id);
  }

  /** A four-eyes case: a repeat claimant asking for a large amount. */
  const LARGE_CLAIM := Facts(QualityIssue, 600_000, 0, 600_000, None, 3, 0,
                             Policy({QualityIssue}, {}, {}, 100_000, 50_000),
                             20_000, false, None, None, None, 0, false)

  /** Such a record is reachable: open the case, create the refund, sign once. */
  function OneSignature(): seq<Step> {
    [Step(0, OpenCase("c", "maker", Some("o"), ReadyForAction, RefundPlan(LARGE_CLAIM))),
     Step(0, CreateNow("a", "c", "maker")),
     Step(0, ApproveNow("a", "first", Admin, 1))]
  }

  const LARGE_CASE := Case("maker", Some("o"), ReadyForAction, RefundPlan(LARGE_CLAIM), 1)

  const LARGE_DRAFT :=
    Action("c", RefundPayload(Some("o"), 600_000, false), PendingApproval, "maker", Admin, [], 2, TTL, false, 1, None)

  lemma LargeDraftCreated(d: Desk)
    requires d.cases == map["c" := LARGE_CASE] && d.actions == map[]
    ensures var e := Create(d, "a", "c", "maker", 0).desk;
            && e.actions == map["a" := LARGE_DRAFT] && e.books == d.books
            && e.cases == map["c" := LARGE_CASE.(status := CaseInApproval, version := 2)]
  {
    LargeClaimNeedsTwo();
    assert Draft(LARGE_CASE, "c", "maker", 0) == Ok(LARGE_DRAFT);
  }

  lemma LargeDraftSigned(d: Desk)
    requires d.actions == map["a" := LARGE_DRAFT] && "c" in d.cases && d.cases["c"].order == Some("o")
    requires L.Of(d.books.available, Some("o")) == 600_000
    ensures Approve(d, "a", "first", Admin, 1, 0).desk.actions
         == map["a" := LARGE_DRAFT.(approvers := ["first"], version := 2, reserved := true)]
  {
    assert LARGE_DRAFT.approvers + ["first"] == ["first"];
    assert ApproveAction(LARGE_DRAFT, "first", Admin, 1, 0) == Ok(LARGE_DRAFT.(approvers := ["first"], version := 2));
  }

  lemma RunOfThree(s: System, a: Step, b: Step, c: Step)
    ensures Run(s, [a, b, c]) == Do(Do(Do(s, a), b), c)
  {
    assert [a, b, c][1..] == [b, c] && [b, c][1..] == [c] && [c][1..] == [];
    assert Run(Do(Do(s, a), b), [c]) == Do(Do(Do(s, a), b), c);
    assert Run(Do(s, a), [b, c]) == Run(Do(Do(s, a), b), [c]);
  }

  lemma RivalsCanMeet()
    ensures var s := Run(Opening(map[Some("o") := 600_000], None, 0), OneSignature());
            && Sound(s) && Agreed(s) && "a" in s.desk.actions && s.calls == map[]
            && var r := s.desk.actions["a"];
            && MovesMoney(r) && r.reserved && r.status == PendingApproval && r.requiredRole == Admin
            && s.clock < r.expiresAt && |r.approvers| + 1 == r.approversRequired
            && "second" !in r.approvers && "third" !in r.approvers && "second" != r.requestedBy
            && "third" != r.requestedBy
  {
    var s0 := Opening(map[Some("o") := 600_000], None, 0);
    var steps := OneSignature();
    WholeRuns(s0, steps);
    OpeningOk(map[Some("o") := 600_000], None, 0);
    RunKeeps(s0, steps);
    AfterOneSignature();
  }

  lemma AfterOneSignature()
    ensures var s := Run(Opening(map[Some("o") := 600_000], None, 0), OneSignature());
            && s.clock == 0
            && s.desk.actions == map["a" := LARGE_DRAFT.(approvers := ["first"], version := 2, reserved := true)]
  {
    var s0 := Opening(map[Some("o") := 600_000], None, 0);
    var steps := OneSignature();
    RunOfThree(s0, steps[0], steps[1], steps[2]);
    LargeCaseOpened();
    LargeDraftCreated(Do(s0, steps[0]).desk);
    LargeDraftSigned(Do(Do(s0, steps[0]), steps[1]).desk);
  }

  lemma LargeCaseOpened()
    ensures var s := Do(Opening(map[Some("o") := 600_000], None, 0), OneSignature()[0]);
            && s.clock == 0 && s.desk.cases == map["c" := LARGE_CASE] && s.desk.actions == map[]
            && L.Of(s.desk.books.available, Some("o")) == 600_000
  {
  }

  lemma LargeClaimNeedsTwo()
    ensures var d := Decide(LARGE_CLAIM);
            && d.eligibility == EligibleWithApproval && d.action == RefundOriginalPayment && d.refundAmount == 600_000
            && d.approvalRequired && d.tier == FourEyes
  {
    AutoPaysExactly(LARGE_CLAIM);
  }

  /** What a request in flight really froze: a signature on an already funded record froze nothing. */
  ghost function Owed(o: OrderId): Call -> nat {
    (c: Call) =>
      match c
      case ApproveCall(_, before, after, order, _, _) =>
        if after.reserved && !before.reserved && order == o then Amount(after) else 0
      case CreateCall(_, draft, order, _, _) => if draft.reserved && order == o then Amount(draft) else 0
  }

  /** The ledger holds what the records hold and what the requests in flight froze. */
  ghost predicate Accounted(s: System, o: OrderId) {
    L.Of(s.desk.books.reserved, o) == Sum(s.desk.actions, Held(o)) + Sum(s.calls, Owed(o))
  }

  /** In a sound desk this is agreement: no admissible request in flight reads a funded record. */
  lemma AccountedIsAgreed(s: System, o: OrderId)
    requires Sound(s)
    ensures Accounted(s, o) <==> AgreedOn(s, o)
  {
    forall c | c in s.calls ensures Owed(o)(s.calls[c]) == Pledged(o)(s.calls[c]) { assert CallOk(s, s.calls[c]); }
    SumSameWeights(s.calls, Owed(o), Pledged(o));
  }

  /** A losing approval keeps the ledger accounted for exactly when the money it gives back is its own, or
      there is nothing left to give back; any number of rivals on funded records may be in flight. */
  lemma LosingKeepsAgreementExactly(s: System, call: CallId)
    requires call in s.calls && s.calls[call].ApproveCall?
    requires !SaveAccepted(s.desk, s.calls[call].id, s.calls[call].expected)
    requires MovesMoney(s.calls[call].before) && s.calls[call].after.reserved && Amount(s.calls[call].after) > 0
    requires Accounted(s, s.calls[call].order)
    ensures Accounted(Act(s, Finish(call)), s.calls[call].order)
            <==> (!s.calls[call].before.reserved || L.Of(s.desk.books.reserved, s.calls[call].order) == 0)
  {
    var c := s.calls[call];
    var t := Act(s, Finish(call));
    SumRemove(s.calls, Owed(c.order), call);
    assert Owed(c.order)(c) == if c.before.reserved then 0 else Amount(c.after);
    assert t.desk.actions == s.desk.actions && t.calls == s.calls - {call};
    assert t.desk.books == L.Release(s.desk.books, c.order, Amount(c.after));
  }
}

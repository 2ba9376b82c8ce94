/** Return, refund or resend: the cost model of backend/app/after_sales/reverse.py. */
module Reverse {
  import opened Wrappers
  import opened Decision

  datatype Preference = PreferRefund | PreferReplacement

  datatype ReverseAction =
    | RefundWithoutReturn | ReturnThenRefund | ReplaceAfterReturn | ResendWithoutReturn | HoldForReview

  datatype Outcome = Decided | AwaitingEvidence | Unsupported

  datatype Damage = Undamaged | Minor | Major | Destroyed

  datatype Grade = A | B | C | D

  datatype Disposition = Restock | Refurbish | Liquidate | Dispose

  datatype Note =
    | IssueNotSupported | SerialMismatch | InventoryAvailable | OutOfStock
    | ReturnCostExceedsRecovery | RecoveryCoversReverseCost

  datatype Visual = Visual(damage: Damage, serialMatches: Option<bool>, confirmed: bool)

  datatype ReverseInput = ReverseInput(
    issue: IssueType,
    refundAmount: nat,
    returnShipping: nat,
    handling: nat,
    expectedRecovery: nat,
    unitCost: nat,
    replacementShipping: nat,
    inventory: nat,
    preference: Preference,
    visual: Option<Visual>)

  datatype ReverseDecision = ReverseDecision(
    outcome: Outcome,
    action: ReverseAction,
    cost: nat,
    requiresReturn: bool,
    notes: seq<Note>,
    evidenceMissing: bool,
    grading: Option<(Grade, Disposition)>)

  /** Share of the recovery value that survives, in tenths. */
  function RecoveryTenths(d: Damage): nat {
    match d case Undamaged => 10 case Minor => 7 case Major => 4 case Destroyed => 0
  }

  /** n tenths rounded to a whole number, ties to the even neighbour. */
  function RoundTenths(n: nat): nat {
    var q, r := n / 10, n % 10;
    if r < 5 then q else if r > 5 then q + 1 else q + q % 2
  }

  function Recovery(c: ReverseInput, d: Damage): nat { RoundTenths(c.expectedRecovery * RecoveryTenths(d)) }

  function GradeOf(d: Damage): (Grade, Disposition) {
    match d
    case Undamaged => (A, Restock)
    case Minor => (B, Refurbish)
    case Major => (C, Liquidate)
    case Destroyed => (D, Dispose)
  }

  function Positive(n: int): nat { if n < 0 then 0 else n }

  function ReverseCost(c: ReverseInput): nat { c.returnShipping + c.handling }

  function DecideReverse(c: ReverseInput): ReverseDecision {
    if c.issue !in {DamagedItem, WrongItem, QualityIssue} then
      ReverseDecision(Unsupported, HoldForReview, 0, false, [IssueNotSupported], false, None)
    else if c.visual.None? || !c.visual.value.confirmed then
      ReverseDecision(AwaitingEvidence, HoldForReview, 0, false, [], true, None)
    else if c.visual.value.serialMatches == Some(false) && c.issue != WrongItem then
      ReverseDecision(Decided, HoldForReview, 0, true, [SerialMismatch], false, None)
    else
      var grading := Some(GradeOf(c.visual.value.damage));
      var recovery := Recovery(c, c.visual.value.damage);
      var reverseCost := ReverseCost(c);
      if c.preference == PreferReplacement && c.inventory > 0 then
        if recovery < reverseCost then
          ReverseDecision(Decided, ResendWithoutReturn, c.unitCost + c.replacementShipping, false,
                          [InventoryAvailable, ReturnCostExceedsRecovery], false, grading)
        else
          ReverseDecision(Decided, ReplaceAfterReturn,
                          Positive(c.unitCost + c.replacementShipping + reverseCost - recovery), true,
                          [InventoryAvailable], false, grading)
      else
        var notes := if c.preference == PreferReplacement then [OutOfStock] else [];
        if recovery >= reverseCost then
          ReverseDecision(Decided, ReturnThenRefund, Positive(c.refundAmount + reverseCost - recovery), true,
                          notes + [RecoveryCoversReverseCost], false, grading)
        else
          ReverseDecision(Decided, RefundWithoutReturn, c.refundAmount, false,
                          notes + [ReturnCostExceedsRecovery], false, grading)
  }

  // ---- the two alternatives the customer's wish leaves, priced independently of the rule ----

  predicate Routed(c: ReverseInput) {
    DecideReverse(c).outcome == Decided && DecideReverse(c).action != HoldForReview
  }

  /** What the customer is given: a replacement when wished for and in stock, else the refund. */
  function Remedy(c: ReverseInput): nat {
    if c.preference == PreferReplacement && c.inventory > 0 then c.unitCost + c.replacementShipping else c.refundAmount
  }

  function CostWithReturn(c: ReverseInput): nat
    requires c.visual.Some?
  {
    Positive(Remedy(c) + ReverseCost(c) - Recovery(c, c.visual.value.damage))
  }

  /** The chosen route is never dearer than the other, a free choice goes to the return,
      and a held or unsupported case commits no money. */
  lemma CheapestRoute(c: ReverseInput)
    ensures Routed(c) ==> c.visual.Some?
                          && DecideReverse(c).cost <= Remedy(c) && DecideReverse(c).cost <= CostWithReturn(c)
                          && DecideReverse(c).cost == (if DecideReverse(c).requiresReturn
                                                        then CostWithReturn(c) else Remedy(c))
                          && (DecideReverse(c).requiresReturn <==> ReverseCost(c) <= Recovery(c, c.visual.value.damage))
    ensures !Routed(c) ==> DecideReverse(c).cost == 0 && DecideReverse(c).action == HoldForReview
  {
  }

  function DamageRank(d: Damage): nat { 10 - RecoveryTenths(d) }

  /** The rounding used is to the nearest whole, and a tie lands on an even number. */
  lemma RoundsToNearestEven(n: nat)
    ensures -5 <= 10 * RoundTenths(n) - n <= 5
    ensures n % 10 == 5 ==> RoundTenths(n) % 2 == 0
  {
  }

  lemma RoundingMonotone(m: nat, n: nat)
    requires m <= n
    ensures RoundTenths(m) <= RoundTenths(n)
  {
    assert m / 10 <= n / 10;
  }

  /** Worse damage never lowers the cost, and never turns a returnless choice back into a return. */
  lemma WorseDamage(c: ReverseInput, worse: Damage)
    requires Routed(c) && DamageRank(c.visual.value.damage) <= DamageRank(worse)
    ensures var d := c.(visual := Some(c.visual.value.(damage := worse)));
            && Routed(d)
            && DecideReverse(c).cost <= DecideReverse(d).cost
            && (!DecideReverse(c).requiresReturn ==> !DecideReverse(d).requiresReturn)
  {
    var kept, left := RecoveryTenths(c.visual.value.damage), RecoveryTenths(worse);
    assert c.expectedRecovery * left <= c.expectedRecovery * kept;
    RoundingMonotone(c.expectedRecovery * left, c.expectedRecovery * kept);
  }

  // ---- the routes, from the input alone ----

  /** Which cases are decided at all, and which of those are held for a person. */
  lemma HeldExactly(c: ReverseInput)
    ensures var d := DecideReverse(c);
            var goods := c.issue == DamagedItem || c.issue == WrongItem || c.issue == QualityIssue;
            var seen := c.visual.Some? && c.visual.value.confirmed;
            && d.outcome == (if !goods then Unsupported else if !seen then AwaitingEvidence else Decided)
            && (d.evidenceMissing <==> goods && !seen)
            && (Routed(c) <==> goods && seen && (c.issue == WrongItem || c.visual.value.serialMatches != Some(false)))
            && (goods && seen && !Routed(c) ==>
                  d.action == HoldForReview && d.requiresReturn && SerialMismatch in d.notes && d.grading.None?)
            && (IssueNotSupported in d.notes <==> !goods)
  {
  }

  /** A routed case gets the remedy the customer wished for if it is in stock, with or without the goods coming
      back, a grade for the damage seen, and the notes that say why. */
  lemma RoutedExactly(c: ReverseInput)
    requires Routed(c)
    ensures var d := DecideReverse(c);
            var replaced := c.preference == PreferReplacement && c.inventory > 0;
            && d.action == (if replaced then (if d.requiresReturn then ReplaceAfterReturn else ResendWithoutReturn)
                            else (if d.requiresReturn then ReturnThenRefund else RefundWithoutReturn))
            && d.grading == Some(match c.visual.value.damage
                                 case Undamaged => (A, Restock)
                                 case Minor => (B, Refurbish)
                                 case Major => (C, Liquidate)
                                 case Destroyed => (D, Dispose))
            && (InventoryAvailable in d.notes <==> replaced)
            && (OutOfStock in d.notes <==> c.preference == PreferReplacement && c.inventory == 0)
            && (ReturnCostExceedsRecovery in d.notes <==> !d.requiresReturn)
            && (RecoveryCoversReverseCost in d.notes <==> !replaced && d.requiresReturn)
  {
  }

  /** What the goods are still worth: all of it undamaged, nothing destroyed, and the nearest whole to seven
      and to four tenths in between. */
  lemma RecoveryExactly(c: ReverseInput)
    ensures Recovery(c, Undamaged) == c.expectedRecovery && Recovery(c, Destroyed) == 0
    ensures -5 <= 10 * Recovery(c, Minor) - 7 * c.expectedRecovery <= 5
    ensures -5 <= 10 * Recovery(c, Major) - 4 * c.expectedRecovery <= 5
    ensures ReverseCost(c) == c.returnShipping + c.handling
  {
    RoundsToNearestEven(c.expectedRecovery * 7);
    RoundsToNearestEven(c.expectedRecovery * 4);
  }
}

/** Eligibility, refund amount and approval need (backend/app/after_sales/decision.py, schemas.py). */
module Decision {
  import opened Wrappers
  import opened RiskScoring

  datatype IssueType = DeliveryNotReceived | DamagedItem | WrongItem | QualityIssue | AmountDispute

  datatype Eligibility = Eligible | EligibleWithApproval | Ineligible | NeedsEvidence

  datatype ResolutionAction = RefundOriginalPayment | ReturnAndRefund | ManualReview

  datatype ReasonCode = IssueNotCovered | EvidenceMissing | NoRefundableBalance | PolicyMatched

  datatype ApprovalReason = ExceedsOperatorLimit | ManualReviewThreshold | HighRiskCase | ScoreRequiresReview

  datatype Flag =
    | BalanceExhausted | CappedByBalance | RepeatNotReceived | ElevatedNotReceived
    | CarrierHasProof | CarrierNoProof | HighValue

  datatype Evidence = LogisticsEvidence | VisualEvidence

  datatype Policy = Policy(
    covered: set<IssueType>,
    refundShipping: set<IssueType>,
    returnRequired: set<IssueType>,
    manualReviewAmount: nat,
    highValueAmount: nat)

  datatype Facts = Facts(
    issue: IssueType,
    itemPaid: nat,
    shippingPaid: nat,
    balance: nat,
    proofOfDelivery: Option<bool>, // None: no logistics record
    claims: nat,
    refundCases: nat,
    policy: Policy,
    operatorLimit: nat,
    visualConfirmed: bool,
    receiptHours: Option<int>,
    accountAgeDays: Option<int>,
    refundRate: Option<real>,
    addressChanges: int,
    deviceReuse: bool)

  datatype Resolution = Resolution(
    eligibility: Eligibility,
    action: ResolutionAction,
    refundAmount: nat,
    level: RiskLevel,
    reason: ReasonCode,
    approvalRequired: bool,
    approvalReasons: seq<ApprovalReason>,
    flags: seq<Flag>,
    missing: seq<Evidence>,
    score: nat,
    tier: RiskTier,
    contributions: seq<Contribution>)

  function NoRefund(e: Eligibility, reason: ReasonCode, flags: seq<Flag>, missing: seq<Evidence>): Resolution {
    Resolution(e, ManualReview, 0, Low, reason, false, [], flags, missing, 0, Auto, [])
  }

  function MissingEvidence(c: Facts): seq<Evidence> {
    if c.issue == DeliveryNotReceived && c.proofOfDelivery.None? then [LogisticsEvidence]
    else if c.issue in {DamagedItem, WrongItem} && !c.visualConfirmed then [VisualEvidence]
    else []
  }

  function Requested(c: Facts): nat {
    c.itemPaid + if c.issue in c.policy.refundShipping then c.shippingPaid else 0
  }

  function RefundAmount(c: Facts): nat { Min(Requested(c), c.balance) }

  function RiskSignals(c: Facts): Signals {
    Signals(c.claims, c.refundCases, c.proofOfDelivery == Some(true), c.issue == DeliveryNotReceived,
            RefundAmount(c) >= c.policy.highValueAmount, c.receiptHours, c.accountAgeDays,
            c.refundRate, c.addressChanges, c.deviceReuse)
  }

  function RaisedFlags(c: Facts): seq<Flag> {
    (if RefundAmount(c) < Requested(c) then [CappedByBalance] else [])
    + (if c.claims >= 3 then [RepeatNotReceived] else if c.claims == 2 then [ElevatedNotReceived] else [])
    + (if c.issue == DeliveryNotReceived && c.proofOfDelivery.Some?
       then (if c.proofOfDelivery.value then [CarrierHasProof] else [CarrierNoProof]) else [])
    + (if RefundAmount(c) >= c.policy.highValueAmount then [HighValue] else [])
  }

  function ApprovalReasons(c: Facts, a: Assessment): seq<ApprovalReason> {
    (if RefundAmount(c) > c.operatorLimit then [ExceedsOperatorLimit] else [])
    + (if RefundAmount(c) >= c.policy.manualReviewAmount then [ManualReviewThreshold] else [])
    + (if a.level == High then [HighRiskCase] else [])
    + (if a.tier != Auto then [ScoreRequiresReview] else [])
  }

  function Decide(c: Facts): Resolution {
    if c.issue !in c.policy.covered then NoRefund(Ineligible, IssueNotCovered, [], [])
    else if MissingEvidence(c) != [] then NoRefund(NeedsEvidence, EvidenceMissing, [], MissingEvidence(c))
    else if c.balance == 0 then NoRefund(Ineligible, NoRefundableBalance, [BalanceExhausted], [])
    else
      var a := Assess(RiskSignals(c), RefundAmount(c), DUAL_APPROVAL_THRESHOLD);
      var reasons := ApprovalReasons(c, a);
      Resolution(
        if reasons != [] then EligibleWithApproval else Eligible,
        if c.issue in c.policy.returnRequired then ReturnAndRefund else RefundOriginalPayment,
        RefundAmount(c), a.level, PolicyMatched, reasons != [], reasons, RaisedFlags(c), [],
        a.score, a.tier, a.contributions)
  }

  /** How many people must sign before the money of this decision can move. */
  function SignaturesNeeded(d: Resolution): nat {
    if !d.approvalRequired && d.level != High then 0
    else if d.tier == FourEyes then 2 else 1
  }

  /** A decision pays without a signature exactly below both amount limits and in the lowest tier. */
  lemma AutoPaysExactly(c: Facts)
    requires Decide(c).reason == PolicyMatched
    ensures SignaturesNeeded(Decide(c)) == 0
       <==> RefundAmount(c) <= c.operatorLimit && RefundAmount(c) < c.policy.manualReviewAmount
            && Decide(c).tier == Auto
    ensures !Decide(c).approvalRequired <==> SignaturesNeeded(Decide(c)) == 0
    ensures SignaturesNeeded(Decide(c)) == 2
       <==> Decide(c).level == High && RefundAmount(c) >= DUAL_APPROVAL_THRESHOLD
  {
    var a := Assess(RiskSignals(c), RefundAmount(c), DUAL_APPROVAL_THRESHOLD);
    var r := ApprovalReasons(c, a);
    if RefundAmount(c) > c.operatorLimit { assert r[0] == ExceedsOperatorLimit; }
    else if RefundAmount(c) >= c.policy.manualReviewAmount { assert r[0] == ManualReviewThreshold; }
    else if a.level == High { assert r[0] == HighRiskCase; }
    else if a.tier != Auto { assert r[0] == ScoreRequiresReview; }
    else { assert r == []; }
  }

  /** The refund never exceeds what was paid nor what is left to refund. */
  lemma RefundBounded(c: Facts)
    ensures Decide(c).refundAmount <= c.balance
    ensures Decide(c).refundAmount <= c.itemPaid + c.shippingPaid
    ensures Decide(c).reason == PolicyMatched && c.policy.refundShipping == {} ==> Decide(c).refundAmount <= c.itemPaid
  {
  }

  /** The same case seen with a higher stake or a more suspicious customer. */
  predicate HigherStakes(c: Facts, d: Facts) {
    && c.issue == d.issue && c.policy == d.policy && c.operatorLimit == d.operatorLimit
    && c.proofOfDelivery == d.proofOfDelivery && c.visualConfirmed == d.visualConfirmed
    && c.receiptHours == d.receiptHours
    && c.itemPaid <= d.itemPaid && c.shippingPaid <= d.shippingPaid && c.balance <= d.balance
    && c.claims <= d.claims && c.refundCases <= d.refundCases
    && YoungerOrKnown(c.accountAgeDays, d.accountAgeDays)
    && HigherOrKnown(c.refundRate, d.refundRate)
    && c.addressChanges <= d.addressChanges
    && (c.deviceReuse ==> d.deviceReuse)
  }

  lemma StakesAreRisks(c: Facts, d: Facts)
    requires HigherStakes(c, d)
    ensures RefundAmount(c) <= RefundAmount(d) && Riskier(RiskSignals(c), RiskSignals(d))
    ensures Decide(c).reason == PolicyMatched ==> Decide(d).reason == PolicyMatched
  {
  }

  /** What a matched decision takes from the assessment. */
  lemma DecidedFrom(c: Facts)
    requires Decide(c).reason == PolicyMatched
    ensures var d, a := Decide(c), Assess(RiskSignals(c), RefundAmount(c), DUAL_APPROVAL_THRESHOLD);
            && d.refundAmount == RefundAmount(c) && d.score == a.score && d.level == a.level && d.tier == a.tier
            && d.approvalReasons == ApprovalReasons(c, a) && (d.approvalRequired <==> d.approvalReasons != [])
  {
  }

  lemma SomeReasonStays(xs: seq<ApprovalReason>, ys: seq<ApprovalReason>)
    requires forall r :: r in xs ==> r in ys
    ensures xs != [] ==> ys != []
  {
    if xs != [] { assert xs[0] in xs; }
  }

  lemma SignaturesGrow(x: Resolution, y: Resolution)
    requires x.approvalRequired ==> y.approvalRequired
    requires LevelRank(x.level) <= LevelRank(y.level) && TierRank(x.tier) <= TierRank(y.tier)
    ensures SignaturesNeeded(x) <= SignaturesNeeded(y)
  {
  }

  /** An approval reason stays a reason at a higher amount, level and tier. */
  lemma ReasonsGrow(c: Facts, d: Facts, a: Assessment, b: Assessment)
    requires RefundAmount(c) <= RefundAmount(d) && c.operatorLimit == d.operatorLimit && c.policy == d.policy
    requires LevelRank(a.level) <= LevelRank(b.level) && TierRank(a.tier) <= TierRank(b.tier)
    ensures forall r :: r in ApprovalReasons(c, a) ==> r in ApprovalReasons(d, b)
  {
  }

  /** Raising any stake or suspicion never makes the decision more lenient. */
  lemma DecisionMonotone(c: Facts, d: Facts)
    requires HigherStakes(c, d)
    requires Decide(c).reason == PolicyMatched
    ensures Decide(d).reason == PolicyMatched
    ensures Decide(c).refundAmount <= Decide(d).refundAmount
    ensures Decide(c).score <= Decide(d).score <= 100
    ensures LevelRank(Decide(c).level) <= LevelRank(Decide(d).level)
    ensures TierRank(Decide(c).tier) <= TierRank(Decide(d).tier)
    ensures SignaturesNeeded(Decide(c)) <= SignaturesNeeded(Decide(d))
    ensures forall r :: r in Decide(c).approvalReasons ==> r in Decide(d).approvalReasons
  {
    StakesAreRisks(c, d);
    DecidedFrom(c);
    DecidedFrom(d);
    AssessMonotone(RiskSignals(c), RiskSignals(d), RefundAmount(c), RefundAmount(d), DUAL_APPROVAL_THRESHOLD);
    ReasonsGrow(c, d, Assess(RiskSignals(c), RefundAmount(c), DUAL_APPROVAL_THRESHOLD),
                Assess(RiskSignals(d), RefundAmount(d), DUAL_APPROVAL_THRESHOLD));
    SomeReasonStays(Decide(c).approvalReasons, Decide(d).approvalReasons);
    SignaturesGrow(Decide(c), Decide(d));
  }

  // ---- the decision, from the facts alone ----

  /** A claim not yet backed by the evidence its issue calls for. */
  predicate LacksEvidence(c: Facts) {
    || (c.issue == DeliveryNotReceived && c.proofOfDelivery.None?)
    || ((c.issue == DamagedItem || c.issue == WrongItem) && !c.visualConfirmed)
  }

  /** What the customer asks back: the item, and the shipping where the policy refunds it. */
  function Asked(c: Facts): nat {
    c.itemPaid + if c.issue in c.policy.refundShipping then c.shippingPaid else 0
  }

  /** A claim is paid exactly when it is covered, backed by its evidence and there is money left; otherwise
      nothing is paid and the reason names the first of the three that fails. */
  lemma DecidedOnFacts(c: Facts)
    ensures Decide(c).reason == (if c.issue !in c.policy.covered then IssueNotCovered
                                 else if LacksEvidence(c) then EvidenceMissing
                                 else if c.balance == 0 then NoRefundableBalance else PolicyMatched)
    ensures Decide(c).reason == PolicyMatched <==> Decide(c).eligibility in {Eligible, EligibleWithApproval}
    ensures Decide(c).reason == EvidenceMissing <==> Decide(c).eligibility == NeedsEvidence
    ensures Decide(c).reason == EvidenceMissing ==>
              Decide(c).missing == if c.issue == DeliveryNotReceived then [LogisticsEvidence] else [VisualEvidence]
    ensures Decide(c).reason != EvidenceMissing ==> Decide(c).missing == []
    ensures Decide(c).reason != PolicyMatched ==>
              && Decide(c).refundAmount == 0 && Decide(c).action == ManualReview && !Decide(c).approvalRequired
              && Decide(c).approvalReasons == [] && Decide(c).level == Low && Decide(c).tier == Auto
              && Decide(c).score == 0
  {
  }

  lemma AmountOnFacts(c: Facts)
    ensures RefundAmount(c) <= c.balance && RefundAmount(c) <= Asked(c)
    ensures RefundAmount(c) == c.balance || RefundAmount(c) == Asked(c)
    ensures RefundAmount(c) < Requested(c) <==> c.balance < Asked(c)
  {
  }

  lemma ReasonsOnFacts(c: Facts, a: Assessment)
    ensures ExceedsOperatorLimit in ApprovalReasons(c, a) <==> RefundAmount(c) > c.operatorLimit
    ensures ManualReviewThreshold in ApprovalReasons(c, a) <==> RefundAmount(c) >= c.policy.manualReviewAmount
    ensures HighRiskCase in ApprovalReasons(c, a) <==> a.level == High
    ensures ScoreRequiresReview in ApprovalReasons(c, a) <==> a.tier != Auto
  {
  }

  lemma TierOnFacts(level: RiskLevel, amount: int)
    ensures Tier(level, amount, DUAL_APPROVAL_THRESHOLD)
         == (match level
             case Low => Auto
             case Medium => Review
             case High => if amount >= 500_000 then FourEyes else Supervisor)
  {
  }

  lemma ActionOnFacts(c: Facts)
    requires Decide(c).reason == PolicyMatched
    ensures Decide(c).action == if c.issue in c.policy.returnRequired then ReturnAndRefund else RefundOriginalPayment
    ensures Decide(c).eligibility == EligibleWithApproval <==> Decide(c).approvalReasons != []
    ensures Decide(c).flags == RaisedFlags(c)
    ensures Decide(c).contributions == Contributions(RiskSignals(c))
  {
  }

  /** A paid claim pays what was asked or what is left, whichever is less; it waits for the goods exactly when
      the policy wants them back; and it needs approval for exactly the reasons that apply. */
  lemma PaidOnFacts(c: Facts)
    requires c.issue in c.policy.covered && !LacksEvidence(c) && c.balance > 0
    ensures var d := Decide(c);
            && d.refundAmount <= c.balance && d.refundAmount <= Asked(c)
            && (d.refundAmount == c.balance || d.refundAmount == Asked(c))
            && d.action == (if c.issue in c.policy.returnRequired then ReturnAndRefund else RefundOriginalPayment)
            && (ExceedsOperatorLimit in d.approvalReasons <==> d.refundAmount > c.operatorLimit)
            && (ManualReviewThreshold in d.approvalReasons <==> d.refundAmount >= c.policy.manualReviewAmount)
            && (HighRiskCase in d.approvalReasons <==> d.level == High)
            && (ScoreRequiresReview in d.approvalReasons <==> d.level != Low)
            && (d.approvalRequired <==> d.approvalReasons != [])
            && (d.eligibility == EligibleWithApproval <==> d.approvalReasons != [])
            && d.tier == (match d.level
                          case Low => Auto
                          case Medium => Review
                          case High => if d.refundAmount >= 500_000 then FourEyes else Supervisor)
  {
    DecidedOnFacts(c);
    DecidedFrom(c);
    AmountOnFacts(c);
    ActionOnFacts(c);
    ReasonsOnFacts(c, Assess(RiskSignals(c), RefundAmount(c), DUAL_APPROVAL_THRESHOLD));
    TierOnFacts(Level(RiskSignals(c)), RefundAmount(c));
  }

  lemma FlagsOnFacts(c: Facts)
    ensures CappedByBalance in RaisedFlags(c) <==> c.balance < Asked(c)
    ensures RepeatNotReceived in RaisedFlags(c) <==> c.claims >= 3
    ensures ElevatedNotReceived in RaisedFlags(c) <==> c.claims == 2
    ensures CarrierHasProof in RaisedFlags(c) <==> c.issue == DeliveryNotReceived && c.proofOfDelivery == Some(true)
    ensures CarrierNoProof in RaisedFlags(c) <==> c.issue == DeliveryNotReceived && c.proofOfDelivery == Some(false)
    ensures HighValue in RaisedFlags(c) <==> RefundAmount(c) >= c.policy.highValueAmount
    ensures BalanceExhausted !in RaisedFlags(c)
  {
    AmountOnFacts(c);
  }

  /** The assessment sees the claim's own signals, and the flags shown to the desk are exactly those that apply. */
  lemma FlaggedOnFacts(c: Facts)
    requires c.issue in c.policy.covered && !LacksEvidence(c) && c.balance > 0
    ensures var d := Decide(c);
            var seen := Signals(c.claims, c.refundCases, c.proofOfDelivery == Some(true), c.issue
                == DeliveryNotReceived,
                                d.refundAmount >= c.policy.highValueAmount, c.receiptHours, c.accountAgeDays,
                                c.refundRate, c.addressChanges, c.deviceReuse);
            && d.score == Score(seen) && d.level == Level(seen) && d.contributions == Contributions(seen)
            && (CappedByBalance in d.flags <==> c.balance < Asked(c))
            && (RepeatNotReceived in d.flags <==> c.claims >= 3)
            && (ElevatedNotReceived in d.flags <==> c.claims == 2)
            && (CarrierHasProof in d.flags <==> c.issue == DeliveryNotReceived && c.proofOfDelivery == Some(true))
            && (CarrierNoProof in d.flags <==> c.issue == DeliveryNotReceived && c.proofOfDelivery == Some(false))
            && (HighValue in d.flags <==> d.refundAmount >= c.policy.highValueAmount)
            && BalanceExhausted !in d.flags
  {
    DecidedOnFacts(c);
    DecidedFrom(c);
    ActionOnFacts(c);
    FlagsOnFacts(c);
  }
}

/** The 0-100 refund risk scorecard (backend/app/after_sales/risk_scoring.py). */
module RiskScoring {
  import opened Wrappers

  datatype RiskLevel = Low | Medium | High

  datatype RiskTier = Auto | Review | Supervisor | FourEyes

  datatype Signals = Signals(
    notReceivedClaims: int,
    refundCases: int,
    proofOfDelivery: bool,
    deliveryNotReceived: bool,
    highValue: bool,
    receiptHours: Option<int>,
    accountAgeDays: Option<int>,
    refundRate: Option<real>,
    addressChanges: int,
    deviceReuse: bool)

  datatype Signal =
    | RepeatClaims | ElevatedClaims | DeliveryConflict | HighValueRefund
    | HighVolume | ElevatedVolume | ImmediateClaim | LateClaim
    | YoungAccount | HighRefundRate | ElevatedRefundRate
    | AddressChanges | SharedDevice

  datatype Contribution = Contribution(signal: Signal, points: nat)

  datatype Assessment = Assessment(
    score: nat,
    level: RiskLevel,
    tier: RiskTier,
    contributions: seq<Contribution>,
    ruleOverride: bool)

  const DUAL_APPROVAL_THRESHOLD := 500_000
  const IMMEDIATE_RECEIPT_HOURS := 2
  const LATE_RECEIPT_HOURS := 30 * 24

  function LevelRank(l: RiskLevel): nat {
    match l case Low => 0 case Medium => 1 case High => 2
  }

  function TierRank(t: RiskTier): nat {
    match t case Auto => 0 case Review => 1 case Supervisor => 2 case FourEyes => 3
  }

  function Min(a: int, b: int): int { if a <= b then a else b }

  // ---- the scorecard, one signal family at a time ----

  function One(signal: Signal, points: nat): seq<Contribution> { [Contribution(signal, points)] }

  function ClaimPart(s: Signals): seq<Contribution> {
    if s.notReceivedClaims >= 3 then One(RepeatClaims, 40)
    else if s.notReceivedClaims == 2 then One(ElevatedClaims, 20) else []
  }

  function DeliveryPart(s: Signals): seq<Contribution> {
    if s.deliveryNotReceived && s.proofOfDelivery then One(DeliveryConflict, 30) else []
  }

  function ValuePart(s: Signals): seq<Contribution> {
    if s.highValue then One(HighValueRefund, 15) else []
  }

  function VolumePart(s: Signals): seq<Contribution> {
    if s.refundCases >= 5 then One(HighVolume, 10)
    else if s.refundCases >= 3 then One(ElevatedVolume, 5) else []
  }

  function ReceiptPart(s: Signals): seq<Contribution> {
    match s.receiptHours
    case None => []
    case Some(h) =>
      if h <= IMMEDIATE_RECEIPT_HOURS then One(ImmediateClaim, 15)
      else if h >= LATE_RECEIPT_HOURS then One(LateClaim, 15) else []
  }

  function AgePart(s: Signals): seq<Contribution> {
    if s.accountAgeDays.Some? && s.accountAgeDays.value < 30 then One(YoungAccount, 8) else []
  }

  function RatePart(s: Signals): seq<Contribution> {
    match s.refundRate
    case None => []
    case Some(r) =>
      if r >= 0.3 then One(HighRefundRate, 15)
      else if r >= 0.15 then One(ElevatedRefundRate, 8) else []
  }

  function AddressPart(s: Signals): seq<Contribution> {
    if s.addressChanges >= 2 then One(AddressChanges, 10) else []
  }

  function DevicePart(s: Signals): seq<Contribution> {
    if s.deviceReuse then One(SharedDevice, 20) else []
  }

  function Contributions(s: Signals): seq<Contribution> {
    ClaimPart(s) + DeliveryPart(s) + ValuePart(s) + VolumePart(s) + ReceiptPart(s)
    + AgePart(s) + RatePart(s) + AddressPart(s) + DevicePart(s)
  }

  function Points(part: seq<Contribution>): nat { if part == [] then 0 else part[0].points }

  function ClaimPoints(s: Signals): nat {
    Points(ClaimPart(s)) + Points(DeliveryPart(s)) + Points(ValuePart(s)) + Points(VolumePart(s))
  }

  function CustomerPoints(s: Signals): nat {
    Points(ReceiptPart(s)) + Points(AgePart(s)) + Points(RatePart(s)) + Points(AddressPart(s)) + Points(DevicePart(s))
  }

  predicate Decisive(s: Signals) {
    s.notReceivedClaims >= 3 || (s.deliveryNotReceived && s.proofOfDelivery)
  }

  function Score(s: Signals): nat { Min(100, ClaimPoints(s) + CustomerPoints(s)) }

  function Level(s: Signals): RiskLevel {
    if Decisive(s) || Score(s) >= 60 then High
    else if s.notReceivedClaims == 2 || s.highValue || Score(s) >= 30 then Medium
    else Low
  }

  function Tier(level: RiskLevel, amount: int, threshold: int): RiskTier {
    match level
    case High => if amount >= threshold then FourEyes else Supervisor
    case Medium => Review
    case Low => Auto
  }

  function Assess(s: Signals, amount: int, threshold: int): Assessment {
    Assessment(Score(s), Level(s), Tier(Level(s), amount, threshold), Contributions(s), Decisive(s))
  }

  // ---- the accumulating form ----

  /** Appends one entry and adds its points to the running score. */
  method Add(contributions: seq<Contribution>, score: nat, signal: Signal, points: nat)
    returns (appended: seq<Contribution>, raised: nat)
    ensures appended == if points != 0 then contributions + One(signal, points) else contributions
    ensures raised == score + points
  {
    appended := if points != 0 then contributions + [Contribution(signal, points)] else contributions;
    raised := score + points;
  }

  /** The signals that come from the claim itself; the first two can be decisive. */
  method ScoreClaim(s: Signals) returns (cs: seq<Contribution>, score: nat, decisiveHigh: bool)
    ensures cs == ClaimPart(s) + DeliveryPart(s) + ValuePart(s) + VolumePart(s)
    ensures score == ClaimPoints(s) && decisiveHigh == Decisive(s)
  {
    cs, score, decisiveHigh := [], 0, false;
    if s.notReceivedClaims >= 3 {
      decisiveHigh := true;
      cs, score := Add(cs, score, RepeatClaims, 40);
    } else if s.notReceivedClaims == 2 {
      cs, score := Add(cs, score, ElevatedClaims, 20);
    }
    assert cs == ClaimPart(s);
    if s.deliveryNotReceived && s.proofOfDelivery {
      decisiveHigh := true;
      cs, score := Add(cs, score, DeliveryConflict, 30);
    }
    assert cs == ClaimPart(s) + DeliveryPart(s);
    if s.highValue { cs, score := Add(cs, score, HighValueRefund, 15); }
    assert cs == ClaimPart(s) + DeliveryPart(s) + ValuePart(s);
    if s.refundCases >= 5 {
      cs, score := Add(cs, score, HighVolume, 10);
    } else if s.refundCases >= 3 {
      cs, score := Add(cs, score, ElevatedVolume, 5);
    }
  }

  /** The timing and account-age signals, appended to what is already there. */
  method ScoreTiming(s: Signals, contributions: seq<Contribution>, points: nat)
    returns (cs: seq<Contribution>, score: nat)
    ensures cs == contributions + ReceiptPart(s) + AgePart(s)
    ensures score == points + Points(ReceiptPart(s)) + Points(AgePart(s))
  {
    cs, score := contributions, points;
    if s.receiptHours.Some? {
      if s.receiptHours.value <= IMMEDIATE_RECEIPT_HOURS {
        cs, score := Add(cs, score, ImmediateClaim, 15);
      } else if s.receiptHours.value >= LATE_RECEIPT_HOURS {
        cs, score := Add(cs, score, LateClaim, 15);
      }
    }
    assert cs == contributions + ReceiptPart(s);
    if s.accountAgeDays.Some? && s.accountAgeDays.value < 30 { cs, score := Add(cs, score, YoungAccount, 8); }
  }

  /** The refund-rate, address and device signals. */
  method ScoreProfile(s: Signals, contributions: seq<Contribution>, points: nat)
    returns (cs: seq<Contribution>, score: nat)
    ensures cs == contributions + RatePart(s) + AddressPart(s) + DevicePart(s)
    ensures score == points + Points(RatePart(s)) + Points(AddressPart(s)) + Points(DevicePart(s))
  {
    cs, score := contributions, points;
    if s.refundRate.Some? {
      if s.refundRate.value >= 0.3 {
        cs, score := Add(cs, score, HighRefundRate, 15);
      } else if s.refundRate.value >= 0.15 {
        cs, score := Add(cs, score, ElevatedRefundRate, 8);
      }
    }
    assert cs == contributions + RatePart(s);
    if s.addressChanges >= 2 { cs, score := Add(cs, score, AddressChanges, 10); }
    assert cs == contributions + RatePart(s) + AddressPart(s);
    if s.deviceReuse { cs, score := Add(cs, score, SharedDevice, 20); }
  }

  /** The accumulator agrees with the declarative scorecard. */
  method AssessRisk(s: Signals, amount: int, threshold: int) returns (a: Assessment)
    ensures a == Assess(s, amount, threshold)
  {
    var cs, score, decisiveHigh := ScoreClaim(s);
    cs, score := ScoreTiming(s, cs, score);
    cs, score := ScoreProfile(s, cs, score);
    assert cs == Contributions(s);
    score := Min(100, score);
    var level := if decisiveHigh || score >= 60 then High
                 else if s.notReceivedClaims == 2 || s.highValue || score >= 30 then Medium
                 else Low;
    a := Assessment(score, level, Tier(level, amount, threshold), cs, decisiveHigh);
  }

  // ---- monotonicity ----

  /** t is at least as suspicious as s on every graded signal, and equal on the others. */
  predicate Riskier(s: Signals, t: Signals) {
    && s.notReceivedClaims <= t.notReceivedClaims
    && s.refundCases <= t.refundCases
    && s.proofOfDelivery == t.proofOfDelivery
    && s.deliveryNotReceived == t.deliveryNotReceived
    && (s.highValue ==> t.highValue)
    && s.receiptHours == t.receiptHours
    && YoungerOrKnown(s.accountAgeDays, t.accountAgeDays)
    && HigherOrKnown(s.refundRate, t.refundRate)
    && s.addressChanges <= t.addressChanges
    && (s.deviceReuse ==> t.deviceReuse)
  }

  predicate YoungerOrKnown(a: Option<int>, b: Option<int>) {
    a.None? || (b.Some? && b.value <= a.value)
  }

  predicate HigherOrKnown(a: Option<real>, b: Option<real>) {
    a.None? || (b.Some? && a.value <= b.value)
  }

  /** The points of every listed contribution added up. */
  function Total(cs: seq<Contribution>): nat {
    if cs == [] then 0 else cs[0].points + Total(cs[1..])
  }

  lemma {:induction false} TotalAppend(xs: seq<Contribution>, ys: seq<Contribution>)
    ensures Total(xs + ys) == Total(xs) + Total(ys)
  {
    if xs == [] {
      assert xs + ys == ys;
    } else {
      TotalAppend(xs[1..], ys);
      assert (xs + ys)[1..] == xs[1..] + ys;
    }
  }

  lemma TotalThen(xs: seq<Contribution>, part: seq<Contribution>, rest: seq<Contribution>)
    requires |part| <= 1
    ensures Total(xs + part + rest) == Total(xs) + Points(part) + Total(rest)
  {
    TotalAppend(xs + part, rest);
    TotalAppend(xs, part);
  }

  lemma TotalOfTwo(xs: seq<Contribution>, a: seq<Contribution>, b: seq<Contribution>)
    requires |a| <= 1 && |b| <= 1
    ensures Total(xs + a + b) == Total(xs) + Points(a) + Points(b)
  {
    TotalThen(xs, a, b);
    TotalAppend([], b);
  }

  /** The score is exactly the listed points, capped at 100: nothing is counted that is not shown. */
  lemma ScoreIsListedPoints(s: Signals)
    ensures Score(s) == Min(100, Total(Contributions(s)))
  {
    var p2 := ClaimPart(s) + DeliveryPart(s);
    var p4 := p2 + ValuePart(s) + VolumePart(s);
    var p6 := p4 + ReceiptPart(s) + AgePart(s);
    var p8 := p6 + RatePart(s) + AddressPart(s);
    assert Total(p2) == Points(ClaimPart(s)) + Points(DeliveryPart(s)) by {
      assert [] + ClaimPart(s) == ClaimPart(s);
      TotalOfTwo([], ClaimPart(s), DeliveryPart(s));
    }
    assert Total(p4) == Total(p2) + Points(ValuePart(s)) + Points(VolumePart(s)) by {
      TotalOfTwo(p2, ValuePart(s), VolumePart(s));
    }
    assert Total(p6) == Total(p4) + Points(ReceiptPart(s)) + Points(AgePart(s)) by {
      TotalOfTwo(p4, ReceiptPart(s), AgePart(s));
    }
    assert Total(p8) == Total(p6) + Points(RatePart(s)) + Points(AddressPart(s)) by {
      TotalOfTwo(p6, RatePart(s), AddressPart(s));
    }
    assert Total(p8 + DevicePart(s) + []) == Total(p8) + Points(DevicePart(s)) by {
      TotalOfTwo(p8, DevicePart(s), []);
    }
    assert p8 + DevicePart(s) + [] == Contributions(s);
  }

  /** More suspicion never lowers the score, the level or the tier. */
  lemma AssessMonotone(s: Signals, t: Signals, amountS: int, amountT: int, threshold: int)
    requires Riskier(s, t) && amountS <= amountT
    ensures Score(s) <= Score(t) <= 100
    ensures LevelRank(Level(s)) <= LevelRank(Level(t))
    ensures TierRank(Tier(Level(s), amountS, threshold)) <= TierRank(Tier(Level(t), amountT, threshold))
  {
    assert ClaimPoints(s) <= ClaimPoints(t);
    assert CustomerPoints(s) <= CustomerPoints(t);
  }

  // ---- the scorecard, from the signals alone ----

  /** When a signal is raised. */
  predicate Raised(s: Signals, signal: Signal) {
    match signal
    case RepeatClaims => s.notReceivedClaims >= 3
    case ElevatedClaims => s.notReceivedClaims == 2
    case DeliveryConflict => s.deliveryNotReceived && s.proofOfDelivery
    case HighValueRefund => s.highValue
    case HighVolume => s.refundCases >= 5
    case ElevatedVolume => s.refundCases == 3 || s.refundCases == 4
    case ImmediateClaim => s.receiptHours.Some? && s.receiptHours.value <= 2
    case LateClaim => s.receiptHours.Some? && s.receiptHours.value >= 720
    case YoungAccount => s.accountAgeDays.Some? && s.accountAgeDays.value < 30
    case HighRefundRate => s.refundRate.Some? && s.refundRate.value >= 0.3
    case ElevatedRefundRate => s.refundRate.Some? && 0.15 <= s.refundRate.value < 0.3
    case AddressChanges => s.addressChanges >= 2
    case SharedDevice => s.deviceReuse
  }

  /** What a signal is worth. */
  function PointsFor(signal: Signal): nat {
    match signal
    case RepeatClaims => 40
    case DeliveryConflict => 30
    case ElevatedClaims => 20
    case SharedDevice => 20
    case HighValueRefund => 15
    case ImmediateClaim => 15
    case LateClaim => 15
    case HighRefundRate => 15
    case HighVolume => 10
    case AddressChanges => 10
    case YoungAccount => 8
    case ElevatedRefundRate => 8
    case ElevatedVolume => 5
  }

  /** The nine families of signals, in the order they are scored. */
  function Family(signal: Signal): nat {
    match signal
    case RepeatClaims => 0
    case ElevatedClaims => 0
    case DeliveryConflict => 1
    case HighValueRefund => 2
    case HighVolume => 3
    case ElevatedVolume => 3
    case ImmediateClaim => 4
    case LateClaim => 4
    case YoungAccount => 5
    case HighRefundRate => 6
    case ElevatedRefundRate => 6
    case AddressChanges => 7
    case SharedDevice => 8
  }

  /** A part lists one signal of its family, at its worth, exactly when it is raised. */
  ghost predicate PartOf(part: seq<Contribution>, s: Signals, n: nat) {
    && |part| <= 1
    && (forall c :: c in part <==> Family(c.signal) == n && Raised(s, c.signal) && c.points == PointsFor(c.signal))
  }

  /** A scorecard of the first n families: every raised signal once, at its worth, and nothing else. */
  ghost predicate CardOf(cs: seq<Contribution>, s: Signals, n: nat) {
    && (forall c :: c in cs <==> Family(c.signal) < n && Raised(s, c.signal) && c.points == PointsFor(c.signal))
    && (forall i, j :: 0 <= i < j < |cs| ==> cs[i].signal != cs[j].signal)
  }

  lemma ClaimPartOf(s: Signals)
    ensures PartOf(ClaimPart(s), s, 0)
  {
  }

  lemma DeliveryPartOf(s: Signals)
    ensures PartOf(DeliveryPart(s), s, 1)
  {
  }

  lemma ValuePartOf(s: Signals)
    ensures PartOf(ValuePart(s), s, 2)
  {
  }

  lemma VolumePartOf(s: Signals)
    ensures PartOf(VolumePart(s), s, 3)
  {
  }

  lemma ReceiptPartOf(s: Signals)
    ensures PartOf(ReceiptPart(s), s, 4)
  {
  }

  lemma AgePartOf(s: Signals)
    ensures PartOf(AgePart(s), s, 5)
  {
  }

  lemma RatePartOf(s: Signals)
    ensures PartOf(RatePart(s), s, 6)
  {
  }

  lemma AddressPartOf(s: Signals)
    ensures PartOf(AddressPart(s), s, 7)
  {
  }

  lemma DevicePartOf(s: Signals)
    ensures PartOf(DevicePart(s), s, 8)
  {
  }

  lemma OneFamilyMore(cs: seq<Contribution>, part: seq<Contribution>, s: Signals, n: nat)
    requires CardOf(cs, s, n) && PartOf(part, s, n)
    ensures CardOf(cs + part, s, n + 1)
  {
    forall i, j | 0 <= i < j < |cs + part| ensures (cs + part)[i].signal != (cs + part)[j].signal {
      if j >= |cs| {
        assert part[j - |cs|] in part && (cs + part)[j] == part[j - |cs|];
        assert (cs + part)[i] == cs[i] && cs[i] in cs;
      }
    }
  }

  lemma ClaimCard(s: Signals)
    ensures CardOf(ClaimPart(s) + DeliveryPart(s) + ValuePart(s) + VolumePart(s), s, 4)
  {
    ClaimPartOf(s);
    DeliveryPartOf(s);
    ValuePartOf(s);
    VolumePartOf(s);
    FourFamilies(ClaimPart(s), DeliveryPart(s), ValuePart(s), VolumePart(s), s, 1);
  }

  lemma FourFamilies(a: seq<Contribution>, b: seq<Contribution>, c: seq<Contribution>, d: seq<Contribution>, s: Signals,
                     n: nat)
    requires n >= 1 && (CardOf(a, s, n) || (n == 1 && PartOf(a, s, 0)))
    requires PartOf(b, s, n) && PartOf(c, s, n + 1) && PartOf(d, s, n + 2)
    ensures CardOf(a + b + c + d, s, n + 3)
  {
    OneFamilyMore(a, b, s, n);
    OneFamilyMore(a + b, c, s, n + 1);
    OneFamilyMore(a + b + c, d, s, n + 2);
  }

  lemma CustomerCard(cs: seq<Contribution>, s: Signals)
    requires CardOf(cs, s, 4)
    ensures CardOf(cs + ReceiptPart(s) + AgePart(s) + RatePart(s) + AddressPart(s) + DevicePart(s), s, 9)
  {
    ReceiptPartOf(s);
    AgePartOf(s);
    RatePartOf(s);
    AddressPartOf(s);
    DevicePartOf(s);
    FourFamilies(cs, ReceiptPart(s), AgePart(s), RatePart(s), s, 4);
    var timed := cs + ReceiptPart(s) + AgePart(s) + RatePart(s);
    OneFamilyMore(timed, AddressPart(s), s, 7);
    OneFamilyMore(timed + AddressPart(s), DevicePart(s), s, 8);
  }

  /** The scorecard lists every raised signal exactly once, at its worth, and nothing else. */
  lemma ListedExactly(s: Signals)
    ensures forall c :: c in Contributions(s) <==> Raised(s, c.signal) && c.points == PointsFor(c.signal)
    ensures forall i, j :: 0 <= i < j < |Contributions(s)| ==> Contributions(s)[i].signal != Contributions(s)[j].signal
  {
    ClaimCard(s);
    CustomerCard(ClaimPart(s) + DeliveryPart(s) + ValuePart(s) + VolumePart(s), s);
    NineFamilies(Contributions(s), s);
  }

  lemma NineFamilies(cs: seq<Contribution>, s: Signals)
    requires CardOf(cs, s, 9)
    ensures forall c :: c in cs <==> Raised(s, c.signal) && c.points == PointsFor(c.signal)
    ensures forall i, j :: 0 <= i < j < |cs| ==> cs[i].signal != cs[j].signal
  {
    forall c ensures c in cs <==> Raised(s, c.signal) && c.points == PointsFor(c.signal) {
      assert Family(c.signal) < 9;
    }
  }

  /** The level, from the signals and the score: two signals are decisive, two have a medium floor, and the
      rest go by the points. */
  lemma LevelOnSignals(s: Signals)
    ensures Level(s) == High <==> Raised(s, RepeatClaims) || Raised(s, DeliveryConflict) || Score(s) >= 60
    ensures Level(s) == Low <==>
              && !Raised(s, RepeatClaims) && !Raised(s, DeliveryConflict) && !Raised(s, ElevatedClaims)
              && !Raised(s, HighValueRefund) && Score(s) < 30
  {
  }

  /** One signal by itself: its worth is the score, and it decides the level. */
  lemma OneSignalAlone(s: Signals, signal: Signal)
    requires Raised(s, signal) && forall other :: other != signal ==> !Raised(s, other)
    ensures Contributions(s) == [Contribution(signal, PointsFor(signal))] && Score(s) == PointsFor(signal)
    ensures Level(s) == (if signal in {RepeatClaims, DeliveryConflict} then High
                         else if signal in {ElevatedClaims, HighValueRefund} then Medium else Low)
  {
    ListedExactly(s);
    ScoreIsListedPoints(s);
    LevelOnSignals(s);
    OnlyEntry(Contributions(s), Contribution(signal, PointsFor(signal)));
  }

  lemma OnlyEntry(cs: seq<Contribution>, c: Contribution)
    requires c in cs && forall e :: e in cs ==> e == c
    requires forall i, j :: 0 <= i < j < |cs| ==> cs[i].signal != cs[j].signal
    ensures cs == [c] && Total(cs) == c.points
  {
    forall i | 0 <= i < |cs| ensures cs[i] == c { assert cs[i] in cs; }
    assert |cs| > 1 ==> cs[0].signal != cs[1].signal;
    assert cs[1..] == [];
  }
}

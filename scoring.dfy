/**
 * The scoring and decision engine of the assessment wizard: the screening
 * gate, the two category sums over the question catalogue, the tier
 * thresholds and the first-match decision matrix.
 */
module Scoring {
  import opened Wrappers

  /** A screening question's state: `null` until answered, then `true` or `false`. */
  datatype Answer = Unanswered | Yes | No

  /** The three gating questions of step 2 of the wizard. */
  datatype ScreeningAnswers = ScreeningAnswers(
    withinWA: Answer,
    alignsWithServices: Answer,
    meetsCompliance: Answer)

  /** JavaScript truthiness of an answer: `null` and `false` are falsy. */
  predicate Truthy(a: Answer)
  {
    a == Yes
  }

  /** The gate that enables "continue": every answer is strictly `true`. */
  predicate AllYes(s: ScreeningAnswers)
  {
    s.withinWA == Yes && s.alignsWithServices == Yes && s.meetsCompliance == Yes
  }

  /** The guard of the screening-decline branch: some answer is falsy. */
  predicate FailsScreening(s: ScreeningAnswers)
  {
    !Truthy(s.withinWA) || !Truthy(s.alignsWithServices) || !Truthy(s.meetsCompliance)
  }

  /** The thirteen score slots, in declaration order; 0 means unanswered. */
  datatype AssessmentScores = AssessmentScores(
    clientType: int,
    clientRelationship: int,
    clientReputation: int,
    pipelinePotential: int,
    strategicImportance: int,
    contractTerms: int,
    projectValue: int,
    location: int,
    riskProfile: int,
    complexity: int,
    competitionLevel: int,
    internalCapability: int,
    assetUtilisation: int)

  /** The score record the wizard starts from (and returns to on reset). */
  const InitialScores: AssessmentScores := AssessmentScores(0, 0, 0, 0, 0, 0, 0, 0, 0, 0, 0, 0, 0)

  /** The names of the score slots. */
  datatype ScoreKey =
    | ClientType | ClientRelationship | ClientReputation | PipelinePotential | StrategicImportance
    | ContractTerms
    | ProjectValue | Location | RiskProfile | Complexity | CompetitionLevel | InternalCapability
    | AssetUtilisation

  /** Every score slot, in declaration order. */
  const ScoreKeys: seq<ScoreKey> := [
    ClientType, ClientRelationship, ClientReputation, PipelinePotential, StrategicImportance,
    ContractTerms,
    ProjectValue, Location, RiskProfile, Complexity, CompetitionLevel, InternalCapability,
    AssetUtilisation]

  /** The value held in one score slot. */
  function Score(sc: AssessmentScores, k: ScoreKey): int
  {
    match k
    case ClientType => sc.clientType
    case ClientRelationship => sc.clientRelationship
    case ClientReputation => sc.clientReputation
    case PipelinePotential => sc.pipelinePotential
    case StrategicImportance => sc.strategicImportance
    case ContractTerms => sc.contractTerms
    case ProjectValue => sc.projectValue
    case Location => sc.location
    case RiskProfile => sc.riskProfile
    case Complexity => sc.complexity
    case CompetitionLevel => sc.competitionLevel
    case InternalCapability => sc.internalCapability
    case AssetUtilisation => sc.assetUtilisation
  }

  /** The two question categories of the catalogue. */
  datatype Side = Client | Work

  /**
   * The category the question catalogue gives each key; `contractTerms`
   * has a score slot but no question, so it has no category.
   */
  function CategoryOf(k: ScoreKey): Option<Side>
  {
    match k
    case ClientType | ClientRelationship | ClientReputation | PipelinePotential | StrategicImportance =>
      Some(Client)
    case ContractTerms => None
    case _ => Some(Work)
  }

  /** The options every catalogue question offers: the values 1 to 5. */
  predicate IsOptionValue(v: int)
  {
    1 <= v <= 5
  }

  /** The score `k` contributes to the sum of `side`: its value if the catalogue puts it there. */
  function Contribution(sc: AssessmentScores, k: ScoreKey, side: Side): int
  {
    if CategoryOf(k) == Some(side) then Score(sc, k) else 0
  }

  /** The sum of the scores of the keys in `keys` that the catalogue puts in `side`. */
  function SideSum(sc: AssessmentScores, keys: seq<ScoreKey>, side: Side): int
  {
    if keys == [] then 0 else Contribution(sc, keys[0], side) + SideSum(sc, keys[1..], side)
  }

  /** The number of keys in `keys` that the catalogue puts in `side`. */
  function SideCount(keys: seq<ScoreKey>, side: Side): nat
  {
    if keys == [] then 0
    else (if CategoryOf(keys[0]) == Some(side) then 1 else 0) + SideCount(keys[1..], side)
  }

  /** The client score: the five client questions of the catalogue. */
  function ClientScore(sc: AssessmentScores): int
  {
    sc.clientType + sc.clientRelationship + sc.clientReputation + sc.pipelinePotential
      + sc.strategicImportance
  }

  /** The work score: the seven work questions of the catalogue. */
  function WorkScore(sc: AssessmentScores): int
  {
    sc.projectValue + sc.location + sc.riskProfile + sc.complexity + sc.competitionLevel
      + sc.internalCapability + sc.assetUtilisation
  }

  /** The four ordered tiers, Avoid lowest. */
  datatype Tier = Avoid | Nuisance | Leverage | Development {
    /** The name stored in a result's category field. */
    function Name(): string
    {
      match this
      case Avoid => "Avoid"
      case Nuisance => "Nuisance"
      case Leverage => "Leverage"
      case Development => "Development"
    }

    /** The position of the tier in the order Avoid < Nuisance < Leverage < Development. */
    function Rank(): nat
    {
      match this
      case Avoid => 0
      case Nuisance => 1
      case Leverage => 2
      case Development => 3
    }
  }

  /** The client tier thresholds 9, 17 and 22. */
  function ClientTier(clientScore: int): Tier
  {
    if clientScore <= 9 then Avoid
    else if clientScore <= 17 then Nuisance
    else if clientScore <= 22 then Leverage
    else Development
  }

  /** The work tier thresholds 14, 21 and 28. */
  function WorkTier(workScore: int): Tier
  {
    if workScore <= 14 then Avoid
    else if workScore <= 21 then Nuisance
    else if workScore <= 28 then Leverage
    else Development
  }

  /** The four outcomes of an assessment. */
  datatype Decision = Decline | HighMargin | ModerateMargin | StandardMargin {
    /** The decision string stored in a result. */
    function Text(): string
    {
      match this
      case Decline => "DECLINE"
      case HighMargin => "PURSUE WITH HIGH MARGIN"
      case ModerateMargin => "PURSUE WITH MODERATE MARGIN"
      case StandardMargin => "PURSUE WITH STANDARD MARGIN"
    }

    /** The presentation tag stored in a result. */
    function CssClass(): string
    {
      match this
      case Decline => "decline"
      case HighMargin => "high-margin"
      case ModerateMargin => "moderate-margin"
      case StandardMargin => "standard-margin"
    }

    /** The margin guidance a scored (not screened-out) result carries. */
    function Guidance(): string
    {
      match this
      case Decline => "Decline – Do not pursue"
      case HighMargin => "High Margin (15–25%+)"
      case ModerateMargin => "Moderate Margin (10–15%)"
      case StandardMargin => "Standard Margin (8–12%)"
    }
  }

  /** The decision matrix, branch for branch in its first-match order. */
  function Matrix(client: Tier, work: Tier): Decision
  {
    if client == Avoid then Decline
    else if client == Nuisance && work == Avoid then HighMargin
    else if client == Nuisance && work == Nuisance then HighMargin
    else if client == Nuisance && (work == Leverage || work == Development) then ModerateMargin
    else if (client == Leverage || client == Development) && work == Avoid then StandardMargin
    else StandardMargin
  }

  /**
   * The record the engine returns. Fields hold the same strings and numbers
   * as the JavaScript object; `reason` is present only on a screening decline.
   */
  datatype DecisionResult = DecisionResult(
    decision: string,
    reason: Option<string>,
    clientCategory: string,
    workCategory: string,
    marginGuidance: string,
    clientScore: int,
    workScore: int,
    totalScore: int,
    cssClass: string)

  /** The fixed result of an assessment that fails screening. */
  const ScreeningDecline: DecisionResult := DecisionResult(
    "DECLINE",
    Some("Failed initial screening criteria"),
    "N/A",
    "N/A",
    "Do not pursue - does not meet basic requirements",
    0, 0, 0,
    "decline")

  /** The engine: screening first, then the sums, the tiers and the matrix. */
  function CalculateResult(s: ScreeningAnswers, sc: AssessmentScores): (r: DecisionResult)
    ensures r.totalScore == r.clientScore + r.workScore
    ensures r.decision in {Decline.Text(), HighMargin.Text(), ModerateMargin.Text(), StandardMargin.Text()}
    ensures FailsScreening(s) <==> r.clientCategory == "N/A"
    ensures FailsScreening(s) <==> r.workCategory == "N/A"
    ensures FailsScreening(s) <==> r.reason.Some?
  {
    if FailsScreening(s) then ScreeningDecline
    else
      var clientScore := ClientScore(sc);
      var workScore := WorkScore(sc);
      var clientCategory := ClientTier(clientScore);
      var workCategory := WorkTier(workScore);
      var decision := Matrix(clientCategory, workCategory);
      DecisionResult(
        decision.Text(), None, clientCategory.Name(), workCategory.Name(), decision.Guidance(),
        clientScore, workScore, clientScore + workScore, decision.CssClass())
  }

  // ---------------------------------------------------------------------------
  // Properties of the engine
  // ---------------------------------------------------------------------------

  /** The step-2 gate and the engine's screening guard are exact complements. */
  lemma AllYesIffPassesScreening(s: ScreeningAnswers)
    ensures AllYes(s) <==> !FailsScreening(s)
  {
  }

  /** Failing screening declines with zero scores and no categories, whatever the scores. */
  lemma ScreeningFailureDeclines(s: ScreeningAnswers, sc: AssessmentScores)
    requires FailsScreening(s)
    ensures var r := CalculateResult(s, sc);
      && r.decision == "DECLINE" && r.cssClass == "decline"
      && r.clientScore == 0 && r.workScore == 0 && r.totalScore == 0
      && r.clientCategory == "N/A" && r.workCategory == "N/A"
      && r.marginGuidance == "Do not pursue - does not meet basic requirements"
  {
  }

  /** An assessment that passed the step-2 gate is scored, never screened out. */
  lemma AllYesIsScored(s: ScreeningAnswers, sc: AssessmentScores)
    requires AllYes(s)
    ensures var r := CalculateResult(s, sc);
      && r.reason == None
      && r.clientCategory in {Avoid.Name(), Nuisance.Name(), Leverage.Name(), Development.Name()}
      && r.workCategory in {Avoid.Name(), Nuisance.Name(), Leverage.Name(), Development.Name()}
      && r.clientCategory == ClientTier(r.clientScore).Name()
      && r.workCategory == WorkTier(r.workScore).Name()
      && r.decision == Matrix(ClientTier(r.clientScore), WorkTier(r.workScore)).Text()
  {
  }

  /** One step of the catalogue sum. */
  lemma SideSumCons(sc: AssessmentScores, k: ScoreKey, rest: seq<ScoreKey>, side: Side)
    ensures SideSum(sc, [k] + rest, side) == Contribution(sc, k, side) + SideSum(sc, rest, side)
  {
    assert ([k] + rest)[1..] == rest;
  }

  /** The catalogue sum of a concatenation is the sum of the parts. */
  lemma {:induction false} SideSumAppend(sc: AssessmentScores, a: seq<ScoreKey>, b: seq<ScoreKey>, side: Side)
    ensures SideSum(sc, a + b, side) == SideSum(sc, a, side) + SideSum(sc, b, side)
  {
    if a != [] {
      assert (a + b)[1..] == a[1..] + b;
      SideSumAppend(sc, a[1..], b, side);
    } else {
      assert a + b == b;
    }
  }

  /** The first six slots: the client questions and the unused `contractTerms`. */
  lemma SideSumOfClientSlots(sc: AssessmentScores, side: Side)
    ensures SideSum(sc, ScoreKeys[..6], side)
      == Contribution(sc, ClientType, side) + Contribution(sc, ClientRelationship, side)
       + Contribution(sc, ClientReputation, side) + Contribution(sc, PipelinePotential, side)
       + Contribution(sc, StrategicImportance, side) + Contribution(sc, ContractTerms, side)
  {
    assert ScoreKeys[..6] == [ClientType, ClientRelationship, ClientReputation, PipelinePotential, StrategicImportance, ContractTerms];
    SideSumCons(sc, ContractTerms, [], side);
    SideSumCons(sc, StrategicImportance, [ContractTerms], side);
    SideSumCons(sc, PipelinePotential, [StrategicImportance, ContractTerms], side);
    SideSumCons(sc, ClientReputation, [PipelinePotential, StrategicImportance, ContractTerms], side);
    SideSumCons(sc, ClientRelationship, [ClientReputation, PipelinePotential, StrategicImportance, ContractTerms], side);
    SideSumCons(sc, ClientType, [ClientRelationship, ClientReputation, PipelinePotential, StrategicImportance, ContractTerms], side);
  }

  /** The last seven slots: the work questions. */
  lemma SideSumOfWorkSlots(sc: AssessmentScores, side: Side)
    ensures SideSum(sc, ScoreKeys[6..], side)
      == Contribution(sc, ProjectValue, side) + Contribution(sc, Location, side)
       + Contribution(sc, RiskProfile, side) + Contribution(sc, Complexity, side)
       + Contribution(sc, CompetitionLevel, side) + Contribution(sc, InternalCapability, side)
       + Contribution(sc, AssetUtilisation, side)
  {
    assert ScoreKeys[6..] == [ProjectValue, Location, RiskProfile, Complexity, CompetitionLevel, InternalCapability, AssetUtilisation];
    SideSumCons(sc, AssetUtilisation, [], side);
    SideSumCons(sc, InternalCapability, [AssetUtilisation], side);
    SideSumCons(sc, CompetitionLevel, [InternalCapability, AssetUtilisation], side);
    SideSumCons(sc, Complexity, [CompetitionLevel, InternalCapability, AssetUtilisation], side);
    SideSumCons(sc, RiskProfile, [Complexity, CompetitionLevel, InternalCapability, AssetUtilisation], side);
    SideSumCons(sc, Location, [RiskProfile, Complexity, CompetitionLevel, InternalCapability, AssetUtilisation], side);
    SideSumCons(sc, ProjectValue, [Location, RiskProfile, Complexity, CompetitionLevel, InternalCapability, AssetUtilisation], side);
  }

  /** The catalogue sum over all thirteen slots, one slot at a time. */
  lemma SideSumOfScoreKeys(sc: AssessmentScores, side: Side)
    ensures SideSum(sc, ScoreKeys, side)
      == Contribution(sc, ClientType, side) + Contribution(sc, ClientRelationship, side)
       + Contribution(sc, ClientReputation, side) + Contribution(sc, PipelinePotential, side)
       + Contribution(sc, StrategicImportance, side) + Contribution(sc, ContractTerms, side)
       + Contribution(sc, ProjectValue, side) + Contribution(sc, Location, side)
       + Contribution(sc, RiskProfile, side) + Contribution(sc, Complexity, side)
       + Contribution(sc, CompetitionLevel, side) + Contribution(sc, InternalCapability, side)
       + Contribution(sc, AssetUtilisation, side)
  {
    assert ScoreKeys == ScoreKeys[..6] + ScoreKeys[6..];
    SideSumAppend(sc, ScoreKeys[..6], ScoreKeys[6..], side);
    SideSumOfClientSlots(sc, side);
    SideSumOfWorkSlots(sc, side);
  }

  /** Counting the keys of a side is summing a score record that holds 1 everywhere. */
  lemma {:induction false} CountIsSumOfOnes(keys: seq<ScoreKey>, side: Side)
    ensures SideCount(keys, side) == SideSum(AssessmentScores(1, 1, 1, 1, 1, 1, 1, 1, 1, 1, 1, 1, 1), keys, side)
  {
    if keys != [] {
      CountIsSumOfOnes(keys[1..], side);
    }
  }

  /** Five slots belong to the client side and seven to the work side. */
  lemma SideCountOfScoreKeys()
    ensures SideCount(ScoreKeys, Client) == 5 && SideCount(ScoreKeys, Work) == 7
  {
    var ones := AssessmentScores(1, 1, 1, 1, 1, 1, 1, 1, 1, 1, 1, 1, 1);
    CountIsSumOfOnes(ScoreKeys, Client);
    CountIsSumOfOnes(ScoreKeys, Work);
    CatalogueSums(ones);
  }

  /** The engine's two sums are the catalogue sums of the client and the work questions. */
  lemma CatalogueSums(sc: AssessmentScores)
    ensures ClientScore(sc) == SideSum(sc, ScoreKeys, Client)
    ensures WorkScore(sc) == SideSum(sc, ScoreKeys, Work)
  {
    SideSumOfScoreKeys(sc, Client);
    SideSumOfScoreKeys(sc, Work);
  }

  /** The category sums are over exactly the keys the catalogue assigns to each side: five and seven of them. */
  lemma ScoresFollowCatalogue(s: ScreeningAnswers, sc: AssessmentScores)
    requires !FailsScreening(s)
    ensures CalculateResult(s, sc).clientScore == SideSum(sc, ScoreKeys, Client)
    ensures CalculateResult(s, sc).workScore == SideSum(sc, ScoreKeys, Work)
    ensures SideCount(ScoreKeys, Client) == 5 && SideCount(ScoreKeys, Work) == 7
  {
    CatalogueSums(sc);
    SideCountOfScoreKeys();
  }

  /** The inert `contractTerms` slot never influences the result. */
  lemma ContractTermsIgnored(s: ScreeningAnswers, sc: AssessmentScores, v: int)
    ensures CalculateResult(s, sc.(contractTerms := v)) == CalculateResult(s, sc)
  {
  }

  /** Every scored key holds a value in [0,5]. */
  predicate InRange(sc: AssessmentScores)
  {
    forall k :: CategoryOf(k).Some? ==> 0 <= Score(sc, k) <= 5
  }

  /** Every question of the catalogue has been answered with one of its options. */
  predicate Answered(sc: AssessmentScores)
  {
    forall k :: CategoryOf(k).Some? ==> IsOptionValue(Score(sc, k))
  }

  /** Bounds on every scored slot give bounds on both sums. */
  lemma SumBounds(sc: AssessmentScores, lo: int, hi: int)
    requires forall k :: CategoryOf(k).Some? ==> lo <= Score(sc, k) <= hi
    ensures 5 * lo <= ClientScore(sc) <= 5 * hi
    ensures 7 * lo <= WorkScore(sc) <= 7 * hi
  {
    assert lo <= Score(sc, ClientType) <= hi && lo <= Score(sc, ClientRelationship) <= hi;
    assert lo <= Score(sc, ClientReputation) <= hi && lo <= Score(sc, PipelinePotential) <= hi;
    assert lo <= Score(sc, StrategicImportance) <= hi;
    assert lo <= Score(sc, ProjectValue) <= hi && lo <= Score(sc, Location) <= hi;
    assert lo <= Score(sc, RiskProfile) <= hi && lo <= Score(sc, Complexity) <= hi;
    assert lo <= Score(sc, CompetitionLevel) <= hi && lo <= Score(sc, InternalCapability) <= hi;
    assert lo <= Score(sc, AssetUtilisation) <= hi;
  }

  /** With every score in [0,5] the sums stay within [0,25] and [0,35]. */
  lemma ScoreBounds(sc: AssessmentScores)
    requires InRange(sc)
    ensures 0 <= ClientScore(sc) <= 25 && 0 <= WorkScore(sc) <= 35
  {
    SumBounds(sc, 0, 5);
  }

  /** With every question answered the sums lie in [5,25] and [7,35], the total in [12,60]. */
  lemma AnsweredBounds(s: ScreeningAnswers, sc: AssessmentScores)
    requires Answered(sc) && !FailsScreening(s)
    ensures var r := CalculateResult(s, sc);
      && 5 <= r.clientScore <= 25 && 7 <= r.workScore <= 35 && 12 <= r.totalScore <= 60
  {
    SumBounds(sc, 1, 5);
  }

  /** The client thresholds, as ranges. */
  lemma ClientTierRanges(x: int)
    ensures ClientTier(x) == Avoid <==> x <= 9
    ensures ClientTier(x) == Nuisance <==> 10 <= x <= 17
    ensures ClientTier(x) == Leverage <==> 18 <= x <= 22
    ensures ClientTier(x) == Development <==> 23 <= x
  {
  }

  /** The work thresholds, as ranges. */
  lemma WorkTierRanges(x: int)
    ensures WorkTier(x) == Avoid <==> x <= 14
    ensures WorkTier(x) == Nuisance <==> 15 <= x <= 21
    ensures WorkTier(x) == Leverage <==> 22 <= x <= 28
    ensures WorkTier(x) == Development <==> 29 <= x
  {
  }

  /** A higher score never yields a lower tier. */
  lemma TiersMonotone(x: int, y: int)
    requires x <= y
    ensures ClientTier(x).Rank() <= ClientTier(y).Rank()
    ensures WorkTier(x).Rank() <= WorkTier(y).Rank()
  {
  }

  /** The boundary values on both sides of each threshold. */
  lemma TierBoundaries()
    ensures ClientTier(9) == Avoid && ClientTier(10) == Nuisance
    ensures ClientTier(17) == Nuisance && ClientTier(18) == Leverage
    ensures ClientTier(22) == Leverage && ClientTier(23) == Development
    ensures WorkTier(14) == Avoid && WorkTier(15) == Nuisance
    ensures WorkTier(21) == Nuisance && WorkTier(22) == Leverage
    ensures WorkTier(28) == Leverage && WorkTier(29) == Development
  {
  }

  /** The matrix as a four-row table over tiers. */
  lemma MatrixTable(client: Tier, work: Tier)
    ensures client == Avoid ==> Matrix(client, work) == Decline
    ensures client == Nuisance && work.Rank() <= 1 ==> Matrix(client, work) == HighMargin
    ensures client == Nuisance && work.Rank() >= 2 ==> Matrix(client, work) == ModerateMargin
    ensures client.Rank() >= 2 ==> Matrix(client, work) == StandardMargin
  {
  }

  /** The decision of a scored assessment directly in terms of the two sums. */
  lemma DecisionByScores(s: ScreeningAnswers, sc: AssessmentScores)
    requires !FailsScreening(s)
    ensures var r := CalculateResult(s, sc);
      && (r.decision == "DECLINE" <==> r.clientScore <= 9)
      && (r.decision == "PURSUE WITH HIGH MARGIN" <==> 10 <= r.clientScore <= 17 && r.workScore <= 21)
      && (r.decision == "PURSUE WITH MODERATE MARGIN" <==> 10 <= r.clientScore <= 17 && 22 <= r.workScore)
      && (r.decision == "PURSUE WITH STANDARD MARGIN" <==> 18 <= r.clientScore)
  {
    var r := CalculateResult(s, sc);
    ClientTierRanges(r.clientScore);
    WorkTierRanges(r.workScore);
  }

  /**
   * The presentation tag, and outside the screening branch the guidance too,
   * follow from the decision string alone.
   */
  lemma OutcomeFollowsDecision(s1: ScreeningAnswers, sc1: AssessmentScores, s2: ScreeningAnswers, sc2: AssessmentScores)
    requires CalculateResult(s1, sc1).decision == CalculateResult(s2, sc2).decision
    ensures CalculateResult(s1, sc1).cssClass == CalculateResult(s2, sc2).cssClass
    ensures !FailsScreening(s1) && !FailsScreening(s2) ==>
      CalculateResult(s1, sc1).marginGuidance == CalculateResult(s2, sc2).marginGuidance
  {
    var r1, r2 := CalculateResult(s1, sc1), CalculateResult(s2, sc2);
    if !FailsScreening(s1) && !FailsScreening(s2) {
      var d1 := Matrix(ClientTier(ClientScore(sc1)), WorkTier(WorkScore(sc1)));
      var d2 := Matrix(ClientTier(ClientScore(sc2)), WorkTier(WorkScore(sc2)));
      assert d1.Text() == d2.Text();
      DecisionTextInjective(d1, d2);
    } else if !FailsScreening(s1) {
      var d1 := Matrix(ClientTier(ClientScore(sc1)), WorkTier(WorkScore(sc1)));
      DecisionTextInjective(d1, Decline);
    } else if !FailsScreening(s2) {
      var d2 := Matrix(ClientTier(ClientScore(sc2)), WorkTier(WorkScore(sc2)));
      DecisionTextInjective(d2, Decline);
    }
  }

  /** Distinct decisions have distinct strings. */
  lemma DecisionTextInjective(d1: Decision, d2: Decision)
    requires d1.Text() == d2.Text()
    ensures d1 == d2
  {
  }

  /** Scores as the wizard starts them, once screening passes, decline at the Avoid tiers. */
  lemma UnansweredDeclines(s: ScreeningAnswers)
    requires AllYes(s)
    ensures var r := CalculateResult(s, InitialScores);
      && r.decision == "DECLINE" && r.clientCategory == "Avoid" && r.workCategory == "Avoid"
      && r.totalScore == 0
  {
  }

  /** All client answers 1 (score 5) declines whatever the work answers are. */
  lemma LowestClientDeclines(s: ScreeningAnswers, sc: AssessmentScores)
    requires AllYes(s)
    requires sc.clientType == 1 && sc.clientRelationship == 1 && sc.clientReputation == 1
    requires sc.pipelinePotential == 1 && sc.strategicImportance == 1
    ensures CalculateResult(s, sc).decision == "DECLINE"
    ensures CalculateResult(s, sc).clientCategory == "Avoid"
  {
  }

  /** Client sum 15 with work sum 10 lands on high margin; with 25, moderate; client 23 with work 10, standard. */
  lemma MatrixScenarios(s: ScreeningAnswers)
    requires AllYes(s)
    ensures CalculateResult(s, AssessmentScores(3, 3, 3, 3, 3, 0, 1, 1, 1, 1, 2, 2, 2)).decision
      == "PURSUE WITH HIGH MARGIN"
    ensures CalculateResult(s, AssessmentScores(3, 3, 3, 3, 3, 0, 4, 4, 4, 4, 3, 3, 3)).decision
      == "PURSUE WITH MODERATE MARGIN"
    ensures CalculateResult(s, AssessmentScores(5, 5, 5, 4, 4, 0, 1, 1, 1, 1, 2, 2, 2)).decision
      == "PURSUE WITH STANDARD MARGIN"
  {
  }
}

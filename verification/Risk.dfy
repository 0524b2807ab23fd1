/** The deterministic risk score of a change, and the controls a pull request then needs. */
module Risk {
  import opened Reachability
  import opened ServiceGraph

  datatype Change = Change(
    services: set<string>, files: int, iac: bool, security: bool, pipeline: bool, unmapped: bool, weakTests: bool, failures: int)

  datatype FactorName =
    | CriticalService | WideBlastRadius | MultiServiceImpact | LargeDiff | MediumDiff | InfrastructureChange
    | DeliveryControlChange | SecurityBoundaryChange | UnmappedServiceChange | WeakTestEvidence | HistoricalRegression

  datatype Factor = Factor(name: FactorName, points: int)

  datatype Band = Low | Moderate | High | Critical

  datatype Assessment = Assessment(score: int, band: Band, blast: set<string>, factors: seq<Factor>)

  datatype Controls = Controls(extendedTests: bool, additionalApproval: bool, blockMerge: bool)

  function Total(factors: seq<Factor>): int {
    if factors == [] then 0 else Total(factors[..|factors| - 1]) + factors[|factors| - 1].points
  }

  function Capped(points: int, cap: int): int {
    if points < cap then points else cap
  }

  /** What a change touches in a graph. */
  function Blast(nodes: map<string, Node>, c: Change): set<string> {
    Impact(c.services, Dependencies(nodes))
  }

  /** The lowest tier number among the affected services is one. */
  ghost predicate TouchesTierOne(nodes: map<string, Node>, services: set<string>) {
    IsMaxTier(nodes, services, 1)
  }

  function SpreadPoints(services: nat): int {
    if services >= 5 then 20 else if services >= 2 then 10 else 0
  }

  function DiffPoints(files: int): int {
    if files >= 25 then 15 else if files >= 10 then 8 else 0
  }

  function HistoryPoints(failures: int): int {
    if failures == 0 then 0 else Capped(8 * failures, 20)
  }

  function Flag(on: bool, points: int): int {
    if on then points else 0
  }

  /** What is particular to the change itself. */
  function ChangePoints(c: Change): int {
    DiffPoints(c.files) + Flag(c.iac, 12) + Flag(c.pipeline, 15) + Flag(c.security, 20) + Flag(c.unmapped, 12)
    + Flag(c.weakTests, 10) + HistoryPoints(c.failures)
  }

  /** The score as a capped sum of what each dimension contributes. */
  ghost function Score(nodes: map<string, Node>, c: Change): int {
    var blast := Blast(nodes, c);
    Capped(Flag(TouchesTierOne(nodes, blast), 20) + SpreadPoints(|blast|) + ChangePoints(c), 100)
  }

  function BandOf(score: int): Band {
    if score < 25 then Low else if score < 50 then Moderate else if score < 75 then High else Critical
  }

  function ControlsFor(score: int): Controls {
    Controls(score >= 55, score >= 70, score >= 90)
  }

  lemma TotalAppend(factors: seq<Factor>, f: Factor)
    ensures Total(factors + [f]) == Total(factors) + f.points
  {
    assert (factors + [f])[..|factors|] == factors;
  }

  lemma NothingTotals()
    ensures Total([]) == 0
  {
  }

  lemma TierIsUnique(nodes: map<string, Node>, services: set<string>, t: int, u: int)
    requires IsMaxTier(nodes, services, t) && IsMaxTier(nodes, services, u)
    ensures t == u
  {
  }

  /** A factor that is listed only if it applies. */
  function When(on: bool, name: FactorName, points: int): seq<Factor> {
    if on then [Factor(name, points)] else []
  }

  /** A service of tier one is affected, and none of a lower tier. */
  ghost predicate LowestIsOne(nodes: map<string, Node>, blast: set<string>) {
    exists s :: s in blast && s in nodes && nodes[s].tier == 1 && forall r :: r in blast && r in nodes ==> 1 <= nodes[r].tier
  }

  /** The factors of a change and their points, in the order in which they are listed. */
  ghost function ImpactListed(nodes: map<string, Node>, blast: set<string>): seq<Factor> {
    When(LowestIsOne(nodes, blast), CriticalService, 20)
    + When(|blast| >= 5, WideBlastRadius, 20) + When(2 <= |blast| < 5, MultiServiceImpact, 10)
  }

  function ChangeListed(before: seq<Factor>, c: Change): seq<Factor> {
    before + When(c.files >= 25, LargeDiff, 15) + When(10 <= c.files < 25, MediumDiff, 8)
    + When(c.iac, InfrastructureChange, 12) + When(c.pipeline, DeliveryControlChange, 15)
    + When(c.security, SecurityBoundaryChange, 20) + When(c.unmapped, UnmappedServiceChange, 12)
    + When(c.weakTests, WeakTestEvidence, 10)
    + When(c.failures != 0, HistoricalRegression, if 8 * c.failures < 20 then 8 * c.failures else 20)
  }

  method AddWhen(factors: seq<Factor>, on: bool, name: FactorName, points: int) returns (all: seq<Factor>)
    ensures Total(all) == Total(factors) + Flag(on, points)
    ensures all == factors + When(on, name, points)
  {
    all := factors;
    if on {
      TotalAppend(factors, Factor(name, points));
      all := all + [Factor(name, points)];
    }
  }

  method ImpactFactors(graph: ServiceGraph, c: Change) returns (blast: set<string>, factors: seq<Factor>)
    ensures blast == Blast(graph.nodes, c)
    ensures Total(factors) == Flag(TouchesTierOne(graph.nodes, blast), 20) + SpreadPoints(|blast|)
    ensures factors == ImpactListed(graph.nodes, blast)
  {
    hide When, IsMaxTier, LowestIsOne, Total;
    blast := graph.BlastRadius(c.services);
    var tierOne := HasTierOne(graph, blast);
    TierOneMeans(graph.nodes, blast);
    factors := AddWhen([], tierOne, CriticalService, 20);
    NothingTotals();
    assert factors == When(tierOne, CriticalService, 20);
    factors := SpreadFactors(factors, |blast|);
  }

  lemma TierOneMeans(nodes: map<string, Node>, blast: set<string>)
    ensures TouchesTierOne(nodes, blast) <==> LowestIsOne(nodes, blast)
  {
    if s :| s in blast && s in nodes && nodes[s].tier == 1 && forall r :: r in blast && r in nodes ==> 1 <= nodes[r].tier {
      assert TouchesTierOne(nodes, blast);
    }
  }

  method HasTierOne(graph: ServiceGraph, blast: set<string>) returns (yes: bool)
    ensures yes <==> TouchesTierOne(graph.nodes, blast)
  {
    var tier := graph.MaxTier(blast);
    if IsMaxTier(graph.nodes, blast, 1) { TierIsUnique(graph.nodes, blast, tier, 1); }
    yes := tier == 1;
  }

  method SpreadFactors(before: seq<Factor>, services: nat) returns (factors: seq<Factor>)
    ensures Total(factors) == Total(before) + SpreadPoints(services)
    ensures factors == before + When(services >= 5, WideBlastRadius, 20) + When(2 <= services < 5, MultiServiceImpact, 10)
  {
    factors := before;
    if services >= 5 {
      factors := AddWhen(factors, true, WideBlastRadius, 20);
    } else if services >= 2 {
      factors := AddWhen(factors, true, MultiServiceImpact, 10);
    }
  }

  method DiffFactors(before: seq<Factor>, files: int) returns (factors: seq<Factor>)
    ensures Total(factors) == Total(before) + DiffPoints(files)
    ensures factors == before + When(files >= 25, LargeDiff, 15) + When(10 <= files < 25, MediumDiff, 8)
  {
    factors := before;
    if files >= 25 {
      factors := AddWhen(factors, true, LargeDiff, 15);
    } else if files >= 10 {
      factors := AddWhen(factors, true, MediumDiff, 8);
    }
  }

  method HistoryFactors(before: seq<Factor>, failures: int) returns (factors: seq<Factor>)
    ensures Total(factors) == Total(before) + HistoryPoints(failures)
    ensures factors == before + When(failures != 0, HistoricalRegression, if 8 * failures < 20 then 8 * failures else 20)
  {
    factors := before;
    if failures != 0 { factors := AddWhen(factors, true, HistoricalRegression, Capped(8 * failures, 20)); }
  }

  method ChangeFactors(c: Change, before: seq<Factor>) returns (factors: seq<Factor>)
    ensures Total(factors) == Total(before) + ChangePoints(c)
    ensures factors == ChangeListed(before, c)
  {
    hide When, Total;
    factors := DiffFactors(before, c.files);
    factors := AddWhen(factors, c.iac, InfrastructureChange, 12);
    factors := AddWhen(factors, c.pipeline, DeliveryControlChange, 15);
    factors := AddWhen(factors, c.security, SecurityBoundaryChange, 20);
    factors := AddWhen(factors, c.unmapped, UnmappedServiceChange, 12);
    factors := AddWhen(factors, c.weakTests, WeakTestEvidence, 10);
    factors := HistoryFactors(factors, c.failures);
  }

  /** The factors are listed in a fixed order; the score is their capped sum. */
  method AssessChange(graph: ServiceGraph, c: Change) returns (a: Assessment)
    ensures a.score == Capped(Total(a.factors), 100) == Score(graph.nodes, c)
    ensures a.score <= 100 && a.score <= Total(a.factors) && (a.score == 100 || a.score == Total(a.factors))
    ensures a.factors == ChangeListed(ImpactListed(graph.nodes, a.blast), c)
    ensures a.blast == Blast(graph.nodes, c)
    ensures a.band == Low <==> a.score < 25
    ensures a.band == Moderate <==> 25 <= a.score < 50
    ensures a.band == High <==> 50 <= a.score < 75
    ensures a.band == Critical <==> 75 <= a.score
  {
    var blast, factors := ImpactFactors(graph, c);
    factors := ChangeFactors(c, factors);
    var score := Capped(Total(factors), 100);
    a := Assessment(score, BandOf(score), blast, factors);
  }

  /** The second graph knows every node of the first, at the same tier and with at least its dependencies. */
  ghost predicate Extends(bigger: map<string, Node>, nodes: map<string, Node>) {
    forall k :: k in nodes ==>
      && k in bigger && bigger[k].name == nodes[k].name && bigger[k].tier == nodes[k].tier
      && forall d :: d in nodes[k].dependencies ==> d in bigger[k].dependencies
  }

  ghost predicate Widens(more: Change, c: Change) {
    && c.services <= more.services && 0 <= c.files <= more.files && 0 <= c.failures <= more.failures
    && (c.iac ==> more.iac) && (c.security ==> more.security) && (c.pipeline ==> more.pipeline)
    && (c.unmapped ==> more.unmapped) && (c.weakTests ==> more.weakTests)
  }

  ghost predicate ProperTiers(nodes: map<string, Node>) {
    forall k :: k in nodes ==> nodes[k].tier >= 1
  }

  lemma BlastGrows(nodes: map<string, Node>, bigger: map<string, Node>, c: Change, more: Change)
    requires Extends(bigger, nodes) && Widens(more, c)
    ensures Blast(nodes, c) <= Blast(bigger, more) && |Blast(nodes, c)| <= |Blast(bigger, more)|
  {
    forall l | l in Dependencies(nodes) ensures l in Dependencies(bigger) {
      var k, d :| k in nodes && d in nodes[k].dependencies && l == Link(nodes[k].name, d);
      assert d in bigger[k].dependencies;
    }
    ImpactGrows(c.services, Dependencies(nodes), more.services, Dependencies(bigger));
    SizeOfSubset(Blast(nodes, c), Blast(bigger, more));
  }

  lemma TierOneStays(nodes: map<string, Node>, bigger: map<string, Node>, services: set<string>, more: set<string>)
    requires Extends(bigger, nodes) && ProperTiers(bigger) && services <= more && TouchesTierOne(nodes, services)
    ensures TouchesTierOne(bigger, more)
  {
    var s :| s in services && s in nodes && nodes[s].tier == 1;
    assert s in more && s in bigger && bigger[s].tier == 1;
  }

  lemma PointsGrow(c: Change, more: Change)
    requires Widens(more, c)
    ensures ChangePoints(c) <= ChangePoints(more)
  {
  }

  /** More dependencies, services, files, flags or past failures never lower the score nor drop a required control. */
  lemma RiskIsMonotone(nodes: map<string, Node>, bigger: map<string, Node>, c: Change, more: Change)
    requires Extends(bigger, nodes) && ProperTiers(bigger) && Widens(more, c)
    ensures Score(nodes, c) <= Score(bigger, more)
    ensures var after, before := ControlsFor(Score(bigger, more)), ControlsFor(Score(nodes, c));
            && (before.extendedTests ==> after.extendedTests) && (before.additionalApproval ==> after.additionalApproval)
            && (before.blockMerge ==> after.blockMerge)
  {
    BlastGrows(nodes, bigger, c, more);
    PointsGrow(c, more);
    ScoresGrow(nodes, bigger, c, more);
  }

  /** The score at which each control sets in. */
  lemma ControlsSetIn(score: int)
    ensures ControlsFor(score).extendedTests <==> 55 <= score
    ensures ControlsFor(score).additionalApproval <==> 70 <= score
    ensures ControlsFor(score).blockMerge <==> 90 <= score
  {
  }

  lemma ScoresGrow(nodes: map<string, Node>, bigger: map<string, Node>, c: Change, more: Change)
    requires Extends(bigger, nodes) && ProperTiers(bigger)
    requires Blast(nodes, c) <= Blast(bigger, more) && |Blast(nodes, c)| <= |Blast(bigger, more)|
    requires ChangePoints(c) <= ChangePoints(more)
    ensures Score(nodes, c) <= Score(bigger, more)
  {
    hide Blast, Extends, ProperTiers, IsMaxTier, ChangePoints;
    if TouchesTierOne(nodes, Blast(nodes, c)) { TierOneStays(nodes, bigger, Blast(nodes, c), Blast(bigger, more)); }
  }

  /** The only change to these services, in a graph where nothing else counts. */
  function PlainChange(service: string): Change {
    Change({service}, 0, false, false, false, false, false, 0)
  }

  function Alone(api: string): map<string, Node> {
    map[api := Node(api, 1, [])]
  }

  function Fronted(api: string, edge: string): map<string, Node> {
    map[api := Node(api, 1, []), edge := Node(edge, 0, [api])]
  }

  lemma AloneScores(api: string)
    ensures Score(Alone(api), PlainChange(api)) == 20
  {
    var nodes, c := Alone(api), PlainChange(api);
    assert Dependencies(nodes) == {};
    ImpactIsLeast(c.services, Dependencies(nodes));
    assert Closed(c.services, Dependencies(nodes));
    assert Blast(nodes, c) == {api};
    assert api in nodes && nodes[api].tier == 1;
  }

  lemma FrontedScores(api: string, edge: string)
    requires api != edge
    ensures Score(Fronted(api, edge), PlainChange(api)) == 10
  {
    var nodes, c, both := Fronted(api, edge), PlainChange(api), {api, edge};
    assert edge in nodes && api in nodes[edge].dependencies;
    assert Link(nodes[edge].name, api) in Dependencies(nodes);
    ImpactIsLeast(c.services, Dependencies(nodes));
    assert Closed(both, Dependencies(nodes));
    assert Blast(nodes, c) == both;
    assert edge in both && nodes[edge].tier == 0;
    assert |both| == 2;
  }

  /** A tier below one breaks it: a change scores less once a tier-zero service depends on what it touches. */
  lemma TierZeroLowersTheScore(api: string, edge: string)
    requires api != edge
    ensures Extends(Fronted(api, edge), Alone(api)) && !ProperTiers(Fronted(api, edge))
    ensures Score(Fronted(api, edge), PlainChange(api)) < Score(Alone(api), PlainChange(api))
  {
    hide Score;
    AloneScores(api);
    FrontedScores(api, edge);
    assert edge in Fronted(api, edge) && Fronted(api, edge)[edge].tier == 0;
  }
}

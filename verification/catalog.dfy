/**
  The static scenario catalog of the Al Nuzhah 9-unit property: three
  operating modes (smart hybrid, daily short-term rental, yearly long-term
  rental), each with baseline financials for three pricing cases and a unit
  mix. The catalog is built once and never changes; only the fields the
  calculator and the unit inventory read are kept (display text, colours and
  video links are not).
 */
module Catalog {
  import opened Wrappers
  import opened Rounding

  /** The operating mode a scenario stands for. */
  datatype ScenarioType = Hybrid | ShortTerm | LongTerm

  /** The pricing case that selects which baseline anchors the calculation. */
  datatype Case = Worst | Base | Best

  /**
    Baseline figures of one pricing case: gross yearly revenue, the
    operator's ("Mabaat") share, the owner's net income, and the return on
    the property value in hundredths of a percent (8.13% is 813).
   */
  datatype CaseFinancials = CaseFinancials(revenue: nat, mabaatShare: nat, netIncome: nat, roiHundredths: nat)

  datatype Financials = Financials(worst: CaseFinancials, base: CaseFinancials, best: CaseFinancials) {
    function For(c: Case): CaseFinancials {
      match c
      case Worst => worst
      case Base => base
      case Best => best
    }
  }

  /** A daily (short-term) or monthly (long-term) rate band. */
  datatype PriceRange = PriceRange(min: nat, avg: nat, max: nat)

  /** A group of identical units and its average yearly revenue per unit. */
  datatype UnitGroup = UnitGroup(name: string, count: nat, avgPrice: nat, priceRange: Option<PriceRange>)

  datatype Scenario = Scenario(
    id: string,
    kind: ScenarioType,
    financials: Financials,
    propertyValue: nat,
    unitCount: nat,
    unitMix: seq<UnitGroup>)

  const HybridId: string := "hybrid"
  const ShortTermId: string := "short_term"
  const LongTermId: string := "long_term"

  /** The exported default operator share, in percent (0.30). */
  const MabaatSharePercent: nat := 30

  const PropertyValue: nat := 5000000

  const HybridScenario: Scenario := Scenario(
    HybridId, Hybrid,
    Financials(
      CaseFinancials(508102, 101620, 406481, 813),
      CaseFinancials(508102, 101620, 406481, 813),
      CaseFinancials(508102, 101620, 406481, 813)),
    PropertyValue, 9,
    [ UnitGroup("Large 2BR (Ground)", 1, 85000, None),
      UnitGroup("1BR Apts (1st Flr)", 4, 65000, None),
      UnitGroup("Small 2BR (2nd Flr)", 2, 70000, None),
      UnitGroup("Studios (2nd Flr)", 2, 50000, None) ])

  const ShortTermScenario: Scenario := Scenario(
    ShortTermId, ShortTerm,
    Financials(
      CaseFinancials(830412, 140340, 561358, 1123),
      CaseFinancials(1009537, 170612, 682447, 1365),
      CaseFinancials(1187208, 200638, 802553, 1605)),
    PropertyValue, 9,
    [ UnitGroup("Large 2BR (Ground)", 1, 173747, Some(PriceRange(427, 483, 538))),
      UnitGroup("1BR Apts (1st Flr)", 4, 117810, Some(PriceRange(242, 327, 412))),
      UnitGroup("Small 2BR (2nd Flr)", 2, 95561, Some(PriceRange(235, 265, 296))),
      UnitGroup("Studios (2nd Flr)", 2, 86714, Some(PriceRange(221, 241, 260))) ])

  const LongTermScenario: Scenario := Scenario(
    LongTermId, LongTerm,
    Financials(
      CaseFinancials(549228, 164768, 384460, 769),
      CaseFinancials(632794, 189838, 442956, 886),
      CaseFinancials(709762, 212928, 496834, 994)),
    PropertyValue, 9,
    [ UnitGroup("Large 2BR (Ground)", 1, 116976, Some(PriceRange(8476, 9748, 10466))),
      UnitGroup("1BR Apts (1st Flr)", 4, 65736, Some(PriceRange(4526, 5478, 6431))),
      UnitGroup("Small 2BR (2nd Flr)", 2, 64332, Some(PriceRange(4662, 5361, 5756))),
      UnitGroup("Studios (2nd Flr)", 2, 62100, Some(PriceRange(4733, 5175, 5617))) ])

  /** The catalog, in display order. */
  const Scenarios: seq<Scenario> := [HybridScenario, ShortTermScenario, LongTermScenario]

  /** The ids of the catalog, in display order (what the scenario control offers). */
  function Ids(rows: seq<Scenario>): (ids: seq<string>)
    ensures |ids| == |rows|
    ensures forall i :: 0 <= i < |rows| ==> ids[i] == rows[i].id
  {
    if rows == [] then [] else [rows[0].id] + Ids(rows[1..])
  }

  /** The first row of `rows` whose id is `id`, if there is one. */
  function Find(rows: seq<Scenario>, id: string): (r: Option<Scenario>)
    ensures r.None? <==> forall i :: 0 <= i < |rows| ==> rows[i].id != id
    ensures r.Some? ==> exists i :: 0 <= i < |rows| && rows[i] == r.value
                                     && r.value.id == id
                                     && forall j :: 0 <= j < i ==> rows[j].id != id
  {
    if rows == [] then None
    else if rows[0].id == id then Some(rows[0])
    else
      var r := Find(rows[1..], id);
      FindStep(rows, id, r);
      r
  }

  lemma FindStep(rows: seq<Scenario>, id: string, r: Option<Scenario>)
    requires rows != [] && rows[0].id != id
    requires r.None? <==> forall i :: 0 <= i < |rows[1..]| ==> rows[1..][i].id != id
    requires r.Some? ==> exists i :: 0 <= i < |rows[1..]| && rows[1..][i] == r.value
                                     && r.value.id == id
                                     && forall j :: 0 <= j < i ==> rows[1..][j].id != id
    ensures r.None? <==> forall i :: 0 <= i < |rows| ==> rows[i].id != id
    ensures r.Some? ==> exists i :: 0 <= i < |rows| && rows[i] == r.value
                                     && r.value.id == id
                                     && forall j :: 0 <= j < i ==> rows[j].id != id
  {
    if r.Some? {
      var i :| 0 <= i < |rows[1..]| && rows[1..][i] == r.value && r.value.id == id
               && forall j :: 0 <= j < i ==> rows[1..][j].id != id;
      assert rows[i + 1] == r.value;
      forall j | 0 <= j < i + 1 ensures rows[j].id != id {
        if j > 0 { assert rows[j] == rows[1..][j - 1]; }
      }
    } else {
      forall i | 0 <= i < |rows| ensures rows[i].id != id {
        if i > 0 { assert rows[i] == rows[1..][i - 1]; }
      }
    }
  }

  /**
    The scenario the dashboard shows for a selected id: the catalog row with
    that id, or the first row (hybrid) when no row has it.
   */
  function ActiveScenario(id: string): (s: Scenario)
    ensures id in Ids(Scenarios) ==> s.id == id && s in Scenarios
    ensures id !in Ids(Scenarios) ==> s == Scenarios[0]
  {
    Find(Scenarios, id).GetOr(Scenarios[0])
  }

  function TotalCount(mix: seq<UnitGroup>): nat {
    if mix == [] then 0 else mix[0].count + TotalCount(mix[1..])
  }

  function TotalAvgPrice(mix: seq<UnitGroup>): nat {
    if mix == [] then 0 else mix[0].count * mix[0].avgPrice + TotalAvgPrice(mix[1..])
  }

  predicate RangeOrdered(g: UnitGroup) {
    g.priceRange.Some? ==> g.priceRange.value.min <= g.priceRange.value.avg <= g.priceRange.value.max
  }

  /** The catalog has exactly three rows whose ids are distinct and name their kinds. */
  lemma CatalogShape()
    ensures Ids(Scenarios) == [HybridId, ShortTermId, LongTermId]
    ensures forall i, j :: 0 <= i < j < |Scenarios| ==> Scenarios[i].id != Scenarios[j].id
    ensures Scenarios[0].kind == Hybrid && Scenarios[1].kind == ShortTerm && Scenarios[2].kind == LongTerm
  {
  }

  /** Each catalog id resolves to its own row. */
  lemma KnownIdsResolve()
    ensures ActiveScenario(HybridId) == HybridScenario
    ensures ActiveScenario(ShortTermId) == ShortTermScenario
    ensures ActiveScenario(LongTermId) == LongTermScenario
  {
    CatalogShape();
  }

  /** An id outside the catalog resolves to the hybrid row instead of failing. */
  lemma UnknownIdFallsBackToHybrid(id: string)
    requires id != HybridId && id != ShortTermId && id != LongTermId
    ensures ActiveScenario(id) == HybridScenario
  {
    CatalogShape();
  }

  /** Every catalog row declares 9 units and its unit mix counts 1 + 4 + 2 + 2 of them. */
  lemma UnitMixMatchesUnitCount()
    ensures forall s :: s in Scenarios ==> s.unitCount == 9 && TotalCount(s.unitMix) == s.unitCount
  {
    assert TotalCount(HybridScenario.unitMix) == 9;
    assert TotalCount(ShortTermScenario.unitMix) == 9;
    assert TotalCount(LongTermScenario.unitMix) == 9;
  }

  /**
    Every rate band present is ordered `min <= avg <= max`; hybrid units carry
    no band, the rental scenarios always do.
   */
  lemma PriceRangesOrdered()
    ensures forall s, g :: s in Scenarios && g in s.unitMix ==> RangeOrdered(g)
    ensures forall g :: g in HybridScenario.unitMix ==> g.priceRange.None?
    ensures forall g :: g in ShortTermScenario.unitMix + LongTermScenario.unitMix ==> g.priceRange.Some?
  {
  }

  /**
    Baseline revenue never decreases from the worst to the best case; the
    three hybrid cases share one revenue.
   */
  lemma BaselineRevenueMonotone()
    ensures forall s, c, c' :: s in Scenarios && CaseRank(c) <= CaseRank(c') ==>
              s.financials.For(c).revenue <= s.financials.For(c').revenue
    ensures forall c, c' :: HybridScenario.financials.For(c).revenue == HybridScenario.financials.For(c').revenue == 508102
  {
  }

  function CaseRank(c: Case): nat {
    match c
    case Worst => 0
    case Base => 1
    case Best => 2
  }

  /**
    Each stored return on investment is the owner's net income as a
    percentage of the property value, rounded to two decimals.
   */
  lemma RoiIsNetIncomeOverPropertyValue()
    ensures forall s, c :: s in Scenarios ==>
              s.financials.For(c).roiHundredths == Share(s.financials.For(c).netIncome, 10000, s.propertyValue)
  {
    forall s, c | s in Scenarios
      ensures s.financials.For(c).roiHundredths == Share(s.financials.For(c).netIncome, 10000, s.propertyValue)
    {
      var f := s.financials.For(c);
      ShareUnique(f.netIncome, 10000, s.propertyValue, f.roiHundredths);
    }
  }

  /**
    The short-term unit mix's yearly averages add up to the base-case
    revenue exactly; the long-term ones (twelve times the monthly average
    rate) add up to 10 less than it.
   */
  lemma UnitMixAnnualTotals()
    ensures TotalAvgPrice(ShortTermScenario.unitMix) == ShortTermScenario.financials.base.revenue
    ensures TotalAvgPrice(LongTermScenario.unitMix) + 10 == LongTermScenario.financials.base.revenue
    ensures forall g :: g in LongTermScenario.unitMix ==> g.avgPrice == 12 * g.priceRange.value.avg
  {
    assert TotalAvgPrice(ShortTermScenario.unitMix) == 1009537;
    assert TotalAvgPrice(LongTermScenario.unitMix) == 632784;
  }
}

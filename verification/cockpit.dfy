/**
  The dashboard's interactive "cockpit": the selection state (scenario id,
  pricing case, occupancy, management fee), the options each control offers
  in a given state, and what each control's change handler does.

  The invariant worth keeping is that the long-term scenario is never shown
  below 60% occupancy: its occupancy options are filtered, and switching to
  it clamps a lower occupancy up to 60%.
 */
module Cockpit {
  import opened Rounding
  import opened Catalog
  import opened Calculator
  import opened Ledger

  datatype Selection = Selection(scenarioId: string, pricing: Case, occupancyTenths: nat, feePercent: nat)

  /** A user choosing one option of one control. */
  datatype Event =
    | PickScenario(id: string)
    | PickCase(c: Case)
    | PickOccupancy(tenths: nat)
    | PickFee(percent: nat)

  /** The occupancy control's full option list, 40% .. 100% in tenths. */
  const AllOccupancyOptions: seq<nat> := [4, 5, 6, 7, 8, 9, 10]

  /** The lowest occupancy the long-term scenario may be shown at, in tenths. */
  const LongTermMinOccupancy: nat := 6

  /** The management-fee control's options, in percent. */
  const FeeOptions: seq<nat> := [20, 30]

  /** The elements of `xs` that are at least `lo`, in their original order. */
  function AtLeast(xs: seq<nat>, lo: nat): (ys: seq<nat>)
    ensures forall v :: v in ys <==> v in xs && v >= lo
    ensures |ys| <= |xs|
    // order is kept: a strictly increasing list filters to a strictly increasing list
    ensures (forall i, j :: 0 <= i < j < |xs| ==> xs[i] < xs[j]) ==> forall i, j :: 0 <= i < j < |ys| ==> ys[i] < ys[j]
  {
    if xs == [] then []
    else
      var rest := AtLeast(xs[1..], lo);
      assert forall v :: v in xs <==> v == xs[0] || v in xs[1..];
      assert forall k :: 0 <= k < |rest| ==> rest[k] in rest;
      if xs[0] >= lo then [xs[0]] + rest else rest
  }

  /** The occupancy options shown for scenario `id`: from 60% up for long-term, all of them otherwise. */
  function OccupancyOptions(id: string): (opts: seq<nat>)
    ensures forall v :: v in opts <==> v in AllOccupancyOptions && (id == LongTermId ==> v >= LongTermMinOccupancy)
    ensures opts == if id == LongTermId then [6, 7, 8, 9, 10] else AllOccupancyOptions
  {
    if id == LongTermId then AtLeast(AllOccupancyOptions, LongTermMinOccupancy) else AllOccupancyOptions
  }

  /**
    Whether the dashboard lets the user raise `e` in state `s`: scenarios
    come from the catalog, the case and occupancy controls are hidden for the
    hybrid scenario, occupancy must be one of the offered options and the fee
    one of the two fee options.
   */
  predicate Offered(s: Selection, e: Event) {
    match e
    case PickScenario(id) => id in Ids(Scenarios)
    case PickCase(_) => s.scenarioId != HybridId
    case PickOccupancy(v) => s.scenarioId != HybridId && v in OccupancyOptions(s.scenarioId)
    case PickFee(p) => p in FeeOptions
  }

  /**
    The change handler of the control `e` belongs to. Every handler sets its
    own field unconditionally; switching to long-term also lifts an occupancy
    below 60% to 60%.
   */
  function Step(s: Selection, e: Event): (t: Selection)
    ensures e.PickScenario? ==>
              && t.scenarioId == e.id && t.pricing == s.pricing && t.feePercent == s.feePercent
              && (e.id == LongTermId ==> t.occupancyTenths >= LongTermMinOccupancy)
              && (t.occupancyTenths != s.occupancyTenths ==>
                    e.id == LongTermId && s.occupancyTenths < t.occupancyTenths == LongTermMinOccupancy)
    ensures e.PickCase? ==> t == s.(pricing := e.c)
    ensures e.PickOccupancy? ==> t == s.(occupancyTenths := e.tenths)
    ensures e.PickFee? ==> t == s.(feePercent := e.percent)
  {
    match e
    case PickScenario(id) =>
      var occupancy := if id == LongTermId && s.occupancyTenths < LongTermMinOccupancy
                       then LongTermMinOccupancy else s.occupancyTenths;
      s.(scenarioId := id, occupancyTenths := occupancy)
    case PickCase(c) => s.(pricing := c)
    case PickOccupancy(v) => s.(occupancyTenths := v)
    case PickFee(p) => s.(feePercent := p)
  }

  /** The state after the events `evs`, in order. */
  function Run(s: Selection, evs: seq<Event>): Selection
    decreases |evs|
  {
    if evs == [] then s else Run(Step(s, evs[0]), evs[1..])
  }

  /** Whether each event of `evs` is offered in the state it is raised in. */
  predicate Admissible(s: Selection, evs: seq<Event>)
    decreases |evs|
  {
    evs == [] || (Offered(s, evs[0]) && Admissible(Step(s, evs[0]), evs[1..]))
  }

  /**
    What every state reachable from the initial one satisfies: the scenario
    is a catalog id, occupancy and fee are offered values, and the long-term
    scenario is at 60% occupancy or more.
   */
  predicate Inv(s: Selection) {
    && s.scenarioId in Ids(Scenarios)
    && s.occupancyTenths in AllOccupancyOptions
    && s.feePercent in FeeOptions
    && (s.scenarioId == LongTermId ==> s.occupancyTenths >= LongTermMinOccupancy)
  }

  /** The state on a fresh load: hybrid, base case, 100% occupancy, the default 30% fee. */
  function Initial(): (s: Selection)
    ensures Inv(s)
    ensures s.scenarioId == Scenarios[0].id
    ensures s.feePercent == MabaatSharePercent
  {
    Selection(HybridId, Base, 10, 30)
  }

  /** The derived financials the dashboard shows in state `s`. */
  function Outputs(s: Selection): Derived {
    Derive(s.scenarioId, s.pricing, s.occupancyTenths, s.feePercent)
  }

  /** Every offered event keeps the invariant. */
  lemma StepPreservesInv(s: Selection, e: Event)
    requires Inv(s) && Offered(s, e)
    ensures Inv(Step(s, e))
  {
  }

  /** Every admissible run from a state satisfying the invariant ends in one that does. */
  lemma {:induction false} RunPreservesInv(s: Selection, evs: seq<Event>)
    requires Inv(s) && Admissible(s, evs)
    ensures Inv(Run(s, evs))
    decreases |evs|
  {
    if evs != [] {
      StepPreservesInv(s, evs[0]);
      RunPreservesInv(Step(s, evs[0]), evs[1..]);
    }
  }

  /**
    In every state the user can reach, the long-term scenario is at 60%
    occupancy or more, and the selected id is a catalog id, so the lookup
    never falls back to the first row.
   */
  lemma Reachable(evs: seq<Event>)
    requires Admissible(Initial(), evs)
    ensures var s := Run(Initial(), evs);
            && (s.scenarioId == LongTermId ==> s.occupancyTenths >= LongTermMinOccupancy)
            && ActiveScenario(s.scenarioId).id == s.scenarioId
            && Inv(s)
  {
    RunPreservesInv(Initial(), evs);
  }

  /**
    The occupancy filter is what protects the invariant: the handler itself
    would accept 40% for long-term, but the control does not offer it.
   */
  lemma OccupancyFilterIsNeeded()
    ensures Inv(Selection(LongTermId, Base, 6, 30))
    ensures !Offered(Selection(LongTermId, Base, 6, 30), PickOccupancy(4))
    ensures !Inv(Step(Selection(LongTermId, Base, 6, 30), PickOccupancy(4)))
  {
    CatalogShape();
  }

  /**
    The clamp fires in reachable states: 40% chosen under short-term survives
    a switch to hybrid (whose occupancy control is hidden) and is lifted to
    60% on the switch to long-term.
   */
  lemma ClampIsReached()
    ensures var evs := [PickScenario(ShortTermId), PickOccupancy(4), PickScenario(HybridId), PickScenario(LongTermId)];
            && Admissible(Initial(), evs)
            && Run(Initial(), evs[..3]) == Selection(HybridId, Base, 4, 30)
            && Run(Initial(), evs) == Selection(LongTermId, Base, 6, 30)
  {
    CatalogShape();
    var evs := [PickScenario(ShortTermId), PickOccupancy(4), PickScenario(HybridId), PickScenario(LongTermId)];
    var s0 := Initial();
    var s1 := Selection(ShortTermId, Base, 10, 30);
    var s2 := Selection(ShortTermId, Base, 4, 30);
    var s3 := Selection(HybridId, Base, 4, 30);
    var s4 := Selection(LongTermId, Base, 6, 30);
    assert Step(s0, evs[0]) == s1 && Step(s1, evs[1]) == s2 && Step(s2, evs[2]) == s3 && Step(s3, evs[3]) == s4;
    assert evs[3..][1..] == [];
    assert Run(s3, evs[3..]) == s4 && Admissible(s3, evs[3..]);
    assert evs[2..][1..] == evs[3..];
    assert Run(s2, evs[2..]) == s4 && Admissible(s2, evs[2..]);
    assert evs[1..][1..] == evs[2..];
    assert Run(s1, evs[1..]) == s4 && Admissible(s1, evs[1..]);
    var pre := evs[..3];
    assert pre[1..][1..][1..] == [];
    assert Run(s3, pre[1..][1..][1..]) == s3;
    assert Run(s2, pre[1..][1..]) == s3;
    assert Run(s1, pre[1..]) == s3;
  }

  /**
    In every state satisfying the invariant the figures are sound: no output
    is negative, each deduction is at most its base, every ledger bar is
    0..100%, and the OTA row is shown exactly for the short-term scenario.
   */
  lemma ReachableOutputsSound(s: Selection)
    requires Inv(s)
    ensures var d := Outputs(s);
            && 0 <= d.otaFee <= d.effectiveRevenue
            && 0 <= d.managementFee <= d.netRevenueAfterOta
            && 0 <= d.ownerNetIncome
            && (forall i :: 0 <= i < |Compose(d, s.feePercent)| ==>
                  0 <= Percent(Compose(d, s.feePercent)[i].amount, d.effectiveRevenue) <= 100)
            && (|Compose(d, s.feePercent)| == 3 <==> s.scenarioId == ShortTermId)
  {
    assert 4 <= s.occupancyTenths && s.feePercent <= 100;
    OutputsSound(s.scenarioId, s.pricing, s.occupancyTenths, s.feePercent);
  }

  /** The soundness facts above, for any selection with an occupancy of 40% or more and a fee of at most 100%. */
  lemma OutputsSound(id: string, c: Case, occupancyTenths: nat, feePercent: nat)
    requires 4 <= occupancyTenths && feePercent <= 100
    ensures var d := Derive(id, c, occupancyTenths, feePercent);
            && 0 <= d.otaFee <= d.effectiveRevenue
            && 0 <= d.managementFee <= d.netRevenueAfterOta
            && 0 <= d.ownerNetIncome
            && (forall i :: 0 <= i < |Compose(d, feePercent)| ==>
                  0 <= Percent(Compose(d, feePercent)[i].amount, d.effectiveRevenue) <= 100)
            && (|Compose(d, feePercent)| == 3 <==> id == ShortTermId)
  {
    LedgerAmountsWithinRevenue(id, c, occupancyTenths, feePercent);
    OtaRowPresence(id, c, occupancyTenths, feePercent);
    if id == ShortTermId {
      ShortTermRevenueAtLeastFour(c, occupancyTenths, feePercent);
    }
  }

  /** From 40% occupancy up, short-term revenue is far above the 4 below which its OTA fee rounds to 0. */
  lemma ShortTermRevenueAtLeastFour(c: Case, occupancyTenths: nat, feePercent: nat)
    requires occupancyTenths >= 4
    ensures Derive(ShortTermId, c, occupancyTenths, feePercent).effectiveRevenue >= 4
  {
    var revenue := BaselineRevenue(ShortTermId, c);
    assert revenue >= 10 by {
      KnownIdsResolve();
    }
    var e := Derive(ShortTermId, c, occupancyTenths, feePercent).effectiveRevenue;
    MulMonotone(occupancyTenths, 10, revenue);
    if e < 4 {
      MulMonotone(10, 2 * e + 1, 7);
      assert false;
    }
  }
}

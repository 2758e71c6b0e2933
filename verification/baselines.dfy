/**
  The stored baseline splits of the catalog compared with the calculator.

  Each catalog row stores, per case, an operator share and an owner net
  income computed offline at full occupancy with the scenario's nominal fee
  (20% for hybrid and short-term, 30% for long-term). The live dashboard
  reads only the stored revenue; this module recomputes the split from that
  revenue with the calculator and shows where the stored figures agree and
  where they are off by one.
 */
module Baselines {
  import opened Rounding
  import opened Catalog
  import opened Calculator

  /** The fee percentage a scenario's stored split was computed with. */
  function NominalFeePercent(kind: ScenarioType): nat {
    match kind
    case Hybrid => 20
    case ShortTerm => 20
    case LongTerm => 30
  }

  /**
    The baseline of row `s` for case `c` recomputed from its revenue: the
    calculator's split at full occupancy and the nominal fee, with the return
    on investment derived from the recomputed net income.
   */
  function Reconciled(s: Scenario, c: Case): (f: CaseFinancials)
    requires s.propertyValue > 0
    ensures f.revenue == s.financials.For(c).revenue
    // share, net and (for short-term) the OTA fee exactly use up the revenue
    ensures s.kind == ShortTerm ==> f.mabaatShare + f.netIncome + Share(f.revenue, OtaPerMille, 1000) == f.revenue
    ensures s.kind != ShortTerm ==> f.mabaatShare + f.netIncome == f.revenue
    // the share is the nominal fee of what the OTA fee leaves, rounded
    ensures f.mabaatShare == Share(f.mabaatShare + f.netIncome, NominalFeePercent(s.kind), 100)
    ensures f.roiHundredths == Share(f.netIncome, 10000, s.propertyValue)
  {
    var d := DeriveFrom(s.financials.For(c).revenue, s.kind == Hybrid, s.kind == ShortTerm, 10, NominalFeePercent(s.kind));
    CaseFinancials(d.effectiveRevenue, d.managementFee, d.ownerNetIncome, Share(d.ownerNetIncome, 10000, s.propertyValue))
  }

  /**
    The calculator at full occupancy and a 20% fee reproduces the stored
    short-term split of case `c`, and its OTA fee is the one noted beside it
    (128714, 156478, 184017).
   */
  lemma ShortTermSplitMatches(c: Case)
    ensures Reconciled(ShortTermScenario, c) == ShortTermScenario.financials.For(c)
    ensures Derive(ShortTermId, c, 10, 20).otaFee == match c
              case Worst => 128714 case Base => 156478 case Best => 184017
  {
    CatalogRowsDriveCalculator(ShortTermScenario, c, 10, 20);
    match c
    case Worst => ShortTermFullOccupancy(830412, 128714, 701698, 140340, 561358, 1123);
    case Base => ShortTermFullOccupancy(1009537, 156478, 853059, 170612, 682447, 1365);
    case Best => ShortTermFullOccupancy(1187208, 184017, 1003191, 200638, 802553, 1605);
  }

  /** One short-term case at full occupancy and 20%, given its revenue and the figures stored for it. */
  lemma ShortTermFullOccupancy(revenue: nat, ota: int, net: int, share: int, owner: int, roi: int)
    requires ota + net == revenue && share + owner == net
    requires 1000 * (2 * ota - 1) <= 2 * (revenue * 155) < 1000 * (2 * ota + 1)
    requires 100 * (2 * share - 1) <= 2 * (net * 20) < 100 * (2 * share + 1)
    requires 5000000 * (2 * roi - 1) <= 2 * (owner * 10000) < 5000000 * (2 * roi + 1)
    ensures DeriveFrom(revenue, false, true, 10, 20) == Derived(revenue, ota, net, share, owner)
    ensures Share(owner, 10000, PropertyValue) == roi
  {
    ShareUnique(revenue, OtaPerMille, 1000, ota);
    ShareUnique(net, 20, 100, share);
    ShareUnique(owner, 10000, PropertyValue, roi);
  }

  /** The calculator at full occupancy and a 30% fee reproduces the stored long-term worst and base splits. */
  lemma LongTermSplitMatches()
    ensures Reconciled(LongTermScenario, Worst) == LongTermScenario.financials.worst
    ensures Reconciled(LongTermScenario, Base) == LongTermScenario.financials.base
  {
    ShareUnique(549228, 30, 100, 164768);
    ShareUnique(632794, 30, 100, 189838);
    ShareUnique(384460, 10000, PropertyValue, 769);
    ShareUnique(442956, 10000, PropertyValue, 886);
  }

  /**
    The stored hybrid split is one short of its revenue: 101620 + 406481 is
    508101, while 20% of 508102 is 101620 and leaves 406482 to the owner.
   */
  lemma HybridStoredNetShortByOne(c: Case)
    ensures HybridScenario.financials.For(c).mabaatShare + HybridScenario.financials.For(c).netIncome + 1
            == HybridScenario.financials.For(c).revenue
    ensures Reconciled(HybridScenario, c).mabaatShare == HybridScenario.financials.For(c).mabaatShare
    ensures Reconciled(HybridScenario, c).netIncome == HybridScenario.financials.For(c).netIncome + 1
  {
    assert HybridScenario.financials.For(c).revenue == 508102;
    ShareUnique(508102, 20, 100, 101620);
  }

  /**
    The stored long-term best share is one below the calculator's:
    30% of 709762 is 212928.6, which rounds to 212929, not the stored 212928.
   */
  lemma LongTermBestStoredShareLowByOne()
    ensures LongTermScenario.financials.best.mabaatShare + LongTermScenario.financials.best.netIncome
            == LongTermScenario.financials.best.revenue
    ensures Reconciled(LongTermScenario, Best).mabaatShare == LongTermScenario.financials.best.mabaatShare + 1
    ensures Reconciled(LongTermScenario, Best).netIncome + 1 == LongTermScenario.financials.best.netIncome
  {
    ShareUnique(709762, 30, 100, 212929);
  }
}

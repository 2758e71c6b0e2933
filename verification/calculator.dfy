/**
  The derived-financials calculator of the dashboard: from the selected
  scenario id, pricing case, occupancy and management-fee percentage it
  recomputes effective revenue, the OTA (booking platform) fee, revenue net
  of OTA, the management ("Mabaat") fee and the owner's net income.

  Occupancy is in tenths (the dashboard offers 0.4 .. 1.0) and the fee is in
  percent (the dashboard offers 0.2 and 0.3). The calculator itself does not
  validate either; neither does this model.
 */
module Calculator {
  import opened Rounding
  import opened Catalog

  /** The fixed OTA commission rate, 15.5%, as a fraction of 1000. */
  const OtaPerMille: nat := 155

  datatype Derived = Derived(
    effectiveRevenue: int,
    otaFee: int,
    netRevenueAfterOta: int,
    managementFee: int,
    ownerNetIncome: int)

  /** The baseline revenue the selection scales: the active row's revenue for the case. */
  function BaselineRevenue(id: string, c: Case): nat {
    ActiveScenario(id).financials.For(c).revenue
  }

  /**
    The calculation proper, on the baseline revenue of the selected case:
    `pinned` holds the occupancy at 100% (hybrid), `paysOta` applies the
    OTA fee (short-term).
   */
  function DeriveFrom(revenue: nat, pinned: bool, paysOta: bool, occupancyTenths: nat, feePercent: nat): (r: Derived)
    // conservation: each deduction and what remains add up to its base
    ensures r.netRevenueAfterOta + r.otaFee == r.effectiveRevenue
    ensures r.managementFee + r.ownerNetIncome == r.netRevenueAfterOta
    // a pinned occupancy leaves the baseline as it is
    ensures pinned ==> r.effectiveRevenue == revenue
    // otherwise revenue is the baseline times occupancy, to the nearest integer
    ensures !pinned ==>
              10 * (2 * r.effectiveRevenue - 1) <= 2 * (revenue * occupancyTenths) < 10 * (2 * r.effectiveRevenue + 1)
    ensures r.effectiveRevenue >= 0
    // the 15.5% OTA fee is taken on gross revenue, or not at all
    ensures !paysOta ==> r.otaFee == 0
    ensures paysOta ==>
              1000 * (2 * r.otaFee - 1) <= 2 * (r.effectiveRevenue * OtaPerMille) < 1000 * (2 * r.otaFee + 1)
    ensures 0 <= r.otaFee <= r.effectiveRevenue
    // the management fee is the fee percentage of revenue NET of OTA, to the nearest integer
    ensures 100 * (2 * r.managementFee - 1) <= 2 * (r.netRevenueAfterOta * feePercent)
                                             < 100 * (2 * r.managementFee + 1)
    ensures feePercent <= 100 ==> 0 <= r.managementFee <= r.netRevenueAfterOta && r.ownerNetIncome >= 0
  {
    var effectiveOccupancy := if pinned then 10 else occupancyTenths;
    var effectiveRevenue := Share(revenue, effectiveOccupancy, 10);
    var otaShare := if paysOta then 1 else 0;
    var otaFee := Share(effectiveRevenue, otaShare * OtaPerMille, 1000);
    var netRevenueAfterOta := effectiveRevenue - otaFee;
    var managementFee := Share(netRevenueAfterOta, feePercent, 100);
    Derived(effectiveRevenue, otaFee, netRevenueAfterOta, managementFee, netRevenueAfterOta - managementFee)
  }

  /**
    The derived financials the dashboard shows for a selection. The hybrid
    pin and the OTA switch test the selected id itself, while the baseline
    comes from the catalog lookup, which falls back to the hybrid row for an
    unknown id.
   */
  function Derive(id: string, c: Case, occupancyTenths: nat, feePercent: nat): (r: Derived)
    // hybrid ignores the occupancy control: its revenue is the baseline itself
    ensures id == HybridId ==> r.effectiveRevenue == BaselineRevenue(id, c)
    ensures id != HybridId ==>
              10 * (2 * r.effectiveRevenue - 1) <= 2 * (BaselineRevenue(id, c) * occupancyTenths)
                                                 < 10 * (2 * r.effectiveRevenue + 1)
    // only the short-term scenario pays the OTA fee
    ensures id != ShortTermId ==> r.otaFee == 0
    ensures id == ShortTermId ==>
              1000 * (2 * r.otaFee - 1) <= 2 * (r.effectiveRevenue * OtaPerMille) < 1000 * (2 * r.otaFee + 1)
  {
    DeriveFrom(BaselineRevenue(id, c), id == HybridId, id == ShortTermId, occupancyTenths, feePercent)
  }

  /**
    For the catalog's own ids, testing the selected id is the same as
    testing the row's type: the calculation is driven by the row alone.
   */
  lemma CatalogRowsDriveCalculator(s: Scenario, c: Case, occupancyTenths: nat, feePercent: nat)
    requires s in Scenarios
    ensures Derive(s.id, c, occupancyTenths, feePercent)
            == DeriveFrom(s.financials.For(c).revenue, s.kind == Hybrid, s.kind == ShortTerm, occupancyTenths, feePercent)
  {
    KnownIdsResolve();
  }

  /**
    The hybrid outputs depend on the fee only: neither the occupancy control
    (pinned to 100%) nor the pricing case (all three hybrid baselines are
    equal) changes them.
   */
  lemma HybridIgnoresOccupancyAndCase(c: Case, c': Case, occupancyTenths: nat, occupancyTenths': nat, feePercent: nat)
    ensures Derive(HybridId, c, occupancyTenths, feePercent) == Derive(HybridId, c', occupancyTenths', feePercent)
    ensures Derive(HybridId, c, occupancyTenths, feePercent).effectiveRevenue == 508102
  {
    assert BaselineRevenue(HybridId, c) == BaselineRevenue(HybridId, c') == 508102 by {
      CatalogShape();
    }
  }

  /**
    An id outside the catalog is priced with the hybrid row but is not pinned
    to full occupancy, because the pin tests the selected id, not the row.
   */
  lemma UnknownIdScalesFallbackRow(id: string, c: Case, occupancyTenths: nat, feePercent: nat)
    requires id != HybridId && id != ShortTermId && id != LongTermId
    ensures Derive(id, c, occupancyTenths, feePercent).effectiveRevenue == Share(508102, occupancyTenths, 10)
    ensures Derive(id, c, occupancyTenths, feePercent).otaFee == 0
    ensures occupancyTenths < 10 ==>
              Derive(id, c, occupancyTenths, feePercent).effectiveRevenue
              < Derive(HybridId, c, occupancyTenths, feePercent).effectiveRevenue
  {
    UnknownIdFallsBackToHybrid(id);
    HybridIgnoresOccupancyAndCase(c, c, occupancyTenths, occupancyTenths, feePercent);
    if occupancyTenths < 10 {
      MulMonotone(508102, occupancyTenths, 9);
      RoundDivAtMost(508102 * occupancyTenths, 10, 457292);
    }
  }

  /**
    Short-term, base case, full occupancy, 20% fee: revenue 1009537, OTA fee
    156478, net of OTA 853059, management fee 170612, owner 682447. The fee
    is taken from the net of OTA; on gross revenue it would be 201907.
   */
  lemma ShortTermBaseExample()
    ensures Derive(ShortTermId, Base, 10, 20) == Derived(1009537, 156478, 853059, 170612, 682447)
    ensures Share(1009537, 20, 100) == 201907
  {
    assert Derive(ShortTermId, Base, 10, 20) == DeriveFrom(1009537, false, true, 10, 20) by {
      KnownIdsResolve();
    }
    ShareUnique(1009537, 1 * OtaPerMille, 1000, 156478);
    ShareUnique(853059, 20, 100, 170612);
    ShareUnique(1009537, 20, 100, 201907);
  }

  /**
    Long-term, worst case, 60% occupancy, 30% fee: revenue 329537, no OTA
    fee, management fee 98861, owner 230676.
   */
  lemma LongTermWorstExample()
    ensures Derive(LongTermId, Worst, 6, 30) == Derived(329537, 0, 329537, 98861, 230676)
  {
    assert Derive(LongTermId, Worst, 6, 30) == DeriveFrom(549228, false, false, 6, 30) by {
      KnownIdsResolve();
    }
    ShareUnique(549228, 6, 10, 329537);
    ShareUnique(329537, 30, 100, 98861);
  }
}

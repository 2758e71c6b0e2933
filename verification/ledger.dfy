/**
  The ledger composer: the ordered line items the financial breakdown shows
  under the effective revenue, and each item's whole-number share of that
  revenue (the width of its progress bar).
 */
module Ledger {
  import opened Rounding
  import opened Catalog
  import opened Calculator

  /** What a line item stands for; the management row's label carries the fee percentage. */
  datatype Category = OtaFee | ManagementFee(percent: nat) | OwnerNetIncome

  datatype LedgerItem = LedgerItem(category: Category, amount: int, highlight: bool)

  /**
    The line items for derived financials `d` under management fee
    `feePercent`: the OTA row only when there is a positive OTA fee, then
    the management row, then the highlighted owner net income row.
   */
  function Compose(d: Derived, feePercent: nat): (items: seq<LedgerItem>)
    ensures |items| == if d.otaFee > 0 then 3 else 2
    ensures (exists i :: 0 <= i < |items| && items[i].category == OtaFee) <==> d.otaFee > 0
    ensures d.otaFee > 0 ==> items[0] == LedgerItem(OtaFee, d.otaFee, false)
    ensures items[|items| - 2] == LedgerItem(ManagementFee(feePercent), d.managementFee, false)
    ensures items[|items| - 1] == LedgerItem(OwnerNetIncome, d.ownerNetIncome, true)
    ensures forall i :: 0 <= i < |items| ==> (items[i].highlight <==> i == |items| - 1)
  {
    var ota := if d.otaFee > 0 then [LedgerItem(OtaFee, d.otaFee, false)] else [];
    var items := ota + [LedgerItem(ManagementFee(feePercent), d.managementFee, false),
                        LedgerItem(OwnerNetIncome, d.ownerNetIncome, true)];
    assert d.otaFee > 0 ==> items[0].category == OtaFee;
    items
  }

  /**
    The share of `revenue` that `amount` represents, as a whole percentage
    rounded to the nearest integer; 0 when there is no revenue to divide by.
   */
  function Percent(amount: int, revenue: int): (p: int)
    ensures revenue <= 0 ==> p == 0
    ensures revenue > 0 ==> revenue * (2 * p - 1) <= 2 * (amount * 100) < revenue * (2 * p + 1)
    ensures revenue > 0 && 0 <= amount <= revenue ==> 0 <= p <= 100
  {
    if revenue > 0 then
      PercentBounded(amount, revenue);
      Share(amount, 100, revenue)
    else
      0
  }

  lemma PercentBounded(amount: int, revenue: int)
    requires revenue > 0
    ensures 0 <= amount <= revenue ==> Share(amount, 100, revenue) <= 100
  {
    if 0 <= amount <= revenue {
      MulMonotone(100, amount, revenue);
      RoundDivAtMost(amount * 100, revenue, 100);
      assert amount * 100 == 100 * amount;
    }
  }

  /** The percentages of every item of a ledger, in ledger order. */
  method RowPercents(revenue: int, items: seq<LedgerItem>) returns (ps: seq<int>)
    ensures |ps| == |items|
    ensures forall i :: 0 <= i < |items| ==> ps[i] == Percent(items[i].amount, revenue)
    ensures revenue <= 0 ==> forall i :: 0 <= i < |ps| ==> ps[i] == 0
    ensures (forall i :: 0 <= i < |items| ==> 0 <= items[i].amount <= revenue) ==>
              forall i :: 0 <= i < |ps| ==> 0 <= ps[i] <= 100
  {
    ps := [];
    var k := 0;
    while k < |items|
      invariant 0 <= k <= |items|
      invariant |ps| == k
      invariant forall i :: 0 <= i < k ==> ps[i] == Percent(items[i].amount, revenue)
    {
      ps := ps + [Percent(items[k].amount, revenue)];
      k := k + 1;
    }
  }

  /** The sum of the amounts of `items`. */
  function Total(items: seq<LedgerItem>): int {
    if items == [] then 0 else items[0].amount + Total(items[1..])
  }

  /**
    The items of the ledger of any calculation partition its effective
    revenue: OTA fee, management fee and owner net income add up to it.
   */
  lemma LedgerPartitionsRevenue(id: string, c: Case, occupancyTenths: nat, feePercent: nat)
    ensures Total(Compose(Derive(id, c, occupancyTenths, feePercent), feePercent))
            == Derive(id, c, occupancyTenths, feePercent).effectiveRevenue
  {
    var d := Derive(id, c, occupancyTenths, feePercent);
    var items := Compose(d, feePercent);
    if d.otaFee > 0 {
      assert Total(items) == d.otaFee + Total(items[1..]);
      assert Total(items[1..]) == d.managementFee + Total(items[2..]);
      assert Total(items[2..]) == d.ownerNetIncome + Total(items[3..]);
    } else {
      assert Total(items) == d.managementFee + Total(items[1..]);
      assert Total(items[1..]) == d.ownerNetIncome + Total(items[2..]);
    }
  }

  /**
    The OTA row appears only for the short-term scenario, and there exactly
    when the effective revenue is at least 4 (below that, 15.5% of it rounds
    to 0).
   */
  lemma OtaRowPresence(id: string, c: Case, occupancyTenths: nat, feePercent: nat)
    ensures var d := Derive(id, c, occupancyTenths, feePercent);
            (exists i :: 0 <= i < |Compose(d, feePercent)| && Compose(d, feePercent)[i].category == OtaFee)
            <==> id == ShortTermId && d.effectiveRevenue >= 4
  {
    var d := Derive(id, c, occupancyTenths, feePercent);
    if id == ShortTermId {
      if d.otaFee > 0 {
        assert 1000 <= 2 * (d.effectiveRevenue * OtaPerMille);
        assert d.effectiveRevenue >= 4;
        assert Compose(d, feePercent)[0].category == OtaFee;
      } else if d.effectiveRevenue >= 4 {
        assert false;
      }
    }
  }

  /**
    With a management fee of at most 100%, every row of the ledger is an
    amount between 0 and the effective revenue, so every bar is 0..100%.
   */
  lemma LedgerAmountsWithinRevenue(id: string, c: Case, occupancyTenths: nat, feePercent: nat)
    requires feePercent <= 100
    ensures var d := Derive(id, c, occupancyTenths, feePercent);
            forall i :: 0 <= i < |Compose(d, feePercent)| ==>
              0 <= Compose(d, feePercent)[i].amount <= d.effectiveRevenue
              && 0 <= Percent(Compose(d, feePercent)[i].amount, d.effectiveRevenue) <= 100
  {
  }
}

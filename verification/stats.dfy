/** Today's and monthly figures computed from a day's orders, under the two
    policies the server uses: canned monthly values for the demo data and a
    fifteen-fold extrapolation for live data. */
module Stats {
  import opened Money
  import opened Orders

  datatype Stats = Stats(
    todayRevenue: Cents,
    todaySalesCount: nat,
    monthlyRevenue: Cents,
    monthlySalesCount: nat)

  /** The demo's canned monthly figures: 2890.45 and 67 sales. */
  const MockMonthlyRevenue: Cents := 289045
  const MockMonthlySalesCount: nat := 67

  /** Live monthly figures are today's multiplied by this factor. */
  const MonthlyFactor: nat := 15

  function FixtureAmounts(f: seq<FixtureReceipt>): (xs: seq<Cents>)
    ensures |xs| == |f|
    ensures forall i :: 0 <= i < |f| ==> xs[i] == f[i].grandtotal
  {
    seq(|f|, i requires 0 <= i < |f| => f[i].grandtotal)
  }

  function LiveAmounts(rs: seq<RawReceipt>): (xs: seq<Cents>)
    ensures |xs| == |rs|
    ensures forall i :: 0 <= i < |rs| ==> xs[i] == LiveAmount(rs[i])
  {
    seq(|rs|, i requires 0 <= i < |rs| => LiveAmount(rs[i]))
  }

  function OrderAmounts(os: seq<Order>): (xs: seq<Cents>)
    ensures |xs| == |os|
    ensures forall i :: 0 <= i < |os| ==> xs[i] == os[i].amount
  {
    seq(|os|, i requires 0 <= i < |os| => os[i].amount)
  }

  /** Demo figures: today's revenue totals the fixture, the count is the
      fixture's length, and the monthly figures are the canned constants
      whatever today's figures are. */
  function MockStats(f: seq<FixtureReceipt>): (s: Stats)
    ensures s.todayRevenue == Sum(FixtureAmounts(f))
    ensures s.todaySalesCount == |f|
    ensures s.monthlyRevenue == MockMonthlyRevenue
    ensures s.monthlySalesCount == MockMonthlySalesCount
  {
    var revenue := Reduce(0, FixtureAmounts(f));
    ReduceIsSum(0, FixtureAmounts(f));
    Stats(revenue, |f|, MockMonthlyRevenue, MockMonthlySalesCount)
  }

  /** Live figures: today's revenue totals the receipts (an absent total
      counting 0), the count is the number of receipts, and both monthly
      figures are fifteen times today's. */
  function LiveStats(rs: seq<RawReceipt>): (s: Stats)
    ensures s.todayRevenue == Sum(LiveAmounts(rs))
    ensures s.todaySalesCount == |rs|
    ensures s.monthlyRevenue == MonthlyFactor * s.todayRevenue
    ensures s.monthlySalesCount == MonthlyFactor * s.todaySalesCount
  {
    var revenue := Reduce(0, LiveAmounts(rs));
    ReduceIsSum(0, LiveAmounts(rs));
    Stats(revenue, |rs|, revenue * MonthlyFactor, |rs| * MonthlyFactor)
  }

  /** The live revenue, computed from the raw receipts, equals the total of
      the normalised orders' amounts. */
  lemma LiveRevenueMatchesOrders(rs: seq<RawReceipt>)
    ensures LiveStats(rs).todayRevenue == Sum(OrderAmounts(NormalizeLiveAll(rs)))
    ensures LiveStats(rs).todaySalesCount == |NormalizeLiveAll(rs)|
  {
    assert OrderAmounts(NormalizeLiveAll(rs)) == LiveAmounts(rs);
  }

  /** The demo revenue equals the total of the normalised demo orders. */
  lemma MockRevenueMatchesOrders(f: seq<FixtureReceipt>)
    ensures MockStats(f).todayRevenue == Sum(OrderAmounts(NormalizeFixtureAll(f)))
    ensures MockStats(f).todaySalesCount == |NormalizeFixtureAll(f)|
  {
    assert OrderAmounts(NormalizeFixtureAll(f)) == FixtureAmounts(f);
  }

  /** On the built-in demo data: three sales totalling 147.49. */
  lemma MockFixtureTotals(startedAt: int)
    ensures MockStats(Fixture(startedAt)).todaySalesCount == 3
    ensures MockStats(Fixture(startedAt)).todayRevenue == 14749
  {
    var xs := FixtureAmounts(Fixture(startedAt));
    assert xs == [4599, 2350, 7800];
    assert Sum(xs) == 4599 + Sum([2350, 7800]);
    assert Sum([2350, 7800]) == 2350 + Sum([7800]);
    assert Sum([7800]) == 7800 + Sum([]);
  }
}

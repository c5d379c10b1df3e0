/** The flat view served to the e-ink display client at `/trmnl`. */
module Trmnl {
  import opened Wrappers
  import opened Text
  import opened Money
  import opened RelativeTime
  import opened Orders
  import opened Stats
  import opened EtsyData

  const Title := "\U{1F6CD}\U{FE0F} ETSY DASHBOARD"
  const AlertPrefix := "\U{1F514} "
  const PluralTail := " NEW SALES TODAY!"
  const SingularTail := " NEW SALE TODAY!"
  const GreatSales := "\U{1F389} Great sales today!"
  const KeepPushing := "\U{1F4AA} Keep pushing!"

  /** At most this many recent sales are shown, and at most this many item
      titles per sale. */
  const MaxRecentSales: nat := 5
  const MaxItemTitles: nat := 2
  const ItemSeparator := ", "

  /** Reads the sale count back out of an alert line. */
  function AlertCount(s: string): Option<nat> {
    if StartsWith(s, AlertPrefix) then ParseNat(LeadingDigits(s[|AlertPrefix|..])) else None
  }

  /** The alert banner: none on a day without sales; otherwise a line that
      carries the count and says SALES for more than one sale, SALE for one. */
  function Alert(count: nat): (a: Option<string>)
    ensures a.None? <==> count == 0
    ensures a.Some? ==> AlertCount(a.value) == Some(count)
    ensures a.Some? ==> (EndsWith(a.value, PluralTail) <==> count > 1)
    ensures a.Some? ==> (EndsWith(a.value, SingularTail) <==> count == 1)
    ensures a.Some? ==> (
      var tail := if count > 1 then PluralTail else SingularTail;
      a.value == AlertPrefix + LeadingDigits(a.value[|AlertPrefix|..]) + tail)
  {
    if count > 0 then
      var digits := NatToString(count);
      var tail := if count > 1 then PluralTail else SingularTail;
      var s := AlertPrefix + digits + tail;
      AlertReadsBack(digits, tail);
      NatRoundTrip(count);
      TailsDiffer(AlertPrefix + digits);
      Some(s)
    else None
  }

  lemma AlertReadsBack(digits: string, tail: string)
    requires AllDigits(digits)
    requires |tail| > 0 && tail[0] == ' '
    ensures LeadingDigits((AlertPrefix + digits + tail)[|AlertPrefix|..]) == digits
  {
    var s := AlertPrefix + digits + tail;
    assert s[..|AlertPrefix|] == AlertPrefix;
    assert s[|AlertPrefix|..] == digits + tail;
    LeadingDigitsOfConcat(digits, tail);
  }

  /** Which tail an alert ends with is decided by the count alone: the
      character before the singular tail is a digit, never the 'S' of the
      plural one, and the singular tail's own 'E' is not the plural 'S'. */
  lemma TailsDiffer(head: string)
    requires |head| > 0 && IsDigit(head[|head| - 1])
    ensures EndsWith(head + PluralTail, PluralTail)
    ensures !EndsWith(head + PluralTail, SingularTail)
    ensures EndsWith(head + SingularTail, SingularTail)
    ensures !EndsWith(head + SingularTail, PluralTail)
  {
    var p := head + PluralTail;
    var q := head + SingularTail;
    assert p[|p| - |PluralTail|..] == PluralTail;
    assert q[|q| - |SingularTail|..] == SingularTail;
    assert p[|p| - 8] == 'S' && SingularTail[|SingularTail| - 8] == 'E';
    assert q[|q| - |PluralTail|] == head[|head| - 1];
  }

  /** `items.slice(0, 2).join(', ')`. */
  function ItemsLine(items: seq<string>): (r: string)
    ensures |items| == 0 ==> r == ""
    ensures |items| == 1 ==> r == items[0]
    ensures |items| >= 2 ==> r == items[0] + ItemSeparator + items[1]
  {
    var shown := Prefix(items, MaxItemTitles);
    if |items| >= 2 then
      assert shown == [items[0], items[1]];
      assert shown[1..] == [items[1]];
      assert Join(shown, ItemSeparator) == shown[0] + ItemSeparator + Join(shown[1..], ItemSeparator);
      Join(shown, ItemSeparator)
    else
      Join(shown, ItemSeparator)
  }

  datatype RecentSale = RecentSale(amount: string, items: string, time: string)

  /** One sale as the display shows it. */
  function SaleLine(o: Order, now: int, hourMinute: int -> string): (r: RecentSale)
    ensures ParseCents(r.amount) == Some(o.amount)
    ensures r.items == ItemsLine(o.items)
    ensures r.time == FormatTimeForTrmnl(now, o.time, hourMinute)
  {
    ToFixed2RoundTrip(o.amount);
    RecentSale(ToFixed2(o.amount), ItemsLine(o.items), FormatTimeForTrmnl(now, o.time, hourMinute))
  }

  datatype TrmnlView = TrmnlView(
    title: string,
    shopName: string,
    alert: Option<string>,
    todayRevenue: string,
    todaySales: nat,
    monthlyRevenue: string,
    totalSales: int,
    recentSales: seq<RecentSale>,
    lastUpdated: string,
    statusMessage: string)

  /** The display view of a dashboard at instant `now`: the alert and the
      encouragement follow today's count, the money fields read back as
      the stats' amounts, and the first five sales appear in their original
      order. */
  function Project(d: Dashboard, now: int, locale: TimeLocale): (v: TrmnlView)
    ensures v.title == Title
    ensures v.shopName == d.shop.shopName && v.totalSales == d.shop.totalSales
    ensures v.todaySales == d.stats.todaySalesCount
    ensures v.alert == Alert(d.stats.todaySalesCount)
    ensures v.alert.None? <==> d.stats.todaySalesCount == 0
    ensures v.statusMessage == GreatSales <==> d.stats.todaySalesCount > 0
    ensures v.statusMessage == KeepPushing <==> d.stats.todaySalesCount == 0
    ensures v.todayRevenue == ToFixed2(d.stats.todayRevenue)
    ensures v.monthlyRevenue == ToFixed2(d.stats.monthlyRevenue)
    ensures ParseCents(v.todayRevenue) == Some(d.stats.todayRevenue)
    ensures ParseCents(v.monthlyRevenue) == Some(d.stats.monthlyRevenue)
    ensures |v.recentSales| == Min(MaxRecentSales, |d.todaysSales|)
    ensures forall i :: 0 <= i < |v.recentSales| ==>
      v.recentSales[i] == SaleLine(d.todaysSales[i], now, locale.hourMinute)
    ensures v.lastUpdated == locale.timeOfDay(now)
  {
    var count := d.stats.todaySalesCount;
    var shown := Prefix(d.todaysSales, MaxRecentSales);
    ToFixed2RoundTrip(d.stats.todayRevenue);
    ToFixed2RoundTrip(d.stats.monthlyRevenue);
    assert GreatSales[0] != KeepPushing[0];
    TrmnlView(
      Title,
      d.shop.shopName,
      Alert(count),
      ToFixed2(d.stats.todayRevenue),
      count,
      ToFixed2(d.stats.monthlyRevenue),
      d.shop.totalSales,
      seq(|shown|, i requires 0 <= i < |shown| => SaleLine(shown[i], now, locale.hourMinute)),
      locale.timeOfDay(now),
      if count > 0 then GreatSales else KeepPushing)
  }

  /** `GET /trmnl` at instant `now`, served from the demo data built when
      the process started at `startedAt`. */
  function TrmnlEndpoint(startedAt: int, now: int, locale: TimeLocale): (v: TrmnlView)
    ensures v.alert == Some(AlertPrefix + "3" + PluralTail)
    ensures v.statusMessage == GreatSales
    ensures |v.recentSales| == 3
  {
    var d := MockDashboard(startedAt);
    assert NatToString(3) == "3";
    Project(d, now, locale)
  }

  /** Shortly after the process starts (within the first 3599 seconds) the
      demo view lists the three demo sales in fixture order with their
      amounts, first two item titles and ages of 2, 4 and 6 hours. Later
      requests see the same fixture age, since it is built only once. */
  lemma DemoViewAfterStart(startedAt: int, now: int, locale: TimeLocale)
    requires 0 <= startedAt <= MaxTimeValue
    requires startedAt <= now <= startedAt + 3599000
    ensures var v := TrmnlEndpoint(startedAt, now, locale);
      && v.todayRevenue == "147.49"
      && |v.recentSales| == 3
      && v.recentSales[0] == RecentSale("45.99", "Custom Coffee Mug, Sticker Pack", IntToString(2) + HoursSuffix)
      && v.recentSales[1] == RecentSale("23.50", "Vintage T-Shirt", IntToString(4) + HoursSuffix)
      && v.recentSales[2] == RecentSale("78.00", "Custom Art Print, Wooden Frame", IntToString(6) + HoursSuffix)
  {
    var hm := locale.hourMinute;
    DemoOrders(startedAt);
    DemoRevenue(startedAt);
    DemoAmounts();
    DemoItems();
    DemoSaleAge(startedAt, now, 2, hm);
    DemoSaleAge(startedAt, now, 4, hm);
    DemoSaleAge(startedAt, now, 6, hm);
  }

  /** The demo view's revenue field. */
  lemma DemoRevenue(startedAt: int)
    ensures MockDashboard(startedAt).stats.todayRevenue == 14749
  {
    MockFixtureTotals(startedAt);
  }

  /** The normalised demo orders, spelled out. */
  lemma DemoOrders(startedAt: int)
    ensures MockDashboard(startedAt).todaysSales == [
      Order(1, 4599, "Customer #1234", TimeFromSeconds(FixtureSeconds(startedAt, 2)),
            ["Custom Coffee Mug", "Sticker Pack"]),
      Order(2, 2350, "Customer #5678", TimeFromSeconds(FixtureSeconds(startedAt, 4)),
            ["Vintage T-Shirt"]),
      Order(3, 7800, "Customer #9101", TimeFromSeconds(FixtureSeconds(startedAt, 6)),
            ["Custom Art Print", "Wooden Frame"])]
  {
    var f := Fixture(startedAt);
    var sales := MockDashboard(startedAt).todaysSales;
    assert sales == NormalizeFixtureAll(f);
    assert Titles(f[0].transactions) == ["Custom Coffee Mug", "Sticker Pack"];
    assert Titles(f[1].transactions) == ["Vintage T-Shirt"];
    assert Titles(f[2].transactions) == ["Custom Art Print", "Wooden Frame"];
    assert sales[0] == NormalizeFixture(f[0]);
    assert sales[1] == NormalizeFixture(f[1]);
    assert sales[2] == NormalizeFixture(f[2]);
    assert CustomerPrefix + "1234" == "Customer #1234";
    assert CustomerPrefix + "5678" == "Customer #5678";
    assert CustomerPrefix + "9101" == "Customer #9101";
  }

  /** The remaining fields of the demo view: the demo shop's name and
      lifetime sales, three sales today and the canned monthly revenue. */
  lemma DemoViewHeader(startedAt: int, now: int, locale: TimeLocale)
    ensures var v := TrmnlEndpoint(startedAt, now, locale);
      && v.shopName == "Your Amazing Etsy Shop"
      && v.todaySales == 3
      && v.totalSales == 1247
      && v.monthlyRevenue == "2890.45"
  {
    var d := MockDashboard(startedAt);
    assert TrmnlEndpoint(startedAt, now, locale) == Project(d, now, locale);
    MonthlyPrints();
  }

  /** The canned monthly revenue prints as 2890.45. */
  lemma MonthlyPrints()
    ensures ToFixed2(MockMonthlyRevenue) == "2890.45"
  {
    assert NatToString(2890) == "2890";
  }

  /** The demo item lists print as their first two titles. */
  lemma DemoItems()
    ensures ItemsLine(["Custom Coffee Mug", "Sticker Pack"]) == "Custom Coffee Mug, Sticker Pack"
    ensures ItemsLine(["Vintage T-Shirt"]) == "Vintage T-Shirt"
    ensures ItemsLine(["Custom Art Print", "Wooden Frame"]) == "Custom Art Print, Wooden Frame"
  {
    var first := ["Custom Coffee Mug", "Sticker Pack"];
    assert ItemsLine(first) == first[0] + ItemSeparator + first[1];
    assert first[0] + ItemSeparator + first[1] == "Custom Coffee Mug, Sticker Pack";
    var third := ["Custom Art Print", "Wooden Frame"];
    assert ItemsLine(third) == third[0] + ItemSeparator + third[1];
    assert third[0] + ItemSeparator + third[1] == "Custom Art Print, Wooden Frame";
  }

  /** The demo amounts print with two decimals as the fixture spells them. */
  lemma DemoAmounts()
    ensures ToFixed2(14749) == "147.49"
    ensures ToFixed2(4599) == "45.99"
    ensures ToFixed2(2350) == "23.50"
    ensures ToFixed2(7800) == "78.00"
  {
    NatToStringExamples();
    DemoRevenuePrints();
    DemoSalePrints();
  }

  lemma DemoRevenuePrints()
    ensures ToFixed2(14749) == NatToString(147) + ".49"
  {
  }

  lemma DemoSalePrints()
    ensures ToFixed2(4599) == NatToString(45) + ".99"
    ensures ToFixed2(2350) == NatToString(23) + ".50"
    ensures ToFixed2(7800) == NatToString(78) + ".00"
  {
  }

  lemma NatToStringExamples()
    ensures NatToString(147) == "147"
    ensures NatToString(45) == "45"
    ensures NatToString(23) == "23"
    ensures NatToString(78) == "78"
  {
  }

  /** The demo sale placed `hours` before start reads "<hours>h ago" during
      the first 3599 seconds after start. */
  lemma DemoSaleAge(startedAt: int, now: int, hours: int, hourMinute: int -> string)
    requires 0 <= startedAt <= MaxTimeValue
    requires startedAt <= now <= startedAt + 3599000
    requires hours in {2, 4, 6}
    ensures FormatTimeForTrmnl(now, TimeFromSeconds(FixtureSeconds(startedAt, hours)), hourMinute)
      == IntToString(hours) + HoursSuffix
  {
  }
}

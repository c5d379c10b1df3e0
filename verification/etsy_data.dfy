/** The data source behind both endpoints: the demo data when no
    credentials are configured, otherwise two marketplace calls (shop, then
    today's receipts) whose replies are inputs here. */
module EtsyData {
  import opened Wrappers
  import opened Text
  import opened Money
  import opened Orders
  import opened Stats

  /** What `/api/etsy-data` returns on success and `getEtsyData` resolves to. */
  datatype Dashboard = Dashboard(shop: ShopInfo, todaysSales: seq<Order>, stats: Stats)

  /** The outcome of one upstream call: an HTTP status with its decoded
      body, or a transport failure with its message. */
  datatype Reply<T> = Reply(status: int, body: T) | TransportFailure(reason: string)

  /** `response.ok`: a status in the 2xx range. */
  predicate IsOk<T>(r: Reply<T>) {
    r.Reply? && 200 <= r.status <= 299
  }

  /** The receipts page; `results` may be missing. */
  datatype ReceiptsPage = ReceiptsPage(results: Option<seq<RawReceipt>>)

  /** The replies the marketplace gives to the shop call and to the
      receipts call. */
  datatype Upstream = Upstream(shop: Reply<ShopInfo>, receipts: Reply<ReceiptsPage>)

  /** Where data comes from: the demo fixture built when the process
      started, or the marketplace. */
  datatype Source = MockSource(startedAt: int) | LiveSource(upstream: Upstream)

  const ShopErrorPrefix := "Shop API error: "
  const OrdersErrorPrefix := "Orders API error: "

  /** The demo dashboard: the demo shop, one order per fixture receipt in
      fixture order, and the demo stats. */
  function MockDashboard(startedAt: int): (d: Dashboard)
    ensures d.shop == MockShop
    ensures d.todaysSales == NormalizeFixtureAll(Fixture(startedAt))
    ensures d.stats.todaySalesCount == |d.todaysSales| == 3
    ensures d.stats.todayRevenue == Sum(OrderAmounts(d.todaysSales))
    ensures d.stats.monthlyRevenue == MockMonthlyRevenue
    ensures d.stats.monthlySalesCount == MockMonthlySalesCount
  {
    var f := Fixture(startedAt);
    MockRevenueMatchesOrders(f);
    Dashboard(MockShop, NormalizeFixtureAll(f), MockStats(f))
  }

  /** True when `message` is `prefix` followed by the decimal `status`. */
  predicate CarriesStatus(message: string, prefix: string, status: int) {
    StartsWith(message, prefix) && ParseInt(message[|prefix|..]) == Some(status)
  }

  function StatusError(prefix: string, status: int): (message: string)
    ensures CarriesStatus(message, prefix, status)
  {
    var message := prefix + IntToString(status);
    assert message[..|prefix|] == prefix && message[|prefix|..] == IntToString(status);
    IntRoundTrip(status);
    message
  }

  /** The live path: a failed or non-2xx shop reply ends the request with
      that failure whatever the receipts reply would have been; then the same
      for the receipts reply; otherwise one order per receipt (an absent
      list counting as empty) with the live stats. */
  function FetchLive(up: Upstream): (r: Result<Dashboard, string>)
    ensures r.Success? <==> IsOk(up.shop) && IsOk(up.receipts)
    ensures up.shop.TransportFailure? ==> r == Failure(up.shop.reason)
    ensures up.shop.Reply? && !IsOk(up.shop) ==>
      r.Failure? && CarriesStatus(r.error, ShopErrorPrefix, up.shop.status)
    ensures IsOk(up.shop) && up.receipts.TransportFailure? ==> r == Failure(up.receipts.reason)
    ensures IsOk(up.shop) && up.receipts.Reply? && !IsOk(up.receipts) ==>
      r.Failure? && CarriesStatus(r.error, OrdersErrorPrefix, up.receipts.status)
    ensures r.Success? ==>
      var receipts := up.receipts.body.results.GetOr([]);
      && r.value.shop == up.shop.body
      && r.value.todaysSales == NormalizeLiveAll(receipts)
      && r.value.stats == LiveStats(receipts)
  {
    match up.shop
    case TransportFailure(reason) => Failure(reason)
    case Reply(status, shop) =>
      if !IsOk(up.shop) then Failure(StatusError(ShopErrorPrefix, status))
      else
        match up.receipts
        case TransportFailure(reason) => Failure(reason)
        case Reply(status', page) =>
          if !IsOk(up.receipts) then Failure(StatusError(OrdersErrorPrefix, status'))
          else
            var receipts := page.results.GetOr([]);
            Success(Dashboard(shop, NormalizeLiveAll(receipts), LiveStats(receipts)))
  }

  /** A failing shop call decides the outcome on its own: the receipts
      reply is never consulted. */
  lemma ShopFailureSkipsReceipts(shop: Reply<ShopInfo>, a: Reply<ReceiptsPage>, b: Reply<ReceiptsPage>)
    requires !IsOk(shop)
    ensures FetchLive(Upstream(shop, a)) == FetchLive(Upstream(shop, b))
    ensures FetchLive(Upstream(shop, a)).Failure?
  {
  }

  /** The body of a `/api/etsy-data` response: the dashboard, or the error
      object with its message and the instant (ms) of the failure. */
  datatype ApiResponse =
    | ApiOk(data: Dashboard)
    | ApiError(error: string, message: string, timestamp: int)

  const ApiErrorText := "Failed to fetch Etsy data"

  /** `GET /api/etsy-data` at instant `now`. */
  function EtsyDataEndpoint(source: Source, now: int): (r: ApiResponse)
    ensures source.MockSource? ==> r == ApiOk(MockDashboard(source.startedAt))
    ensures source.LiveSource? ==>
      (r.ApiOk? <==> FetchLive(source.upstream).Success?)
    ensures source.LiveSource? && r.ApiOk? ==> r.data == FetchLive(source.upstream).value
    ensures r.ApiError? ==>
      && r.error == ApiErrorText && r.timestamp == now
      && source.LiveSource? && r.message == FetchLive(source.upstream).error
  {
    match source
    case MockSource(startedAt) => ApiOk(MockDashboard(startedAt))
    case LiveSource(up) =>
      match FetchLive(up)
      case Success(d) => ApiOk(d)
      case Failure(message) => ApiError(ApiErrorText, message, now)
  }
}

/** Shop and order records: the upstream receipt shape, the demo fixture,
    and the normalisation both paths apply to turn receipts into orders. */
module Orders {
  import opened Wrappers
  import opened Text
  import opened Money
  import opened RelativeTime

  datatype ShopInfo = ShopInfo(shopName: string, totalSales: int, totalFavorites: int)

  datatype Transaction = Transaction(title: string)

  /** A receipt as the marketplace returns it; every field but the id may be
      missing. `grandtotal` is already in cents; None also covers the falsy
      values `grandtotal || 0` replaces. `buyerUserId` None is an absent id. */
  datatype RawReceipt = RawReceipt(
    receiptId: int,
    grandtotal: Option<Cents>,
    creationTimestamp: Option<int>,
    buyerUserId: Option<int>,
    transactions: Option<seq<Transaction>>)

  /** A receipt of the built-in demo data; all of its fields are present. */
  datatype FixtureReceipt = FixtureReceipt(
    receiptId: int,
    grandtotal: Cents,
    creationTimestamp: int,
    buyerUserId: string,
    transactions: seq<Transaction>)

  /** A normalised order. `time` is the instant in ms, or None for an Invalid
      Date. */
  datatype Order = Order(id: int, amount: Cents, buyer: string, time: Option<int>, items: seq<string>)

  const GuestBuyer := "Guest"
  const CustomerPrefix := "Customer #"
  const PlaceholderItem := "Order items"

  function Titles(ts: seq<Transaction>): (r: seq<string>)
    ensures |r| == |ts|
    ensures forall i :: 0 <= i < |ts| ==> r[i] == ts[i].title
  {
    seq(|ts|, i requires 0 <= i < |ts| => ts[i].title)
  }

  /** A Date can hold at most this many whole seconds either side of the
      epoch (the TimeClip bound divided by 1000). */
  const MaxTimeSeconds: int := 8_640_000_000_000

  /** `new Date(seconds * 1000)`: valid exactly for timestamps within the
      Date range, and then the same instant in milliseconds. */
  function TimeFromSeconds(seconds: int): (r: Option<int>)
    ensures r.Some? <==> -MaxTimeSeconds <= seconds <= MaxTimeSeconds
    ensures r.Some? ==> r.value == 1000 * seconds
  {
    DateFromMs(seconds * 1000)
  }

  /** `parseFloat(sale.grandtotal || 0)`: the receipt's total, 0 when absent. */
  function LiveAmount(r: RawReceipt): Cents {
    r.grandtotal.GetOr(0)
  }

  /** The buyer label of a live receipt: "Guest" for an absent or zero id,
      otherwise "Customer #" followed by the id, which can be read back. */
  function LiveBuyer(id: Option<int>): (b: string)
    ensures b == GuestBuyer <==> id.None? || id.value == 0
    ensures id.Some? && id.value != 0 ==>
      StartsWith(b, CustomerPrefix) && ParseInt(b[|CustomerPrefix|..]) == Some(id.value)
  {
    match id
    case Some(n) =>
      if n != 0 then
        var b := CustomerPrefix + IntToString(n);
        assert b[..|CustomerPrefix|] == CustomerPrefix && b[|CustomerPrefix|..] == IntToString(n);
        assert b[0] != GuestBuyer[0];
        IntRoundTrip(n);
        b
      else GuestBuyer
    case None => GuestBuyer
  }

  /** The live mapping of one receipt to an order, with its defaults: amount
      0, buyer "Guest", items ["Order items"], and an Invalid Date when the
      creation time is absent. */
  function NormalizeLive(r: RawReceipt): (o: Order)
    ensures o.id == r.receiptId
    ensures r.grandtotal.None? ==> o.amount == 0
    ensures r.grandtotal.Some? ==> o.amount == r.grandtotal.value
    ensures o.buyer == GuestBuyer <==> r.buyerUserId.None? || r.buyerUserId.value == 0
    ensures r.buyerUserId.Some? && r.buyerUserId.value != 0 ==>
      StartsWith(o.buyer, CustomerPrefix) && ParseInt(o.buyer[|CustomerPrefix|..]) == Some(r.buyerUserId.value)
    ensures r.transactions.None? ==> o.items == [PlaceholderItem]
    ensures r.transactions.Some? ==> o.items == Titles(r.transactions.value)
    ensures r.creationTimestamp.None? ==> o.time.None?
    ensures r.creationTimestamp.Some? && -MaxTimeSeconds <= r.creationTimestamp.value <= MaxTimeSeconds ==>
      o.time == Some(1000 * r.creationTimestamp.value)
    ensures r.creationTimestamp.Some? && !(-MaxTimeSeconds <= r.creationTimestamp.value <= MaxTimeSeconds) ==>
      o.time.None?
  {
    Order(
      r.receiptId,
      LiveAmount(r),
      LiveBuyer(r.buyerUserId),
      match r.creationTimestamp
      case Some(s) => TimeFromSeconds(s)
      case None => None,
      match r.transactions
      case Some(ts) => Titles(ts)
      case None => [PlaceholderItem])
  }

  /** `orders.map(...)`: one order per receipt, in the same order. */
  function NormalizeLiveAll(rs: seq<RawReceipt>): (os: seq<Order>)
    ensures |os| == |rs|
    ensures forall i :: 0 <= i < |rs| ==> os[i] == NormalizeLive(rs[i])
  {
    seq(|rs|, i requires 0 <= i < |rs| => NormalizeLive(rs[i]))
  }

  /** The mock mapping of one fixture receipt: the same fields, with no
      defaults since the fixture has every field. */
  function NormalizeFixture(r: FixtureReceipt): Order {
    Order(r.receiptId, r.grandtotal, CustomerPrefix + r.buyerUserId,
          TimeFromSeconds(r.creationTimestamp), Titles(r.transactions))
  }

  function NormalizeFixtureAll(rs: seq<FixtureReceipt>): (os: seq<Order>)
    ensures |os| == |rs|
    ensures forall i :: 0 <= i < |rs| ==> os[i] == NormalizeFixture(rs[i])
  {
    seq(|rs|, i requires 0 <= i < |rs| => NormalizeFixture(rs[i]))
  }

  const MockShop := ShopInfo("Your Amazing Etsy Shop", 1247, 892)

  /** Creation time, in whole seconds, of a demo sale placed `hours` before
      the process started at `startedAt` ms. */
  function FixtureSeconds(startedAt: int, hours: int): int {
    FloorDiv(startedAt - hours * MsPerHour, 1000)
  }

  /** The demo receipts, built once when the process starts: three sales
      placed 2, 4 and 6 hours before `startedAt`. */
  function Fixture(startedAt: int): (f: seq<FixtureReceipt>)
    ensures |f| == 3
  {
    [ FixtureReceipt(1, 4599, FixtureSeconds(startedAt, 2), "1234",
                     [Transaction("Custom Coffee Mug"), Transaction("Sticker Pack")]),
      FixtureReceipt(2, 2350, FixtureSeconds(startedAt, 4), "5678",
                     [Transaction("Vintage T-Shirt")]),
      FixtureReceipt(3, 7800, FixtureSeconds(startedAt, 6), "9101",
                     [Transaction("Custom Art Print"), Transaction("Wooden Frame")]) ]
  }

  /** The demo mapping is the live mapping applied to a receipt that has
      every field: with a positive id spelled in canonical decimal, no live
      default ever fires and both give the same order. */
  lemma FixtureMatchesLive(r: FixtureReceipt, n: nat)
    requires n > 0 && r.buyerUserId == NatToString(n)
    ensures NormalizeFixture(r) == NormalizeLive(RawReceipt(
      r.receiptId, Some(r.grandtotal), Some(r.creationTimestamp), Some(n), Some(r.transactions)))
  {
  }
}

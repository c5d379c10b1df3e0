# Etsy trmnl dashboard — a Dafny model of the data pipeline

The server in `server.js` proxies an Etsy shop's data to two consumers. A
browser dashboard reads `GET /api/etsy-data`. An e-ink display ("trmnl")
reads `GET /trmnl`. Between the HTTP handlers sits a small, deterministic
pipeline. This project models that pipeline and proves what it promises:

- **Order normalisation.** Receipts become `{id, amount, buyer, time, items}`.
  The live path fills in defaults for missing fields. The demo path maps the
  built-in fixture, which has every field (`orders.dfy`).
- **Stats.** Today's revenue is the sum of the amounts and today's count is
  the number of receipts. The monthly figures are canned constants for the
  demo data (2890.45, 67) and fifteen times today's figures for live data
  (`stats.dfy`).
- **The data source.** With no credentials the server serves the demo
  fixture. Otherwise it makes two upstream calls, shop first and then
  today's receipts. A non-2xx reply aborts the request with an error that
  carries the status. A transport failure aborts it with the failure's own
  reason (`etsy_data.dfy`).
- **The trmnl projection.** This covers the alert line and its
  pluralisation, the status message, the money fields printed with two
  decimals, and at most five recent sales with their first two item titles
  (`trmnl.dfy`).
- **`formatTimeForTrmnl`.** It picks one of three labels: minutes, hours or
  a clock time (`relative_time.dfy`).

Modelling choices:

- Money is integer cents (`Money.Cents`), so 45.99 is 4599.
- `toFixed(2)` is modelled exactly on cents (`Money.ToFixed2`). It has an
  inverse, `Money.ParseCents`, and a round-trip lemma.
- Printed numbers are specified by reading them back. The parsers
  (`Text.ParseNat`, `Text.ParseInt`, `Money.ParseCents`) accept only the
  canonical spelling: no leading zero and no negative zero. `Text.NatCanonical`,
  `Text.IntCanonical` and `Money.CentsCanonical` prove that whatever they
  read as a value is exactly how that value prints. So a contract saying
  "reads back as n" fixes the text itself, not just the number.
- Time is integer milliseconds. "Now" is a parameter, and so is the instant
  the process started, because the demo fixture is built once at start-up.
- A JavaScript Date can be invalid. `RelativeTime.DateFromMs` applies the
  ±8.64e15 ms bound of TimeClip from the ECMAScript standard, and `None`
  stands for an Invalid Date. `Orders.TimeFromSeconds` is the live
  `new Date(seconds * 1000)` built on it.
- The two locale-dependent clock renderings (`toLocaleTimeString` with and
  without options) are function parameters (`RelativeTime.TimeLocale`).
- `getEtsyData` has a demo branch (lines 108-130) and a live branch
  (lines 132-134). The live branch only calls `getEtsyData` again, so it
  never produces data (see "Left out"). `Trmnl.TrmnlEndpoint` therefore
  serves the demo data.
- The upstream replies are inputs: `EtsyData.Upstream` holds one reply per
  call.

Points where the code behaves differently from what a reader might expect of a display feed, modelled as the code has them:

- The trmnl money fields have no currency symbol ("45.99", not "$45.99").
- The view has a `recent_sales` array of at most five entries. It has no
  fixed `sale1`..`sale5` slots and no `has_sales` flag.
- An invalid time renders as "Invalid Date", which is what
  `toLocaleTimeString` returns. The code never produces "Unknown".

The demo normalisation appears twice in the source (lines 116-122 and
166-172). The model defines it once.

## Model

| member | source | states |
|---|---|---|
| RelativeTime.FloorDiv | server.js:141-142 | `Math.floor(a / d)` is the unique q with q·d ≤ a < q·d + d, also for negative differences |
| RelativeTime.FormatTimeForTrmnl | server.js:137-151 | under an hour (future times included) the label is the floor of the elapsed minutes, in canonical decimal, before "m ago"; from one hour to under a day it is the floor of the elapsed hours before "h ago"; from a day on it is the clock rendering of the sale time; an Invalid Date gives "Invalid Date" |
| RelativeTime.ClassifyByElapsed | server.js:140-150 | exactly one branch fires, chosen by elapsed time alone: n minutes iff elapsed < 1h and in [n min, n+1 min); n hours iff 1h ≤ elapsed < 24h and in [n h, n+1 h); the clock branch iff elapsed ≥ 24h, and it shows the sale's own instant |
| RelativeTime.LabelReadsBack | server.js:145-147 | the number printed in front of "m ago" / "h ago" is read back unchanged |
| RelativeTime.HoursLabel | server.js:146-147 | a sale 1 to 23 whole hours old is labelled "<hours>h ago" |
| RelativeTime.FormatExamples | server.js:141-147 | 5 minutes ago gives "5m ago" and 90 minutes ago gives "1h ago" |
| RelativeTime.FormatEdgeExamples | server.js:141-150 | 30 hours ago gives the clock time, 1 ms in the future gives "-1m ago", an Invalid Date gives "Invalid Date" |
| Text.NatToString | server.js:81 | a count prints as a non-empty run of digits with no leading zero |
| Text.NatRoundTrip | server.js:81 | reading back the printed count gives the count |
| Text.IntToString | server.js:145 | an integer prints with a leading '-' exactly when negative, followed by digits with no leading zero (a lone "0" only for zero) |
| Text.NatCanonical | server.js:81 | any text read back as the count n is exactly the decimal spelling of n, so the parser and the printer are inverse |
| Text.IntCanonical | server.js:232 | any text read back as the integer i is exactly how `${i}` prints i |
| Text.IntRoundTrip | server.js:201 | reading back a printed integer (a status code, a minute count) gives the integer |
| Text.Prefix | server.js:86 | `slice(0, n)` keeps min(n, length) elements, each the same as at that position in the input |
| Text.Join | server.js:88 | `join(sep)` of no parts is empty; otherwise it starts with the first part, ends with the last, and its length is the parts' total plus one separator between neighbours; with two or more parts it starts with the first part followed by the separator |
| Text.JoinEndsWithSeparator | server.js:88 | with two or more parts, a join ends with the separator followed by the last part |
| Money.ToFixed2 | server.js:82-87 | the rendering has a dot followed by exactly two digits and starts with '-' exactly for negative amounts |
| Money.ToFixed2RoundTrip | server.js:87 | the two-decimal rendering of an amount reads back as that amount in cents |
| Money.CentsCanonical | server.js:87 | any text read back as an amount is exactly that amount's two-decimal rendering |
| Money.ReduceIsSum | server.js:223-225 | the left-to-right `reduce` from a start value equals the start value plus the reference total |
| Orders.LiveBuyer | server.js:232 | "Guest" exactly when the buyer id is absent or zero; otherwise "Customer #" followed by exactly the decimal spelling of the id (it reads back through the canonical parser) |
| Orders.TimeFromSeconds | server.js:233 | `new Date(seconds * 1000)` is a valid Date exactly when the seconds lie within ±8.64e12, and it then holds 1000 × the seconds |
| Orders.NormalizeLive | server.js:229-235 | keeps the id; the amount is the grand total, or 0 when it is absent; the buyer is "Guest" exactly when the id is absent or 0, else "Customer #" followed by exactly the decimal spelling of the id; the items are the transaction titles in order, or ["Order items"] when transactions are absent; the time is 1000 × the creation timestamp when that lies in the Date range, and an Invalid Date when it is absent or out of range |
| Orders.NormalizeLiveAll | server.js:229 | one order per receipt, in the same order |
| Orders.FixtureMatchesLive | server.js:116-122 | a demo receipt whose buyer id is a positive number in decimal normalises to the same order as the live mapping gives for the complete receipt with that id |
| Orders.NormalizeFixtureAll | server.js:166-172 | one demo order per fixture receipt, in fixture order |
| Orders.Fixture | server.js:35-65 | the demo data holds exactly three receipts |
| Stats.MockStats | server.js:110-128 | demo revenue is the reference total of the fixture amounts and the count is the fixture's length; the monthly figures are 2890.45 and 67 whatever today's figures are |
| Stats.LiveStats | server.js:223-241 | live revenue is the reference total of the receipts' amounts (absent totals count 0) and the count is the number of receipts; the monthly revenue and count are 15 × today's |
| Stats.LiveRevenueMatchesOrders | server.js:223-235 | the revenue computed from the raw receipts equals the total of the normalised orders' amounts, and the count equals the number of orders |
| Stats.MockRevenueMatchesOrders | server.js:160-179 | the demo revenue equals the total of the normalised demo orders, and the count equals their number |
| Stats.MockFixtureTotals | server.js:36-64 | the demo data yields 3 sales totalling 147.49 |
| EtsyData.MockDashboard | server.js:114-129 | the demo response has the demo shop, the normalised fixture in order, 3 sales, revenue equal to the orders' total, and the canned monthly figures |
| EtsyData.StatusError | server.js:201 | the error message is the prefix followed by exactly the decimal spelling of the HTTP status |
| EtsyData.FetchLive | server.js:194-242 | succeeds iff both replies are 2xx; a transport failure or non-2xx shop reply fails with its reason or status; then the same for the receipts reply; on success it holds the shop body, one order per receipt (an absent list counts as empty) and the live stats |
| EtsyData.ShopFailureSkipsReceipts | server.js:195-202 | when the shop call fails, the outcome does not depend on the receipts reply: the request aborts before that call matters |
| EtsyData.EtsyDataEndpoint | server.js:155-254 | the demo source always yields the demo dashboard; the live source yields the dashboard iff fetching succeeds, otherwise an error body "Failed to fetch Etsy data" with the failure message and the request instant |
| Trmnl.Alert | server.js:81 | no alert iff the count is 0; otherwise the text is the bell prefix, the digit run that reads back as the count (hence exactly its decimal spelling), and the tail; it ends " NEW SALES TODAY!" iff count > 1 and " NEW SALE TODAY!" iff count = 1 |
| Trmnl.AlertReadsBack | server.js:81 | the digits of the count are exactly the digit run after the bell prefix |
| Trmnl.TailsDiffer | server.js:81 | after a digit, the plural and singular tails can each be told apart from the other |
| Trmnl.ItemsLine | server.js:88 | no items give "", one item gives that title, two or more give the first two titles joined by ", " |
| Trmnl.SaleLine | server.js:86-90 | a listed sale's amount reads back as the order's amount, so it is exactly that amount's two-decimal rendering; its items line and age label come from the order's items and time |
| Trmnl.Project | server.js:78-93 | no alert iff today's count is 0; "Great sales today!" iff count > 0 and "Keep pushing!" iff count = 0; money fields are exactly `toFixed(2)` of the stats' amounts and read back as them; recent sales number min(5, orders) and are the first orders in input order; shop name, total sales and count copied |
| Trmnl.TrmnlEndpoint | server.js:72-95 | on the demo data the alert is "3 NEW SALES TODAY!", the message is the encouraging one, and three sales are listed |
| Trmnl.DemoViewAfterStart | server.js:78-93 | within the first 3599 s after start the demo view shows revenue 147.49 and three sales in fixture order: 45.99 "Custom Coffee Mug, Sticker Pack" 2h ago; 23.50 "Vintage T-Shirt" 4h ago; 78.00 "Custom Art Print, Wooden Frame" 6h ago |
| Trmnl.DemoSaleAge | server.js:39 | a demo sale created k ∈ {2, 4, 6} hours before start reads "kh ago" during the first 3599 s |
| Trmnl.DemoOrders | server.js:116-122 | the normalised demo orders are the three fixture sales with buyers "Customer #1234", "#5678", "#9101" and their titles |
| Trmnl.DemoItems | server.js:88 | the demo item lists print as "Custom Coffee Mug, Sticker Pack", "Vintage T-Shirt", "Custom Art Print, Wooden Frame" |
| Trmnl.DemoViewHeader | server.js:80-85 | on the demo data the view shows shop "Your Amazing Etsy Shop", 3 sales today, 1247 total sales and monthly revenue "2890.45" |
| Trmnl.MonthlyPrints | server.js:84 | the canned monthly revenue 2890.45 prints with two decimals as "2890.45" |
| Trmnl.DemoAmounts | server.js:87 | 147.49, 45.99, 23.50 and 78.00 print with two decimals exactly as shown |

## Left out

- Express wiring is not modelled because it is HTTP plumbing: middleware, CORS, static files, logging, `/health`, `/` and the 404 catch-all (lines 9-18, 257-292).
- Request URLs, headers, the `min_created` local-midnight query and `limit=20` are not modelled. They only shape the outbound calls, whose replies are inputs here.
- `response.json()` decoding is not modelled, and neither is a malformed body.
- Choosing the mode from the environment variables (lines 21-22, 108, 157) is not modelled. The source is an explicit input instead (`EtsyData.Source`).
- The live branch of `getEtsyData` (lines 132-134) is not modelled. It calls `getEtsyData` again synchronously, with no await in between, so the call stack overflows. The resulting RangeError rejects the promise, and the catch at lines 97-102 answers 500 with `{error: 'Failed to fetch data', message}`. So `/trmnl` with credentials is not modelled, and neither is that error body: it is `{error, message}`, not a display-shaped payload.
- Live buyer ids are modelled as integers, with 0 treated as missing (JavaScript's falsy 0). A buyer id sent as a string is not modelled; a string such as "0" would be truthy and give "Customer #0".
- Floating point is not modelled: `parseFloat` of strings, binary rounding in sums, ×15 and `toFixed`. Amounts are exact cents, and a receipt's grand total arrives already in cents.
- Money.ToFixed2: exact on cents, so it does not reproduce binary floating-point rounding of sums such as 0.1 + 0.2.
- The clock is read once per request in the model. The source reads it separately: in every `formatTimeForTrmnl` call (line 139), again for `last_updated` (line 91), and once per fixture timestamp at start-up (lines 39, 49, 58). The model evaluates all of these at one `now`, and the fixture at one `startedAt`. The milliseconds between those reads are not modelled; they could move an age label across a minute or hour boundary.
- `toLocaleTimeString` and `toISOString` are locale or format dependent. The clock texts are function parameters, and the error timestamp is kept as milliseconds.
- The string-date branch of `formatTimeForTrmnl` (line 138) is not modelled, because every caller passes a Date.
- A `null` creation timestamp (which JavaScript multiplies to 0) is not modelled. A missing timestamp is modelled as an Invalid Date.
- The live shop body's other fields pass through verbatim and are not modelled; `ShopInfo` keeps only the fields used.
- A transaction with no `title` would put `undefined` into the items list. This is not modelled: every transaction carries a title.

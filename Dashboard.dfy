/**
 * The admin dashboard's figures: per-order revenue, the revenue total and status tally
 * computed by one pass over the orders, the ten most recent orders, the stock buckets
 * of the catalogue, the relative-time labels and the status colours.  The orders and
 * products are the answers of the API; the clock is a parameter.
 */
module Dashboard {
  import opened Wrappers
  import opened Strings
  import Ordering

  /** An order line as the dashboard reads it; `None` or 0 is a missing (falsy) value. */
  datatype DashItem = DashItem(price: Option<real>, productPrice: Option<real>, quantity: Option<int>)

  /**
   * An order as the API returns it.  The six amount fields are searched in this order;
   * the three date fields are the alternative names of the creation time, in milliseconds.
   */
  datatype DashOrder = DashOrder(
    total: Option<real>, totalAmount: Option<real>, subtotal: Option<real>,
    price: Option<real>, amount: Option<real>, finalAmount: Option<real>,
    items: Option<seq<DashItem>>,
    status: string,
    createdAt: Option<int>, created_at: Option<int>, date: Option<int>,
    orderNumber: string, id: int,
    firstName: string, username: string, customerName: string)

  function AmountFields(o: DashOrder): (fields: seq<Option<real>>)
    ensures |fields| == 6
  {
    [o.total, o.totalAmount, o.subtotal, o.price, o.amount, o.finalAmount]
  }

  predicate IsPositive(v: Option<real>) {
    v.Some? && v.value > 0.0
  }

  /** Position `k` holds a positive amount and none before it does. */
  ghost predicate FirstPositiveAt(fields: seq<Option<real>>, k: int) {
    0 <= k < |fields| && IsPositive(fields[k]) && forall m :: 0 <= m < k ==> !IsPositive(fields[m])
  }

  /** The first present, positive amount, if any. */
  function FirstPositive(fields: seq<Option<real>>): (r: Option<real>)
    ensures r.None? <==> forall k :: 0 <= k < |fields| ==> !IsPositive(fields[k])
    ensures r.Some? ==> r.value > 0.0
  {
    if fields == [] then None
    else if IsPositive(fields[0]) then fields[0]
    else
      assert forall k :: 1 <= k < |fields| ==> fields[k] == fields[1..][k - 1];
      FirstPositive(fields[1..])
  }

  /** The amount found is the one at the first positive position. */
  lemma {:induction false} FirstPositiveIsFirst(fields: seq<Option<real>>)
    ensures FirstPositive(fields).Some? ==> exists k :: FirstPositiveAt(fields, k) && fields[k] == FirstPositive(fields)
  {
    if fields != [] {
      if IsPositive(fields[0]) {
        assert FirstPositiveAt(fields, 0);
      } else {
        FirstPositiveIsFirst(fields[1..]);
        if FirstPositive(fields).Some? {
          var k :| FirstPositiveAt(fields[1..], k) && fields[1..][k] == FirstPositive(fields[1..]);
          assert FirstPositiveAt(fields, k + 1);
        }
      }
    }
  }

  /** `item.price || item.product?.price || 0`. */
  function ItemPrice(it: DashItem): real {
    if it.price.Some? && it.price.value != 0.0 then it.price.value
    else if it.productPrice.Some? && it.productPrice.value != 0.0 then it.productPrice.value
    else 0.0
  }

  /** `item.quantity || 1`: a missing or zero quantity counts as one. */
  function ItemQuantity(it: DashItem): (q: int)
    ensures q != 0
    ensures it.quantity.Some? && it.quantity.value != 0 ==> q == it.quantity.value
  {
    if it.quantity.Some? && it.quantity.value != 0 then it.quantity.value else 1
  }

  /** Σ price × quantity over the lines, folded from the left. */
  function ItemsTotal(items: seq<DashItem>): real {
    if items == [] then 0.0
    else ItemsTotal(items[..|items| - 1]) + ItemPrice(items[|items| - 1]) * (ItemQuantity(items[|items| - 1]) as real)
  }

  /** An order's revenue: its first positive amount field, else the sum over its lines, else 0. */
  function OrderRevenue(o: DashOrder): (r: real)
    ensures IsPositive(FirstPositive(AmountFields(o))) ==> r == FirstPositive(AmountFields(o)).value
    ensures FirstPositive(AmountFields(o)).None? && o.items.Some? && o.items.value != [] ==> r == ItemsTotal(o.items.value)
    ensures FirstPositive(AmountFields(o)).None? && (o.items.None? || o.items.value == []) ==> r == 0.0
  {
    match FirstPositive(AmountFields(o))
    case Some(v) => v
    case None => if o.items.Some? && |o.items.value| > 0 then ItemsTotal(o.items.value) else 0.0
  }

  /** With prices and quantities never negative, an order never subtracts revenue. */
  lemma {:induction false} ItemsTotalNonNegative(items: seq<DashItem>)
    requires forall k :: 0 <= k < |items| ==> ItemPrice(items[k]) >= 0.0 && ItemQuantity(items[k]) >= 0
    ensures ItemsTotal(items) >= 0.0
  {
    if items != [] {
      var last := items[|items| - 1];
      ItemsTotalNonNegative(items[..|items| - 1]);
      assert ItemPrice(last) >= 0.0 && ItemQuantity(last) as real >= 0.0;
      ProductNonNegative(ItemPrice(last), ItemQuantity(last) as real);
    }
  }

  lemma ProductNonNegative(a: real, b: real)
    requires a >= 0.0 && b >= 0.0
    ensures a * b >= 0.0
  {
  }

  function TotalRevenue(orders: seq<DashOrder>): real {
    if orders == [] then 0.0 else TotalRevenue(orders[..|orders| - 1]) + OrderRevenue(orders[|orders| - 1])
  }

  /** The status the tally switches on: `(order.status || 'pending').toLowerCase()`. */
  function StatusKey(o: DashOrder): (k: string)
    ensures o.status == "" ==> k == "pending"
  {
    Lower(if o.status == "" then "pending" else o.status)
  }

  datatype Bucket = PendingBucket | CompletedBucket | ProcessingBucket | CancelledBucket | Uncounted

  /** Which counter a lower-cased status feeds. */
  function BucketOf(status: string): Bucket {
    if status == "pending" then PendingBucket
    else if status == "completed" || status == "delivered" then CompletedBucket
    else if status == "processing" || status == "shipped" then ProcessingBucket
    else if status == "cancelled" || status == "canceled" then CancelledBucket
    else Uncounted
  }

  /** The four status counters. */
  datatype Tally = Tally(pending: nat, completed: nat, processing: nat, cancelled: nat)

  function Counted(t: Tally): nat {
    t.pending + t.completed + t.processing + t.cancelled
  }

  /** The `switch` on a status: the counter of its group goes up by one; other statuses change nothing. */
  function CountStatus(t: Tally, status: string): Tally {
    match BucketOf(status)
    case PendingBucket => t.(pending := t.pending + 1)
    case CompletedBucket => t.(completed := t.completed + 1)
    case ProcessingBucket => t.(processing := t.processing + 1)
    case CancelledBucket => t.(cancelled := t.cancelled + 1)
    case Uncounted => t
  }

  /** Each counted status adds exactly one to the four counters together. */
  lemma CountStatusCounted(t: Tally, status: string)
    ensures Counted(CountStatus(t, status)) == Counted(t) + (if BucketOf(status) == Uncounted then 0 else 1)
  {
  }

  /** The counters after the whole list, by the lower-cased status of each order. */
  function TallyOf(orders: seq<DashOrder>): Tally {
    if orders == [] then Tally(0, 0, 0, 0)
    else CountStatus(TallyOf(orders[..|orders| - 1]), StatusKey(orders[|orders| - 1]))
  }

  /** Orders with other statuses are counted nowhere, so the counters sum to at most the order count. */
  lemma {:induction false} TallyBounded(orders: seq<DashOrder>)
    ensures Counted(TallyOf(orders)) <= |orders|
    ensures (forall k :: 0 <= k < |orders| ==> BucketOf(StatusKey(orders[k])) != Uncounted) ==> Counted(TallyOf(orders)) == |orders|
  {
    if orders != [] {
      var init, last := orders[..|orders| - 1], orders[|orders| - 1];
      TallyBounded(init);
      assert TallyOf(orders) == CountStatus(TallyOf(init), StatusKey(last));
      CountStatusCounted(TallyOf(init), StatusKey(last));
      assert forall k :: 0 <= k < |init| ==> init[k] == orders[k];
    }
  }

  /** An order without a status is counted as pending. */
  lemma MissingStatusIsPending(o: DashOrder)
    requires o.status == ""
    ensures BucketOf(StatusKey(o)) == PendingBucket
  {
  }

  datatype OrderStats = OrderStats(totalOrders: nat, totalRevenue: real, tally: Tally)

  /**
   * The revenue of one order as the statistics pass computes it: the search of the amount
   * fields stops at the first positive one; without one, the lines are summed.
   */
  method RevenueOf(order: DashOrder) returns (orderTotal: real)
    ensures orderTotal == OrderRevenue(order)
  {
    var fields := AmountFields(order);
    orderTotal := 0.0;
    var j := 0;
    while j < |fields|
      invariant 0 <= j <= |fields|
      invariant orderTotal == 0.0 && FirstPositive(fields) == FirstPositive(fields[j..])
    {
      if fields[j].Some? && fields[j].value > 0.0 {
        orderTotal := fields[j].value;
        break;
      }
      assert fields[j..][1..] == fields[j + 1..];
      j := j + 1;
    }
    if orderTotal == 0.0 && order.items.Some? && |order.items.value| > 0 {
      orderTotal := ItemsTotal(order.items.value);
    }
  }

  /** Extending the prefix by one order adds its revenue and counts its status. */
  lemma StatsStep(orders: seq<DashOrder>, i: nat)
    requires i < |orders|
    ensures TotalRevenue(orders[..i + 1]) == TotalRevenue(orders[..i]) + OrderRevenue(orders[i])
    ensures TallyOf(orders[..i + 1]) == CountStatus(TallyOf(orders[..i]), StatusKey(orders[i]))
  {
    assert orders[..i + 1][..i] == orders[..i];
  }

  /**
   * The statistics pass of `fetchAllOrders`: one walk over the orders adding up revenue
   * and counting each status in its group.
   */
  method ComputeOrderStats(orders: seq<DashOrder>) returns (stats: OrderStats)
    ensures stats.totalOrders == |orders|
    ensures stats.totalRevenue == TotalRevenue(orders)
    ensures stats.tally == TallyOf(orders)
  {
    var totalRevenue := 0.0;
    var tally := Tally(0, 0, 0, 0);
    var i := 0;
    while i < |orders|
      invariant 0 <= i <= |orders|
      invariant totalRevenue == TotalRevenue(orders[..i])
      invariant tally == TallyOf(orders[..i])
    {
      var order := orders[i];
      StatsStep(orders, i);
      var orderTotal := RevenueOf(order);
      totalRevenue := totalRevenue + orderTotal;
      tally := CountStatus(tally, StatusKey(order));
      i := i + 1;
    }
    assert orders[..i] == orders;
    stats := OrderStats(|orders|, totalRevenue, tally);
  }

  // ---------------------------------------------------------------------------
  // Recent orders

  /** `order.createdAt || order.created_at || order.date`, absent when none is set. */
  function OrderDate(o: DashOrder): Option<int> {
    if o.createdAt.Some? && o.createdAt.value != 0 then o.createdAt
    else if o.created_at.Some? && o.created_at.value != 0 then o.created_at
    else if o.date.Some? && o.date.value != 0 then o.date
    else None
  }

  /** The sort key: the order's date, or the epoch when it has none. */
  function DateKey(o: DashOrder): int {
    OrderDate(o).GetOr(0)
  }

  /** Orders newest first, ties in their original order. */
  function NewestFirst(orders: seq<DashOrder>): (r: seq<DashOrder>)
    ensures multiset(r) == multiset(orders)
    ensures Ordering.SortedDesc(r, DateKey)
  {
    Ordering.SortDescCorrect(orders, DateKey);
    Ordering.SortDesc(orders, DateKey)
  }

  const RecentCount := 10

  /** One row of the "recent orders" table. */
  datatype RecentRow = RecentRow(id: string, customer: string, amount: real, status: string, time: TimeAgo)

  function RowOf(o: DashOrder, nowMs: int): (row: RecentRow)
    ensures row.amount == OrderRevenue(o)
    ensures row.status == (if o.status == "" then "pending" else o.status)
    ensures row.customer != ""
    ensures row.id == (if o.orderNumber != "" then o.orderNumber else IntToString(o.id))
    // the first non-empty of the three name fields, else the placeholder
    ensures o.firstName != "" ==> row.customer == o.firstName
    ensures o.firstName == "" && o.username != "" ==> row.customer == o.username
    ensures o.firstName == "" && o.username == "" && o.customerName != "" ==> row.customer == o.customerName
    ensures o.firstName == "" && o.username == "" && o.customerName == "" ==> row.customer == "Unknown Customer"
    ensures row.time == FormatTimeAgo(OrderDate(o), nowMs)
  {
    RecentRow(
      if o.orderNumber != "" then o.orderNumber else IntToString(o.id),
      if o.firstName != "" then o.firstName
      else if o.username != "" then o.username
      else if o.customerName != "" then o.customerName
      else "Unknown Customer",
      OrderRevenue(o),
      if o.status == "" then "pending" else o.status,
      FormatTimeAgo(OrderDate(o), nowMs))
  }

  /** The orders behind the table: the first ten after sorting newest first. */
  function RecentOrders(orders: seq<DashOrder>): (r: seq<DashOrder>)
    ensures |r| == if |orders| < RecentCount then |orders| else RecentCount
    ensures Ordering.SortedDesc(r, DateKey)
    ensures forall k :: 0 <= k < |r| ==> r[k] in orders
    ensures forall k, m :: 0 <= k < |r| && m in multiset(orders) - multiset(r) ==> DateKey(r[k]) >= DateKey(m)
    ensures multiset(r) <= multiset(orders)
    ensures forall k :: 0 <= k < |r| ==> r[k] == NewestFirst(orders)[k]
  {
    var sorted := NewestFirst(orders);
    Ordering.TakeOfSorted(sorted, RecentCount, DateKey);
    var r := Ordering.Take(sorted, RecentCount);
    forall k | 0 <= k < |r| ensures r[k] in orders {
      assert r[k] in multiset(sorted);
    }
    r
  }

  function RecentRows(orders: seq<DashOrder>, nowMs: int): (rows: seq<RecentRow>)
    ensures |rows| == |RecentOrders(orders)|
    ensures forall k :: 0 <= k < |rows| ==> rows[k] == RowOf(RecentOrders(orders)[k], nowMs)
  {
    var recent := RecentOrders(orders);
    seq(|recent|, k requires 0 <= k < |recent| => RowOf(recent[k], nowMs))
  }

  // ---------------------------------------------------------------------------
  // Product stock buckets

  datatype DashProduct = DashProduct(status: string, stock: int)

  predicate IsActive(p: DashProduct) { p.status == "active" }
  predicate IsLowStock(p: DashProduct) { 0 < p.stock <= 10 }
  predicate IsOutOfStock(p: DashProduct) { p.stock == 0 }

  /** The positions of the products of `ps` that satisfy `p`: what `ps.filter(p)` keeps. */
  ghost function Positions(ps: seq<DashProduct>, p: DashProduct -> bool): set<nat> {
    set k: nat | k < |ps| && p(ps[k])
  }

  /** Dropping the last product removes its position, if it was kept. */
  lemma PositionsOfPrefix(ps: seq<DashProduct>, p: DashProduct -> bool)
    requires ps != []
    ensures |Positions(ps, p)| == |Positions(ps[..|ps| - 1], p)| + (if p(ps[|ps| - 1]) then 1 else 0)
  {
    var m, q := |ps| - 1, ps[..|ps| - 1];
    var last: set<nat> := if p(ps[m]) then {m} else {};
    forall k: nat ensures k in Positions(ps, p) <==> k in Positions(q, p) + last {
      if k < m {
        assert ps[k] == q[k];
      }
    }
    assert Positions(ps, p) == Positions(q, p) + last;
    assert m !in Positions(q, p);
  }

  /** `filter(p => p.status === 'active').length`. */
  function CountActive(ps: seq<DashProduct>): (n: nat)
    ensures n == |Positions(ps, IsActive)|
  {
    if ps == [] then 0
    else
      PositionsOfPrefix(ps, IsActive);
      CountActive(ps[..|ps| - 1]) + (if IsActive(ps[|ps| - 1]) then 1 else 0)
  }

  /** `filter(p => p.stock > 0 && p.stock <= 10).length`. */
  function CountLowStock(ps: seq<DashProduct>): (n: nat)
    ensures n == |Positions(ps, IsLowStock)|
  {
    if ps == [] then 0
    else
      PositionsOfPrefix(ps, IsLowStock);
      CountLowStock(ps[..|ps| - 1]) + (if IsLowStock(ps[|ps| - 1]) then 1 else 0)
  }

  /** `filter(p => p.stock === 0).length`. */
  function CountOutOfStock(ps: seq<DashProduct>): (n: nat)
    ensures n == |Positions(ps, IsOutOfStock)|
  {
    if ps == [] then 0
    else
      PositionsOfPrefix(ps, IsOutOfStock);
      CountOutOfStock(ps[..|ps| - 1]) + (if IsOutOfStock(ps[|ps| - 1]) then 1 else 0)
  }

  /** No product is both low on stock and out of stock. */
  lemma StockBucketsDisjoint(p: DashProduct)
    ensures !(IsLowStock(p) && IsOutOfStock(p))
  {
  }

  /** Low-stock and out-of-stock products together are at most the catalogue. */
  lemma {:induction false} StockBucketsBounded(ps: seq<DashProduct>)
    ensures CountLowStock(ps) + CountOutOfStock(ps) <= |ps|
  {
    if ps != [] {
      StockBucketsBounded(ps[..|ps| - 1]);
    }
  }

  // ---------------------------------------------------------------------------
  // Relative times and status colours

  datatype TimeAgo =
    | UnknownTime
    | JustNow
    | MinutesAgo(minutes: int)
    | HoursAgo(hours: int)
    | Yesterday
    | DaysAgo(days: int)
    | OnDate(ms: int)

  const MinuteMs := 60000
  const HourMs := 3600000
  const DayMs := 86400000

  /** `formatTimeAgo`: the label for a creation time, by whole minutes, hours and days rounded down. */
  function FormatTimeAgo(date: Option<int>, nowMs: int): (t: TimeAgo)
    ensures date.None? <==> t == UnknownTime
    ensures date.Some? ==> var diff := nowMs - date.value;
      && (t == JustNow <==> diff < 60000)
      && (t.MinutesAgo? <==> 60000 <= diff < 3600000)
      && (t.MinutesAgo? ==> 1 <= t.minutes < 60 && t.minutes * 60000 <= diff < (t.minutes + 1) * 60000)
      && (t.HoursAgo? <==> 3600000 <= diff < 86400000)
      && (t.HoursAgo? ==> 1 <= t.hours < 24 && t.hours * 3600000 <= diff < (t.hours + 1) * 3600000)
      && (t == Yesterday <==> 86400000 <= diff < 2 * 86400000)
      && (t.DaysAgo? <==> 2 * 86400000 <= diff < 7 * 86400000)
      && (t.DaysAgo? ==> 2 <= t.days < 7 && t.days * 86400000 <= diff < (t.days + 1) * 86400000)
      && (t.OnDate? <==> diff >= 7 * 86400000)
  {
    match date
    case None => UnknownTime
    case Some(d) =>
      var diff := nowMs - d;
      var minutes := diff / MinuteMs;
      var hours := diff / HourMs;
      var days := diff / DayMs;
      if minutes < 1 then JustNow
      else if minutes < 60 then MinutesAgo(minutes)
      else if hours < 24 then HoursAgo(hours)
      else if days == 1 then Yesterday
      else if days < 7 then DaysAgo(days)
      else OnDate(d)
  }

  /** `text` is the decimal rendering of `n` followed by `suffix`, and reads back as `n`. */
  predicate ReadsBack(text: string, suffix: string, n: int) {
    && |text| > |suffix| && text[|text| - |suffix|..] == suffix
    && AllDigits(text[..|text| - |suffix|]) && DigitsValue(text[..|text| - |suffix|]) == n
  }

  lemma NumberLabel(n: int, suffix: string)
    requires n >= 0
    ensures ReadsBack(IntToString(n) + suffix, suffix, n)
  {
    var digits, text := IntToString(n), IntToString(n) + suffix;
    assert text[..|text| - |suffix|] == digits;
    assert text[|text| - |suffix|..] == suffix;
    DigitsValueOfNatToString(n);
  }

  /**
   * The label as displayed; a date older than a week is shown by the locale, here as its
   * timestamp.  The count in a minutes, hours or days label reads back as that count.
   */
  function TimeAgoText(t: TimeAgo): (text: string)
    ensures t == UnknownTime ==> text == "Unknown time"
    ensures t == JustNow ==> text == "Just now"
    ensures t == Yesterday ==> text == "Yesterday"
    ensures t.MinutesAgo? && t.minutes >= 0 ==> ReadsBack(text, "m ago", t.minutes)
    ensures t.HoursAgo? && t.hours >= 0 ==> ReadsBack(text, "h ago", t.hours)
    ensures t.DaysAgo? && t.days >= 0 ==> ReadsBack(text, " days ago", t.days)
  {
    match t
    case UnknownTime => "Unknown time"
    case JustNow => "Just now"
    case MinutesAgo(m) =>
      if m >= 0 then NumberLabel(m, "m ago"); IntToString(m) + "m ago"
      else IntToString(m) + "m ago"
    case HoursAgo(h) =>
      if h >= 0 then NumberLabel(h, "h ago"); IntToString(h) + "h ago"
      else IntToString(h) + "h ago"
    case Yesterday => "Yesterday"
    case DaysAgo(d) =>
      if d >= 0 then NumberLabel(d, " days ago"); IntToString(d) + " days ago"
      else IntToString(d) + " days ago"
    case OnDate(ms) => IntToString(ms)
  }

  const Green: string := "bg-green-500/20 text-green-400 border-green-500/30"
  const Yellow: string := "bg-yellow-500/20 text-yellow-400 border-yellow-500/30"
  const Blue: string := "bg-blue-500/20 text-blue-400 border-blue-500/30"
  const Red: string := "bg-red-500/20 text-red-400 border-red-500/30"
  const Gray: string := "bg-gray-500/20 text-gray-400 border-gray-500/30"

  /** The statuses `getStatusColor` gives a colour other than gray to. */
  const ColoredStatuses: set<string> :=
    {"completed", "delivered", "closed", "pending", "open", "processing", "shipped", "cancelled", "canceled"}

  /** `getStatusColor`: the badge classes for a status, case-insensitively; no status, or any other status, is gray. */
  function StatusColor(status: Option<string>): (color: string)
    ensures color in {Green, Yellow, Blue, Red, Gray}
    ensures status.None? ==> color == Gray
    ensures status.Some? ==> (color == Gray <==> Lower(status.value) !in ColoredStatuses)
  {
    if status.None? then Gray
    else
      var s := Lower(status.value);
      if s == "completed" || s == "delivered" || s == "closed" then Green
      else if s == "pending" || s == "open" then Yellow
      else if s == "processing" || s == "shipped" then Blue
      else if s == "cancelled" || s == "canceled" then Red
      else Gray
  }

  /** The badge of a recent order has the colour of the counter its status feeds. */
  lemma ColorMatchesTally(o: DashOrder)
    ensures var color := StatusColor(Some(if o.status == "" then "pending" else o.status));
      && (BucketOf(StatusKey(o)) == PendingBucket ==> color == Yellow)
      && (BucketOf(StatusKey(o)) == CompletedBucket ==> color == Green)
      && (BucketOf(StatusKey(o)) == ProcessingBucket ==> color == Blue)
      && (BucketOf(StatusKey(o)) == CancelledBucket ==> color == Red)
  {
  }

  /** The colour ignores case: a status and its lower-case form get the same badge. */
  lemma StatusColorIgnoresCase(status: string)
    ensures StatusColor(Some(status)) == StatusColor(Some(Lower(status)))
  {
    LowerIdentity(Lower(status));
  }

  /** "closed" and "open" are coloured but counted nowhere. */
  lemma ColoredButUncounted()
    ensures BucketOf(Lower("closed")) == Uncounted && StatusColor(Some("closed")) == Green
    ensures BucketOf(Lower("open")) == Uncounted && StatusColor(Some("open")) == Yellow
  {
    LowerIdentity("closed");
    LowerIdentity("open");
  }
}

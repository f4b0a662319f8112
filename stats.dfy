/**
 * `getDashboardStats`: counts, revenue sums and groupings over the order collection, as the database
 * computes them. The collection is the documents in their natural order; "today's midnight" and "a week
 * ago" are parameters (both are derived from the server's clock).
 */
module DashboardStats {
  import opened Wrappers
  import opened OrderSchema
  import opened Sorting

  /** Milliseconds in a day; `$dateToString` with "%Y-%m-%d" names the UTC day a timestamp falls in. */
  const DayMs := 86_400_000

  datatype GameCount = GameCount(gameName: Option<string>, count: nat)

  /** One chart entry: the day (days since the epoch, UTC) and the number of orders created on it. */
  datatype ChartPoint = ChartPoint(day: int, orders: nat)

  datatype StatusCounts = StatusCounts(pending: nat, completed: nat, failed: nat)

  datatype Stats = Stats(
    dailyOrders: nat,
    totalRevenue: int,
    dailyRevenue: int,
    successfulTopUps: nat,
    orderStatus: StatusCounts,
    ordersByGame: seq<GameCount>,
    recentOrders: seq<Order>,
    chartData: seq<ChartPoint>)

  function CreatedAt(o: Order): int { o.createdAt }

  function Day(t: int): int { t / DayMs }

  /** `countDocuments({ fulfillmentStatus: status })`. */
  function CountFulfillment(orders: seq<Order>, status: string): (n: nat)
    ensures n <= |orders|
  {
    if orders == [] then 0
    else CountFulfillment(orders[1..], status) + (if orders[0].fulfillmentStatus == status then 1 else 0)
  }

  /** `countDocuments({ createdAt: { $gte: since } })`. */
  function CountSince(orders: seq<Order>, since: int): (n: nat)
    ensures n <= |orders|
  {
    if orders == [] then 0
    else CountSince(orders[1..], since) + (if orders[0].createdAt >= since then 1 else 0)
  }

  /** `$sum: "$price"` over paid orders created at or after `since`; a missing price adds nothing. */
  function PaidRevenue(orders: seq<Order>, since: Option<int>): int {
    if orders == [] then 0
    else
      var o := orders[0];
      var counted := o.paymentStatus == "paid" && (since.None? || o.createdAt >= since.value);
      PaidRevenue(orders[1..], since) + (if counted then o.price.GetOr(0) else 0)
  }

  function GameNames(orders: seq<Order>): (names: seq<Option<string>>)
    ensures |names| == |orders| && forall i :: 0 <= i < |orders| ==> names[i] == orders[i].gameName
  {
    seq(|orders|, i requires 0 <= i < |orders| => orders[i].gameName)
  }

  function GameCountKey(g: GameCount): int { g.count }

  /** `$group` by `gameName` with a count, one entry per distinct name in order of first appearance. */
  function GroupByGame(orders: seq<Order>): (groups: seq<GameCount>)
    ensures forall g :: g in groups ==> g.gameName in GameNames(orders) && g.count == Count(GameNames(orders), g.gameName)
    ensures forall name :: name in GameNames(orders) ==> GameCount(name, Count(GameNames(orders), name)) in groups
  {
    var names := Distinct(GameNames(orders));
    var groups := seq(|names|, i requires 0 <= i < |names| => GameCount(names[i], Count(GameNames(orders), names[i])));
    assert forall name :: name in GameNames(orders) ==> GameCount(name, Count(GameNames(orders), name)) in groups by {
      forall name | name in GameNames(orders) ensures GameCount(name, Count(GameNames(orders), name)) in groups {
        var i :| 0 <= i < |names| && names[i] == name;
        assert groups[i] == GameCount(name, Count(GameNames(orders), name));
      }
    }
    groups
  }

  function ChartKey(p: ChartPoint): int { -p.day }

  function DaysSince(orders: seq<Order>, since: int): (days: seq<int>)
    ensures forall d :: d in days <==> exists o :: o in orders && o.createdAt >= since && Day(o.createdAt) == d
  {
    if orders == [] then []
    else
      var rest := DaysSince(orders[1..], since);
      assert orders == [orders[0]] + orders[1..];
      if orders[0].createdAt >= since then [Day(orders[0].createdAt)] + rest else rest
  }

  /** One point per distinct day of `days`, with that day's number of occurrences. */
  function Points(days: seq<int>): (points: seq<ChartPoint>)
    ensures forall i, j :: 0 <= i < j < |points| ==> points[i].day != points[j].day
    ensures forall p :: p in points ==> p.orders == Count(days, p.day) && p.orders > 0
    ensures forall d :: d in days ==> exists p :: p in points && p.day == d
  {
    var distinct := Distinct(days);
    var points := seq(|distinct|, i requires 0 <= i < |distinct| => ChartPoint(distinct[i], Count(days, distinct[i])));
    assert forall d :: d in days ==> exists p :: p in points && p.day == d by {
      forall d | d in days ensures exists p :: p in points && p.day == d {
        var k :| 0 <= k < |distinct| && distinct[k] == d;
        assert points[k].day == d;
      }
    }
    assert forall p :: p in points ==> p.orders == Count(days, p.day) && p.orders > 0 by {
      forall p | p in points ensures p.orders == Count(days, p.day) && p.orders > 0 {
        var k :| 0 <= k < |points| && points[k] == p;
        assert distinct[k] in days;
      }
    }
    points
  }

  /** A value occurring at two positions of a sequence occurs at least twice in its multiset. */
  lemma TwiceInMultiset<T>(xs: seq<T>, i: nat, j: nat)
    requires i < j < |xs| && xs[i] == xs[j]
    ensures multiset(xs)[xs[i]] >= 2
  {
    assert xs == xs[..i] + [xs[i]] + xs[i + 1..j] + [xs[j]] + xs[j + 1..];
  }

  /** In a sequence of points with distinct days, each point occurs once. */
  lemma PointOnce(points: seq<ChartPoint>, a: nat)
    requires forall i, j :: 0 <= i < j < |points| ==> points[i].day != points[j].day
    requires a < |points|
    ensures multiset(points)[points[a]] == 1
  {
    var x := points[a];
    assert points == points[..a] + [x] + points[a + 1..];
    assert x !in points[..a] && x !in points[a + 1..] by {
      forall k | 0 <= k < |points| && k != a ensures points[k] != x {
        if k < a {
          assert points[k].day != points[a].day;
        } else {
          assert points[a].day != points[k].day;
        }
      }
    }
  }

  /** Sorting points with distinct days by descending `ChartKey` puts the days in strictly ascending order. */
  lemma AscendingDays(points: seq<ChartPoint>, chart: seq<ChartPoint>)
    requires forall i, j :: 0 <= i < j < |points| ==> points[i].day != points[j].day
    requires multiset(chart) == multiset(points) && SortedDesc(chart, ChartKey)
    ensures forall i, j :: 0 <= i < j < |chart| ==> chart[i].day < chart[j].day
  {
    forall i, j | 0 <= i < j < |chart| ensures chart[i].day < chart[j].day {
      assert ChartKey(chart[i]) >= ChartKey(chart[j]);
      if chart[i].day == chart[j].day {
        assert chart[i] in multiset(points) && chart[j] in multiset(points);
        var a :| 0 <= a < |points| && points[a] == chart[i];
        var b :| 0 <= b < |points| && points[b] == chart[j];
        assert a == b;
        TwiceInMultiset(chart, i, j);
        PointOnce(points, a);
        assert false;
      }
    }
  }

  /** Orders created since `since`, grouped by day, with the days in ascending order. */
  function Chart(orders: seq<Order>, since: int): (chart: seq<ChartPoint>)
    ensures forall i, j :: 0 <= i < j < |chart| ==> chart[i].day < chart[j].day
    ensures forall p :: p in chart ==> p.orders == Count(DaysSince(orders, since), p.day) && p.orders > 0
    ensures forall o :: o in orders && o.createdAt >= since ==> exists p :: p in chart && p.day == Day(o.createdAt)
  {
    var days := DaysSince(orders, since);
    var points := Points(days);
    var chart := SortDesc(points, ChartKey);
    AscendingDays(points, chart);
    assert forall p :: p in chart ==> p in points by {
      forall p | p in chart ensures p in points {
        assert p in multiset(chart);
      }
    }
    assert forall o :: o in orders && o.createdAt >= since ==> exists p :: p in chart && p.day == Day(o.createdAt) by {
      forall o | o in orders && o.createdAt >= since ensures exists p :: p in chart && p.day == Day(o.createdAt) {
        assert Day(o.createdAt) in days;
        var p :| p in points && p.day == Day(o.createdAt);
        assert p in multiset(chart);
      }
    }
    chart
  }

  /** `find().sort({ createdAt: -1 }).limit(5)`. */
  function RecentOrders(orders: seq<Order>): seq<Order> {
    Take(SortDesc(orders, CreatedAt), 5)
  }

  /** The `$group`, `$sort: { count: -1 }`, `$limit: 5` pipeline. */
  function OrdersByGame(orders: seq<Order>): seq<GameCount> {
    Take(SortDesc(GroupByGame(orders), GameCountKey), 5)
  }

  function GetDashboardStats(orders: seq<Order>, today: int, pastWeek: int): Stats {
    Stats(
      CountSince(orders, today),
      PaidRevenue(orders, None),
      PaidRevenue(orders, Some(today)),
      CountFulfillment(orders, "delivered"),
      StatusCounts(CountFulfillment(orders, "pending"), CountFulfillment(orders, "delivered"),
                   CountFulfillment(orders, "failed")),
      OrdersByGame(orders),
      RecentOrders(orders),
      Chart(orders, pastWeek))
  }

  // ---- properties ----

  lemma {:induction false} RevenueSinceBounded(orders: seq<Order>, since: int)
    requires forall o :: o in orders ==> o.price.GetOr(0) >= 0
    ensures 0 <= PaidRevenue(orders, Some(since)) <= PaidRevenue(orders, None)
  {
    if orders != [] {
      assert forall o :: o in orders[1..] ==> o in orders;
      RevenueSinceBounded(orders[1..], since);
    }
  }

  /** With no negative prices, today's revenue never exceeds the total. */
  lemma DailyRevenueBounded(orders: seq<Order>, today: int, pastWeek: int)
    requires forall o :: o in orders ==> o.price.GetOr(0) >= 0
    ensures var s := GetDashboardStats(orders, today, pastWeek);
      0 <= s.dailyRevenue <= s.totalRevenue
  {
    RevenueSinceBounded(orders, today);
  }

  lemma {:induction false} FulfillmentPartition(orders: seq<Order>)
    ensures CountFulfillment(orders, "pending") + CountFulfillment(orders, "delivered")
            + CountFulfillment(orders, "failed") <= |orders|
    ensures (forall o :: o in orders ==> SchemaValid(o)) ==>
            CountFulfillment(orders, "pending") + CountFulfillment(orders, "delivered")
            + CountFulfillment(orders, "failed") == |orders|
  {
    if orders != [] {
      assert forall o :: o in orders[1..] ==> o in orders;
      FulfillmentPartition(orders[1..]);
      if SchemaValid(orders[0]) {
        assert orders[0].fulfillmentStatus in FulfillmentStatuses;
        assert orders[0].fulfillmentStatus in {"pending", "delivered", "failed"};
      }
    }
  }

  /**
   * The three fulfilment counts never exceed the number of orders and, when every order is valid,
   * partition it; the delivered count is reported twice.
   */
  lemma StatusCountsPartition(orders: seq<Order>, today: int, pastWeek: int)
    ensures var s := GetDashboardStats(orders, today, pastWeek);
      s.orderStatus.pending + s.orderStatus.completed + s.orderStatus.failed <= |orders|
      && s.successfulTopUps == s.orderStatus.completed
      && s.dailyOrders <= |orders|
    ensures (forall o :: o in orders ==> SchemaValid(o)) ==>
      var s := GetDashboardStats(orders, today, pastWeek);
      s.orderStatus.pending + s.orderStatus.completed + s.orderStatus.failed == |orders|
  {
    FulfillmentPartition(orders);
  }

  /**
   * `recentOrders` holds at most five orders, newest first, all from the collection, and no order left
   * out is newer than one shown.
   */
  lemma RecentOrdersAreNewest(orders: seq<Order>)
    ensures |RecentOrders(orders)| == (if |orders| < 5 then |orders| else 5)
    ensures SortedDesc(RecentOrders(orders), CreatedAt)
    ensures multiset(RecentOrders(orders)) <= multiset(orders)
    ensures forall o, shown :: o in orders && o !in RecentOrders(orders) && shown in RecentOrders(orders) ==>
              o.createdAt <= shown.createdAt
  {
    var r := RecentOrders(orders);
    TopOfSorted(orders, CreatedAt, 5);
    assert multiset(r) <= multiset(orders);
    forall o, shown | o in orders && o !in r && shown in r ensures o.createdAt <= shown.createdAt {
      assert CreatedAt(o) <= CreatedAt(shown);
    }
  }

  /**
   * `ordersByGame` holds at most five distinct names, by count descending, each with its exact count,
   * and a name left out has no more orders than any name shown.
   */
  lemma OrdersByGameAreTop(orders: seq<Order>)
    ensures |OrdersByGame(orders)| <= 5
    ensures SortedDesc(OrdersByGame(orders), GameCountKey)
    ensures forall e :: e in OrdersByGame(orders) ==> e.count == Count(GameNames(orders), e.gameName) && e.count > 0
    ensures forall name, e :: name in GameNames(orders) && e in OrdersByGame(orders)
              && GameCount(name, Count(GameNames(orders), name)) !in OrdersByGame(orders)
              ==> Count(GameNames(orders), name) <= e.count
  {
    var groups := GroupByGame(orders);
    var g := OrdersByGame(orders);
    TopOfSorted(groups, GameCountKey, 5);
    assert multiset(g) <= multiset(groups);
    forall e | e in g ensures e in groups {
      assert e in multiset(g);
    }
    forall name, e | name in GameNames(orders) && e in g && GameCount(name, Count(GameNames(orders), name)) !in g
      ensures Count(GameNames(orders), name) <= e.count
    {
      var x := GameCount(name, Count(GameNames(orders), name));
      assert x in groups;
      assert GameCountKey(x) <= GameCountKey(e);
    }
  }

  /** Every chart day is distinct and ascending, each with the number of orders created on it since `pastWeek`. */
  lemma ChartCountsEachDay(orders: seq<Order>, today: int, pastWeek: int)
    ensures var c := GetDashboardStats(orders, today, pastWeek).chartData;
      (forall i, j :: 0 <= i < j < |c| ==> c[i].day < c[j].day)
      && (forall p :: p in c ==> p.orders == Count(DaysSince(orders, pastWeek), p.day) && p.orders > 0)
      && (forall o :: o in orders && o.createdAt >= pastWeek ==> exists p :: p in c && p.day == Day(o.createdAt))
  {
  }
}

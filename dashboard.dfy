/** The common dashboard (`/app/dashboard`): four summary cards chosen by the
    role the stats endpoint reports, polled every ten seconds. */
module Dashboard {
  import opened Wrappers
  import Text
  import Routes
  import Storage

  /** `response.data.role || 'admin'`. */
  function RoleOf(reported: Option<string>): (r: string)
    ensures r != []
    ensures reported.Some? && reported.value != [] ==> r == reported.value
    ensures reported.None? || reported.value == [] ==> r == "admin"
  {
    MessageOr(reported, "admin")
  }

  /** `stats?.key || 0`: a missing figure shows as 0. */
  function Figure(stats: map<string, real>, key: string): (r: real)
    ensures key in stats ==> r == stats[key]
    ensures key !in stats ==> r == 0.0
  {
    if key in stats then stats[key] else 0.0
  }

  /** A card's value: a count, or an amount shown as "Rp …". */
  datatype CardValue = Count(n: real) | Money(amount: real)
  datatype Card = Card(title: string, value: CardValue)

  /** What a card shows: its title, the stats key it reads, and whether
      the figure is an amount of money. */
  datatype CardSpec = CardSpec(title: string, key: string, money: bool)

  const CustomerTable: seq<CardSpec> := [
    CardSpec("Pesanan Aktif", "pending_orders", false),
    CardSpec("Total Pesanan", "total_orders", false),
    CardSpec("Total Pengeluaran", "total_spent", true),
    CardSpec("Steam Points", "points", false)
  ]

  const DriverTable: seq<CardSpec> := [
    CardSpec("Tugas Tersedia", "assigned_tasks", false),
    CardSpec("Sedang Diantar", "active_deliveries", false),
    CardSpec("Berhasil Diantar", "completed_deliveries", false),
    CardSpec("Poin Driver", "total_points", false)
  ]

  const BusinessTable: seq<CardSpec> := [
    CardSpec("Total Orders", "total_orders", false),
    CardSpec("Pending Orders", "pending_orders", false),
    CardSpec("Total Revenue", "total_revenue", true),
    CardSpec("Total Customers", "total_customers", false)
  ]

  /** The card table of a role: customers and drivers have their own, every
      other role (admin, cashier, or anything else) the business one. */
  function CardTable(role: string): (r: seq<CardSpec>)
    ensures |r| == 4
    ensures forall i :: 0 <= i < 4 ==> (r[i].money <==> i == 2 && role != "driver")
  {
    if role == "customer" then CustomerTable
    else if role == "driver" then DriverTable
    else BusinessTable
  }

  /** `stats?.key || 0`, shown as a count or as "Rp …". */
  function ShowCard(spec: CardSpec, stats: map<string, real>): Card
  {
    Card(spec.title, if spec.money then Money(Figure(stats, spec.key)) else Count(Figure(stats, spec.key)))
  }

  /** The four cards of a role. */
  function Cards(role: string, stats: map<string, real>): (r: seq<Card>)
    ensures |r| == 4
    ensures forall i :: 0 <= i < 4 ==> (r[i].value.Money? <==> i == 2 && role != "driver")
  {
    var table := CardTable(role);
    seq(4, i requires 0 <= i < 4 => ShowCard(table[i], stats))
  }

  /** A customer sees active orders, all orders, money spent and points. */
  lemma CustomerCards(stats: map<string, real>)
    ensures Cards("customer", stats) == [
      Card("Pesanan Aktif", Count(Figure(stats, "pending_orders"))),
      Card("Total Pesanan", Count(Figure(stats, "total_orders"))),
      Card("Total Pengeluaran", Money(Figure(stats, "total_spent"))),
      Card("Steam Points", Count(Figure(stats, "points")))]
  {
    var r := Cards("customer", stats);
    assert r[0] == ShowCard(CustomerTable[0], stats);
    assert r[1] == ShowCard(CustomerTable[1], stats);
    assert r[2] == ShowCard(CustomerTable[2], stats);
    assert r[3] == ShowCard(CustomerTable[3], stats);
  }

  /** A driver sees open tasks, deliveries under way, deliveries done and
      points, all as counts. */
  lemma DriverCards(stats: map<string, real>)
    ensures Cards("driver", stats) == [
      Card("Tugas Tersedia", Count(Figure(stats, "assigned_tasks"))),
      Card("Sedang Diantar", Count(Figure(stats, "active_deliveries"))),
      Card("Berhasil Diantar", Count(Figure(stats, "completed_deliveries"))),
      Card("Poin Driver", Count(Figure(stats, "total_points")))]
  {
    var r := Cards("driver", stats);
    assert r[0] == ShowCard(DriverTable[0], stats);
    assert r[1] == ShowCard(DriverTable[1], stats);
    assert r[2] == ShowCard(DriverTable[2], stats);
    assert r[3] == ShowCard(DriverTable[3], stats);
  }

  /** Every role other than customer and driver sees the business view:
      orders, pending orders, revenue and customers, the same as an
      admin. */
  lemma OtherRolesShowBusinessCards(role: string, stats: map<string, real>)
    requires role != "customer" && role != "driver"
    ensures Cards(role, stats) == Cards("admin", stats)
    ensures Cards(role, stats) == [
      Card("Total Orders", Count(Figure(stats, "total_orders"))),
      Card("Pending Orders", Count(Figure(stats, "pending_orders"))),
      Card("Total Revenue", Money(Figure(stats, "total_revenue"))),
      Card("Total Customers", Count(Figure(stats, "total_customers")))]
  {
    var r := Cards(role, stats);
    assert r[0] == ShowCard(BusinessTable[0], stats);
    assert r[1] == ShowCard(BusinessTable[1], stats);
    assert r[2] == ShowCard(BusinessTable[2], stats);
    assert r[3] == ShowCard(BusinessTable[3], stats);
  }

  /** A stats answer without a role gets the business cards, as an admin
      or a cashier would. */
  lemma MissingRoleShowsBusinessCards(stats: map<string, real>)
    ensures Cards(RoleOf(None), stats) == Cards("admin", stats)
    ensures Cards(RoleOf(None), stats) == Cards("cashier", stats)
  {
    OtherRolesShowBusinessCards("cashier", stats);
  }

  /** The "all orders" link under the activity list is for admins only. */
  predicate ShowsAllOrdersLink(role: string)
  {
    role == "admin"
  }

  /** Where an activity row links: the driver's task list, or the
      customer's order history. */
  function ActivityLink(role: string): (r: string)
    ensures role == "driver" ==> r == "/app/logistics"
    ensures role != "driver" ==> r == "/app/my-orders"
  {
    if role == "driver" then "/app/logistics" else "/app/my-orders"
  }

  /** Both links under the activity list lead somewhere for the user who
      sees them: the all-orders link to the order list for an
      administrator, and the activity link to a page any signed-in user may
      open. */
  lemma DashboardLinksOpen(account: Storage.Account, role: string)
    ensures ShowsAllOrdersLink(role) ==> Routes.Resolve("/app/orders", Some(account)) == Routes.Show(Routes.OrdersScreen)
    ensures Routes.Resolve(ActivityLink(role), Some(account)) ==
              Routes.Show(if role == "driver" then Routes.LogisticsScreen else Routes.PortalScreen)
  {
    OrdersTargetShows(account);
    if role == "driver" {
      LogisticsTargetShows(account);
    } else {
      PortalTargetShows(account);
    }
  }

  lemma OrdersTargetShows(account: Storage.Account)
    ensures Routes.Resolve("/app/orders", Some(account)) == Routes.Show(Routes.OrdersScreen)
  {
    LinkTargetShows("orders", Routes.OrdersScreen, account);
    assert "/app/" + "orders" == "/app/orders";
  }

  lemma LogisticsTargetShows(account: Storage.Account)
    ensures Routes.Resolve("/app/logistics", Some(account)) == Routes.Show(Routes.LogisticsScreen)
  {
    LinkTargetShows("logistics", Routes.LogisticsScreen, account);
    assert "/app/" + "logistics" == "/app/logistics";
  }

  lemma PortalTargetShows(account: Storage.Account)
    ensures Routes.Resolve("/app/my-orders", Some(account)) == Routes.Show(Routes.PortalScreen)
  {
    LinkTargetShows("my-orders", Routes.PortalScreen, account);
    assert "/app/" + "my-orders" == "/app/my-orders";
  }

  lemma LinkTargetShows(rest: string, screen: Routes.Screen, account: Storage.Account)
    requires rest in ["orders", "logistics", "my-orders"]
    requires Routes.AppChild(rest) == Some(Routes.Child(None, screen))
    ensures Routes.Resolve("/app/" + rest, Some(account)) == Routes.Show(screen)
  {
    assert '/' !in rest;
    assert |rest| > 7 ==> rest[..7][6] != '/' && rest[..7] != "orders/";
    Routes.SignInOnlyPagesShow(rest, Some(account));
  }

  /** `full_name.split(' ')[0]`: the name up to its first space. */
  function FirstWord(name: string): (r: string)
    ensures r <= name
    ensures ' ' !in r
    ensures r == name || name[|r|] == ' '
  {
    if name == [] || name[0] == ' ' then [] else [name[0]] + FirstWord(name[1..])
  }

  /** The body of `GET /dashboard/stats` that the cards use. */
  datatype StatsResponse = StatsResponse(stats: Option<map<string, real>>, role: Option<string>)

  const LoadError := "Failed to load dashboard data. Please try logging in again."

  class DashboardPage {
    var stats: map<string, real>
    var role: string
    var loading: bool
    var error: Option<string>

    constructor ()
      ensures stats == map[] && role == "admin" && loading && error == None
    {
      stats := map[];
      role := "admin";
      loading := true;
      error := None;
    }

    /** One fetch, on mount or on the ten-second timer. Success replaces the
        figures and the role; failure sets the error, which no later
        success clears, so the page keeps showing it until reloaded. */
    method Refresh(outcome: Outcome<StatsResponse>)
      modifies this
      ensures !loading
      ensures outcome.Success? ==> stats == outcome.data.stats.GetOr(map[]) && role == RoleOf(outcome.data.role)
      ensures outcome.Success? ==> error == old(error)
      ensures outcome.Failure? ==> stats == old(stats) && role == old(role) && error == Some(LoadError)
    {
      if outcome.Success? {
        stats := outcome.data.stats.GetOr(map[]);
        role := RoleOf(outcome.data.role);
      } else {
        error := Some(LoadError);
      }
      loading := false;
    }

    /** What the page shows: the spinner, the error, or the cards. */
    function Shown(): (r: Option<seq<Card>>)
      reads this
      ensures r.Some? <==> !loading && error.None?
      ensures r.Some? ==> r.value == Cards(role, stats)
    {
      if loading || error.Some? then None else Some(Cards(role, stats))
    }
  }

  /** One failed poll hides the cards for good, even when the next poll
      succeeds. */
  method FailedPollSticks(p: DashboardPage, good: StatsResponse)
    modifies p
    ensures p.Shown() == None
  {
    p.Refresh(Failure(None));
    p.Refresh(Success(good));
  }
}

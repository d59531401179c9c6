/** The signed-in layout's navigation menu: a fixed table of entries, each
    listing the roles it is shown to, filtered by the user's role. */
module Layout {
  import opened Wrappers
  import opened Seqs
  import Storage

  /** A menu entry; `href` is relative to `/app`. An entry without a role
      list would be shown to everyone, but every entry of the table has
      one. */
  datatype MenuItem = MenuItem(title: string, href: string, roles: Option<seq<string>>)

  const MenuItems: seq<MenuItem> := [
    MenuItem("Dashboard", "/dashboard", Some(["admin", "cashier", "customer", "driver"])),
    MenuItem("Orders & POS", "/orders", Some(["admin", "cashier"])),
    MenuItem("Services", "/services", Some(["admin"])),
    MenuItem("Logistics", "/logistics", Some(["admin", "driver"])),
    MenuItem("Pesan Laundry", "/new-order", Some(["customer"])),
    MenuItem("My Orders", "/my-orders", Some(["customer"]))
  ]

  /** `user?.role`: None without a user or without a role. */
  function RoleOf(user: Option<Storage.Account>): (r: Option<string>)
    ensures r.Some? <==> user.Some? && user.value.role.Some?
  {
    if user.Some? then user.value.role else None
  }

  /** `!item.roles || item.roles.includes(role)`. */
  predicate ShownTo(item: MenuItem, role: Option<string>)
  {
    item.roles.None? || (role.Some? && role.value in item.roles.value)
  }

  function Shows(role: Option<string>): MenuItem -> bool
  {
    (item: MenuItem) => ShownTo(item, role)
  }

  /** The entries shown to a role, in table order. */
  function MenuFor(role: Option<string>): seq<MenuItem>
  {
    Filter(MenuItems, Shows(role))
  }

  /** `filteredMenu`: the menu of the signed-in user's role. */
  function FilteredMenu(user: Option<Storage.Account>): (r: seq<MenuItem>)
    ensures forall i :: 0 <= i < |r| ==> r[i] in MenuItems && ShownTo(r[i], RoleOf(user))
    ensures forall i | 0 <= i < |MenuItems| :: ShownTo(MenuItems[i], RoleOf(user)) ==> MenuItems[i] in r
  {
    MenuFor(RoleOf(user))
  }

  /** The ways the six-entry table is cut down, each stated for any
      six-element sequence: the first and the last two kept. */
  lemma CustomerShape<T>(s: seq<T>, keep: T -> bool)
    requires |s| == 6
    requires keep(s[0]) && !keep(s[1]) && !keep(s[2]) && !keep(s[3]) && keep(s[4]) && keep(s[5])
    ensures Filter(s, keep) == [s[0], s[4], s[5]]
  {
    FilterOfSix(s, keep);
  }

  /** The first four kept. */
  lemma AdminShape<T>(s: seq<T>, keep: T -> bool)
    requires |s| == 6
    requires keep(s[0]) && keep(s[1]) && keep(s[2]) && keep(s[3]) && !keep(s[4]) && !keep(s[5])
    ensures Filter(s, keep) == [s[0], s[1], s[2], s[3]]
  {
    FilterOfSix(s, keep);
    KeptOne(s[0], keep);
    KeptOne(s[1], keep);
    KeptOne(s[2], keep);
    KeptOne(s[3], keep);
    KeptNone(s[4], s[5], keep);
    FourSingletons(s[0], s[1], s[2], s[3]);
  }

  lemma KeptOne<T>(x: T, keep: T -> bool)
    requires keep(x)
    ensures Kept(x, keep) == [x]
  {
  }

  lemma KeptNone<T>(x: T, y: T, keep: T -> bool)
    requires !keep(x) && !keep(y)
    ensures Kept(x, keep) + Kept(y, keep) == []
  {
  }

  lemma FourSingletons<T>(a: T, b: T, c: T, d: T)
    ensures [a] + ([b] + ([c] + ([d] + []))) == [a, b, c, d]
  {
    assert [c] + ([d] + []) == [c, d];
    assert [b] + [c, d] == [b, c, d];
  }

  /** The first two kept. */
  lemma CashierShape<T>(s: seq<T>, keep: T -> bool)
    requires |s| == 6
    requires keep(s[0]) && keep(s[1]) && !keep(s[2]) && !keep(s[3]) && !keep(s[4]) && !keep(s[5])
    ensures Filter(s, keep) == [s[0], s[1]]
  {
    FilterOfSix(s, keep);
  }

  /** The first and the fourth kept. */
  lemma DriverShape<T>(s: seq<T>, keep: T -> bool)
    requires |s| == 6
    requires keep(s[0]) && !keep(s[1]) && !keep(s[2]) && keep(s[3]) && !keep(s[4]) && !keep(s[5])
    ensures Filter(s, keep) == [s[0], s[3]]
  {
    FilterOfSix(s, keep);
  }

  /** A customer's menu: Dashboard, Pesan Laundry and My Orders. */
  lemma CustomerMenu()
    ensures MenuFor(Some("customer")) == [MenuItems[0], MenuItems[4], MenuItems[5]]
  {
    assert ShownTo(MenuItems[0], Some("customer"));
    assert !ShownTo(MenuItems[1], Some("customer"));
    assert !ShownTo(MenuItems[2], Some("customer"));
    assert !ShownTo(MenuItems[3], Some("customer"));
    assert ShownTo(MenuItems[4], Some("customer"));
    assert ShownTo(MenuItems[5], Some("customer"));
    CustomerShape(MenuItems, Shows(Some("customer")));
  }

  /** An administrator's menu: Dashboard, Orders & POS, Services and
      Logistics; the user table has no entry. */
  lemma AdminMenu()
    ensures MenuFor(Some("admin")) == [MenuItems[0], MenuItems[1], MenuItems[2], MenuItems[3]]
  {
    assert ShownTo(MenuItems[0], Some("admin"));
    assert ShownTo(MenuItems[1], Some("admin"));
    assert ShownTo(MenuItems[2], Some("admin"));
    assert ShownTo(MenuItems[3], Some("admin"));
    assert !ShownTo(MenuItems[4], Some("admin"));
    assert !ShownTo(MenuItems[5], Some("admin"));
    AdminShape(MenuItems, Shows(Some("admin")));
  }

  /** A cashier's menu: Dashboard and Orders & POS. */
  lemma CashierMenu()
    ensures MenuFor(Some("cashier")) == [MenuItems[0], MenuItems[1]]
  {
    assert ShownTo(MenuItems[0], Some("cashier"));
    assert ShownTo(MenuItems[1], Some("cashier"));
    assert !ShownTo(MenuItems[2], Some("cashier"));
    assert !ShownTo(MenuItems[3], Some("cashier"));
    assert !ShownTo(MenuItems[4], Some("cashier"));
    assert !ShownTo(MenuItems[5], Some("cashier"));
    CashierShape(MenuItems, Shows(Some("cashier")));
  }

  /** A driver's menu: Dashboard and Logistics. */
  lemma DriverMenu()
    ensures MenuFor(Some("driver")) == [MenuItems[0], MenuItems[3]]
  {
    assert ShownTo(MenuItems[0], Some("driver"));
    assert !ShownTo(MenuItems[1], Some("driver"));
    assert !ShownTo(MenuItems[2], Some("driver"));
    assert ShownTo(MenuItems[3], Some("driver"));
    assert !ShownTo(MenuItems[4], Some("driver"));
    assert !ShownTo(MenuItems[5], Some("driver"));
    DriverShape(MenuItems, Shows(Some("driver")));
  }

  /** Without a user, or with a role no entry lists, the menu is empty:
      every entry has a role list. */
  lemma NoRoleNoMenu(user: Option<Storage.Account>)
    requires RoleOf(user).None? || RoleOf(user).value !in ["admin", "cashier", "customer", "driver"]
    ensures FilteredMenu(user) == []
  {
  }
}

/** The navigation sidebar: the layout's menu with every link moved under
    `/app`, the active-link and label rules, and the provider that holds
    whether the desktop sidebar is expanded. */
module Sidebar {
  import opened Wrappers
  import opened Seqs
  import Layout
  import Routes
  import Storage

  /** `adjustedMenuItems`: each entry with `/app` put in front of its link,
      everything else as it was. */
  function AdjustHrefs(items: seq<Layout.MenuItem>): (r: seq<Layout.MenuItem>)
    ensures |r| == |items|
    ensures forall i :: 0 <= i < |r| ==> r[i] == items[i].(href := "/app" + items[i].href)
  {
    seq(|items|, i requires 0 <= i < |items| => items[i].(href := "/app" + items[i].href))
  }

  /** A link is highlighted when the current path is exactly its target. */
  predicate IsActive(pathname: string, href: string)
  {
    pathname == href
  }

  function Href(item: Layout.MenuItem): string { item.href }

  /** No two entries of the table share a link. */
  predicate HrefsDistinct(items: seq<Layout.MenuItem>)
  {
    forall i, j :: 0 <= i < j < |items| ==> items[i].href != items[j].href
  }

  lemma MenuHrefsDistinct()
    ensures HrefsDistinct(Layout.MenuItems)
  {
  }

  /** Every user's menu links to different pages. */
  lemma FilteredHrefsDistinct(user: Option<Storage.Account>)
    ensures HrefsDistinct(Layout.FilteredMenu(user))
  {
    MenuHrefsDistinct();
    FilterKeepsHrefsDistinct(Layout.MenuItems, Layout.Shows(Layout.RoleOf(user)));
  }

  lemma FilterKeepsHrefsDistinct(items: seq<Layout.MenuItem>, keep: Layout.MenuItem -> bool)
    requires HrefsDistinct(items)
    ensures HrefsDistinct(Filter(items, keep))
  {
    FilterKeepsKeysDistinct(items, keep, Href);
  }

  /** On the page of one of the links, that link and no other is
      highlighted. */
  lemma OneActiveLink(items: seq<Layout.MenuItem>, i: int)
    requires HrefsDistinct(items) && 0 <= i < |items|
    ensures var links := AdjustHrefs(items);
            forall j :: 0 <= j < |links| ==> (IsActive(links[i].href, links[j].href) <==> j == i)
  {
    var links := AdjustHrefs(items);
    forall j | 0 <= j < |links| && IsActive(links[i].href, links[j].href) ensures j == i {
      assert links[i].href[4..] == items[i].href;
      assert links[j].href[4..] == items[j].href;
    }
  }

  /** A menu link under `/app` shows to any signed-in user. */
  lemma LinkShows(href: string, user: Option<Storage.Account>)
    requires user.Some?
    requires href in ["/dashboard", "/orders", "/services", "/logistics", "/new-order", "/my-orders"]
    ensures Routes.Resolve("/app" + href, user).Show?
  {
    var rest := href[1..];
    assert "/app" + href == "/app/" + rest;
    PageShows(rest, user);
  }

  /** The pages the menu links to need only a signed-in user. */
  lemma PageShows(rest: string, user: Option<Storage.Account>)
    requires user.Some?
    requires rest in ["dashboard", "orders", "services", "logistics", "new-order", "my-orders"]
    ensures Routes.Resolve("/app/" + rest, user).Show?
  {
    assert '/' !in rest;
    assert |rest| > 7 ==> rest[..7][6] != '/' && rest[..7] != "orders/";
    Routes.SignInOnlyPagesShow(rest, user);
  }


  /** Every link of the menu leads to a page that shows to any signed-in
      user: no entry sends its user back to the dashboard. */
  lemma MenuLinksShow(user: Option<Storage.Account>, i: int)
    requires user.Some? && 0 <= i < |Layout.MenuItems|
    ensures Routes.Resolve(AdjustHrefs(Layout.MenuItems)[i].href, user).Show?
  {
    LinkShows(Layout.MenuItems[i].href, user);
  }

  /** What `useSidebar` hands to its caller. */
  datatype Context = Context(open: bool, animate: bool, isMobile: bool)

  datatype Hook = Provided(context: Context) | Thrown(message: string)

  /** `useSidebar`: outside a provider it throws. */
  function UseSidebar(provided: Option<Context>): (r: Hook)
    ensures r.Thrown? <==> provided.None?
    ensures r.Thrown? ==> r.message == "useSidebar must be used within a SidebarProvider"
    ensures r.Provided? ==> r.context == provided.value
  {
    match provided
    case None => Thrown("useSidebar must be used within a SidebarProvider")
    case Some(c) => Provided(c)
  }

  /** A link's label shows on mobile (by prop or by context) or when the
      sidebar is expanded. */
  predicate ShowText(isMobileProp: bool, ctx: Context)
  {
    isMobileProp || ctx.isMobile || ctx.open
  }

  /** The desktop sidebar's width: 280 pixels when it does not animate or
      is expanded, 84 when it animates and is collapsed. */
  function DesktopWidth(ctx: Context): (r: int)
    ensures r == 280 <==> !ctx.animate || ctx.open
    ensures r == 84 <==> ctx.animate && !ctx.open
  {
    if ctx.animate then (if ctx.open then 280 else 84) else 280
  }

  /** On the desktop a label shows exactly when the sidebar is expanded, so
      the narrow 84-pixel bar never carries labels; a bar that does not
      animate stays 280 pixels wide even with its labels hidden. */
  lemma LabelsOnlyWhenWide(ctx: Context)
    requires !ctx.isMobile
    ensures ShowText(false, ctx) <==> ctx.open
    ensures DesktopWidth(ctx) == 84 ==> !ShowText(false, ctx)
    ensures ShowText(false, ctx) ==> DesktopWidth(ctx) == 280
    ensures !ctx.animate && !ctx.open ==> DesktopWidth(ctx) == 280 && !ShowText(false, ctx)
  {
  }

  /** A `useState(false)` of the component that renders the sidebar. */
  class OpenState {
    var open: bool

    constructor (open0: bool)
      ensures open == open0
    {
      open := open0;
    }
  }

  /** Where the provider's `open` comes from: its own state, the caller's
      state, or a value fixed by the caller. */
  datatype OpenProp = NoOpenProp | FromCaller(state: OpenState) | FixedOpen(value: bool)

  /** `SidebarProvider`. */
  class SidebarProvider {
    var openState: bool
    const openProp: OpenProp
    /** The caller's state that `setOpen` writes, when the caller passes a
        setter. */
    const setOpenProp: Option<OpenState>
    const animate: bool
    const isMobile: bool

    /** `animate` and `isMobile` default to true and false. */
    constructor (openProp0: OpenProp, setOpenProp0: Option<OpenState>, animate0: Option<bool>, isMobile0: Option<bool>)
      ensures openState == false && openProp == openProp0 && setOpenProp == setOpenProp0
      ensures animate == animate0.GetOr(true) && isMobile == isMobile0.GetOr(false)
    {
      openState := false;
      openProp := openProp0;
      setOpenProp := setOpenProp0;
      animate := animate0.GetOr(true);
      isMobile := isMobile0.GetOr(false);
    }

    /** The `open` the provider hands out: the caller's when given, its own
        otherwise. */
    function Open(): bool
      reads this, if openProp.FromCaller? then {openProp.state} else {}
    {
      match openProp
      case NoOpenProp => openState
      case FromCaller(s) => s.open
      case FixedOpen(b) => b
    }

    function Ctx(): Context
      reads this, if openProp.FromCaller? then {openProp.state} else {}
    {
      Context(Open(), animate, isMobile)
    }

    /** The provider's `setOpen`: the caller's setter when given, its own
        otherwise. */
    method SetOpen(v: bool)
      modifies this, if setOpenProp.Some? then {setOpenProp.value} else {}
      ensures setOpenProp.Some? ==> setOpenProp.value.open == v && openState == old(openState)
      ensures setOpenProp.None? ==> openState == v
    {
      if setOpenProp.Some? {
        setOpenProp.value.open := v;
      } else {
        openState := v;
      }
    }
  }

  /** The sidebar of the signed-in layout: the provider reads and writes the
      layout's own state, so hovering expands it and leaving collapses it. */
  method HoverCycle() returns (expanded: int, collapsed: int, labelsWhileExpanded: bool, labelsWhileCollapsed: bool)
    ensures expanded == 280 && collapsed == 84
    ensures labelsWhileExpanded && !labelsWhileCollapsed
  {
    var state := new OpenState(false);
    var p := new SidebarProvider(FromCaller(state), Some(state), None, None);
    p.SetOpen(true);
    expanded := DesktopWidth(p.Ctx());
    labelsWhileExpanded := ShowText(false, p.Ctx());
    p.SetOpen(false);
    collapsed := DesktopWidth(p.Ctx());
    labelsWhileCollapsed := ShowText(false, p.Ctx());
  }

  /** The provider inside the mobile drawer is pinned open and marked
      mobile: its labels always show, whatever `setOpen` is called with. */
  method MobileDrawer(v: bool) returns (open: bool, labels: bool)
    ensures open && labels
  {
    var p := new SidebarProvider(FixedOpen(true), None, None, Some(true));
    p.SetOpen(v);
    open := p.Open();
    labels := ShowText(false, p.Ctx());
  }
}

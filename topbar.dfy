/** The top bar: the theme switch, and the bell with the notification
    list, per-entry delete and "Hapus Semua" (delete all). */
module Topbar {
  import opened Wrappers
  import opened Seqs
  import opened Notifications

  /** The bell's badge: shown when there are notifications, with their
      number. */
  function Badge(s: seq<Notification>): (r: Option<nat>)
    ensures r.Some? <==> s != []
    ensures r.Some? ==> r.value == |s|
  {
    if |s| > 0 then Some(|s|) else None
  }

  /** The icon beside an entry in the list. */
  datatype ListIcon = CheckIcon | PackageIcon

  function EntryIcon(n: Notification): (r: ListIcon)
    ensures r == CheckIcon <==> n.kind == Some("success")
  {
    if n.kind == Some("success") then CheckIcon else PackageIcon
  }

  /** The theme switch: dark becomes light, anything else (light, system,
      not yet known) becomes dark. */
  function ToggledTheme(theme: Option<string>): (r: string)
    ensures r == "light" <==> theme == Some("dark")
    ensures r == "dark" <==> theme != Some("dark")
  {
    if theme == Some("dark") then "light" else "dark"
  }

  /** Toggling twice from a set theme lands on dark or light again. */
  lemma ToggleTwice(theme: string)
    requires theme == "dark" || theme == "light"
    ensures ToggledTheme(Some(ToggledTheme(Some(theme)))) == theme
  {
  }

  /** The delete button of one entry removes that entry's id only. */
  method DeleteEntry(store: NotificationStore, n: Notification)
    modifies store
    ensures store.notifications == Without(old(store.notifications), n.id)
  {
    store.Remove(n.id);
  }

  function IdsOf(s: seq<Notification>): (r: seq<int>)
    ensures |r| == |s| && forall i :: 0 <= i < |s| ==> r[i] == s[i].id
  {
    seq(|s|, i requires 0 <= i < |s| => s[i].id)
  }

  function NotAmong(ids: seq<int>): Notification -> bool
  {
    (n: Notification) => n.id !in ids
  }

  /** What is left of the store after "Hapus Semua" has removed the ids of
      the first `k` listed entries. */
  function Remaining(shown: seq<Notification>, k: int): seq<Notification>
    requires 0 <= k <= |shown|
  {
    Filter(shown, NotAmong(IdsOf(shown)[..k]))
  }

  /** Before any removal the whole list is left. */
  lemma ClearStart(shown: seq<Notification>)
    ensures Remaining(shown, 0) == shown
  {
    assert IdsOf(shown)[..0] == [];
    FilterKeepsAll(shown, NotAmong([]));
  }

  /** One more removal in "Hapus Semua" drops one more id. */
  lemma ClearStep(shown: seq<Notification>, k: int)
    requires 0 <= k < |shown|
    ensures Without(Remaining(shown, k), shown[k].id) == Remaining(shown, k + 1)
  {
    var ids := IdsOf(shown);
    assert ids[..k + 1] == ids[..k] + [shown[k].id];
    FilterCompose(shown, NotAmong(ids[..k]), OtherId(shown[k].id), NotAmong(ids[..k + 1]));
  }

  /** Once every listed id is removed, nothing of the list is left. */
  lemma ClearEnd(shown: seq<Notification>)
    ensures Remaining(shown, |shown|) == []
  {
    var ids := IdsOf(shown);
    assert ids[..|shown|] == ids;
    forall n | n in shown ensures !NotAmong(ids)(n) {
      var i :| 0 <= i < |shown| && shown[i] == n;
      assert ids[i] == n.id;
    }
    FilterDropsAll(shown, NotAmong(ids));
  }

  /** "Hapus Semua": `removeNotification` for each entry of the list as it
      was when the button was clicked. After the k-th call the list holds
      the entries whose id none of the first k entries carries; at the end
      it is empty. */
  method ClearAll(store: NotificationStore)
    modifies store
    ensures store.notifications == []
  {
    var shown := store.notifications;
    ClearStart(shown);
    var k := 0;
    while k < |shown|
      invariant 0 <= k <= |shown|
      invariant store.notifications == Remaining(shown, k)
    {
      ClearStep(shown, k);
      store.Remove(shown[k].id);
      k := k + 1;
    }
    ClearEnd(shown);
  }
}

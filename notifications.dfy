/** The notification store shared by every page (`useNotificationStore`)
    and the toasts that show its entries. */
module Notifications {
  import opened Wrappers
  import opened Seqs

  /** What a caller passes to `addNotification`; every field is optional. */
  datatype Draft = Draft(id: Option<int>, title: Option<string>, description: Option<string>, kind: Option<string>)

  /** A stored notification. */
  datatype Notification = Notification(id: int, title: Option<string>, description: Option<string>, kind: Option<string>)

  /** `{ id: Date.now(), ...notification }`: the caller's fields, and the
      clock's reading as the id unless the caller gave one. */
  function Stamp(d: Draft, now: int): (r: Notification)
    ensures r.id == (if d.id.Some? then d.id.value else now)
    ensures r.title == d.title && r.description == d.description && r.kind == d.kind
  {
    Notification(d.id.GetOr(now), d.title, d.description, d.kind)
  }

  function OtherId(id: int): Notification -> bool
  {
    (n: Notification) => n.id != id
  }

  /** The list without the entries carrying `id`, in order. */
  function Without(s: seq<Notification>, id: int): (r: seq<Notification>)
    ensures forall i :: 0 <= i < |r| ==> r[i] in s && r[i].id != id
    ensures forall i | 0 <= i < |s| :: s[i].id != id ==> s[i] in r
  {
    Filter(s, OtherId(id))
  }

  /** Removing an id no entry carries changes nothing. */
  lemma RemoveAbsent(s: seq<Notification>, id: int)
    requires forall i :: 0 <= i < |s| ==> s[i].id != id
    ensures Without(s, id) == s
  {
    FilterKeepsAll(s, OtherId(id));
  }

  /** Removing the same id twice is removing it once. */
  lemma RemoveIdempotent(s: seq<Notification>, id: int)
    ensures Without(Without(s, id), id) == Without(s, id)
  {
    FilterCompose(s, OtherId(id), OtherId(id), OtherId(id));
  }

  /** Removal keeps relative order: it works piece by piece. */
  lemma RemoveKeepsOrder(a: seq<Notification>, b: seq<Notification>, id: int)
    ensures Without(a + b, id) == Without(a, id) + Without(b, id)
  {
    FilterAppend(a, b, OtherId(id));
  }

  class NotificationStore {
    var notifications: seq<Notification>

    constructor ()
      ensures notifications == []
    {
      notifications := [];
    }

    /** `addNotification`; the clock's reading is a parameter. */
    method Add(d: Draft, now: int)
      modifies this
      ensures notifications == old(notifications) + [Stamp(d, now)]
    {
      notifications := notifications + [Stamp(d, now)];
    }

    /** `removeNotification`: every entry with that id goes, the others stay
        in order. */
    method Remove(id: int)
      modifies this
      ensures notifications == Without(old(notifications), id)
    {
      notifications := Without(notifications, id);
    }
  }

  /** A toast's type: 'info' when the notification has none. */
  function ToastKind(n: Notification): (r: string)
    ensures n.kind.None? ==> r == "info"
    ensures n.kind.Some? ==> r == n.kind.value
  {
    n.kind.GetOr("info")
  }

  datatype Icon = CheckCircle | AlertCircle | InfoIcon

  /** The toast's icon: success and error each have one, anything else
      gets the information icon. */
  function ToastIcon(kind: string): (r: Icon)
    ensures r == CheckCircle <==> kind == "success"
    ensures r == AlertCircle <==> kind == "error"
    ensures r == InfoIcon <==> kind != "success" && kind != "error"
  {
    if kind == "success" then CheckCircle
    else if kind == "error" then AlertCircle
    else InfoIcon
  }

  /** A toast that closes (`onOpenChange(false)`) removes its notification;
      one that opens changes nothing. */
  method ToastOpenChange(store: NotificationStore, n: Notification, open: bool)
    modifies store
    ensures store.notifications == if open then old(store.notifications) else Without(old(store.notifications), n.id)
  {
    if !open {
      store.Remove(n.id);
    }
  }
}

/** The fixed order of laundry stages and everything the pages derive from
    an order's status: the progress tracker, the timeline, the status
    colour tables and the status dropdowns. */
module Stages {
  import Text

  /** The seven stages, in the order the progress tracker draws them. */
  const StatusSteps: seq<string> :=
    ["pending", "washing", "drying", "ironing", "ready_for_delivery", "delivery", "completed"]

  /** The stages are pairwise distinct, so a status has at most one position. */
  lemma StepsDistinct()
    ensures forall i, j :: 0 <= i < j < |StatusSteps| ==> StatusSteps[i] != StatusSteps[j]
  {
  }

  /** `seq.findIndex(x => x == key)`: first position of `key`, or -1. */
  function FindIndex(s: seq<string>, key: string): (r: int)
    ensures -1 <= r < |s|
    ensures r == -1 <==> key !in s
    ensures r >= 0 ==> s[r] == key && key !in s[..r]
  {
    if s == [] then -1
    else if s[0] == key then 0
    else
      var k := FindIndex(s[1..], key);
      assert s[1..] == s[1..][..|s| - 1];
      if k == -1 then -1
      else
        assert s[..k + 1] == [s[0]] + s[1..][..k];
        k + 1
  }

  /** `currentStatusIndex`: the position of the status among the stages,
      or -1 for a status the client does not know. */
  function StatusIndex(status: string): (r: int)
    ensures -1 <= r < |StatusSteps|
    ensures r == -1 <==> status !in StatusSteps
    ensures r >= 0 ==> StatusSteps[r] == status
  {
    FindIndex(StatusSteps, status)
  }

  /** Stage `step` is drawn as completed. */
  predicate IsCompleted(step: nat, status: string)
  {
    step <= StatusIndex(status)
  }

  /** Stage `step` is drawn as the current one. */
  predicate IsCurrent(step: nat, status: string)
  {
    step == StatusIndex(status)
  }

  /** The completed stages form a prefix of the list, every stage up to and
      including the status' own, and an unknown status completes none. */
  lemma CompletedIsPrefix(status: string, i: nat, j: nat)
    requires i <= j < |StatusSteps|
    ensures IsCompleted(j, status) ==> IsCompleted(i, status)
    ensures status in StatusSteps ==> IsCompleted(j, status) == (StatusSteps[j] in StatusSteps[..StatusIndex(status) + 1])
    ensures status !in StatusSteps ==> !IsCompleted(i, status)
  {
    if status in StatusSteps {
      StepsDistinct();
      PrefixMembership(StatusSteps, StatusIndex(status), j);
    }
  }

  /** In a sequence without repeats, an element lies in the prefix ending
      at position `k` exactly when its own position is at most `k`. */
  lemma PrefixMembership(s: seq<string>, k: int, j: nat)
    requires forall a, b :: 0 <= a < b < |s| ==> s[a] != s[b]
    requires 0 <= k < |s| && j < |s|
    ensures (j <= k) == (s[j] in s[..k + 1])
  {
    if j <= k {
      assert s[..k + 1][j] == s[j];
    } else {
      var prefix := s[..k + 1];
      forall m | 0 <= m < |prefix| ensures prefix[m] != s[j] {
        assert prefix[m] == s[m];
      }
    }
  }

  /** The stages drawn as current: exactly one for a known status, none for
      an unknown one. */
  function CurrentSteps(status: string): (r: set<nat>)
    ensures status in StatusSteps ==> |r| == 1 && StatusIndex(status) in r
    ensures status !in StatusSteps ==> r == {}
    ensures forall i: nat :: i in r <==> i < |StatusSteps| && IsCurrent(i, status)
  {
    PositionsEqualTo(|StatusSteps|, StatusIndex(status))
  }

  /** The positions below `n` equal to `k`: just `k` when it is one of
      them, none otherwise. */
  function PositionsEqualTo(n: nat, k: int): (r: set<nat>)
    ensures forall i: nat :: i in r <==> i < n && i == k
  {
    if 0 <= k < n then {k as nat} else {}
  }

  /** The width of the filled part of the tracker, in percent:
      `(currentStatusIndex / (statusSteps.length - 1)) * 100`. */
  function ProgressWidth(status: string): real
  {
    Percent(StatusIndex(status), |StatusSteps| - 1)
  }

  /** `(index / last) * 100`. */
  function Percent(index: int, last: int): real
    requires last != 0
  {
    (index as real / last as real) * 100.0
  }

  /** The fill goes from 0 at `pending` to 100 at `completed`, grows with
      the stage, and stays within 0..100 for every known status. */
  lemma ProgressWidthBounds(a: string, b: string)
    requires a in StatusSteps && b in StatusSteps
    ensures ProgressWidth("pending") == 0.0 && ProgressWidth("completed") == 100.0
    ensures StatusIndex(a) <= StatusIndex(b) ==> ProgressWidth(a) <= ProgressWidth(b)
    ensures 0.0 <= ProgressWidth(a) <= 100.0
  {
    EndWidths();
    WidthFormula(a);
    WidthFormula(b);
  }

  lemma EndWidths()
    ensures ProgressWidth("pending") == 0.0 && ProgressWidth("completed") == 100.0
  {
    PositionOfStep(0);
    PositionOfStep(6);
    WidthFormula(StatusSteps[0]);
    WidthFormula(StatusSteps[6]);
  }

  /** Each stage's position is its place in the list. */
  lemma PositionOfStep(i: nat)
    requires i < |StatusSteps|
    ensures StatusIndex(StatusSteps[i]) == i
  {
    StepsDistinct();
  }

  lemma WidthFormula(status: string)
    ensures ProgressWidth(status) == StatusIndex(status) as real * 100.0 / 6.0
  {
    PercentOfSix(StatusIndex(status));
  }

  lemma PercentOfSix(index: int)
    ensures Percent(index, 6) == index as real * 100.0 / 6.0
  {
  }

  /** For a status outside the list the formula yields -100/6 percent, a
      negative width that the style sheet rejects, so no fill is drawn. */
  lemma UnknownStatusWidth(status: string)
    requires status !in StatusSteps
    ensures ProgressWidth(status) == -100.0 / 6.0
  {
    WidthFormula(status);
  }

  /** One entry of an order's tracking history, newest first. */
  datatype TrackingLog = TrackingLog(status: string, description: string)

  /** Only the newest entry (index 0) of the timeline is highlighted. */
  predicate IsHighlighted(idx: nat)
  {
    idx == 0
  }

  /** The positions of a timeline that are drawn highlighted. */
  function HighlightedEntries(logs: seq<TrackingLog>): set<nat>
  {
    set i: nat | i < |logs| && IsHighlighted(i)
  }

  /** A timeline with entries highlights exactly one of them, the newest;
      an empty one highlights none. */
  lemma OneEntryHighlighted(logs: seq<TrackingLog>)
    ensures HighlightedEntries(logs) == if logs == [] then {} else {0}
    ensures |HighlightedEntries(logs)| == if logs == [] then 0 else 1
  {
    if logs != [] {
      assert 0 in HighlightedEntries(logs);
    }
  }

  /** Timeline text on the customer's order page: the description, or a
      sentence built from the status when the description is empty. */
  function CustomerLogText(log: TrackingLog): (r: string)
    ensures log.description != [] ==> r == log.description
    ensures log.description == [] ==> r == "Pesanan beralih ke status " + Text.Humanize(log.status)
  {
    if log.description != [] then log.description
    else "Pesanan beralih ke status " + Text.Humanize(log.status)
  }

  /** Timeline text on the cashier's order page: the description, or a
      sentence with the upper-cased status when the description is empty. */
  function CashierLogText(log: TrackingLog): (r: string)
    ensures log.description != [] ==> r == log.description
    ensures log.description == [] ==> r == "Sistem memperbarui status pesanan menjadi " + Text.Upper(log.status) + "."
  {
    if log.description != [] then log.description
    else "Sistem memperbarui status pesanan menjadi " + Text.Upper(log.status) + "."
  }

  /** A colour table keyed by status with a fallback class for any other key. */
  function StyleFor(table: map<string, string>, status: string, fallback: string): (r: string)
    ensures status in table ==> r == table[status]
    ensures status !in table ==> r == fallback
  {
    if status in table then table[status] else fallback
  }

  /** `getStatusStyles` in the customer's order list. */
  const PortalStyles: map<string, string> := map[
    "pending" := "bg-amber-50 text-amber-700 border-amber-100",
    "washing" := "bg-orange-50 text-orange-700 border-orange-100",
    "drying" := "bg-orange-100 text-orange-800 border-orange-200",
    "ironing" := "bg-orange-200 text-orange-900 border-orange-300",
    "ready_for_delivery" := "bg-orange-50 text-orange-700 border-orange-100",
    "delivery" := "bg-orange-600 text-white border-orange-600",
    "completed" := "bg-emerald-50 text-emerald-700 border-emerald-100"
  ]
  const PortalFallback := "bg-slate-50 text-slate-700 border-slate-100"

  /** `getStatusBadge` in the cashier's order list (without the shared
      layout classes that `cn` prepends). */
  const BadgeStyles: map<string, string> := map[
    "pending" := "bg-amber-100 text-amber-700",
    "washing" := "bg-blue-100 text-blue-700",
    "drying" := "bg-cyan-100 text-cyan-700",
    "ironing" := "bg-indigo-100 text-indigo-700",
    "ready_for_delivery" := "bg-orange-100 text-orange-700",
    "delivery" := "bg-orange-600 text-white",
    "completed" := "bg-emerald-100 text-emerald-700"
  ]
  const BadgeFallback := "bg-slate-100 text-slate-600"

  /** Both colour tables cover exactly the seven stages, so every known
      status has its own colour and every other string gets the slate
      fallback, which no stage uses. */
  lemma StyleTablesCoverStages(status: string)
    ensures status in PortalStyles <==> status in StatusSteps
    ensures status in BadgeStyles <==> status in StatusSteps
    ensures status !in StatusSteps ==> StyleFor(PortalStyles, status, PortalFallback) == PortalFallback
    ensures status !in StatusSteps ==> StyleFor(BadgeStyles, status, BadgeFallback) == BadgeFallback
    ensures PortalFallback !in PortalStyles.Values && BadgeFallback !in BadgeStyles.Values
  {
    PortalKeys();
    BadgeKeys();
    FallbacksUnused();
  }

  lemma PortalKeys()
    ensures forall status :: status in PortalStyles <==> status in StatusSteps
  {
    assert PortalStyles.Keys == set s | s in StatusSteps;
  }

  lemma BadgeKeys()
    ensures forall status :: status in BadgeStyles <==> status in StatusSteps
  {
    assert BadgeStyles.Keys == set s | s in StatusSteps;
  }

  lemma FallbacksUnused()
    ensures PortalFallback !in PortalStyles.Values && BadgeFallback !in BadgeStyles.Values
  {
  }

  /** What a controlled `<select>` shows: the option equal to its value, or
      the first option when no option matches (React then selects the first
      enabled option). */
  function DisplayedOption(options: seq<string>, value: string): (r: string)
    requires options != []
    ensures r in options
    ensures value in options ==> r == value
    ensures value !in options ==> r == options[0]
  {
    if value in options then value else options[0]
  }

  /** The status dropdown of the cashier's order modal, as written: six
      options, without `delivery`. */
  const CashierStatusOptionsAsWritten: seq<string> :=
    ["pending", "washing", "drying", "ironing", "ready_for_delivery", "completed"]

  /** The status dropdown of the order detail page: all seven stages. */
  const DetailStatusOptions: seq<string> := StatusSteps

  /** As written, an order that is out for delivery is shown in the cashier
      modal as `pending`, and `delivery` cannot be chosen there. */
  lemma CashierDropdownHidesDelivery()
    ensures "delivery" in StatusSteps && "delivery" !in CashierStatusOptionsAsWritten
    ensures DisplayedOption(CashierStatusOptionsAsWritten, "delivery") == "pending"
  {
    assert StatusSteps[5] == "delivery";
  }

  /** The cashier dropdown with every stage, as on the detail page. */
  const CashierStatusOptions: seq<string> := StatusSteps

  /** With every stage listed, both dropdowns show each known status as
      itself and offer every stage. */
  lemma StatusDropdownsShowEveryStage(status: string)
    requires status in StatusSteps
    ensures DisplayedOption(CashierStatusOptions, status) == status
    ensures DisplayedOption(DetailStatusOptions, status) == status
    ensures forall s :: s in StatusSteps ==> s in CashierStatusOptions && s in DetailStatusOptions
  {
  }
}

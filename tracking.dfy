/** The two public order trackers: the tracking page and the tracker on the
    landing page. Both clean the typed id down to its digits, ask
    `/tracking/:id`, and show the order's stage and log or an error; the
    landing page also has the FAQ accordion. */
module Tracking {
  import opened Wrappers
  import opened Text
  import Api
  import Stages

  /** `orderId.trim().replace(/[^0-9]/g, '')`. */
  function CleanId(input: string): (r: string)
    ensures AllDigits(r)
    ensures r == Digits(input)
  {
    DigitsTrim(input);
    Digits(Trim(input))
  }

  /** The order number as printed on receipts, `#ORD-<id>`. */
  function ReceiptLabel(id: nat): string
  {
    "#ORD-" + NatToString(id)
  }

  /** Typing the receipt label, with any surrounding blanks, tracks the
      order it names: cleaning recovers the id's decimal form. */
  lemma {:induction false} CleanReceiptLabel(id: nat, before: string, after: string)
    requires forall i :: 0 <= i < |before| ==> IsSpace(before[i])
    requires forall i :: 0 <= i < |after| ==> IsSpace(after[i])
    ensures CleanId(before + ReceiptLabel(id) + after) == NatToString(id)
    ensures ParseDigits(CleanId(before + ReceiptLabel(id) + after)) == id
  {
    var printed := ReceiptLabel(id);
    BlanksHaveNoDigits(before);
    BlanksHaveNoDigits(after);
    LabelDigits(id);
    DigitsAppend(before + printed, after);
    DigitsAppend(before, printed);
    ParseNatToString(id);
  }

  /** The digits of a receipt label are the id's decimal form. */
  lemma LabelDigits(id: nat)
    ensures Digits(ReceiptLabel(id)) == NatToString(id)
  {
    DigitsAppend("#ORD-", NatToString(id));
    DigitsOfNonDigits("#ORD-");
    DigitsOfDigits(NatToString(id));
  }

  /** Blanks carry no digits. */
  lemma BlanksHaveNoDigits(s: string)
    requires forall i :: 0 <= i < |s| ==> IsSpace(s[i])
    ensures Digits(s) == []
  {
    DigitsOfNonDigits(s);
  }

  /** Input with no digit at all is not looked up. */
  lemma NoDigitsNoLookup(input: string)
    requires forall i :: 0 <= i < |input| ==> !IsDigit(input[i])
    ensures CleanId(input) == []
  {
    DigitsOfNonDigits(input);
  }

  /** The tracked order's header and its log. */
  datatype TrackedOrder = TrackedOrder(status: string, customerName: string)
  datatype TrackingData = TrackingData(order: TrackedOrder, logs: seq<Stages.TrackingLog>)

  datatype TrackerKind = TrackingPage | LandingPage

  /** The error text after a failed lookup: the tracking page prefers the
      server's message; the landing page always shows its own. */
  function FailureText(kind: TrackerKind, msg: Option<string>): (r: string)
    ensures r != []
    ensures kind == LandingPage ==> r == LandingNotFound
    ensures kind == TrackingPage && msg.Some? && msg.value != [] ==> r == msg.value
    ensures kind == TrackingPage && (msg.None? || msg.value == []) ==> r == TrackingNotFound
  {
    match kind
    case TrackingPage => MessageOr(msg, TrackingNotFound)
    case LandingPage => LandingNotFound
  }

  /** The tracking page's own failure text. */
  const TrackingNotFound := "Order not found. Please check your Order ID."

  /** The landing page's failure text. */
  const LandingNotFound := "ID Pesanan tidak ditemukan. Mohon periksa kembali nomor pada struk Anda."

  const FaqCount := 4

  /** A click on FAQ question `i`: closes it when open, otherwise opens it
      and so closes whichever was open. */
  function ToggleFaq(active: Option<nat>, i: nat): (r: Option<nat>)
    ensures r == Some(i) <==> active != Some(i)
    ensures r.None? <==> active == Some(i)
  {
    if active == Some(i) then None else Some(i)
  }

  /** At most one answer is open: a click on another question leaves only
      that one open. Two clicks on the same question give back an open
      question when it was the open one; from any other state they leave
      every answer closed, so a question that was open before is not
      reopened. */
  lemma FaqAccordion(active: Option<nat>, i: nat, j: nat)
    requires i != j
    ensures ToggleFaq(ToggleFaq(active, i), j) == Some(j)
    ensures ToggleFaq(ToggleFaq(active, i), i) == if active == Some(i) then Some(i) else None
  {
  }

  /** Every piece of a tracker's state that changes, at one moment. */
  datatype TrackerState = TrackerState(
    input: string, trackingData: Option<TrackingData>, loading: bool, error: string,
    activeFaq: Option<nat>, sent: seq<Api.Request>)

  class Tracker {
    const kind: TrackerKind
    var input: string
    var trackingData: Option<TrackingData>
    var loading: bool
    var error: string
    var activeFaq: Option<nat>
    var sent: seq<Api.Request>

    /** The whole tracker state, so that each handler can say which parts
        it changes and that every other part stays as it was. */
    function State(): TrackerState
      reads this
    {
      TrackerState(input, trackingData, loading, error, activeFaq, sent)
    }

    constructor (k: TrackerKind)
      ensures kind == k
      ensures State() == TrackerState("", None, false, "", None, [])
    {
      kind := k;
      input := "";
      trackingData := None;
      loading := false;
      error := "";
      activeFaq := None;
      sent := [];
    }

    method Type(s: string)
      modifies this
      ensures State() == old(State()).(input := s)
    {
      input := s;
    }

    /** `handleTrack` up to the request: the submit button is disabled while
        loading, and input without digits sends nothing. Otherwise the old
        result and error are cleared and the digits are looked up. */
    method StartTrack() returns (started: bool)
      modifies this
      ensures started <==> !old(loading) && CleanId(old(input)) != []
      ensures started ==> State() == old(State()).(loading := true, error := "", trackingData := None,
                sent := old(sent) + [Api.Track(CleanId(old(input)))])
      ensures !started ==> State() == old(State())
    {
      if loading {
        return false;
      }
      var id := CleanId(input);
      if id == [] {
        return false;
      }
      loading := true;
      error := "";
      trackingData := None;
      sent := sent + [Api.Track(id)];
      return true;
    }

    /** The answer: the result is shown, or the page's failure text. */
    method FinishTrack(outcome: Outcome<TrackingData>)
      requires loading
      modifies this
      ensures outcome.Success? ==> State() == old(State()).(loading := false, trackingData := Some(outcome.data))
      ensures outcome.Failure? ==> State() == old(State()).(loading := false, error := FailureText(kind, outcome.msg))
    {
      if outcome.Success? {
        trackingData := Some(outcome.data);
      } else {
        error := FailureText(kind, outcome.msg);
      }
      loading := false;
    }

    /** A click on an FAQ question of the landing page touches nothing of
        the lookup. */
    method ClickFaq(i: nat)
      requires kind == LandingPage && i < FaqCount
      modifies this
      ensures State() == old(State()).(activeFaq := ToggleFaq(old(activeFaq), i))
    {
      activeFaq := ToggleFaq(activeFaq, i);
    }
  }
}

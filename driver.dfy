/** The driver's task list (`/app/logistics`): polled tasks, the shared
    name-or-id search, and one action button per task that picks the order
    up or confirms its delivery. */
module Driver {
  import opened Wrappers
  import opened Seqs
  import Search
  import Api

  datatype Task = Task(id: nat, customerName: Option<string>, status: string, customerPhone: Option<string>)

  /** `currentStatus === 'ready_for_delivery' ? 'pickup' : 'deliver'`: every
      other status, unknown ones included, gets the delivery call. */
  function Endpoint(status: string): (r: string)
    ensures r == "pickup" <==> status == "ready_for_delivery"
    ensures r == "pickup" || r == "deliver"
  {
    if status == "ready_for_delivery" then "pickup" else "deliver"
  }

  /** The button text goes with the call it makes. */
  function ActionLabel(status: string): (r: string)
    ensures r == "Mark as Picked Up" <==> Endpoint(status) == "pickup"
    ensures r == "Confirm Delivery" <==> Endpoint(status) == "deliver"
  {
    if status == "ready_for_delivery" then "Mark as Picked Up" else "Confirm Delivery"
  }

  function BadgeClass(status: string): (r: string)
    ensures r == "badge-primary" <==> status == "delivery"
  {
    if status == "delivery" then "badge-primary" else "badge-warning"
  }

  function TaskMatches(term: string): Task -> bool
  {
    (t: Task) => Search.NameOrIdMatches(t.customerName, t.id, term)
  }

  /** The tasks shown for a search term, in the server's order. */
  function FilterTasks(tasks: seq<Task>, term: string): (r: seq<Task>)
    ensures forall i :: 0 <= i < |r| ==> r[i] in tasks && Search.NameOrIdMatches(r[i].customerName, r[i].id, term)
    ensures forall i | 0 <= i < |tasks| ::
              Search.NameOrIdMatches(tasks[i].customerName, tasks[i].id, term) ==> tasks[i] in r
  {
    Filter(tasks, TaskMatches(term))
  }

  /** The empty-list message depends only on whether a search is typed. */
  function EmptyMessage(term: string): (r: string)
    ensures term == "" <==> r == "No delivery tasks available at the moment."
  {
    if term != "" then "Tidak ada tugas yang cocok dengan pencarian Anda."
    else "No delivery tasks available at the moment."
  }

  /** With nothing typed, every task is listed. */
  lemma EmptySearchListsAllTasks(tasks: seq<Task>)
    ensures FilterTasks(tasks, "") == tasks
  {
    forall t | t in tasks ensures TaskMatches("")(t) {
      Search.EmptyTermAndOwnIdMatch(t.customerName, t.id);
    }
    FilterKeepsAll(tasks, TaskMatches(""));
  }

  class DriverPage {
    var tasks: seq<Task>
    var loading: bool
    var searchTerm: string
    /** The id of the task whose request went out last, until a request
        finishes. */
    var updating: Option<nat>
    var sent: seq<Api.Request>

    constructor ()
      ensures tasks == [] && loading && searchTerm == "" && updating == None && sent == []
    {
      tasks := [];
      loading := true;
      searchTerm := "";
      updating := None;
      sent := [];
    }

    /** `fetchTasks`, on mount and every ten seconds. */
    method Refresh(outcome: Outcome<seq<Task>>)
      modifies this
      ensures tasks == if outcome.Success? then outcome.data else old(tasks)
      ensures !loading && updating == old(updating) && sent == old(sent) && searchTerm == old(searchTerm)
    {
      if outcome.Success? {
        tasks := outcome.data;
      }
      loading := false;
    }

    method SetSearch(term: string)
      modifies this
      ensures searchTerm == term
      ensures tasks == old(tasks) && updating == old(updating) && sent == old(sent) && loading == old(loading)
    {
      searchTerm := term;
    }

    /** Whether the action button of task `id` is disabled. */
    predicate ButtonDisabled(id: nat)
      reads this
    {
      updating == Some(id)
    }

    /** A click on a task's action button: ignored while that same task's
        button is disabled; otherwise the task becomes the updating one and
        its pickup or delivery call goes out. */
    method StartAction(t: Task) returns (started: bool)
      modifies this
      ensures started <==> !old(ButtonDisabled(t.id))
      ensures started ==> updating == Some(t.id) && sent == old(sent) + [Api.DriverAction(t.id, Endpoint(t.status))]
      ensures !started ==> updating == old(updating) && sent == old(sent)
      ensures tasks == old(tasks) && searchTerm == old(searchTerm) && loading == old(loading)
    {
      if updating == Some(t.id) {
        return false;
      }
      updating := Some(t.id);
      sent := sent + [Api.DriverAction(t.id, Endpoint(t.status))];
      return true;
    }

    /** The answer to any action clears the updating id, whichever task it
        belongs to; a success refreshes the list (a separate `Refresh`). */
    method FinishAction()
      modifies this
      ensures updating == None
      ensures tasks == old(tasks) && sent == old(sent) && searchTerm == old(searchTerm) && loading == old(loading)
    {
      updating := None;
    }
  }

  /** Two tasks clicked one after the other: when the first answer arrives
      the second task's button is enabled again although its request is
      still out, so it can be sent twice. */
  method OverlappingActions(p: DriverPage, a: Task, b: Task)
    requires a.id != b.id && p.updating == None
    modifies p
    ensures |p.sent| == |old(p.sent)| + 3
    ensures p.sent[|p.sent| - 1] == p.sent[|p.sent| - 2] == Api.DriverAction(b.id, Endpoint(b.status))
  {
    var first := p.StartAction(a);
    var second := p.StartAction(b);
    p.FinishAction();
    var third := p.StartAction(b);
  }

  /** The driver page with the in-flight requests kept per task: a task's
      button stays disabled until its own answer arrives. */
  class GuardedDriverPage {
    var inFlight: set<nat>
    var sent: seq<Api.Request>

    constructor ()
      ensures inFlight == {} && sent == []
    {
      inFlight := {};
      sent := [];
    }

    predicate ButtonDisabled(id: nat)
      reads this
    {
      id in inFlight
    }

    method StartAction(t: Task) returns (started: bool)
      modifies this
      ensures started <==> t.id !in old(inFlight)
      ensures started ==> inFlight == old(inFlight) + {t.id} && sent == old(sent) + [Api.DriverAction(t.id, Endpoint(t.status))]
      ensures !started ==> inFlight == old(inFlight) && sent == old(sent)
    {
      if t.id in inFlight {
        return false;
      }
      inFlight := inFlight + {t.id};
      sent := sent + [Api.DriverAction(t.id, Endpoint(t.status))];
      return true;
    }

    /** The answer for task `id` re-enables that task's button only. */
    method FinishAction(id: nat)
      modifies this
      ensures inFlight == old(inFlight) - {id}
      ensures sent == old(sent)
    {
      inFlight := inFlight - {id};
    }
  }

  /** The same clicks on the guarded page send each task's call once. */
  method OverlappingActionsGuarded(p: GuardedDriverPage, a: Task, b: Task)
    requires a.id != b.id && p.inFlight == {}
    modifies p
    ensures p.sent == old(p.sent) + [Api.DriverAction(a.id, Endpoint(a.status)), Api.DriverAction(b.id, Endpoint(b.status))]
    ensures p.ButtonDisabled(b.id) && !p.ButtonDisabled(a.id)
  {
    var first := p.StartAction(a);
    var second := p.StartAction(b);
    p.FinishAction(a.id);
    var third := p.StartAction(b);
  }
}

/** The administrator's service catalogue (`/app/services`): a searchable
    list, and one modal form that either adds a service or edits the one it
    was opened with. */
module Services {
  import opened Wrappers
  import opened Seqs
  import Search
  import Api
  import Cart

  function NameMatches(term: string): Cart.Service -> bool
  {
    (s: Cart.Service) => Search.TextMatches(s.name, term)
  }

  /** `filteredServices`: the services whose name contains the term,
      ignoring case, in list order. */
  function FilterServices(services: seq<Cart.Service>, term: string): (r: seq<Cart.Service>)
    ensures forall i :: 0 <= i < |r| ==> r[i] in services && Search.TextMatches(r[i].name, term)
    ensures forall i | 0 <= i < |services| :: Search.TextMatches(services[i].name, term) ==> services[i] in r
  {
    Filter(services, NameMatches(term))
  }

  /** The modal's form fields. The price field holds the number it shows,
      or None while it is blank; `parseFloat` of a blank field is NaN, which
      the payload carries as None. */
  datatype Form = Form(name: string, unit: string, price: Option<real>)

  const BlankForm: Form := Form("", "kg", None)

  /** The browser's own check before `onSubmit` fires: the name and the
      price inputs are `required`, and the price input is a `number` field
      without a `step`, so its value must be a whole number. */
  predicate FormAccepted(f: Form)
  {
    f.name != [] && f.price.Some? && f.price.value == f.price.value.Floor as real
  }

  /** The form a service opens with: its own name, unit and price. */
  function FormOf(s: Cart.Service): (r: Form)
    ensures r.name == s.name && r.unit == s.unit && r.price == Some(s.price)
  {
    Form(s.name, s.unit, Some(s.price))
  }

  /** `{ name, unit, price: parseFloat(price) }`. */
  function Payload(f: Form): (r: Api.ServicePayload)
    ensures r.name == f.name && r.unit == f.unit && r.price == f.price
  {
    Api.ServicePayload(f.name, f.unit, f.price)
  }

  /** The request a submit sends: an update of the service being edited,
      or a creation; the body is the same either way. */
  function SubmitRequest(editing: Option<Cart.Service>, f: Form): (r: Api.Request)
    ensures editing.Some? <==> r.UpdateService?
    ensures editing.None? <==> r.CreateService?
    ensures r.UpdateService? ==> r.serviceId == editing.value.id && r.payload == Payload(f)
    ensures r.CreateService? ==> r.payload == Payload(f)
  {
    match editing
    case Some(s) => Api.UpdateService(s.id, Payload(f))
    case None => Api.CreateService(Payload(f))
  }

  class ServicesPage {
    var services: seq<Cart.Service>
    var loading: bool
    var searchTerm: string
    var isModalOpen: bool
    var editingService: Option<Cart.Service>
    var form: Form
    var submitting: bool
    var sent: seq<Api.Request>

    constructor ()
      ensures services == [] && loading && searchTerm == "" && !isModalOpen && editingService == None
      ensures form == BlankForm && !submitting && sent == []
    {
      services := [];
      loading := true;
      searchTerm := "";
      isModalOpen := false;
      editingService := None;
      form := BlankForm;
      submitting := false;
      sent := [];
    }

    /** `fetchServices`, on mount and after every successful change. */
    method Load(outcome: Outcome<seq<Cart.Service>>)
      modifies this
      ensures services == if outcome.Success? then outcome.data else old(services)
      ensures !loading
      ensures isModalOpen == old(isModalOpen) && editingService == old(editingService) && form == old(form)
      ensures submitting == old(submitting) && sent == old(sent) && searchTerm == old(searchTerm)
    {
      if outcome.Success? {
        services := outcome.data;
      }
      loading := false;
    }

    method SetSearch(term: string)
      modifies this
      ensures searchTerm == term
      ensures services == old(services) && isModalOpen == old(isModalOpen) && editingService == old(editingService)
      ensures form == old(form) && submitting == old(submitting) && sent == old(sent) && loading == old(loading)
    {
      searchTerm := term;
    }

    /** `handleOpenModal`: with a service the form is filled from it and it
        becomes the one being edited; without one the form is reset to a
        blank kilogram service. The modal opens either way. */
    method OpenModal(service: Option<Cart.Service>)
      modifies this
      ensures editingService == service
      ensures form == if service.Some? then FormOf(service.value) else BlankForm
      ensures isModalOpen
      ensures services == old(services) && submitting == old(submitting) && sent == old(sent)
      ensures searchTerm == old(searchTerm) && loading == old(loading)
    {
      if service.Some? {
        editingService := service;
        form := FormOf(service.value);
      } else {
        editingService := None;
        form := BlankForm;
      }
      isModalOpen := true;
    }

    /** The close button: the form and the edited service are kept. */
    method CloseModal()
      modifies this
      ensures !isModalOpen
      ensures services == old(services) && editingService == old(editingService) && form == old(form)
      ensures submitting == old(submitting) && sent == old(sent) && searchTerm == old(searchTerm) && loading == old(loading)
    {
      isModalOpen := false;
    }

    /** Typing in the form's fields. */
    method EditForm(f: Form)
      modifies this
      ensures form == f
      ensures services == old(services) && editingService == old(editingService) && isModalOpen == old(isModalOpen)
      ensures submitting == old(submitting) && sent == old(sent) && searchTerm == old(searchTerm) && loading == old(loading)
    {
      form := f;
    }

    /** Submitting the form: ignored while the submit button is disabled by
        a submission in flight, and blocked by the browser while the form
        fails its own validation; otherwise the create-or-update request
        goes out. */
    method StartSubmit() returns (started: bool)
      modifies this
      ensures started <==> !old(submitting) && FormAccepted(old(form))
      ensures started ==> submitting && sent == old(sent) + [SubmitRequest(editingService, form)]
      ensures !started ==> submitting == old(submitting) && sent == old(sent)
      ensures services == old(services) && editingService == old(editingService) && form == old(form)
      ensures isModalOpen == old(isModalOpen) && searchTerm == old(searchTerm) && loading == old(loading)
    {
      if submitting || !FormAccepted(form) {
        return false;
      }
      submitting := true;
      sent := sent + [SubmitRequest(editingService, form)];
      return true;
    }

    /** The answer to a submission: a success closes the modal (and reloads
        the list, a separate `Load`), a failure leaves it open with the
        form as typed; submitting ends either way. */
    method FinishSubmit(outcome: Outcome<()>)
      modifies this
      ensures isModalOpen == (old(isModalOpen) && outcome.Failure?)
      ensures !submitting
      ensures services == old(services) && editingService == old(editingService) && form == old(form)
      ensures sent == old(sent) && searchTerm == old(searchTerm) && loading == old(loading)
    {
      if outcome.Success? {
        isModalOpen := false;
      }
      submitting := false;
    }

    /** `handleDelete`: only a confirmed deletion sends a request; the
        answer only reloads the list. */
    method Delete(id: int, confirmed: bool)
      modifies this
      ensures sent == if confirmed then old(sent) + [Api.DeleteService(id)] else old(sent)
      ensures services == old(services) && editingService == old(editingService) && form == old(form)
      ensures isModalOpen == old(isModalOpen) && submitting == old(submitting)
      ensures searchTerm == old(searchTerm) && loading == old(loading)
    {
      if confirmed {
        sent := sent + [Api.DeleteService(id)];
      }
    }
  }

  /** Opening a service and submitting the form as it was filled sends that
      service back to its own id, provided its name and price pass the
      browser's check; the empty form of a new service never passes it, so
      submitting it straight away sends nothing. */
  method EditThenSubmit(p: ServicesPage, s: Option<Cart.Service>)
    requires !p.submitting
    modifies p
    ensures s.Some? && FormAccepted(FormOf(s.value)) ==>
              p.sent == old(p.sent) + [Api.UpdateService(s.value.id, Api.ServicePayload(s.value.name, s.value.unit, Some(s.value.price)))]
    ensures s.None? || !FormAccepted(FormOf(s.value)) ==> p.sent == old(p.sent)
    ensures p.submitting <==> s.Some? && FormAccepted(FormOf(s.value))
    ensures p.isModalOpen
  {
    p.OpenModal(s);
    var started := p.StartSubmit();
  }
}

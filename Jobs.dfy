/**
 * The job record shared by the schedule page and the job dialog, and the
 * dialog's form state (`JobModal.tsx`): its initialisation from the job
 * being edited or from defaults, and the handlers that each replace the
 * form with a copy in which one thing has changed.
 */
module Jobs {
  import opened Options
  import Seqs

  datatype Job = Job(
    id: string,
    workOrderId: string,
    name: string,
    date: string,          // a calendar day as its "yyyy-MM-dd" key
    description: string,
    startTime: string,
    endTime: string,
    clientName: string,
    siteAddress: string,
    siteManager: string,
    crewMembers: seq<string>,
    completed: bool,
    rescheduled: bool,
    cancelled: bool,
    notes: Option<string>)

  datatype Client = Client(name: string, address: string)

  /** The dialog's dropdown contents. */
  const MockWorkOrders: seq<string> := ["12", "15"]
  const MockClients: seq<Client> := [
    Client("Client A", "123 Street Auburn,US,21311"),
    Client("Client B", "123 Street Auburn,US,21311")]
  const MockSiteManagers: seq<string> := ["Person A", "Person B", "Person C"]
  const MockCrewMembers: seq<string> := ["Crew A", "Crew B", "Crew C"]

  /** `clients.find(c => c.name === name)`: the first client with that name, if any. */
  function FindClient(clients: seq<Client>, name: string): (r: Option<Client>)
    ensures r.None? <==> forall k :: 0 <= k < |clients| ==> clients[k].name != name
    ensures r.Some? ==> r.value.name == name && r.value in clients
  {
    if clients == [] then None
    else if clients[0].name == name then Some(clients[0])
    else FindClient(clients[1..], name)
  }

  /** The client found is the first one carrying the name. */
  lemma {:induction false} FindClientIsFirst(clients: seq<Client>, name: string, k: nat)
    requires k < |clients| && clients[k].name == name
    requires forall j :: 0 <= j < k ==> clients[j].name != name
    ensures FindClient(clients, name) == Some(clients[k])
  {
    if k > 0 {
      FindClientIsFirst(clients[1..], name, k - 1);
    }
  }

  /**
   * The form for a new job: the first work order, the first client and its
   * address, the first site manager, a crew of the first crew member,
   * 10:00 to 17:00, no flags set and an empty note. `selectedDate` is the
   * clicked day's key, or none.
   */
  function DefaultForm(selectedDate: Option<string>): (r: Job)
    ensures r.id == "" && r.name == "" && r.description == ""
    ensures r.date == (if selectedDate.Some? then selectedDate.value else "")
    ensures r.workOrderId == MockWorkOrders[0]
    ensures FindClient(MockClients, r.clientName) == Some(Client(r.clientName, r.siteAddress))
    ensures r.clientName == MockClients[0].name
    ensures r.siteManager == MockSiteManagers[0]
    ensures r.crewMembers == [MockCrewMembers[0]]
    ensures r.startTime == "10:00" && r.endTime == "17:00"
    ensures !r.completed && !r.rescheduled && !r.cancelled
    ensures r.notes == Some("")
  {
    Job(
      id := "",
      workOrderId := MockWorkOrders[0],
      name := "",
      date := if selectedDate.Some? then selectedDate.value else "",
      description := "",
      startTime := "10:00",
      endTime := "17:00",
      clientName := MockClients[0].name,
      siteAddress := MockClients[0].address,
      siteManager := MockSiteManagers[0],
      crewMembers := [MockCrewMembers[0]],
      completed := false,
      rescheduled := false,
      cancelled := false,
      notes := Some(""))
  }

  /** What the form holds before the initialising effect first runs. */
  function BlankForm(): Job
  {
    Job("", "", "", "", "", "10:00", "17:00", "", "", "", [], false, false, false, Some(""))
  }

  /**
   * `handleClientChange`: picking a listed client sets the client name and
   * copies that client's address; any other name leaves the form as it was.
   */
  function ApplyClient(form: Job, name: string): (r: Job)
    ensures FindClient(MockClients, name).None? ==> r == form
    ensures FindClient(MockClients, name).Some? ==>
      r == form.(clientName := name, siteAddress := FindClient(MockClients, name).value.address)
    ensures FindClient(MockClients, name).Some? ==>
      FindClient(MockClients, r.clientName) == Some(Client(r.clientName, r.siteAddress))
  {
    match FindClient(MockClients, name)
    case None => form
    case Some(c) => form.(clientName := name, siteAddress := c.address)
  }

  /** The text inputs wired to the generic `handleChange`, named by their `name` attribute. */
  datatype TextField = SiteAddress | SiteManager | Name | Date | Description | StartTime | EndTime | Notes

  function GetText(job: Job, field: TextField): Option<string>
  {
    match field
    case SiteAddress => Some(job.siteAddress)
    case SiteManager => Some(job.siteManager)
    case Name => Some(job.name)
    case Date => Some(job.date)
    case Description => Some(job.description)
    case StartTime => Some(job.startTime)
    case EndTime => Some(job.endTime)
    case Notes => job.notes
  }

  /** `{ ...formData, [name]: value }` for a text input. */
  function SetText(job: Job, field: TextField, value: string): (r: Job)
    ensures GetText(r, field) == Some(value)
    ensures forall f :: f != field ==> GetText(r, f) == GetText(job, f)
    ensures r.id == job.id && r.workOrderId == job.workOrderId && r.clientName == job.clientName
    ensures r.crewMembers == job.crewMembers
    ensures r.completed == job.completed && r.rescheduled == job.rescheduled && r.cancelled == job.cancelled
  {
    match field
    case SiteAddress => job.(siteAddress := value)
    case SiteManager => job.(siteManager := value)
    case Name => job.(name := value)
    case Date => job.(date := value)
    case Description => job.(description := value)
    case StartTime => job.(startTime := value)
    case EndTime => job.(endTime := value)
    case Notes => job.(notes := Some(value))
  }

  /** The three status checkboxes. */
  datatype Flag = Completed | Rescheduled | Cancelled

  function GetFlag(job: Job, flag: Flag): bool
  {
    match flag
    case Completed => job.completed
    case Rescheduled => job.rescheduled
    case Cancelled => job.cancelled
  }

  /** `handleCheckboxChange`: `{ ...formData, [name]: checked }`. */
  function SetFlag(job: Job, flag: Flag, checked: bool): (r: Job)
    ensures GetFlag(r, flag) == checked
    ensures forall f :: f != flag ==> GetFlag(r, f) == GetFlag(job, f)
    ensures forall t :: GetText(r, t) == GetText(job, t)
    ensures r.(completed := job.completed, rescheduled := job.rescheduled, cancelled := job.cancelled) == job
  {
    match flag
    case Completed => job.(completed := checked)
    case Rescheduled => job.(rescheduled := checked)
    case Cancelled => job.(cancelled := checked)
  }

  /** The job dialog's `formData` state. */
  class JobModal {
    var formData: Job

    constructor ()
      ensures formData == BlankForm()
    {
      formData := BlankForm();
    }

    /** The initialising effect: the job being edited, or the defaults for a new one. */
    method Init(job: Option<Job>, selectedDate: Option<string>)
      modifies this
      ensures job.Some? ==> formData == job.value
      ensures job.None? ==> formData == DefaultForm(selectedDate)
    {
      if job.Some? {
        formData := job.value;
      } else {
        formData := DefaultForm(selectedDate);
      }
    }

    /** `handleChange` */
    method Change(field: TextField, value: string)
      modifies this
      ensures formData == SetText(old(formData), field, value)
    {
      formData := SetText(formData, field, value);
    }

    /** `handleWorkOrderChange`: only the work order changes. */
    method WorkOrderChange(workOrderId: string)
      modifies this
      ensures formData == old(formData).(workOrderId := workOrderId)
    {
      formData := formData.(workOrderId := workOrderId);
    }

    /** `handleClientChange` */
    method ClientChange(clientName: string)
      modifies this
      ensures formData == ApplyClient(old(formData), clientName)
    {
      formData := ApplyClient(formData, clientName);
    }

    /** `handleCheckboxChange` */
    method CheckboxChange(flag: Flag, checked: bool)
      modifies this
      ensures formData == SetFlag(old(formData), flag, checked)
    {
      formData := SetFlag(formData, flag, checked);
    }

    /** `handleCrewMemberToggle`: drop the member if listed, otherwise append it. */
    method CrewMemberToggle(crewMember: string)
      modifies this
      ensures formData == old(formData).(crewMembers := Seqs.Toggle(old(formData).crewMembers, crewMember))
      ensures crewMember in formData.crewMembers <==> crewMember !in old(formData).crewMembers
    {
      Seqs.ToggleMembership(formData.crewMembers, crewMember);
      formData := formData.(crewMembers := Seqs.Toggle(formData.crewMembers, crewMember));
    }

    /** `handleSubmit`: the form as it stands is what `onSave` receives. */
    method Submit() returns (saved: Job)
      ensures saved == formData
    {
      saved := formData;
    }
  }

  /** Toggling an unlisted crew member on and off again gives back the same form. */
  lemma CrewToggleTwice(form: Job, crewMember: string)
    requires crewMember !in form.crewMembers
    ensures
      var once := form.(crewMembers := Seqs.Toggle(form.crewMembers, crewMember));
      once.(crewMembers := Seqs.Toggle(once.crewMembers, crewMember)) == form
  {
    Seqs.ToggleTwiceAbsent(form.crewMembers, crewMember);
  }
}

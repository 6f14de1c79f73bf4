/** The decorator's projects page (`AssignedProjects`): the list of project
    statuses, the status badge, the update-status modal, and the split of the
    projects into today's schedule and the rest. */
module AssignedProjects {

  import opened Common
  import Seqs

  /** The statuses the select offers, in workflow order. */
  const ProjectStatuses: seq<string> :=
    ["assigned", "planning phase", "materials prepared",
     "on the way to venue", "setup in progress", "completed"]

  /** Six distinct statuses from "assigned" to "completed". */
  lemma StatusesDistinct()
    ensures |ProjectStatuses| == 6
    ensures ProjectStatuses[0] == "assigned" && ProjectStatuses[5] == "completed"
    ensures forall i, j :: 0 <= i < j < |ProjectStatuses| ==> ProjectStatuses[i] != ProjectStatuses[j]
  {
  }

  /** `project.projectStatus || 'assigned'`: the status shown in the cards,
      the table and the modal, and preselected when the modal opens. */
  function DisplayStatus(projectStatus: Option<string>): (s: string)
    ensures s != ""
    ensures Truthy(projectStatus) ==> s == projectStatus.value
    ensures !Truthy(projectStatus) ==> s == "assigned"
    ensures s in ProjectStatuses <==> !Truthy(projectStatus) || projectStatus.value in ProjectStatuses
  {
    OrElse(projectStatus, "assigned")
  }

  /** The badge class of a status: success for "completed", warning for
      "setup in progress", info for anything else. */
  function StatusBadge(projectStatus: Option<string>): (c: string)
    ensures c == "badge-success" <==> projectStatus == Some("completed")
    ensures c == "badge-warning" <==> projectStatus == Some("setup in progress")
    ensures c == "badge-info" <==> projectStatus != Some("completed") && projectStatus != Some("setup in progress")
  {
    if projectStatus == Some("completed") then "badge-success"
    else if projectStatus == Some("setup in progress") then "badge-warning"
    else "badge-info"
  }

  /** The condition of today's schedule. `dayOf` stands for
      `new Date(d).toDateString()` and `today` for the same applied to the
      current instant; both depend on the clock and the time zone. */
  function OnDay(dayOf: string -> string, today: string): Booking -> bool {
    (p: Booking) => dayOf(p.bookingDate) == today
  }

  /** The condition of the other projects. */
  function OffDay(dayOf: string -> string, today: string): Booking -> bool {
    (p: Booking) => dayOf(p.bookingDate) != today
  }

  /** `todaysProjects`: the projects booked for today, in list order. */
  function TodaysProjects(projects: seq<Booking>, dayOf: string -> string, today: string): (r: seq<Booking>)
    ensures forall i :: 0 <= i < |r| ==> r[i] in projects && dayOf(r[i].bookingDate) == today
    ensures forall i :: 0 <= i < |projects| && dayOf(projects[i].bookingDate) == today ==> projects[i] in r
  {
    Seqs.Filter(OnDay(dayOf, today), projects)
  }

  /** `otherProjects`: all the other projects, in list order. */
  function OtherProjects(projects: seq<Booking>, dayOf: string -> string, today: string): (r: seq<Booking>)
    ensures forall i :: 0 <= i < |r| ==> r[i] in projects && dayOf(r[i].bookingDate) != today
    ensures forall i :: 0 <= i < |projects| && dayOf(projects[i].bookingDate) != today ==> projects[i] in r
  {
    Seqs.Filter(OffDay(dayOf, today), projects)
  }

  /** The two lists partition the projects: every project is in exactly one
      of them, their lengths add up to the total, and together they hold
      each project as often as the list does. */
  lemma TodayOtherPartition(projects: seq<Booking>, dayOf: string -> string, today: string)
    ensures var t, o := TodaysProjects(projects, dayOf, today), OtherProjects(projects, dayOf, today);
            |t| + |o| == |projects| &&
            multiset(t) + multiset(o) == multiset(projects) &&
            forall i :: 0 <= i < |projects| ==> (projects[i] in t <==> projects[i] !in o)
  {
    Seqs.FilterPartition(OnDay(dayOf, today), OffDay(dayOf, today), projects);
  }

  /** Both lists keep the relative order of the projects: each distributes
      over any split of the list. */
  lemma TodayOtherKeepOrder(a: seq<Booking>, b: seq<Booking>, dayOf: string -> string, today: string)
    ensures TodaysProjects(a + b, dayOf, today) == TodaysProjects(a, dayOf, today) + TodaysProjects(b, dayOf, today)
    ensures OtherProjects(a + b, dayOf, today) == OtherProjects(a, dayOf, today) + OtherProjects(b, dayOf, today)
  {
    Seqs.FilterAppend(OnDay(dayOf, today), a, b);
    Seqs.FilterAppend(OffDay(dayOf, today), a, b);
  }

  /** The body of `PATCH /decorator/bookings/{projectId}/status`. */
  datatype StatusUpdate = StatusUpdate(projectId: string, projectStatus: string)

  /** The modal fields of the page. */
  class StatusModal {
    var showStatusModal: bool
    var selectedProject: Option<Booking>
    var newStatus: string

    /** The form is rendered only while the modal is shown with a project. */
    predicate IsOpen()
      reads this
    {
      showStatusModal && selectedProject.Some?
    }

    constructor ()
      ensures !showStatusModal && selectedProject.None? && newStatus == ""
    {
      showStatusModal, selectedProject, newStatus := false, None, "";
    }

    /** `handleUpdateStatus`: the project is selected, its current status
        (or "assigned") preselected, and the modal opened. */
    method HandleUpdateStatus(project: Booking)
      modifies this
      ensures IsOpen() && selectedProject == Some(project)
      ensures newStatus == DisplayStatus(project.projectStatus)
    {
      selectedProject := Some(project);
      newStatus := DisplayStatus(project.projectStatus);
      showStatusModal := true;
    }

    /** The select's `onChange`: any of the six statuses, whatever the
        current one. */
    method ChangeStatus(value: string)
      requires value in ProjectStatuses
      modifies this`newStatus
      ensures newStatus == value
    {
      newStatus := value;
    }

    /** `handleStatusSubmit`: the selected status for the selected project.
        It changes no state itself. */
    method HandleStatusSubmit() returns (u: StatusUpdate)
      requires IsOpen()
      ensures u.projectId == selectedProject.value.id && u.projectStatus == newStatus
    {
      u := StatusUpdate(selectedProject.value.id, newStatus);
    }

    /** The mutation's `onSuccess` after its invalidation and toast, and the
        Cancel button: modal closed, selection and status cleared. */
    method Close()
      modifies this
      ensures !IsOpen() && !showStatusModal && selectedProject.None? && newStatus == ""
    {
      showStatusModal, selectedProject, newStatus := false, None, "";
    }
  }

  /** The client does not restrict the transition: from any project, whatever
      its current status, opening the modal and choosing any listed status
      sends exactly that status (a move back included). */
  method AnyStatusIsSent(project: Booking, target: string) returns (u: StatusUpdate)
    requires target in ProjectStatuses
    ensures u == StatusUpdate(project.id, target)
  {
    var m := new StatusModal();
    m.HandleUpdateStatus(project);
    m.ChangeStatus(target);
    u := m.HandleStatusSubmit();
  }

  /** Opening the modal and submitting without touching the select sends the
      project's displayed status back unchanged. */
  method UntouchedSelectResendsStatus(project: Booking) returns (u: StatusUpdate)
    ensures u.projectId == project.id
    ensures u.projectStatus == DisplayStatus(project.projectStatus)
    ensures u.projectStatus == "assigned" <==> !Truthy(project.projectStatus) || project.projectStatus == Some("assigned")
  {
    var m := new StatusModal();
    m.HandleUpdateStatus(project);
    u := m.HandleStatusSubmit();
  }
}

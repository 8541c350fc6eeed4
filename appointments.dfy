/** The appointment screen (src/pages/admin/appointment.jsx): a list fetched
    from the backend, a status filter and a patient-name search that keep a
    separate filtered list up to date, a pie chart of the three statuses, an
    add form in a modal, and a delete per row. */
module Appointments {
  import opened Records
  import opened JsText
  import opened JsArray

  /** The blank draft: no patient, doctor or date, status 'Pending'. */
  function EmptyAppointment(): (a: Record)
    ensures forall k :: k in a <==> k == "patientName" || k == "doctorName" || k == "date" || k == "status"
    ensures a["patientName"] == "" && a["doctorName"] == "" && a["date"] == ""
    ensures a["status"] == "Pending"
  {
    map["patientName" := "", "doctorName" := "", "date" := "", "status" := "Pending"]
  }

  // ---------------------------------------------------------------------------
  // Filtering

  /** `app.status === status`: the appointment has a status field holding
      exactly that text. */
  function StatusIs(status: string): (test: Record -> bool)
    ensures forall a :: test(a) <==> "status" in a && a["status"] == status
  {
    a => Get(a, "status") == Some(status)
  }

  /** `app.patientName.toLowerCase().includes(query.toLowerCase())` */
  predicate NameContains(a: Record, query: string)
    ensures query == "" ==> NameContains(a, query)
    ensures NameContains(a, query) ==> |query| <= |Text(a, "patientName")|
  {
    Includes(Lower(Text(a, "patientName")), Lower(query))
  }

  function NamePredicate(query: string): Record -> bool
  {
    a => NameContains(a, query)
  }

  /** The filter effect: the status filter when one is chosen, then the name
      search when the query is non-empty. */
  function Visible(appointments: seq<Record>, filterStatus: string, searchQuery: string): (r: seq<Record>)
    ensures |r| <= |appointments|
    ensures forall x :: multiset(r)[x] <= multiset(appointments)[x]
  {
    var byStatus := if filterStatus != "" then Filter(appointments, StatusIs(filterStatus)) else appointments;
    if searchQuery != "" then Filter(byStatus, NamePredicate(searchQuery)) else byStatus
  }

  /** Every appointment the filter keeps comes from the list and passes each
      active criterion: its status equals the chosen one (when one is chosen)
      and its patient name contains the query (when it is non-empty). The
      kept appointments are in their original order. */
  lemma VisibleSound(appointments: seq<Record>, filterStatus: string, searchQuery: string)
    ensures var r := Visible(appointments, filterStatus, searchQuery);
      forall i :: 0 <= i < |r| ==>
        && r[i] in appointments
        && (filterStatus != "" ==> Get(r[i], "status") == Some(filterStatus))
        && (searchQuery != "" ==> NameContains(r[i], searchQuery))
    ensures IsSubsequence(Visible(appointments, filterStatus, searchQuery), appointments)
  {
    var byStatus := if filterStatus != "" then Filter(appointments, StatusIs(filterStatus)) else appointments;
    var r := Visible(appointments, filterStatus, searchQuery);
    assert IsSubsequence(byStatus, appointments) by {
      if filterStatus == "" {
        SubsequenceReflexive(appointments);
      }
    }
    if searchQuery != "" {
      SubsequenceTransitive(r, byStatus, appointments);
    }
  }

  /** An appointment passes the filter box and the search box. */
  predicate MeetsCriteria(a: Record, filterStatus: string, searchQuery: string)
  {
    && (filterStatus != "" ==> Get(a, "status") == Some(filterStatus))
    && (searchQuery != "" ==> NameContains(a, searchQuery))
  }

  /** Every appointment that passes each active criterion is kept, every copy
      of it: the filtered list holds each appointment meeting the criteria as
      many times as the list does, and no other. */
  lemma VisibleComplete(appointments: seq<Record>, filterStatus: string, searchQuery: string)
    ensures var r := Visible(appointments, filterStatus, searchQuery);
      forall i :: 0 <= i < |appointments| ==>
        (&& (filterStatus != "" ==> Get(appointments[i], "status") == Some(filterStatus))
         && (searchQuery != "" ==> NameContains(appointments[i], searchQuery)))
        ==> appointments[i] in r
    ensures var r := Visible(appointments, filterStatus, searchQuery);
      forall x :: multiset(r)[x] == if MeetsCriteria(x, filterStatus, searchQuery) then multiset(appointments)[x] else 0
  {
    var byStatus := if filterStatus != "" then Filter(appointments, StatusIs(filterStatus)) else appointments;
    var r := Visible(appointments, filterStatus, searchQuery);
    forall x
      ensures multiset(r)[x] == if MeetsCriteria(x, filterStatus, searchQuery) then multiset(appointments)[x] else 0
    {
      var statusOk := filterStatus != "" ==> Get(x, "status") == Some(filterStatus);
      assert multiset(byStatus)[x] == if statusOk then multiset(appointments)[x] else 0;
      if searchQuery != "" {
        assert multiset(r)[x] == if NamePredicate(searchQuery)(x) then multiset(byStatus)[x] else 0;
      }
    }
    forall i | 0 <= i < |appointments| && MeetsCriteria(appointments[i], filterStatus, searchQuery)
      ensures appointments[i] in r
    {
      assert appointments[i] in multiset(appointments);
    }
  }

  /** With no status chosen and an empty query the filtered list is the
      whole list; an empty list filters to an empty list. */
  lemma VisibleUnfiltered(appointments: seq<Record>, filterStatus: string, searchQuery: string)
    ensures filterStatus == "" && searchQuery == "" ==> Visible(appointments, filterStatus, searchQuery) == appointments
    ensures Visible([], filterStatus, searchQuery) == []
  {
  }

  // ---------------------------------------------------------------------------
  // Pie chart

  /** `appointments.filter((app) => app.status === status).length` */
  function CountWithStatus(appointments: seq<Record>, status: string): (c: nat)
    ensures c <= |appointments|
    ensures c == 0 <==> forall i :: 0 <= i < |appointments| ==> Get(appointments[i], "status") != Some(status)
  {
    |Filter(appointments, StatusIs(status))|
  }

  predicate HasChartedStatus(a: Record)
  {
    Get(a, "status") == Some("Completed") || Get(a, "status") == Some("Pending") || Get(a, "status") == Some("Cancelled")
  }

  /** The three slices never add up to more than the list, and add up to all
      of it when every appointment has one of the three statuses. */
  lemma {:induction false} PieCountsBounded(appointments: seq<Record>)
    ensures CountWithStatus(appointments, "Completed") + CountWithStatus(appointments, "Pending")
            + CountWithStatus(appointments, "Cancelled") <= |appointments|
    ensures (forall i :: 0 <= i < |appointments| ==> HasChartedStatus(appointments[i])) ==>
            CountWithStatus(appointments, "Completed") + CountWithStatus(appointments, "Pending")
            + CountWithStatus(appointments, "Cancelled") == |appointments|
  {
    if appointments != [] {
      var rest := appointments[1..];
      PieCountsBounded(rest);
      assert forall i :: 0 <= i < |rest| ==> rest[i] == appointments[i + 1];
      CountStep(appointments, "Completed");
      CountStep(appointments, "Pending");
      CountStep(appointments, "Cancelled");
    }
  }

  /** Counting peels off the first appointment. */
  lemma CountStep(appointments: seq<Record>, status: string)
    requires appointments != []
    ensures CountWithStatus(appointments, status)
      == (if Get(appointments[0], "status") == Some(status) then 1 else 0) + CountWithStatus(appointments[1..], status)
  {
  }

  // ---------------------------------------------------------------------------
  // Screen state

  class AppointmentScreen {
    var appointments: seq<Record>
    var filteredAppointments: seq<Record>
    var open: bool
    var newAppointment: Record
    var filterStatus: string
    var searchQuery: string

    /** The filter effect has run since the last change of its inputs. */
    ghost predicate Valid()
      reads this
    {
      filteredAppointments == Visible(appointments, filterStatus, searchQuery)
    }

    constructor ()
      ensures Valid()
      ensures appointments == [] && filteredAppointments == [] && !open
      ensures newAppointment == EmptyAppointment() && filterStatus == "" && searchQuery == ""
    {
      appointments := [];
      filteredAppointments := [];
      open := false;
      newAppointment := EmptyAppointment();
      filterStatus := "";
      searchQuery := "";
    }

    /** The three slices of the pie chart, in chart order. */
    function PieData(): (counts: seq<nat>)
      reads this
      ensures |counts| == 3
      ensures counts[0] == CountWithStatus(appointments, "Completed")
      ensures counts[1] == CountWithStatus(appointments, "Pending")
      ensures counts[2] == CountWithStatus(appointments, "Cancelled")
      ensures counts[0] + counts[1] + counts[2] <= |appointments|
      ensures (forall i :: 0 <= i < |appointments| ==> HasChartedStatus(appointments[i])) ==>
        counts[0] + counts[1] + counts[2] == |appointments|
    {
      PieCountsBounded(appointments);
      [CountWithStatus(appointments, "Completed"), CountWithStatus(appointments, "Pending"),
       CountWithStatus(appointments, "Cancelled")]
    }

    /** The effect over filterStatus, searchQuery and appointments. */
    method FilterEffect()
      modifies this`filteredAppointments
      ensures Valid()
    {
      var filtered := appointments;
      if filterStatus != "" {
        filtered := Filter(filtered, StatusIs(filterStatus));
      }
      if searchQuery != "" {
        filtered := Filter(filtered, NamePredicate(searchQuery));
      }
      filteredAppointments := filtered;
    }

    /** fetchAppointments: on success both lists become the body and the
      effect then filters it; a failed call changes nothing. */
    method FetchAppointments(reply: ListResult<seq<Record>>) returns (sent: seq<Request>)
      requires Valid()
      modifies this`appointments, this`filteredAppointments
      ensures Valid()
      ensures sent == [List]
      ensures reply.Fetched? ==> appointments == reply.items
      ensures reply.FetchFailed? ==> appointments == old(appointments) && filteredAppointments == old(filteredAppointments)
    {
      sent := [List];
      if reply.Fetched? {
        appointments := reply.items;
        filteredAppointments := reply.items;
        FilterEffect();
      }
    }

    method HandleOpen()
      modifies this`open
      ensures open
    {
      open := true;
    }

    method HandleClose()
      modifies this`open
      ensures !open
    {
      open := false;
    }

    /** handleChange: one field of the draft takes the typed value. */
    method HandleChange(name: string, value: string)
      modifies this`newAppointment
      ensures newAppointment == WithField(old(newAppointment), name, value)
    {
      newAppointment := WithField(newAppointment, name, value);
    }

    /** handleAddAppointment: a create with the draft; on success a refetch,
      a blank draft and a closed modal; on failure nothing changes. */
    method HandleAddAppointment(write: WriteResult, refetch: ListResult<seq<Record>>) returns (sent: seq<Request>)
      requires Valid()
      modifies this`appointments, this`filteredAppointments, this`newAppointment, this`open
      ensures Valid()
      ensures write.Succeeded? ==>
        && sent == [Create(old(newAppointment)), List]
        && appointments == (if refetch.Fetched? then refetch.items else old(appointments))
        && newAppointment == EmptyAppointment() && !open
      ensures write.Failed? ==>
        && sent == [Create(old(newAppointment))]
        && appointments == old(appointments) && newAppointment == old(newAppointment) && open == old(open)
        && filteredAppointments == old(filteredAppointments)
    {
      sent := [Create(newAppointment)];
      if write.Succeeded? {
        var more := FetchAppointments(refetch);
        sent := sent + more;
        newAppointment := EmptyAppointment();
        HandleClose();
      }
    }

    /** handleDeleteAppointment: a delete of `id`, then a refetch when it
      succeeded; a failed delete changes nothing. */
    method HandleDeleteAppointment(id: Option<string>, write: WriteResult, refetch: ListResult<seq<Record>>)
      returns (sent: seq<Request>)
      requires Valid()
      modifies this`appointments, this`filteredAppointments
      ensures Valid()
      ensures write.Succeeded? ==>
        sent == [Remove(id), List] && appointments == (if refetch.Fetched? then refetch.items else old(appointments))
      ensures write.Failed? ==>
        sent == [Remove(id)] && appointments == old(appointments) && filteredAppointments == old(filteredAppointments)
    {
      sent := [Remove(id)];
      if write.Succeeded? {
        var more := FetchAppointments(refetch);
        sent := sent + more;
      }
    }

    /** Choosing a status in the filter box; the effect re-filters. */
    method SetFilterStatus(status: string)
      modifies this`filterStatus, this`filteredAppointments
      ensures filterStatus == status && Valid()
    {
      filterStatus := status;
      FilterEffect();
    }

    /** Typing in the search box; the effect re-filters. */
    method SetSearchQuery(query: string)
      modifies this`searchQuery, this`filteredAppointments
      ensures searchQuery == query && Valid()
    {
      searchQuery := query;
      FilterEffect();
    }
  }
}

/** The doctor screen (src/pages/admin/DoctorManagement.jsx): a list
    fetched from the backend behind a loading indicator, an add form in a
    modal, and a delete per card that asks for confirmation first. */
module Doctors {
  import opened Records

  /** The blank form: all seven fields empty. */
  function EmptyDoctor(): (f: Record)
    ensures forall k :: k in f <==>
      k in ["doctorID", "name", "specialization", "contactNumber", "email", "address", "password"]
    ensures forall k :: k in f ==> f[k] == ""
  {
    map["doctorID" := "", "name" := "", "specialization" := "", "contactNumber" := "",
        "email" := "", "address" := "", "password" := ""]
  }

  class DoctorScreen {
    var doctors: seq<Record>
    var loading: bool
    var open: bool
    var formData: Record

    constructor ()
      ensures doctors == [] && loading && !open && formData == EmptyDoctor()
    {
      doctors := [];
      loading := true;
      open := false;
      formData := EmptyDoctor();
    }

    /** fetchDoctors: on success the list becomes the body; loading ends
      false on success and on failure. */
    method FetchDoctors(reply: ListResult<seq<Record>>) returns (sent: seq<Request>)
      modifies this`doctors, this`loading
      ensures sent == [List]
      ensures reply.Fetched? ==> doctors == reply.items
      ensures reply.FetchFailed? ==> doctors == old(doctors)
      ensures !loading
    {
      sent := [List];
      if reply.Fetched? {
        doctors := reply.items;
        loading := false;
      } else {
        loading := false;
      }
    }

    method HandleOpen()
      modifies this`open
      ensures open
    {
      open := true;
    }

    method HandleClose()
      modifies this`open
      ensures !open
    {
      open := false;
    }

    /** handleChange: one field of the form takes the typed value. */
    method HandleChange(name: string, value: string)
      modifies this`formData
      ensures formData == WithField(old(formData), name, value)
    {
      formData := WithField(formData, name, value);
    }

    /** handleSubmit: a create with the form; on success a refetch, a closed
      modal and a blank form; on failure the modal and the form stay. */
    method HandleSubmit(write: WriteResult, refetch: ListResult<seq<Record>>) returns (sent: seq<Request>)
      modifies this`doctors, this`loading, this`open, this`formData
      ensures write.Succeeded? ==>
        && sent == [Create(old(formData)), List]
        && doctors == (if refetch.Fetched? then refetch.items else old(doctors)) && !loading
        && !open && formData == EmptyDoctor()
      ensures write.Failed? ==>
        && sent == [Create(old(formData))]
        && doctors == old(doctors) && loading == old(loading) && open == old(open) && formData == old(formData)
    {
      sent := [Create(formData)];
      if write.Succeeded? {
        var more := FetchDoctors(refetch);
        sent := sent + more;
        HandleClose();
        formData := EmptyDoctor();
      }
    }

    /** handleDelete: nothing happens unless the user confirms; then a delete
      of `id`, and a refetch when it succeeded. */
    method HandleDelete(id: Option<string>, confirmed: bool, write: WriteResult, refetch: ListResult<seq<Record>>)
      returns (sent: seq<Request>)
      modifies this`doctors, this`loading
      ensures !confirmed ==> sent == [] && doctors == old(doctors) && loading == old(loading)
      ensures confirmed && write.Succeeded? ==>
        sent == [Remove(id), List] && doctors == (if refetch.Fetched? then refetch.items else old(doctors)) && !loading
      ensures confirmed && write.Failed? ==>
        sent == [Remove(id)] && doctors == old(doctors) && loading == old(loading)
    {
      sent := [];
      if confirmed {
        sent := [Remove(id)];
        if write.Succeeded? {
          var more := FetchDoctors(refetch);
          sent := sent + more;
        }
      }
    }
  }
}

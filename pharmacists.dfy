/** The pharmacist screen (src/pages/admin/pharmacistManagement.jsx): a list
    fetched from the backend, one modal form that creates a pharmacist or
    edits the one it was opened with, and a delete per row. */
module Pharmacists {
  import opened Records

  /** The blank form: all eight fields empty, status included. */
  function EmptyPharmacist(): (f: Record)
    ensures forall k :: k in f <==>
      k in ["pharmacistID", "name", "specialization", "email", "contactNumber", "shift", "status", "address"]
    ensures forall k :: k in f ==> f[k] == ""
  {
    map["pharmacistID" := "", "name" := "", "specialization" := "", "email" := "",
        "contactNumber" := "", "shift" := "", "status" := "", "address" := ""]
  }

  /** The request handleSavePharmacist sends: a PUT to editId when editId is
      truthy, a POST otherwise, the form being the body either way. */
  function SaveRequest(editId: Option<string>, formData: Record): (r: Request)
    ensures r.Update? <==> editId.Some? && editId.value != ""
    ensures r.Update? ==> r.id == editId
    ensures r.Create? <==> !r.Update?
    ensures r.body == formData
  {
    if Truthy(editId) then Update(editId, formData) else Create(formData)
  }

  class PharmacistScreen {
    var open: bool
    var pharmacists: seq<Record>
    var formData: Record
    var editId: Option<string>

    constructor ()
      ensures !open && pharmacists == [] && formData == EmptyPharmacist() && editId == None
    {
      open := false;
      pharmacists := [];
      formData := EmptyPharmacist();
      editId := None;
    }

    /** fetchPharmacists: on success the list becomes the body; a failed call
      changes nothing. */
    method FetchPharmacists(reply: ListResult<seq<Record>>) returns (sent: seq<Request>)
      modifies this`pharmacists
      ensures sent == [List]
      ensures reply.Fetched? ==> pharmacists == reply.items
      ensures reply.FetchFailed? ==> pharmacists == old(pharmacists)
    {
      sent := [List];
      if reply.Fetched? {
        pharmacists := reply.items;
      }
    }

    /** handleOpen: with a record the form becomes that record and editId its
      `_id`; without one the form is blank and editId null. The modal opens. */
    method HandleOpen(pharmacist: Option<Record>)
      modifies this`formData, this`editId, this`open
      ensures pharmacist.Some? ==> formData == pharmacist.value && editId == Get(pharmacist.value, "_id")
      ensures pharmacist.None? ==> formData == EmptyPharmacist() && editId == None
      ensures open
    {
      match pharmacist {
        case Some(p) =>
          formData := p;
          editId := Get(p, "_id");
        case None =>
          formData := EmptyPharmacist();
          editId := None;
      }
      open := true;
    }

    /** handleClose closes the modal and keeps the draft and editId. */
    method HandleClose()
      modifies this`open
      ensures !open
    {
      open := false;
    }

    /** handleChange: one field of the form takes the typed value. */
    method HandleChange(name: string, value: string)
      modifies this`formData
      ensures formData == WithField(old(formData), name, value)
    {
      formData := WithField(formData, name, value);
    }

    /** handleSavePharmacist: the save request; on success a refetch and a
      closed modal, the draft and editId kept; on failure nothing changes. */
    method HandleSavePharmacist(write: WriteResult, refetch: ListResult<seq<Record>>) returns (sent: seq<Request>)
      modifies this`pharmacists, this`open
      ensures write.Succeeded? ==>
        && sent == [SaveRequest(editId, formData), List]
        && pharmacists == (if refetch.Fetched? then refetch.items else old(pharmacists))
        && !open
      ensures write.Failed? ==>
        sent == [SaveRequest(editId, formData)] && pharmacists == old(pharmacists) && open == old(open)
    {
      sent := [SaveRequest(editId, formData)];
      if write.Succeeded? {
        var more := FetchPharmacists(refetch);
        sent := sent + more;
        HandleClose();
      }
    }

    /** handleDeletePharmacist: a delete of `id`, then a refetch when it
      succeeded; a failed delete changes nothing. */
    method HandleDeletePharmacist(id: Option<string>, write: WriteResult, refetch: ListResult<seq<Record>>)
      returns (sent: seq<Request>)
      modifies this`pharmacists
      ensures write.Succeeded? ==>
        sent == [Remove(id), List] && pharmacists == (if refetch.Fetched? then refetch.items else old(pharmacists))
      ensures write.Failed? ==> sent == [Remove(id)] && pharmacists == old(pharmacists)
    {
      sent := [Remove(id)];
      if write.Succeeded? {
        var more := FetchPharmacists(refetch);
        sent := sent + more;
      }
    }
  }

  /** Opening the modal on a record and saving updates that record, with the
    record itself as the body, when its `_id` is set. */
  method EditThenSave(screen: PharmacistScreen, pharmacist: Record, write: WriteResult, refetch: ListResult<seq<Record>>)
    returns (sent: seq<Request>)
    modifies screen
    ensures |sent| >= 1
    ensures Truthy(Get(pharmacist, "_id")) ==> sent[0] == Update(Get(pharmacist, "_id"), pharmacist)
    ensures !Truthy(Get(pharmacist, "_id")) ==> sent[0] == Create(pharmacist)
    ensures screen.formData == pharmacist
  {
    screen.HandleOpen(Some(pharmacist));
    sent := screen.HandleSavePharmacist(write, refetch);
  }
}

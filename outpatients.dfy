/** The outpatient screen (src/pages/outPatient.jsx): a list fetched from
    the backend, a search box over name and email, five records per page,
    one form that either creates or edits a record, and an Active/Inactive
    switch per row. */
module Outpatients {
  import opened Records
  import opened JsText
  import opened JsArray

  const ItemsPerPage: nat := 5

  /** The inputs the form renders, in order. `status` is in the form state
      but has no input. */
  const FormFields: seq<string> :=
    ["outpatientID", "name", "age", "gender", "shift", "email", "phoneNumber", "password"]

  /** The blank form: every input empty and status 'Active'. */
  function EmptyForm(): (f: Record)
    ensures forall k :: k in f <==> k in FormFields || k == "status"
    ensures forall i :: 0 <= i < |FormFields| ==> f[FormFields[i]] == ""
    ensures f["status"] == "Active"
  {
    map["outpatientID" := "", "name" := "", "age" := "", "gender" := "", "shift" := "",
        "email" := "", "phoneNumber" := "", "password" := "", "status" := "Active"]
  }

  // ---------------------------------------------------------------------------
  // Search

  /** The search keeps a record when the lower-cased query occurs in its
      lower-cased name or in its lower-cased email; a missing field reads as "". */
  predicate MatchesSearch(r: Record, search: string)
    ensures search == "" ==> MatchesSearch(r, search)
    ensures MatchesSearch(r, search) ==> |search| <= |Text(r, "name")| || |search| <= |Text(r, "email")|
  {
    Includes(Lower(Text(r, "name")), Lower(search)) || Includes(Lower(Text(r, "email")), Lower(search))
  }

  function SearchPredicate(search: string): Record -> bool
  {
    r => MatchesSearch(r, search)
  }

  /** `filteredOutpatients`: the records the search keeps, in list order,
      each matching record as many times as the list holds it. */
  function Visible(outpatients: seq<Record>, search: string): (r: seq<Record>)
    ensures forall i :: 0 <= i < |r| ==> r[i] in outpatients && MatchesSearch(r[i], search)
    ensures forall i :: 0 <= i < |outpatients| && MatchesSearch(outpatients[i], search) ==> outpatients[i] in r
    ensures forall x :: multiset(r)[x] == if MatchesSearch(x, search) then multiset(outpatients)[x] else 0
    ensures IsSubsequence(r, outpatients)
  {
    Filter(outpatients, SearchPredicate(search))
  }

  /** An empty search box shows every record, in order. */
  lemma EmptySearchKeepsAll(outpatients: seq<Record>)
    ensures Visible(outpatients, "") == outpatients
  {
    forall i | 0 <= i < |outpatients|
      ensures SearchPredicate("")(outpatients[i])
    {
      assert StartsWith(Lower(Text(outpatients[i], "name")), Lower(""));
    }
    FilterKeepsAll(outpatients, SearchPredicate(""));
  }

  /** The search ignores the case of the query. */
  lemma SearchIgnoresCase(r: Record, search: string)
    ensures MatchesSearch(r, search) <==> MatchesSearch(r, Lower(search))
  {
    LowerIdempotent(search);
  }

  // ---------------------------------------------------------------------------
  // Pagination

  /** `currentItems`: `filteredOutpatients.slice(page * 5 - 5, page * 5)`.
      At most five rows, all taken from the list; from page 1 on, row i is
      item (page-1)*5 + i. */
  function PageWindow(items: seq<Record>, page: int): (r: seq<Record>)
    ensures |r| <= ItemsPerPage
    ensures forall i :: 0 <= i < |r| ==> r[i] in items
    ensures page >= 1 ==> forall i :: 0 <= i < |r| ==>
      (page - 1) * ItemsPerPage + i < |items| && r[i] == items[(page - 1) * ItemsPerPage + i]
  {
    var last := page * ItemsPerPage;
    Slice(items, last - ItemsPerPage, last)
  }

  /** `Math.ceil(n / 5)`: the fewest pages of five that hold n records, so 0
      when nothing matches. */
  function PageCount(n: nat): (c: nat)
    ensures c * ItemsPerPage >= n
    ensures c > 0 ==> (c - 1) * ItemsPerPage < n
  {
    (n + ItemsPerPage - 1) / ItemsPerPage
  }

  /** Page p (from 1) is the slice [(p-1)*5, p*5) of the visible records,
      cut short at the end of the list. */
  lemma PageWindowShape(items: seq<Record>, page: int)
    requires page >= 1
    ensures var first := (page - 1) * ItemsPerPage;
      |PageWindow(items, page)| == if |items| <= first then 0
                                   else if |items| - first < ItemsPerPage then |items| - first
                                   else ItemsPerPage
    ensures var first := (page - 1) * ItemsPerPage;
      first <= |items| ==>
        PageWindow(items, page) == items[first..if page * ItemsPerPage < |items| then page * ItemsPerPage else |items|]
  {
  }

  /** `rows` is page `page` (from 1) of `items`: as many rows as remain from
      (page-1)*5, at most five, and row i is item (page-1)*5 + i. */
  predicate IsPageOf(rows: seq<Record>, items: seq<Record>, page: int)
  {
    var first := (page - 1) * ItemsPerPage;
    && |rows| == (if |items| <= first then 0 else if |items| - first < ItemsPerPage then |items| - first else ItemsPerPage)
    && forall i :: 0 <= i < |rows| ==> 0 <= first + i < |items| && rows[i] == items[first + i]
  }

  lemma PageWindowIsPage(items: seq<Record>, page: int)
    requires page >= 1
    ensures IsPageOf(PageWindow(items, page), items, page)
  {
    PageWindowShape(items, page);
  }

  /** A page shows records exactly when its number is within the page count;
      a current page left beyond the count (the search does not reset it)
      shows an empty table. */
  lemma PageHasItemsIff(items: seq<Record>, page: int)
    requires page >= 1
    ensures PageWindow(items, page) != [] <==> page <= PageCount(|items|)
  {
    PageWindowShape(items, page);
  }

  /** Every visible record is shown on page i / 5 + 1, at row i % 5, and that
      page is within the count. */
  lemma ItemOnItsPage(items: seq<Record>, i: int)
    requires 0 <= i < |items|
    ensures 1 <= i / ItemsPerPage + 1 <= PageCount(|items|)
    ensures var w := PageWindow(items, i / ItemsPerPage + 1);
      i % ItemsPerPage < |w| && w[i % ItemsPerPage] == items[i]
  {
    var page := i / ItemsPerPage + 1;
    PageWindowShape(items, page);
    PageHasItemsIff(items, page);
  }

  /** Seven visible records make two pages: five on the first, two on the second. */
  lemma SevenRecordsTwoPages(items: seq<Record>)
    requires |items| == 7
    ensures PageCount(|items|) == 2
    ensures PageWindow(items, 1) == items[..5] && PageWindow(items, 2) == items[5..]
  {
    PageWindowShape(items, 1);
    PageWindowShape(items, 2);
  }

  /** Searching "john" keeps "John Doe" and drops "Alice". */
  lemma SearchJohnExample()
    ensures Visible([map["name" := "John Doe"], map["name" := "Alice"]], "john") == [map["name" := "John Doe"]]
  {
    var john: Record := map["name" := "John Doe"];
    var alice: Record := map["name" := "Alice"];
    JohnMatches();
    AliceDoesNotMatch();
    var p := SearchPredicate("john");
    assert Filter([john, alice], p) == [john] + Filter([alice], p);
    assert Filter([alice], p) == Filter([], p);
  }

  lemma JohnMatches()
    ensures MatchesSearch(map["name" := "John Doe"], "john")
  {
    var name := Lower(Text(map["name" := "John Doe"], "name"));
    assert Lower("john") == "john";
    assert name[..4] == "john";
    assert StartsWith(name, "john");
  }

  lemma AliceDoesNotMatch()
    ensures !MatchesSearch(map["name" := "Alice"], "john")
  {
    var alice: Record := map["name" := "Alice"];
    var name := Lower(Text(alice, "name"));
    assert Lower("john") == "john";
    assert |name| == 5;
    IncludesIffOccurs(name, "john");
    assert Lower(Text(alice, "email")) == "";
  }

  // ---------------------------------------------------------------------------
  // Status switch

  /** `outpatient.status === 'Active' ? 'Inactive' : 'Active'`. */
  function NextStatus(status: Option<string>): (s: string)
    ensures s == "Inactive" <==> status == Some("Active")
    ensures s == "Active" <==> status != Some("Active")
  {
    if status == Some("Active") then "Inactive" else "Active"
  }

  /** The body sent by the switch: the whole record with only its status flipped. */
  function TogglePayload(r: Record): (p: Record)
    ensures Get(p, "status") == Some(NextStatus(Get(r, "status")))
    ensures forall k :: k != "status" ==> Get(p, k) == Get(r, k)
  {
    WithField(r, "status", NextStatus(Get(r, "status")))
  }

  /** Flipping twice ends on 'Active' from 'Active' and on 'Inactive' from
      anything else, so it gives back the original exactly for the two
      switch positions. */
  lemma NextStatusTwice(status: Option<string>)
    ensures NextStatus(Some(NextStatus(status))) == if status == Some("Active") then "Active" else "Inactive"
    ensures Some(NextStatus(Some(NextStatus(status)))) == status <==> status == Some("Active") || status == Some("Inactive")
  {
  }

  /** A record whose status is 'Active' or 'Inactive' comes back unchanged
      from two flips. */
  lemma ToggleTwiceRestores(r: Record)
    requires Get(r, "status") == Some("Active") || Get(r, "status") == Some("Inactive")
    ensures TogglePayload(TogglePayload(r)) == r
  {
    var twice := TogglePayload(TogglePayload(r));
    assert forall k :: Get(twice, k) == Get(r, k);
    assert forall k :: k in twice <==> k in r;
  }

  // ---------------------------------------------------------------------------
  // Form inputs

  /** `required={field !== 'password' || !editing}`: every input is required
      when creating; when editing, every input but the password. */
  predicate FieldRequired(field: string, editing: bool)
    ensures !editing ==> FieldRequired(field, editing)
    ensures editing ==> (FieldRequired(field, editing) <==> field != "password")
  {
    field != "password" || !editing
  }

  /** `disabled={editing && field === 'outpatientID'}`: nothing is disabled
      when creating, and only the record's key when editing. */
  predicate FieldDisabled(field: string, editing: bool)
    ensures !editing ==> !FieldDisabled(field, editing)
    ensures FieldDisabled(field, editing) ==> field == "outpatientID"
  {
    editing && field == "outpatientID"
  }

  /** The browser's constraint validation: the form is submitted only when
      every enabled, required input holds a non-empty value. */
  predicate Submittable(form: Record, editing: bool)
    ensures !editing ==> (Submittable(form, editing) <==> forall i :: 0 <= i < |FormFields| ==> Text(form, FormFields[i]) != "")
    ensures editing ==> (Submittable(form, editing) <==> forall i :: 1 <= i < |FormFields| - 1 ==> Text(form, FormFields[i]) != "")
  {
    assert FormFields[0] == "outpatientID" && FormFields[7] == "password";
    assert forall i :: 1 <= i < |FormFields| - 1 ==> FormFields[i] != "outpatientID" && FormFields[i] != "password";
    forall i :: 0 <= i < |FormFields| && FieldRequired(FormFields[i], editing) && !FieldDisabled(FormFields[i], editing)
      ==> Text(form, FormFields[i]) != ""
  }

  /** Creating needs all eight inputs; editing needs all but the disabled
      outpatientID and the optional password. */
  lemma SubmittableIff(form: Record, editing: bool)
    ensures Submittable(form, editing) <==>
      && Text(form, "name") != "" && Text(form, "age") != "" && Text(form, "gender") != ""
      && Text(form, "shift") != "" && Text(form, "email") != "" && Text(form, "phoneNumber") != ""
      && (!editing ==> Text(form, "outpatientID") != "" && Text(form, "password") != "")
  {
    if !Submittable(form, editing) {
      var i :| 0 <= i < |FormFields| && FieldRequired(FormFields[i], editing) && !FieldDisabled(FormFields[i], editing)
        && Text(form, FormFields[i]) == "";
      assert i in {0, 1, 2, 3, 4, 5, 6, 7};
    } else {
      assert FormFields[0] == "outpatientID" && FormFields[1] == "name" && FormFields[2] == "age";
      assert FormFields[3] == "gender" && FormFields[4] == "shift" && FormFields[5] == "email";
      assert FormFields[6] == "phoneNumber" && FormFields[7] == "password";
    }
  }

  // ---------------------------------------------------------------------------
  // Screen state

  /** The list after a list call: the body replaces it wholesale (`data || []`);
      a failed call leaves it as it was. */
  function AfterFetch(current: seq<Record>, reply: ListResult<Option<seq<Record>>>): (r: seq<Record>)
    ensures reply.FetchFailed? ==> r == current
    ensures reply.Fetched? && reply.items.Some? ==> r == reply.items.value
    ensures reply.Fetched? ==> (r == [] <==> reply.items.None? || reply.items.value == [])
  {
    match reply
    case Fetched(data) => if data.Some? then data.value else []
    case FetchFailed => current
  }

  class OutpatientScreen {
    var outpatients: seq<Record>
    var form: Record
    var editing: bool
    var editID: Option<string>
    var loading: bool
    var search: string
    var currentPage: int
    var showForm: bool

    constructor ()
      ensures outpatients == [] && form == EmptyForm() && !editing && editID == Some("")
      ensures loading && search == "" && currentPage == 1 && !showForm
    {
      outpatients := [];
      form := EmptyForm();
      editing := false;
      editID := Some("");
      loading := true;
      search := "";
      currentPage := 1;
      showForm := false;
    }

    /** The rows of the table: the current page of the visible records. */
    function CurrentItems(): (rows: seq<Record>)
      reads this
      ensures |rows| <= ItemsPerPage
      ensures forall i :: 0 <= i < |rows| ==> rows[i] in outpatients && MatchesSearch(rows[i], search)
      ensures currentPage >= 1 ==> IsPageOf(rows, Visible(outpatients, search), currentPage)
    {
      var v := Visible(outpatients, search);
      if currentPage >= 1 then
        PageWindowIsPage(v, currentPage);
        PageWindow(v, currentPage)
      else
        PageWindow(v, currentPage)
    }

    /** The count handed to the pagination control. */
    function Pages(): (count: nat)
      reads this
      ensures currentPage >= 1 ==> (CurrentItems() != [] <==> currentPage <= count)
      ensures forall p :: p >= 1 ==> (PageWindow(Visible(outpatients, search), p) != [] <==> p <= count)
    {
      var visible := Visible(outpatients, search);
      if currentPage >= 1 then
        PageHasItemsIff(visible, currentPage);
        PageCount(|visible|)
      else
        PageCount(|visible|)
    }

    /** fetchOutpatients: one list call; loading ends false either way. */
    method FetchOutpatients(reply: ListResult<Option<seq<Record>>>) returns (sent: seq<Request>)
      modifies this`outpatients, this`loading
      ensures sent == [List]
      ensures outpatients == AfterFetch(old(outpatients), reply)
      ensures !loading
    {
      loading := true;
      sent := [List];
      outpatients := AfterFetch(outpatients, reply);
      loading := false;
    }

    /** handleChange: one field of the form takes the typed value. */
    method HandleChange(name: string, value: string)
      modifies this`form
      ensures form == WithField(old(form), name, value)
    {
      form := WithField(form, name, value);
    }

    /** Typing into an input: a disabled input (outpatientID while editing)
      fires no change, so the record's key cannot be edited. */
    method TypeInto(field: string, value: string)
      modifies this`form
      ensures FieldDisabled(field, editing) ==> form == old(form)
      ensures !FieldDisabled(field, editing) ==> form == WithField(old(form), field, value)
    {
      if !FieldDisabled(field, editing) {
        HandleChange(field, value);
      }
    }

    /** resetForm */
    method ResetForm()
      modifies this`form, this`editing, this`editID, this`showForm
      ensures form == EmptyForm() && !editing && editID == Some("") && !showForm
    {
      form := EmptyForm();
      editing := false;
      editID := Some("");
      showForm := false;
    }

    /** What handleSubmit does: an update of editID with the form when
      editing, a create with the form otherwise; on success the form is reset
      and the list refetched, on failure nothing changes. */
    twostate predicate Submitted(write: WriteResult, refetch: ListResult<Option<seq<Record>>>, sent: seq<Request>)
      reads this
    {
      var call := if old(editing) then Update(old(editID), old(form)) else Create(old(form));
      match write
      case Succeeded =>
        && sent == [call, List]
        && form == EmptyForm() && !editing && editID == Some("") && !showForm
        && outpatients == AfterFetch(old(outpatients), refetch) && !loading
      case Failed =>
        && sent == [call]
        && form == old(form) && editing == old(editing) && editID == old(editID) && showForm == old(showForm)
        && outpatients == old(outpatients) && loading == old(loading)
    }

    /** handleSubmit */
    method HandleSubmit(write: WriteResult, refetch: ListResult<Option<seq<Record>>>) returns (sent: seq<Request>)
      modifies this`form, this`editing, this`editID, this`showForm, this`outpatients, this`loading
      ensures Submitted(write, refetch, sent)
    {
      if editing {
        sent := [Update(editID, form)];
      } else {
        sent := [Create(form)];
      }
      if write.Succeeded? {
        editing := false;
        ResetForm();
        var more := FetchOutpatients(refetch);
        sent := sent + more;
      }
    }

    /** Pressing the submit button: the browser's required-field check runs
      first, and a form that fails it never reaches handleSubmit. */
    method SubmitForm(write: WriteResult, refetch: ListResult<Option<seq<Record>>>) returns (sent: seq<Request>)
      modifies this`form, this`editing, this`editID, this`showForm, this`outpatients, this`loading
      ensures old(Submittable(form, editing)) ==> Submitted(write, refetch, sent)
      ensures !old(Submittable(form, editing)) ==> sent == [] && unchanged(this)
    {
      if Submittable(form, editing) {
        sent := HandleSubmit(write, refetch);
      } else {
        sent := [];
      }
    }

    /** handleEdit: the form becomes the record and the screen enters edit mode
      keyed by its outpatientID. */
    method HandleEdit(outpatient: Record)
      modifies this`form, this`editing, this`editID, this`showForm
      ensures form == outpatient && editing && editID == Get(outpatient, "outpatientID") && showForm
    {
      form := outpatient;
      editing := true;
      editID := Get(outpatient, "outpatientID");
      showForm := true;
    }

    /** handleDelete: a delete of `id`, then a refetch when it succeeded. */
    method HandleDelete(id: Option<string>, write: WriteResult, refetch: ListResult<Option<seq<Record>>>)
      returns (sent: seq<Request>)
      modifies this`outpatients, this`loading
      ensures write.Succeeded? ==> sent == [Remove(id), List] && outpatients == AfterFetch(old(outpatients), refetch) && !loading
      ensures write.Failed? ==> sent == [Remove(id)] && outpatients == old(outpatients) && loading == old(loading)
    {
      sent := [Remove(id)];
      if write.Succeeded? {
        var more := FetchOutpatients(refetch);
        sent := sent + more;
      }
    }

    /** handleStatusToggle: an update of the record's outpatientID with the
      record's status flipped; nothing is flipped locally, the list changes
      only through the refetch that follows a success. */
    method HandleStatusToggle(outpatient: Record, write: WriteResult, refetch: ListResult<Option<seq<Record>>>)
      returns (sent: seq<Request>)
      modifies this`outpatients, this`loading
      ensures |sent| >= 1 && sent[0] == Update(Get(outpatient, "outpatientID"), TogglePayload(outpatient))
      ensures write.Succeeded? ==> |sent| == 2 && sent[1] == List && outpatients == AfterFetch(old(outpatients), refetch) && !loading
      ensures write.Failed? ==> |sent| == 1 && outpatients == old(outpatients) && loading == old(loading)
    {
      sent := [Update(Get(outpatient, "outpatientID"), TogglePayload(outpatient))];
      if write.Succeeded? {
        var more := FetchOutpatients(refetch);
        sent := sent + more;
      }
    }

    /** Typing in the search box changes the query and nothing else: the
      current page is kept. */
    method SetSearch(query: string)
      modifies this`search
      ensures search == query
    {
      search := query;
    }

    /** handlePageChange, the only writer of currentPage. */
    method HandlePageChange(page: int)
      modifies this`currentPage
      ensures currentPage == page
    {
      currentPage := page;
    }

    /** The New Registration / Hide Form button. */
    method ToggleShowForm()
      modifies this`showForm
      ensures showForm == !old(showForm)
    {
      showForm := !showForm;
    }
  }
}

# Hospital admin screens: record-management state

This project models the record-management state of the admin front-end's
screens. Each screen keeps its own state and its own handlers. They are
modelled one screen at a time, and their differences are kept.

- **Outpatients** (`outpatients.dfy`). The list comes from the backend. A search box
  matches name OR email. The screen shows five records per page. One form
  creates or edits, with the key field disabled while editing. Each row has an
  Active/Inactive switch.
- **Appointments** (`appointments.dfy`). The list comes from the backend. A status
  filter AND a patient-name search keep a separate filtered list up to date.
  A pie chart counts the three statuses. There is an add modal and a delete
  per row.
- **Pharmacists** (`pharmacists.dfy`). The list comes from the backend. One
  modal creates a pharmacist, or edits the one it was opened with. The choice
  between PUT and POST depends on whether `editId` is truthy.
- **Doctors** (`doctors.dfy`). The list comes from the backend behind a loading
  flag. There is an add modal. Delete runs only after the user confirms.
- **NFTs** (`nfts.dfy`). A local list. The add appends only when name, price
  and image are all filled in. The new id is `length + 1`.
- **Transactions** and **Users** (`transactions.dfy`, `users.dfy`). Local lists.
  The add appends the draft unconditionally, with id `length + 1`.

Every screen is a `class` whose fields are the screen's state variables.
Each handler is a method whose `modifies` clause names exactly the fields it
may change. Every call to the backend is an outcome the handler receives as a
parameter: `WriteResult` (`Succeeded` or `Failed`) for create, update and
delete, and `ListResult` (`Fetched(body)` or `FetchFailed`) for list. A
handler returns the requests it sent, in order. When a write succeeds, the
handler refetches by calling the screen's fetch method with a second outcome
parameter. The shared modules model the JavaScript built-ins the screens use:

- `JsText`: `toLowerCase` on ASCII letters, and `includes`.
- `JsArray`: `filter` and `slice`.
- `Records`: backend records, requests and outcomes. A backend record is a
  `map<string, string>`, and an absent key is `undefined`.

Where the code departs from the usual create/edit/paginate conventions, the
model follows the code:

- The outpatient page count is `Math.ceil(n / 5)`, which is 0 when nothing
  matches, not `max(1, …)`.
- Changing the search does not reset the current page. A page beyond the
  count shows an empty table (`PageHasItemsIff`).
- Closing the pharmacist modal keeps the draft and `editId`. Nothing clears
  them on close.
- Only the NFT screen checks its input in a handler. On the outpatient screen
  the browser's required-field check gates the submit (`SubmitForm`).
- Only the doctor screen asks for confirmation before deleting.
- The outpatient "Hide Form" button only hides the form. The edit mode, the
  key being edited and the draft all survive it (`ToggleShowForm`).
- The appointment and doctor screens have no update.

## Model

| member | source | states |
|---|---|---|
| JsText.LowerChar | src/pages/outPatient.jsx:162 | an upper-case ASCII letter maps to its lower-case letter (32 code points down the table); every other character is unchanged; the result is never upper-case |
| JsText.Lower | src/pages/outPatient.jsx:162 | the lower-cased string has the same length and each character is the lower-cased character at the same position |
| JsText.LowerIdempotent | src/pages/outPatient.jsx:162 | lower-casing twice equals lower-casing once |
| JsText.IncludesIffOccurs | src/pages/outPatient.jsx:162-163 | `includes(s, sub)` holds if and only if `sub` occurs in `s` at some offset (both directions) |
| JsText.Includes | src/pages/outPatient.jsx:162-163 | `includes` finds the empty string in every string, and finds nothing longer than the string searched (IncludesIffOccurs gives the full characterisation) |
| JsArray.Filter | src/pages/outPatient.jsx:160-164 | `filter` keeps exactly the elements satisfying the predicate, every copy of them: each value occurs in the result as often as in the input when it satisfies the predicate and not at all otherwise; every kept element comes from the input and satisfies it, every satisfying element is kept, and the result is an order-preserving subsequence no longer than the input |
| JsArray.FilterKeepsAll | src/pages/outPatient.jsx:160-164 | a predicate every element satisfies gives back the whole array |
| JsArray.SubsequenceReflexive | src/pages/admin/appointment.jsx:98 | an unfiltered list is a subsequence of itself |
| JsArray.SubsequenceTransitive | src/pages/admin/appointment.jsx:98-108 | filtering a filtered list is still an order-preserving subsequence of the original |
| JsArray.SliceIndex | src/pages/outPatient.jsx:169 | a `slice` bound is clamped into `0..len`, and a non-negative bound is kept when it is within the length |
| JsArray.Slice | src/pages/outPatient.jsx:169 | `slice` with non-negative bounds `start <= end` is the sub-sequence between the clamped bounds, and with `0 <= end <= start` it is empty; for any bounds the result is drawn from the input, never longer than it, and, when `start <= end`, no longer than `end - start` |
| Records.WithField | src/pages/outPatient.jsx:72-74 | `{...r, [name]: value}`: the named field holds the value, every other field is unchanged, and the key set grows by at most that name |
| Records.Text | src/pages/outPatient.jsx:162-163 | `record.key \|\| ''`: the text is non-empty exactly when the field is truthy, and then it is the field's value; an absent or empty field reads as "" |
| Records.Truthy | src/pages/admin/pharmacistManagement.jsx:85 | a possibly missing string is falsy exactly when it is `undefined`/`null` or the empty string |
| Outpatients.EmptyForm | src/pages/outPatient.jsx:97-108 | the reset template has exactly the eight input fields plus status, all empty except status 'Active' |
| Outpatients.MatchesSearch | src/pages/outPatient.jsx:161-163 | an empty query matches every record, and a record matches only when the query fits in its name or its email |
| Outpatients.Visible | src/pages/outPatient.jsx:160-164 | the search keeps a record if and only if the lower-cased query occurs in its lower-cased name or email (a missing field reads as ""), in list order, and keeps each matching record as many times as the list holds it |
| Outpatients.EmptySearchKeepsAll | src/pages/outPatient.jsx:160-164 | an empty search keeps every record in its original order |
| Outpatients.SearchIgnoresCase | src/pages/outPatient.jsx:162-163 | a query and its lower-cased form select the same records |
| Outpatients.SearchJohnExample | src/pages/outPatient.jsx:160-164 | searching "john" over "John Doe" and "Alice" keeps only "John Doe" |
| Outpatients.PageWindow | src/pages/outPatient.jsx:167-169 | `currentItems` has at most five rows, all taken from the visible list, for any page number; from page 1 on, row i is visible record (page-1)*5 + i |
| Outpatients.PageCount | src/pages/outPatient.jsx:347 | `Math.ceil(n/5)` is the least page count whose pages of five hold n records, hence 0 for no records |
| Outpatients.PageWindowShape | src/pages/outPatient.jsx:166-169 | page p ≥ 1 is the slice [(p-1)*5, min(p*5, n)) of the visible records and has length min(5, max(0, n-(p-1)*5)) |
| Outpatients.PageHasItemsIff | src/pages/outPatient.jsx:166-169 | a page shows records if and only if its number is at most the page count; a stale page beyond it shows nothing |
| Outpatients.ItemOnItsPage | src/pages/outPatient.jsx:166-169 | visible record i appears on page i/5+1 at row i%5, and that page is within the count |
| Outpatients.SevenRecordsTwoPages | src/pages/outPatient.jsx:166-169 | seven visible records give two pages holding five and two records |
| Outpatients.NextStatus | src/pages/outPatient.jsx:140 | the new status is 'Inactive' exactly when the old one is 'Active', and 'Active' for anything else, a missing status included |
| Outpatients.TogglePayload | src/pages/outPatient.jsx:141-144 | the switch's body is the whole record with its status replaced by the flipped status and every other field unchanged |
| Outpatients.NextStatusTwice | src/pages/outPatient.jsx:140 | two flips give 'Active' from 'Active' and 'Inactive' from anything else, so they restore the status exactly when it was 'Active' or 'Inactive' |
| Outpatients.ToggleTwiceRestores | src/pages/outPatient.jsx:140-144 | a record whose status is 'Active' or 'Inactive' is unchanged by two flips |
| Outpatients.SubmittableIff | src/pages/outPatient.jsx:255-264 | the form passes the required-field check if and only if name, age, gender, shift, email and phone are filled, plus outpatientID and password when creating; editing needs neither the disabled ID nor the password |
| Outpatients.FieldRequired | src/pages/outPatient.jsx:263 | every input is required when creating; when editing, every input except the password |
| Outpatients.FieldDisabled | src/pages/outPatient.jsx:264 | no input is disabled when creating; only outpatientID can be disabled, and only while editing |
| Outpatients.Submittable | src/pages/outPatient.jsx:255-264 | creating passes the required-field check exactly when all eight inputs are filled; editing exactly when the six between outpatientID and password are |
| Outpatients.AfterFetch | src/pages/outPatient.jsx:56-65 | `setOutpatients(data \|\| [])`: a fetched body replaces the list wholesale, a null or empty body empties it, and a failed call keeps it |
| Outpatients.OutpatientScreen.constructor | src/pages/outPatient.jsx:34-52 | initial state: no records, blank form, create mode, editID '', loading, empty search, page 1, form hidden |
| Outpatients.OutpatientScreen.CurrentItems | src/pages/outPatient.jsx:167-169 | the table shows at most five rows, each a record of the list that matches the search; from page 1, it is exactly page `currentPage` of the visible records: min(5, max(0, n-(currentPage-1)*5)) rows, row i being visible record (currentPage-1)*5 + i |
| Outpatients.OutpatientScreen.Pages | src/pages/outPatient.jsx:347 | the count handed to the pagination control is the number of pages with rows: for every page p from 1, page p of the visible records is non-empty if and only if p is at most the count, so the count is `Math.ceil(n/5)`; in particular the current page shows rows exactly when it is within the count |
| Outpatients.OutpatientScreen.FetchOutpatients | src/pages/outPatient.jsx:56-65 | one list request; a response replaces the list wholesale (`data \|\| []`), a failure keeps it; loading ends false either way; nothing else changes |
| Outpatients.OutpatientScreen.HandleChange | src/pages/outPatient.jsx:72-74 | only the form changes, and only the named field of it |
| Outpatients.OutpatientScreen.TypeInto | src/pages/outPatient.jsx:255-264 | typing into the disabled outpatientID input while editing changes nothing; any other input goes through handleChange |
| Outpatients.OutpatientScreen.ResetForm | src/pages/outPatient.jsx:97-112 | the form becomes the template, editing false, editID '', form hidden |
| Outpatients.OutpatientScreen.HandleSubmit | src/pages/outPatient.jsx:77-94 | sends update(editID, form) when editing and create(form) otherwise; on success resets the form and refetches; on failure the list, form, editing, editID, showForm and loading are unchanged |
| Outpatients.OutpatientScreen.SubmitForm | src/pages/outPatient.jsx:254-264 | a form failing the required-field check sends nothing and changes nothing; otherwise it behaves as handleSubmit |
| Outpatients.OutpatientScreen.HandleEdit | src/pages/outPatient.jsx:115-120 | the form becomes the record, editing true, editID the record's outpatientID, form shown |
| Outpatients.OutpatientScreen.HandleDelete | src/pages/outPatient.jsx:123-133 | sends a delete of the id; a success refetches, a failure leaves the list and loading unchanged |
| Outpatients.OutpatientScreen.HandleStatusToggle | src/pages/outPatient.jsx:137-151 | sends an update of the record's outpatientID with the toggled payload; the list changes only through the refetch after a success |
| Outpatients.OutpatientScreen.SetSearch | src/pages/outPatient.jsx:201-202 | the query changes and nothing else, so the current page is not reset |
| Outpatients.OutpatientScreen.HandlePageChange | src/pages/outPatient.jsx:171-173 | the current page becomes the chosen page and nothing else changes |
| Outpatients.OutpatientScreen.ToggleShowForm | src/pages/outPatient.jsx:232 | the form's visibility flips and nothing else changes |
| Appointments.EmptyAppointment | src/pages/admin/appointment.jsx:33-38 | the blank draft has exactly patientName, doctorName and date empty and status 'Pending' |
| Appointments.StatusIs | src/pages/admin/appointment.jsx:101 | `app.status === filterStatus` holds exactly when the appointment has a status field equal to the chosen status |
| Appointments.NameContains | src/pages/admin/appointment.jsx:105-107 | an empty query matches every appointment, and a query longer than the patient name matches none |
| Appointments.Visible | src/pages/admin/appointment.jsx:97-111 | the effect's filtered list is never longer than the list and holds no appointment more often than the list does |
| Appointments.VisibleSound | src/pages/admin/appointment.jsx:97-111 | every kept appointment comes from the list, has status equal to filterStatus (when that is non-empty) and a lower-cased patientName containing the lower-cased query (when that is non-empty); the result keeps the original order |
| Appointments.VisibleComplete | src/pages/admin/appointment.jsx:97-111 | every appointment meeting both active criteria is kept, and the filtered list holds each appointment meeting them exactly as many times as the list does and no other; with VisibleSound the filter is an if-and-only-if that keeps order and multiplicity |
| Appointments.VisibleUnfiltered | src/pages/admin/appointment.jsx:97-111 | with both criteria empty the filtered list is the whole list; an empty list gives an empty result |
| Appointments.PieCountsBounded | src/pages/admin/appointment.jsx:90-94 | the Completed, Pending and Cancelled counts add up to at most the total, and to the total when every status is one of the three |
| Appointments.CountWithStatus | src/pages/admin/appointment.jsx:91-93 | a slice's count is at most the number of appointments, and is zero exactly when no appointment has that status |
| Appointments.AppointmentScreen.PieData | src/pages/admin/appointment.jsx:90-94 | the three slices are the Completed, Pending and Cancelled counts, in that order; their sum never exceeds the number of appointments and equals it when every appointment has one of the three statuses |
| Appointments.AppointmentScreen.constructor | src/pages/admin/appointment.jsx:30-40 | initial state: empty lists, modal closed, blank draft, no filter, and the filtered list consistent with the criteria |
| Appointments.AppointmentScreen.FilterEffect | src/pages/admin/appointment.jsx:97-111 | the filtered list becomes the status-then-name filter of the list, and nothing else changes |
| Appointments.AppointmentScreen.FetchAppointments | src/pages/admin/appointment.jsx:47-55 | a response replaces the list, and the filtered list is the response re-filtered by the effect; a failure changes nothing |
| Appointments.AppointmentScreen.HandleOpen | src/pages/admin/appointment.jsx:58 | only `open` changes, to true |
| Appointments.AppointmentScreen.HandleClose | src/pages/admin/appointment.jsx:59 | only `open` changes, to false |
| Appointments.AppointmentScreen.HandleChange | src/pages/admin/appointment.jsx:62-65 | only the draft changes, and only the named field of it |
| Appointments.AppointmentScreen.HandleAddAppointment | src/pages/admin/appointment.jsx:68-77 | sends a create of the draft; success refetches, blanks the draft and closes the modal; failure keeps the list, the draft and the open modal |
| Appointments.AppointmentScreen.HandleDeleteAppointment | src/pages/admin/appointment.jsx:80-87 | sends a delete of the id; success refetches, failure leaves both lists unchanged |
| Appointments.AppointmentScreen.SetFilterStatus | src/pages/admin/appointment.jsx:149 | the status criterion changes and the filtered list is recomputed |
| Appointments.AppointmentScreen.SetSearchQuery | src/pages/admin/appointment.jsx:139 | the query changes and the filtered list is recomputed |
| Pharmacists.EmptyPharmacist | src/pages/admin/pharmacistManagement.jsx:62-71 | the blank form has exactly the eight fields, all empty |
| Pharmacists.SaveRequest | src/pages/admin/pharmacistManagement.jsx:83-89 | a PUT to editId exactly when editId is a non-empty string, a POST otherwise, with the form as body in both cases |
| Pharmacists.PharmacistScreen.constructor | src/pages/admin/pharmacistManagement.jsx:28-40 | initial state: modal closed, no pharmacists, blank form, editId null |
| Pharmacists.PharmacistScreen.FetchPharmacists | src/pages/admin/pharmacistManagement.jsx:48-55 | a response replaces the list wholesale; a failure keeps it |
| Pharmacists.PharmacistScreen.HandleOpen | src/pages/admin/pharmacistManagement.jsx:57-75 | with a record: form = record, editId = record._id; without: blank form, editId null; the modal opens |
| Pharmacists.PharmacistScreen.HandleClose | src/pages/admin/pharmacistManagement.jsx:77 | only `open` changes; the draft and editId are kept |
| Pharmacists.PharmacistScreen.HandleChange | src/pages/admin/pharmacistManagement.jsx:79-81 | only the form changes, and only the named field of it |
| Pharmacists.PharmacistScreen.HandleSavePharmacist | src/pages/admin/pharmacistManagement.jsx:83-95 | sends the save request; success refetches and closes the modal, keeping the draft and editId; failure leaves open, the list, the draft and editId unchanged |
| Pharmacists.PharmacistScreen.HandleDeletePharmacist | src/pages/admin/pharmacistManagement.jsx:97-104 | sends a delete of the id; success refetches, failure keeps the list |
| Pharmacists.EditThenSave | src/pages/admin/pharmacistManagement.jsx:57-89 | opening on a record and saving updates that record's _id with the record as body when the _id is truthy, and creates it otherwise |
| Doctors.EmptyDoctor | src/pages/admin/DoctorManagement.jsx:67-75 | the blank form has exactly the seven fields, all empty |
| Doctors.DoctorScreen.constructor | src/pages/admin/DoctorManagement.jsx:22-33 | initial state: no doctors, loading, modal closed, blank form |
| Doctors.DoctorScreen.FetchDoctors | src/pages/admin/DoctorManagement.jsx:36-45 | a response replaces the list wholesale, a failure keeps it; loading ends false on both paths |
| Doctors.DoctorScreen.HandleOpen | src/pages/admin/DoctorManagement.jsx:52 | only `open` changes, to true |
| Doctors.DoctorScreen.HandleClose | src/pages/admin/DoctorManagement.jsx:53 | only `open` changes, to false |
| Doctors.DoctorScreen.HandleChange | src/pages/admin/DoctorManagement.jsx:56-58 | only the form changes, and only the named field of it |
| Doctors.DoctorScreen.HandleSubmit | src/pages/admin/DoctorManagement.jsx:61-79 | sends a create of the form; success refetches, closes the modal and blanks the form; failure keeps the modal, the form and the list |
| Doctors.DoctorScreen.HandleDelete | src/pages/admin/DoctorManagement.jsx:82-91 | declining the confirmation sends nothing and changes nothing; confirming sends a delete, and a success refetches |
| Nfts.WithField | src/pages/admin/nft-management.jsx:61-63 | the named draft field takes the value and the other two are unchanged |
| Nfts.Complete | src/pages/admin/nft-management.jsx:67 | the add's guard holds exactly when every input of the form is non-empty |
| Nfts.Appended | src/pages/admin/nft-management.jsx:68 | specified by Nfts.AppendedShape and Nfts.AppendKeepsIds: the draft is appended with id `length + 1`, earlier items are kept, and ids stay index + 1 |
| Nfts.AppendedShape | src/pages/admin/nft-management.jsx:68 | the append adds one item at the end, with the draft's fields and id = old length + 1, and earlier items are unchanged |
| Nfts.AppendKeepsIds | src/pages/admin/nft-management.jsx:68 | appending to a list where item i has id i+1 keeps that numbering, so ids stay distinct |
| Nfts.NftScreen.constructor | src/pages/admin/nft-management.jsx:17-55 | initial state: form hidden, the three sample NFTs numbered 1..3, blank draft |
| Nfts.NftScreen.ToggleForm | src/pages/admin/nft-management.jsx:58 | showForm is negated and nothing else changes |
| Nfts.ToggleFormTwice | src/pages/admin/nft-management.jsx:58 | toggling twice restores showForm and leaves the list and the draft alone |
| Nfts.NftScreen.HandleChange | src/pages/admin/nft-management.jsx:61-63 | only the draft changes, and only the named field of it |
| Nfts.NftScreen.HandleAddNft | src/pages/admin/nft-management.jsx:66-72 | a draft with name, price and image all non-empty is appended, then the draft is blanked and the form hidden; otherwise nothing changes; ids stay equal to index + 1 |
| Transactions.WithField | src/pages/admin/transactions.jsx:53-55 | the named draft field takes the value and the other three are unchanged |
| Transactions.AppendedShape | src/pages/admin/transactions.jsx:58-64 | the append adds one entry at the end, with the draft's fields and id = old length + 1, and earlier entries are unchanged |
| Transactions.AppendKeepsIds | src/pages/admin/transactions.jsx:58-64 | appending keeps id = index + 1, so ids stay distinct |
| Transactions.Appended | src/pages/admin/transactions.jsx:59-64 | specified by Transactions.AppendedShape and Transactions.AppendKeepsIds: the draft is appended with id `length + 1`, earlier entries are kept, and ids stay index + 1 |
| Transactions.TransactionScreen.constructor | src/pages/admin/transactions.jsx:39-46 | initial state: the three sample transactions numbered 1..3, modal closed, blank draft |
| Transactions.TransactionScreen.HandleOpen | src/pages/admin/transactions.jsx:49 | only `open` changes, to true |
| Transactions.TransactionScreen.HandleClose | src/pages/admin/transactions.jsx:50 | only `open` changes, to false |
| Transactions.TransactionScreen.HandleChange | src/pages/admin/transactions.jsx:53-55 | only the draft changes, and only the named field of it |
| Transactions.TransactionScreen.AddTransaction | src/pages/admin/transactions.jsx:58-67 | the draft is appended with no check, even when every field is empty; the modal closes and the draft becomes four empty strings; ids stay equal to index + 1 |
| Users.WithField | src/pages/admin/user.jsx:19-22 | the named draft field takes the value and the other two are unchanged |
| Users.AppendedShape | src/pages/admin/user.jsx:24-26 | the append adds {id: length+1, name, email, role} at the end, and earlier users are unchanged |
| Users.AppendKeepsIds | src/pages/admin/user.jsx:24-26 | appending keeps id = index + 1, so ids stay distinct |
| Users.Appended | src/pages/admin/user.jsx:25-26 | specified by Users.AppendedShape and Users.AppendKeepsIds: the draft is appended with id `length + 1`, earlier users are kept, and ids stay index + 1 |
| Users.UserScreen.constructor | src/pages/admin/user.jsx:8-14 | initial state: modal closed, the two sample users numbered 1 and 2, blank draft |
| Users.UserScreen.HandleOpen | src/pages/admin/user.jsx:16 | only `open` changes, to true |
| Users.UserScreen.HandleClose | src/pages/admin/user.jsx:17 | only `open` changes, to false |
| Users.UserScreen.HandleChange | src/pages/admin/user.jsx:19-22 | only the draft changes, and only the named field of it |
| Users.UserScreen.HandleAddUser | src/pages/admin/user.jsx:24-29 | the draft is appended with no check, even when every field is empty; the draft is blanked and the modal closed; ids stay equal to index + 1 |

## Left out

- Rendering: JSX markup, MUI and framer-motion styling, the recharts charts and the DataGrid's own paging. These are presentation and library behaviour. The pie chart is modelled only as its three counts.
- The HTTP layer (axios, `fetch`, the files under src/api/). Each call is an outcome parameter. Whether a non-2xx answer rejects the promise is part of that outcome.
- A response body of `null` on the appointment, pharmacist and doctor screens. There the render or the filter would throw. Only the outpatient screen's `data || []` fallback is modelled.
- Concurrency. A refetch is not awaited in the source. The model runs it to completion inside the handler that started it, so refetch races and double submits are not modelled.
- Snackbar messages and console logging. These are notification side effects.
- Field values are strings. `Number(newTransaction.amount)` (JS number parsing, NaN, floats) is left out, so a transaction's amount keeps the draft's text.
- Appointments.NameContains: a fetched appointment without `patientName` makes the source's filter throw when the query is non-empty. The model reads the missing name as "".
- JsText.Lower: only ASCII letters are lower-cased. Unicode case mapping is not modelled.
- The browser's type checks (`type="number"` on the outpatient age) and the text of `window.confirm`. The user's answer to the confirmation is a parameter.
- The login screen, the dashboards, routing, the sidebar and the web3 binding. They hold no state logic of these screens.

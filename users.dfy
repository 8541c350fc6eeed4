/** The user screen (src/pages/admin/user.jsx): a local list seeded with two
    sample users and an add form in a modal. The add appends whatever the
    draft holds, with no check. Nothing here talks to a server. */
module Users {

  datatype User = User(id: int, name: string, email: string, role: string)

  /** The modal's draft, `formData`. */
  datatype UserDraft = UserDraft(name: string, email: string, role: string)

  /** The inputs of the modal, by their `name` attribute. */
  datatype UserField = Name | Email | Role

  const EmptyDraft: UserDraft := UserDraft("", "", "")

  /** The sample list the screen starts from. */
  const InitialUsers: seq<User> := [
    User(1, "John Doe", "john@example.com", "Admin"),
    User(2, "Jane Smith", "jane@example.com", "User")
  ]

  function FieldOf(d: UserDraft, f: UserField): string
  {
    match f
    case Name => d.name
    case Email => d.email
    case Role => d.role
  }

  /** `{ ...formData, [name]: value }`: the named field takes the value and
      the other two are kept. */
  function WithField(d: UserDraft, f: UserField, value: string): (r: UserDraft)
    ensures FieldOf(r, f) == value
    ensures forall g :: g != f ==> FieldOf(r, g) == FieldOf(d, g)
  {
    match f
    case Name => d.(name := value)
    case Email => d.(email := value)
    case Role => d.(role := value)
  }

  /** Item i carries id i + 1. */
  predicate IdsAreIndices(list: seq<User>)
  {
    forall i :: 0 <= i < |list| ==> list[i].id == i + 1
  }

  /** `[...users, { id: users.length + 1, ...formData }]` */
  function Appended(list: seq<User>, d: UserDraft): seq<User>
  {
    list + [User(|list| + 1, d.name, d.email, d.role)]
  }

  /** The append puts the draft, numbered one past the old length, at the end
      and leaves every earlier user where it was, whatever the draft holds. */
  lemma AppendedShape(list: seq<User>, d: UserDraft)
    ensures |Appended(list, d)| == |list| + 1
    ensures forall i :: 0 <= i < |list| ==> Appended(list, d)[i] == list[i]
    ensures var last := Appended(list, d)[|list|];
      last.id == |list| + 1 && last.name == d.name && last.email == d.email && last.role == d.role
  {
  }

  /** Appending keeps the numbering, so ids stay distinct. */
  lemma AppendKeepsIds(list: seq<User>, d: UserDraft)
    requires IdsAreIndices(list)
    ensures IdsAreIndices(Appended(list, d))
    ensures forall i, j :: 0 <= i < j < |Appended(list, d)| ==> Appended(list, d)[i].id != Appended(list, d)[j].id
  {
  }

  class UserScreen {
    var open: bool
    var users: seq<User>
    var formData: UserDraft

    ghost predicate Valid()
      reads this
    {
      IdsAreIndices(users)
    }

    constructor ()
      ensures Valid()
      ensures !open && users == InitialUsers && formData == EmptyDraft
    {
      open := false;
      users := InitialUsers;
      formData := EmptyDraft;
    }

    method HandleOpen()
      modifies this`open
      ensures open
    {
      open := true;
    }

    method HandleClose()
      modifies this`open
      ensures !open
    {
      open := false;
    }

    /** handleChange: one field of the draft takes the typed value. */
    method HandleChange(field: UserField, value: string)
      modifies this`formData
      ensures formData == WithField(old(formData), field, value)
    {
      formData := WithField(formData, field, value);
    }

    /** handleAddUser: the draft is appended unconditionally, the draft
      blanked and the modal closed. */
    method HandleAddUser()
      requires Valid()
      modifies this`users, this`formData, this`open
      ensures Valid()
      ensures users == Appended(old(users), old(formData))
      ensures formData == EmptyDraft && !open
    {
      AppendKeepsIds(users, formData);
      users := Appended(users, formData);
      formData := EmptyDraft;
      HandleClose();
    }
  }
}

/** The user administration page (`pages/Users.jsx`): the user form, the payload
    it sends (with a password only when creating), and which rows may be deleted. */
module Users {
  import opened Js
  import opened Records
  import opened Tally

  /** The user form. Fields copied from a user without `|| ''` may be missing. */
  datatype UserForm = UserForm(fullName: Option<string>, email: Option<string>, password: string,
                               role: Option<string>, department: string, employeeId: string)

  /** The blank form: every field empty, role Employee. */
  const BlankUserForm := UserForm(Some(""), Some(""), "", Some("Employee"), "", "")

  /** The body sent to create or update a user; `password` is absent on an update. */
  datatype UserPayload = UserPayload(fullName: Option<string>, email: Option<string>, role: Option<string>,
                                     department: string, employeeId: string, password: Option<string>)

  /** The payload: the five profile fields always, and the password only when
      creating a user. */
  function Payload(form: UserForm, editing: bool): (p: UserPayload)
    ensures p.fullName == form.fullName && p.email == form.email && p.role == form.role
    ensures p.department == form.department && p.employeeId == form.employeeId
    ensures p.password.Some? <==> !editing
    ensures !editing ==> p.password.value == form.password
  {
    UserPayload(form.fullName, form.email, form.role, form.department, form.employeeId,
                if editing then None else Some(form.password))
  }

  /** The form filled from a user being edited: an empty password, and a missing
      department or employee id shown as ''. */
  function EditForm(u: User): (f: UserForm)
    ensures f.password == ""
    ensures f.department == Or(u.department, "") && f.employeeId == Or(u.employeeId, "")
    ensures f.fullName == u.fullName && f.email == u.email && f.role == u.role
  {
    UserForm(u.fullName, u.email, "", u.role, Or(u.department, ""), Or(u.employeeId, ""))
  }

  /** Editing a user and saving it unchanged sends back the user's own profile
      and never a password. */
  lemma EditThenSaveSendsProfile(u: User)
    ensures var p := Payload(EditForm(u), true);
            && p.fullName == u.fullName && p.email == u.email && p.role == u.role
            && p.department == Or(u.department, "") && p.employeeId == Or(u.employeeId, "")
            && p.password.None?
  {
  }

  /** The delete action of a row: offered unless the row is the signed-in user
      (ids compared as JavaScript does, two missing ids being equal). */
  predicate CanDelete(rowId: Option<string>, meId: Option<string>)
    ensures rowId == meId ==> !CanDelete(rowId, meId)
    ensures rowId.None? && meId.None? ==> !CanDelete(rowId, meId)
    ensures rowId.Some? && meId.None? ==> CanDelete(rowId, meId)
  {
    rowId != meId
  }

  /** The rows offering the delete action. */
  function DeletableRows(rows: seq<User>, me: User): (r: seq<User>)
    ensures forall i :: 0 <= i < |r| ==> r[i] in rows && r[i].mongoId != me.mongoId
    ensures forall i :: 0 <= i < |rows| && rows[i].mongoId != me.mongoId ==> rows[i] in r
  {
    Filter(rows, (u: User) => CanDelete(u.mongoId, me.mongoId))
  }

  /** The signed-in user's own row never offers deletion, and on a list whose
      ids are all someone else's every row does. */
  lemma OnlyOwnRowProtected(rows: seq<User>, me: User)
    ensures me.mongoId.Some? ==> me !in DeletableRows(rows, me)
    ensures (forall i :: 0 <= i < |rows| ==> rows[i].mongoId != me.mongoId) ==> DeletableRows(rows, me) == rows
  {
    if forall i :: 0 <= i < |rows| ==> rows[i].mongoId != me.mongoId {
      FilterAll(rows, (u: User) => CanDelete(u.mongoId, me.mongoId));
    }
  }

  /** The request a submit sends. */
  datatype UserRequest = CreateUser(payload: UserPayload) | UpdateUser(id: Option<string>, payload: UserPayload)

  /** The page's dialog, form and message state. */
  class UsersPage {
    var open: bool
    var editingUser: Option<User>
    var formData: UserForm
    var loading: bool
    var error: string
    var success: string
    var refreshRequested: bool

    constructor ()
      ensures !open && editingUser.None? && formData == BlankUserForm
      ensures !loading && error == "" && success == "" && !refreshRequested
    {
      open := false;
      editingUser := None;
      formData := BlankUserForm;
      loading := false;
      error := "";
      success := "";
      refreshRequested := false;
    }

    /** `handleEdit`. */
    method HandleEdit(u: User)
      modifies this
      ensures open && editingUser == Some(u) && formData == EditForm(u)
      ensures loading == old(loading) && error == old(error) && success == old(success)
      ensures refreshRequested == old(refreshRequested)
    {
      editingUser := Some(u);
      formData := EditForm(u);
      open := true;
    }

    /** `handleClose`: the dialog closes, nothing is edited, the form is blank. */
    method HandleClose()
      modifies this
      ensures !open && editingUser.None? && formData == BlankUserForm
      ensures loading == old(loading) && error == old(error) && success == old(success)
      ensures refreshRequested == old(refreshRequested)
    {
      open := false;
      editingUser := None;
      formData := BlankUserForm;
    }

    /** `handleSubmit`: updates the user being edited (no password sent) or
        registers a new one (with the password). Success reports it, asks for a
        fresh list and closes the dialog; failure shows the server's error or
        'Operation failed'. Loading always ends false. */
    method HandleSubmit(outcome: Outcome<()>) returns (request: UserRequest)
      modifies this
      ensures old(editingUser).Some? ==> request == UpdateUser(old(editingUser).value.mongoId, Payload(old(formData), true))
      ensures old(editingUser).None? ==> request == CreateUser(Payload(old(formData), false))
      ensures !loading
      ensures outcome.Done? ==>
                error == "" && refreshRequested && !open && editingUser.None? && formData == BlankUserForm
                && success == (if old(editingUser).Some? then "User updated successfully!" else "User created successfully!")
      ensures outcome.Failed? ==>
                success == "" && error == Or(ServerError(outcome.failure), "Operation failed")
                && open == old(open) && editingUser == old(editingUser) && formData == old(formData)
                && refreshRequested == old(refreshRequested)
    {
      loading := true;
      error := "";
      success := "";
      var editing := editingUser.Some?;
      var payload := Payload(formData, editing);
      if editing {
        request := UpdateUser(editingUser.value.mongoId, payload);
      } else {
        request := CreateUser(payload);
      }
      match outcome {
        case Done(_) =>
          success := if editing then "User updated successfully!" else "User created successfully!";
          refreshRequested := true;
          HandleClose();
        case Failed(f) =>
          error := Or(ServerError(f), "Operation failed");
      }
      loading := false;
    }
  }
}

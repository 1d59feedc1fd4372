/** The maintenance administration page (`pages/AdminMaintenance.jsx`): a table of
    requests whose status and due date can be edited row by row before the row
    is saved. Unsaved edits live in a map from request id to the fields edited. */
module Maintenance {
  import opened Js
  import opened Records

  /** Unsaved edits: request id to the fields edited in that row. */
  type Edits = map<string, map<string, string>>

  /** The fields edited in one row so far; none for a row never edited. */
  function RowEdits(editing: Edits, id: string): (r: map<string, string>)
    ensures id !in editing ==> r == map[]
  {
    if id in editing then editing[id] else map[]
  }

  /** One field's edited value, if that field of that row was edited. */
  function Edited(editing: Edits, id: string, field: string): (r: Option<string>)
    ensures r.Some? <==> id in editing && field in editing[id]
  {
    if field in RowEdits(editing, id) then Some(RowEdits(editing, id)[field]) else None
  }

  /** The edit map after `setField(id, field, value)`: the field holds the value,
      the row's other edits and every other row are kept. */
  function WithField(editing: Edits, id: string, field: string, value: string): (e: Edits)
    ensures e.Keys == editing.Keys + {id}
    ensures Edited(e, id, field) == Some(value)
    ensures forall f :: f != field ==> Edited(e, id, f) == Edited(editing, id, f)
    ensures forall other, f :: other != id ==> Edited(e, other, f) == Edited(editing, other, f)
    ensures forall other :: other != id && other in editing ==> e[other] == editing[other]
  {
    editing[id := RowEdits(editing, id)[field := value]]
  }

  /** The status shown for a row: the edited one when it is non-empty, else the stored one. */
  function DisplayedStatus(editing: Edits, r: MaintenanceRequest): (s: string)
    ensures !Truthy(Edited(editing, r.id, "status")) ==> s == r.status
    ensures Truthy(Edited(editing, r.id, "status")) ==> s == Edited(editing, r.id, "status").value
  {
    Or(Edited(editing, r.id, "status"), r.status)
  }

  /** The due date shown for a row: the edited one when it is non-empty, else the
      stored date's `yyyy-mm-dd` form (through `isoDay`), or '' when none is
      stored. A stored date that is not a valid date makes the formatting throw
      (None). */
  function DisplayedDueDate(editing: Edits, r: MaintenanceRequest, isoDay: int -> string): (d: Option<string>)
    ensures Truthy(Edited(editing, r.id, "dueDate")) ==> d == Edited(editing, r.id, "dueDate")
    ensures !Truthy(Edited(editing, r.id, "dueDate")) ==>
              (!DateTruthy(r.dueDate) ==> d == Some(""))
              && (r.dueDate.At? ==> d == Some(isoDay(r.dueDate.instant)))
              && (r.dueDate.Unparsable? && r.dueDate.text != "" ==> d.None?)
  {
    var e := Edited(editing, r.id, "dueDate");
    if Truthy(e) then e
    else match r.dueDate
      case Unset => Some("")
      case Unparsable(t) => if t == "" then Some("") else None
      case At(i) => Some(isoDay(i))
  }

  /** Choosing a status in a row shows that status in that row. */
  lemma ChosenStatusShown(editing: Edits, r: MaintenanceRequest, value: string)
    requires value != ""
    ensures DisplayedStatus(WithField(editing, r.id, "status", value), r) == value
  {
  }

  /** Editing one field of a row leaves what every other row shows, and the
      other field of the same row, as it was. */
  lemma EditStaysInItsCell(editing: Edits, r: MaintenanceRequest, id: string, field: string, value: string,
                           isoDay: int -> string)
    ensures id != r.id ==> DisplayedStatus(WithField(editing, id, field, value), r) == DisplayedStatus(editing, r)
    ensures id != r.id ==> DisplayedDueDate(WithField(editing, id, field, value), r, isoDay)
                           == DisplayedDueDate(editing, r, isoDay)
    ensures field != "status" ==> DisplayedStatus(WithField(editing, id, field, value), r) == DisplayedStatus(editing, r)
    ensures field != "dueDate" ==> DisplayedDueDate(WithField(editing, id, field, value), r, isoDay)
                                   == DisplayedDueDate(editing, r, isoDay)
  {
  }

  /** The page state. */
  class MaintenancePage {
    var requests: seq<MaintenanceRequest>
    var error: string
    var success: string
    var editing: Edits

    constructor ()
      ensures requests == [] && error == "" && success == "" && editing == map[]
    {
      requests := [];
      error := "";
      success := "";
      editing := map[];
    }

    /** `load`: the fetched requests replace the list; a failed fetch only sets the error. */
    method Load(response: Outcome<seq<MaintenanceRequest>>)
      modifies this
      ensures response.Done? ==> requests == response.data && error == old(error)
      ensures response.Failed? ==> requests == old(requests) && error == "Failed to load maintenance requests"
      ensures success == old(success) && editing == old(editing)
    {
      match response {
        case Done(data) => requests := data;
        case Failed(_) => error := "Failed to load maintenance requests";
      }
    }

    /** `setField`. */
    method SetField(id: string, field: string, value: string)
      modifies this
      ensures editing == WithField(old(editing), id, field, value)
      ensures requests == old(requests) && error == old(error) && success == old(success)
    {
      editing := editing[id := RowEdits(editing, id)[field := value]];
    }

    /** `saveRow`: sends the row's edits, or an empty body for a row never
        edited, and keeps the edits afterwards. Success says 'Updated' and
        reloads the list; failure shows the server's error or 'Update failed'. */
    method SaveRow(id: string, outcome: Outcome<()>, reload: Outcome<seq<MaintenanceRequest>>)
      returns (body: map<string, string>)
      modifies this
      ensures body == RowEdits(old(editing), id)
      ensures id !in old(editing) ==> body == map[]
      ensures editing == old(editing)
      ensures outcome.Done? ==> success == "Updated"
      ensures outcome.Done? && reload.Done? ==> requests == reload.data && error == old(error)
      ensures outcome.Done? && reload.Failed? ==>
                requests == old(requests) && error == "Failed to load maintenance requests"
      ensures outcome.Failed? ==>
                requests == old(requests) && success == old(success)
                && error == Or(ServerError(outcome.failure), "Update failed")
    {
      body := RowEdits(editing, id);
      match outcome {
        case Done(_) =>
          success := "Updated";
          Load(reload);
        case Failed(f) =>
          error := Or(ServerError(f), "Update failed");
      }
    }
  }
}

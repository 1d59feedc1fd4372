/** The assignments page (`pages/Assignments.jsx`): the items offered for a new
    assignment, the assignment form and the payload it sends, the return dialog
    and which rows offer the return action. */
module Assignments {
  import opened Js
  import opened Records
  import opened Tally
  import Chips

  /** The items offered for a new assignment: the fetched items that are Available. */
  function AvailableItems(fetched: seq<Item>): (r: seq<Item>)
    ensures forall i :: 0 <= i < |r| ==> r[i] in fetched && r[i].status == AVAILABLE
    ensures forall i :: 0 <= i < |fetched| && fetched[i].status == AVAILABLE ==> fetched[i] in r
  {
    Filter(fetched, (x: Item) => x.status == AVAILABLE)
  }

  /** The offered items keep the server's order. */
  lemma AvailableItemsKeepOrder(fetched: seq<Item>)
    ensures IsSubsequence(AvailableItems(fetched), fetched)
  {
    FilterIsSubsequence(fetched, (x: Item) => x.status == AVAILABLE);
  }

  /** When every fetched item is Available, all of them are offered; when none
      is, none is. */
  lemma AvailableItemsExtremes(fetched: seq<Item>)
    ensures (forall i :: 0 <= i < |fetched| ==> fetched[i].status == AVAILABLE) ==> AvailableItems(fetched) == fetched
    ensures (forall i :: 0 <= i < |fetched| ==> fetched[i].status != AVAILABLE) ==> AvailableItems(fetched) == []
  {
    if forall i :: 0 <= i < |fetched| ==> fetched[i].status == AVAILABLE {
      FilterAll(fetched, (x: Item) => x.status == AVAILABLE);
    }
    if forall i :: 0 <= i < |fetched| ==> fetched[i].status != AVAILABLE {
      FilterNone(fetched, (x: Item) => x.status == AVAILABLE);
    }
  }

  /** The assignment form. The condition is copied from an assignment when
      editing and may then be missing. */
  datatype AssignmentForm = AssignmentForm(
    item: Option<Item>, employee: Option<User>, assignmentDate: string,
    expectedReturnDate: string, condition: Option<string>, notes: string, status: string)

  /** The default form, dated `today` (formatted `yyyy-mm-dd`). */
  function DefaultForm(today: string): (f: AssignmentForm)
    ensures f.item.None? && f.employee.None? && f.assignmentDate == today
    ensures f.expectedReturnDate == "" && f.condition == Some("Good") && f.notes == "" && f.status == "Active"
  {
    AssignmentForm(None, None, today, "", Some("Good"), "", "Active")
  }

  /** The return dialog's fields. */
  datatype ReturnData = ReturnData(condition: string, notes: string)

  const FreshReturnData := ReturnData("Good", "")

  /** The return request: the assignment's id and the dialog's condition and notes. */
  datatype ReturnRequest = ReturnRequest(assignmentId: string, body: ReturnData)

  /** The body sent to create or update an assignment. */
  datatype AssignmentPayload = AssignmentPayload(
    item: string, employee: Option<string>, assignmentDate: string,
    expectedReturnDate: Option<string>, condition: Option<string>, notes: string,
    status: string, assignedBy: Option<string>)

  /** The payload, built only once an item and an employee are selected: their
      ids, an empty expected return date sent as null, and the signed-in user as
      the one who assigned. */
  function Payload(form: AssignmentForm, currentUser: User): (p: AssignmentPayload)
    requires form.item.Some? && form.employee.Some?
    ensures p.item == form.item.value.id && p.employee == form.employee.value.mongoId
    ensures p.expectedReturnDate.None? <==> form.expectedReturnDate == ""
    ensures p.expectedReturnDate.Some? ==> p.expectedReturnDate.value == form.expectedReturnDate
    ensures p.assignedBy == currentUser.mongoId
    ensures p.assignmentDate == form.assignmentDate && p.condition == form.condition
    ensures p.notes == form.notes && p.status == form.status
  {
    AssignmentPayload(form.item.value.id, form.employee.value.mongoId, form.assignmentDate,
                      if form.expectedReturnDate == "" then None else Some(form.expectedReturnDate),
                      form.condition, form.notes, form.status, currentUser.mongoId)
  }

  /** The request a submit sends. */
  datatype AssignmentRequest =
    | CreateAssignment(payload: AssignmentPayload)
    | UpdateAssignment(id: string, payload: AssignmentPayload)

  /** The return action is offered for Active and Overdue assignments only. */
  predicate CanReturn(status: string)
    ensures CanReturn(status) ==> status != "Returned"
    ensures status == "Returned" || status == "" ==> !CanReturn(status)
  {
    status == "Active" || status == "Overdue"
  }

  /** The rows offering the return action are exactly those whose status is a
      known assignment status other than Returned. */
  lemma CanReturnIffOpen(status: string)
    ensures CanReturn(status) <==> status in Chips.AssignmentStatuses && status != "Returned"
  {
  }

  /** The `yyyy-mm-dd` form of a stored date, or None where formatting it would
      throw (a missing or invalid date); `isoDay` stands for that formatting. */
  function DayOf(d: DateValue, isoDay: int -> string): (r: Option<string>)
    ensures r.Some? <==> d.At?
  {
    if d.At? then Some(isoDay(d.instant)) else None
  }

  /** The page's dialog, form and message state. */
  class AssignmentsPage {
    var open: bool
    var editingAssignment: Option<Assignment>
    var formData: AssignmentForm
    var loading: bool
    var error: string
    var success: string
    var returnDialogOpen: bool
    var returnData: ReturnData
    var returningAssignment: Option<Assignment>
    var refreshRequested: bool

    constructor (today: string)
      ensures !open && editingAssignment.None? && formData == DefaultForm(today)
      ensures !loading && error == "" && success == ""
      ensures !returnDialogOpen && returnData == FreshReturnData && returningAssignment.None?
      ensures !refreshRequested
    {
      open := false;
      editingAssignment := None;
      formData := DefaultForm(today);
      loading := false;
      error := "";
      success := "";
      returnDialogOpen := false;
      returnData := FreshReturnData;
      returningAssignment := None;
      refreshRequested := false;
    }

    /** The item selector is disabled while an assignment is being edited. */
    predicate ItemSelectorDisabled()
      reads this
      ensures editingAssignment.None? ==> !ItemSelectorDisabled()
      ensures editingAssignment.Some? ==> ItemSelectorDisabled()
    {
      editingAssignment.Some?
    }

    /** `handleClose`: the dialog closes, nothing is being edited and the form
        returns to its defaults. */
    method HandleClose(today: string)
      modifies this
      ensures !open && editingAssignment.None? && formData == DefaultForm(today)
      ensures !ItemSelectorDisabled()
      ensures loading == old(loading) && error == old(error) && success == old(success)
      ensures returnDialogOpen == old(returnDialogOpen) && returnData == old(returnData)
      ensures returningAssignment == old(returningAssignment) && refreshRequested == old(refreshRequested)
    {
      open := false;
      editingAssignment := None;
      formData := DefaultForm(today);
    }

    /** `openReturnDialog`: the dialog opens on a fresh condition 'Good' and empty notes. */
    method OpenReturnDialog(a: Assignment)
      modifies this
      ensures returningAssignment == Some(a) && returnData == ReturnData("Good", "") && returnDialogOpen
      ensures open == old(open) && editingAssignment == old(editingAssignment) && formData == old(formData)
      ensures loading == old(loading) && error == old(error) && success == old(success)
      ensures refreshRequested == old(refreshRequested)
    {
      returningAssignment := Some(a);
      returnData := FreshReturnData;
      returnDialogOpen := true;
    }

    /** `handleReturn`: with an assignment chosen, its return is sent with the
        dialog's condition and notes. Success reports it, closes the dialog,
        forgets the assignment and asks for fresh lists; failure shows the
        server's error or 'Failed to return assignment'. With none chosen
        nothing happens. */
    method HandleReturn(outcome: Outcome<()>) returns (sent: Option<ReturnRequest>)
      modifies this
      ensures sent.Some? <==> old(returningAssignment).Some?
      ensures sent.Some? ==> sent.value == ReturnRequest(old(returningAssignment).value.id, old(returnData))
      ensures sent.Some? && outcome.Done? ==>
                success == "Assignment marked as returned" && !returnDialogOpen
                && returningAssignment.None? && refreshRequested && error == old(error)
      ensures sent.None? || outcome.Failed? ==>
                success == old(success) && returnDialogOpen == old(returnDialogOpen)
                && returningAssignment == old(returningAssignment) && refreshRequested == old(refreshRequested)
      ensures sent.Some? && outcome.Failed? ==>
                error == Or(ServerError(outcome.failure), "Failed to return assignment")
      ensures sent.None? ==> error == old(error)
      ensures open == old(open) && editingAssignment == old(editingAssignment) && formData == old(formData)
      ensures loading == old(loading) && returnData == old(returnData)
    {
      if returningAssignment.None? {
        return None;
      }
      sent := Some(ReturnRequest(returningAssignment.value.id, returnData));
      match outcome {
        case Done(_) =>
          success := "Assignment marked as returned";
          returnDialogOpen := false;
          returningAssignment := None;
          refreshRequested := true;
        case Failed(f) =>
          error := Or(ServerError(f), "Failed to return assignment");
      }
    }

    /** `handleDelete`: only when the user confirms is the assignment deleted.
        Success reports it and asks for fresh lists; failure shows the server's
        error or 'Failed to delete assignment'. */
    method HandleDelete(id: string, confirmed: bool, outcome: Outcome<()>) returns (deleted: Option<string>)
      modifies this
      ensures deleted.Some? <==> confirmed
      ensures deleted.Some? ==> deleted.value == id
      ensures confirmed && outcome.Done? ==>
                success == "Assignment deleted successfully!" && refreshRequested && error == old(error)
      ensures confirmed && outcome.Failed? ==>
                error == Or(ServerError(outcome.failure), "Failed to delete assignment")
                && success == old(success) && refreshRequested == old(refreshRequested)
      ensures !confirmed ==>
                error == old(error) && success == old(success) && refreshRequested == old(refreshRequested)
      ensures open == old(open) && editingAssignment == old(editingAssignment) && formData == old(formData)
      ensures loading == old(loading) && returnDialogOpen == old(returnDialogOpen)
      ensures returnData == old(returnData) && returningAssignment == old(returningAssignment)
    {
      if !confirmed {
        return None;
      }
      deleted := Some(id);
      match outcome {
        case Done(_) =>
          success := "Assignment deleted successfully!";
          refreshRequested := true;
        case Failed(f) =>
          error := Or(ServerError(f), "Failed to delete assignment");
      }
    }

    /** `handleEdit`: the assignment is marked as being edited, then the form is
        filled from it and the dialog opened. Formatting a missing or invalid
        date throws, which leaves the form and the dialog as they were. */
    method HandleEdit(a: Assignment, isoDay: int -> string)
      modifies this
      ensures editingAssignment == Some(a) && ItemSelectorDisabled()
      ensures var expectedSet := DateTruthy(a.expectedReturnDate);
              var filled := a.assignmentDate.At? && (!expectedSet || a.expectedReturnDate.At?);
              if filled then
                open && formData == AssignmentForm(a.item, a.employee, DayOf(a.assignmentDate, isoDay).value,
                                                   if expectedSet then DayOf(a.expectedReturnDate, isoDay).value else "",
                                                   a.condition, Or(a.notes, ""), a.status)
              else open == old(open) && formData == old(formData)
      ensures loading == old(loading) && error == old(error) && success == old(success)
      ensures returnDialogOpen == old(returnDialogOpen) && returnData == old(returnData)
      ensures returningAssignment == old(returningAssignment) && refreshRequested == old(refreshRequested)
    {
      editingAssignment := Some(a);
      var day := DayOf(a.assignmentDate, isoDay);
      if day.None? {
        return;
      }
      var expected := "";
      if DateTruthy(a.expectedReturnDate) {
        var e := DayOf(a.expectedReturnDate, isoDay);
        if e.None? {
          return;
        }
        expected := e.value;
      }
      formData := AssignmentForm(a.item, a.employee, day.value, expected, a.condition, Or(a.notes, ""), a.status);
      open := true;
    }

    /** `handleSubmit`. Without an item or an employee nothing is sent. Building
        the payload with nobody signed in throws and ends in the generic error.
        Otherwise the assignment being edited is updated, or a new one created;
        success reports it, asks for fresh lists and closes the dialog, failure
        shows the server's error, its message, or 'Operation failed'. Loading
        always ends false. */
    method HandleSubmit(currentUser: Option<User>, outcome: Outcome<()>, today: string)
      returns (request: Option<AssignmentRequest>)
      modifies this
      ensures !loading
      ensures var f := old(formData);
              request.Some? <==> f.item.Some? && f.employee.Some? && currentUser.Some?
      ensures old(formData).item.None? || old(formData).employee.None? ==>
                error == "Please select both an item and an employee" && success == ""
                && open == old(open) && editingAssignment == old(editingAssignment)
                && formData == old(formData) && refreshRequested == old(refreshRequested)
      ensures old(formData).item.Some? && old(formData).employee.Some? && currentUser.None? ==>
                error == "Operation failed" && success == ""
                && open == old(open) && editingAssignment == old(editingAssignment)
                && formData == old(formData) && refreshRequested == old(refreshRequested)
      ensures request.Some? ==>
                var p := Payload(old(formData), currentUser.value);
                request.value == (if old(editingAssignment).Some?
                                  then UpdateAssignment(old(editingAssignment).value.id, p)
                                  else CreateAssignment(p))
      ensures request.Some? && outcome.Done? ==>
                error == "" && refreshRequested
                && success == (if old(editingAssignment).Some? then "Assignment updated successfully!"
                               else "Assignment created successfully!")
                && !open && editingAssignment.None? && formData == DefaultForm(today)
      ensures request.Some? && outcome.Failed? ==>
                success == "" && error == Or(ServerError(outcome.failure), Or(ServerMessage(outcome.failure), "Operation failed"))
                && open == old(open) && editingAssignment == old(editingAssignment)
                && formData == old(formData) && refreshRequested == old(refreshRequested)
      ensures returnDialogOpen == old(returnDialogOpen) && returnData == old(returnData)
      ensures returningAssignment == old(returningAssignment)
    {
      loading := true;
      error := "";
      success := "";
      if formData.item.None? || formData.employee.None? {
        error := "Please select both an item and an employee";
        loading := false;
        request := None;
        return;
      }
      if currentUser.None? {
        error := "Operation failed";
        loading := false;
        request := None;
        return;
      }
      var p := Payload(formData, currentUser.value);
      if editingAssignment.Some? {
        request := Some(UpdateAssignment(editingAssignment.value.id, p));
      } else {
        request := Some(CreateAssignment(p));
      }
      match outcome {
        case Done(_) =>
          success := if editingAssignment.Some? then "Assignment updated successfully!"
                     else "Assignment created successfully!";
          refreshRequested := true;
          HandleClose(today);
        case Failed(f) =>
          error := Or(ServerError(f), Or(ServerMessage(f), "Operation failed"));
      }
      loading := false;
    }
  }
}

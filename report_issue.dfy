/** The page where an employee reports a problem with an item
    (`pages/ReportIssue.jsx`): the report form, the body it sends and the list of
    the employee's own requests. */
module ReportIssue {
  import opened Js
  import opened Records

  /** The report form. */
  datatype IssueForm = IssueForm(item: Option<Item>, priority: string, notes: string)

  /** The initial form: no item, priority Low, no notes. */
  const InitialIssueForm := IssueForm(None, "Low", "")

  /** The body of a report. */
  datatype IssueBody = IssueBody(item: string, priority: string, notes: string)

  /** The body sent for a form with an item selected: the item's id, the priority
      and the notes, nothing else. */
  function Body(form: IssueForm): (b: IssueBody)
    requires form.item.Some?
    ensures b.item == form.item.value.id && b.priority == form.priority && b.notes == form.notes
  {
    IssueBody(form.item.value.id, form.priority, form.notes)
  }

  /** Two forms differing only in fields the body does not carry send the same body. */
  lemma BodyIsExactlyThreeFields(f: IssueForm, g: IssueForm)
    requires f.item.Some? && g.item.Some?
    ensures Body(f) == Body(g) <==>
              f.item.value.id == g.item.value.id && f.priority == g.priority && f.notes == g.notes
  {
  }

  /** The page state. */
  class ReportIssuePage {
    var items: seq<Item>
    var myRequests: seq<MaintenanceRequest>
    var error: string
    var success: string
    var loading: bool
    var form: IssueForm

    constructor ()
      ensures items == [] && myRequests == [] && error == "" && success == "" && !loading
      ensures form == InitialIssueForm
    {
      items := [];
      myRequests := [];
      error := "";
      success := "";
      loading := false;
      form := InitialIssueForm;
    }

    /** The load on mount: both lists are set only when both requests succeed;
        otherwise neither is and 'Failed to load data' is shown. */
    method Load(itemsRes: Outcome<seq<Item>>, myRes: Outcome<seq<MaintenanceRequest>>)
      modifies this
      ensures itemsRes.Done? && myRes.Done? ==>
                items == itemsRes.data && myRequests == myRes.data && error == old(error)
      ensures itemsRes.Failed? || myRes.Failed? ==>
                items == old(items) && myRequests == old(myRequests) && error == "Failed to load data"
      ensures success == old(success) && loading == old(loading) && form == old(form)
    {
      if itemsRes.Done? && myRes.Done? {
        items := itemsRes.data;
        myRequests := myRes.data;
      } else {
        error := "Failed to load data";
      }
    }

    /** `submit`. With no item selected only the error changes and nothing is
        sent. Otherwise the report is posted; on success the form goes back to
        its initial state and the employee's requests are fetched again. Any
        failure shows the server's error or 'Failed to submit'. Loading ends
        false either way. */
    method Submit(post: Outcome<()>, mine: Outcome<seq<MaintenanceRequest>>) returns (sent: Option<IssueBody>)
      modifies this
      ensures sent.Some? <==> old(form).item.Some?
      ensures sent.None? ==>
                error == "Please select an item" && loading == old(loading) && success == old(success)
                && form == old(form) && myRequests == old(myRequests)
      ensures sent.Some? ==> sent.value == Body(old(form)) && !loading
      ensures sent.Some? && post.Done? ==> success == "Issue reported successfully" && form == InitialIssueForm
      ensures sent.Some? && post.Done? && mine.Done? ==> myRequests == mine.data && error == ""
      ensures sent.Some? && post.Done? && mine.Failed? ==>
                myRequests == old(myRequests) && error == Or(ServerError(mine.failure), "Failed to submit")
      ensures sent.Some? && post.Failed? ==>
                success == "" && form == old(form) && myRequests == old(myRequests)
                && error == Or(ServerError(post.failure), "Failed to submit")
      ensures items == old(items)
    {
      if form.item.None? {
        error := "Please select an item";
        sent := None;
        return;
      }
      loading := true;
      error := "";
      success := "";
      sent := Some(Body(form));
      match post {
        case Done(_) =>
          success := "Issue reported successfully";
          form := InitialIssueForm;
          match mine {
            case Done(data) => myRequests := data;
            case Failed(f) => error := Or(ServerError(f), "Failed to submit");
          }
        case Failed(f) =>
          error := Or(ServerError(f), "Failed to submit");
      }
      loading := false;
    }
  }
}

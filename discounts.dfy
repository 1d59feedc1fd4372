/** The discount administration page (`pages/AdminDiscounts.jsx`): three lists
    loaded side by side, where each failed request leaves its own list alone,
    and a form assigning a discount on an item to a user for a date. The
    percentage and prices come from the server and are only displayed. */
module Discounts {
  import opened Js
  import opened Records
  import Assignments

  /** A discount as listed; its percentage and prices are computed by the server. */
  datatype Discount = Discount(id: string, item: Option<Item>, assignedTo: Option<User>, date: DateValue,
                               percent: int, originalPrice: int, discountedPrice: int)

  /** One result of `Promise.allSettled`: fulfilled with a body (possibly empty), or rejected. */
  datatype Settled<T> = Fulfilled(body: Option<T>) | Rejected

  /** A list after a settled load: a rejected request keeps the current list, a
      fulfilled one replaces it with its body, an empty body counting as []. */
  function Reloaded<T>(current: seq<T>, res: Settled<seq<T>>): (r: seq<T>)
    ensures res.Rejected? ==> r == current
    ensures res.Fulfilled? && res.body.Some? ==> r == res.body.value
    ensures res.Fulfilled? && res.body.None? ==> r == []
  {
    match res
    case Rejected => current
    case Fulfilled(b) => if b.Some? then b.value else []
  }

  /** The error a load leaves: 'Failed to load data' when any request was rejected, cleared otherwise. */
  function LoadError(itemsRes: Settled<seq<Item>>, usersRes: Settled<seq<User>>,
                     listRes: Settled<seq<Discount>>): (e: string)
    ensures e == "Failed to load data" <==> itemsRes.Rejected? || usersRes.Rejected? || listRes.Rejected?
    ensures e != "Failed to load data" ==> e == ""
  {
    if itemsRes.Rejected? || usersRes.Rejected? || listRes.Rejected? then "Failed to load data" else ""
  }

  /** The discount form; `date` is the text of the date field. */
  datatype DiscountForm = DiscountForm(item: Option<Item>, user: Option<User>, date: string)

  const BlankDiscountForm := DiscountForm(None, None, "")

  /** The body of a discount request: the item's and the user's ids and the date. */
  datatype DiscountBody = DiscountBody(itemId: string, userId: Option<string>, date: string)

  /** The page state. */
  class DiscountsPage {
    var items: seq<Item>
    var users: seq<User>
    var discounts: seq<Discount>
    var error: string
    var success: string
    var form: DiscountForm

    constructor ()
      ensures items == [] && users == [] && discounts == [] && error == "" && success == ""
      ensures form == BlankDiscountForm
    {
      items := [];
      users := [];
      discounts := [];
      error := "";
      success := "";
      form := BlankDiscountForm;
    }

    /** `load`: each list is replaced only by its own fulfilled request (items
        keeping the Available ones only); the error says whether any failed. */
    method Load(itemsRes: Settled<seq<Item>>, usersRes: Settled<seq<User>>, listRes: Settled<seq<Discount>>)
      modifies this
      ensures itemsRes.Rejected? ==> items == old(items)
      ensures itemsRes.Fulfilled? ==> items == Assignments.AvailableItems(Reloaded([], itemsRes))
      ensures users == Reloaded(old(users), usersRes)
      ensures discounts == Reloaded(old(discounts), listRes)
      ensures error == LoadError(itemsRes, usersRes, listRes)
      ensures success == old(success) && form == old(form)
    {
      if itemsRes.Fulfilled? {
        items := Assignments.AvailableItems(Reloaded([], itemsRes));
      }
      if usersRes.Fulfilled? {
        users := Reloaded(users, usersRes);
      }
      if listRes.Fulfilled? {
        discounts := Reloaded(discounts, listRes);
      }
      if itemsRes.Rejected? || usersRes.Rejected? || listRes.Rejected? {
        error := "Failed to load data";
      } else {
        error := "";
      }
    }

    /** The effect on mount: a non-admin is sent to '/home' and nothing is
        loaded; an admin's page loads. Returns where it navigated, if anywhere. */
    method Mount(isAdmin: bool, itemsRes: Settled<seq<Item>>, usersRes: Settled<seq<User>>,
                 listRes: Settled<seq<Discount>>)
      returns (redirect: Option<string>)
      modifies this
      ensures !isAdmin ==> redirect == Some("/home") && items == old(items) && users == old(users)
                           && discounts == old(discounts) && error == old(error)
      ensures isAdmin ==> redirect.None? && error == LoadError(itemsRes, usersRes, listRes)
                          && items == (if itemsRes.Rejected? then old(items)
                                       else Assignments.AvailableItems(Reloaded([], itemsRes)))
                          && users == Reloaded(old(users), usersRes) && discounts == Reloaded(old(discounts), listRes)
      ensures success == old(success) && form == old(form)
    {
      if !isAdmin {
        redirect := Some("/home");
        return;
      }
      redirect := None;
      Load(itemsRes, usersRes, listRes);
    }

    /** `submit`. With no item, no user or no date an error is shown and nothing
        is sent. On success the form is cleared and the lists reloaded; on
        failure the server's error or 'Failed to assign discount' is shown. */
    method Submit(outcome: Outcome<()>, itemsRes: Settled<seq<Item>>, usersRes: Settled<seq<User>>,
                  listRes: Settled<seq<Discount>>)
      returns (sent: Option<DiscountBody>)
      modifies this
      ensures var f := old(form);
              sent.Some? <==> f.item.Some? && f.user.Some? && f.date != ""
      ensures sent.None? ==>
                error == "Select item, user and date" && form == old(form) && success == old(success)
                && items == old(items) && users == old(users) && discounts == old(discounts)
      ensures sent.Some? ==> sent.value == DiscountBody(old(form).item.value.id, old(form).user.value.mongoId, old(form).date)
      ensures sent.Some? && outcome.Done? ==>
                success == "Discount assigned" && form == BlankDiscountForm
                && error == LoadError(itemsRes, usersRes, listRes)
                && items == (if itemsRes.Rejected? then old(items)
                             else Assignments.AvailableItems(Reloaded([], itemsRes)))
                && users == Reloaded(old(users), usersRes) && discounts == Reloaded(old(discounts), listRes)
      ensures sent.Some? && outcome.Failed? ==>
                error == Or(ServerError(outcome.failure), "Failed to assign discount")
                && form == old(form) && success == old(success)
                && items == old(items) && users == old(users) && discounts == old(discounts)
    {
      if form.item.None? || form.user.None? || form.date == "" {
        error := "Select item, user and date";
        sent := None;
        return;
      }
      sent := Some(DiscountBody(form.item.value.id, form.user.value.mongoId, form.date));
      match outcome {
        case Done(_) =>
          success := "Discount assigned";
          form := BlankDiscountForm;
          Load(itemsRes, usersRes, listRes);
        case Failed(f) =>
          error := Or(ServerError(f), "Failed to assign discount");
      }
    }
  }
}

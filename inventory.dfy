/** The inventory page (`pages/Inventory.jsx`): searching and filtering the item
    list, the category choices, the item form and the payload it sends. */
module Inventory {
  import opened Js
  import opened Records
  import opened Tally
  import Reports

  /** The text fields the search looks in: name and serial number always, brand
      and model only when they are present and non-empty. */
  function SearchedFields(item: Item): seq<string>
  {
    [item.itemName, item.serialNumber]
      + (if Truthy(item.brand) then [item.brand.value] else [])
      + (if Truthy(item.model) then [item.model.value] else [])
  }

  /** The search part of the filter: an empty (lower-cased) term matches every
      item; otherwise the lower-cased term must occur in the lower-cased name,
      serial number, brand or model. */
  function SearchMatches(item: Item, term: string): (r: bool)
    ensures r <==> Lower(term) == "" ||
                   exists f :: f in SearchedFields(item) && Includes(Lower(f), Lower(term))
  {
    var t := Lower(term);
    assert SearchedFields(item)[0] == item.itemName && SearchedFields(item)[1] == item.serialNumber;
    t == ""
      || Includes(Lower(item.itemName), t)
      || Includes(Lower(item.serialNumber), t)
      || (Truthy(item.brand) && Includes(Lower(item.brand.value), t))
      || (Truthy(item.model) && Includes(Lower(item.model.value), t))
  }

  /** Changing the case of the search term does not change which items match. */
  lemma SearchIgnoresTermCase(item: Item, term: string, other: string)
    requires Lower(term) == Lower(other)
    ensures SearchMatches(item, term) == SearchMatches(item, other)
  {
  }

  /** Searching with the term or with its lower-cased form is the same search. */
  lemma SearchLowercasedTerm(item: Item, term: string)
    ensures SearchMatches(item, term) == SearchMatches(item, Lower(term))
  {
    LowerIdempotent(term);
  }

  /** An item with no brand and no model is found by its name or serial number only. */
  lemma MissingBrandAndModel(item: Item, term: string)
    requires !Truthy(item.brand) && !Truthy(item.model)
    ensures SearchMatches(item, term) <==>
              Lower(term) == "" || Includes(Lower(item.itemName), Lower(term))
              || Includes(Lower(item.serialNumber), Lower(term))
  {
  }

  /** The whole filter predicate: search, then category, then status; an empty
      category or status filter lets every item through. */
  predicate Matches(item: Item, term: string, category: string, status: string)
    ensures Matches(item, term, category, status) ==> SearchMatches(item, term)
    ensures category == "" && status == "" ==> (Matches(item, term, category, status) <==> SearchMatches(item, term))
    ensures Lower(term) == "" ==>
              (Matches(item, term, category, status) <==>
                 (category == "" || item.category == category) && (status == "" || item.status == status))
  {
    SearchMatches(item, term)
    && (category == "" || item.category == category)
    && (status == "" || item.status == status)
  }

  /** `filteredItems`. */
  function FilteredItems(items: seq<Item>, term: string, category: string, status: string): (r: seq<Item>)
    ensures forall i :: 0 <= i < |r| ==> r[i] in items && Matches(r[i], term, category, status)
    ensures forall i :: 0 <= i < |items| && Matches(items[i], term, category, status) ==> items[i] in r
    ensures category != "" ==> forall i :: 0 <= i < |r| ==> r[i].category == category
    ensures status != "" ==> forall i :: 0 <= i < |r| ==> r[i].status == status
  {
    Filter(items, (x: Item) => Matches(x, term, category, status))
  }

  /** The filtered list keeps the items in their original order. */
  lemma FilteredItemsKeepOrder(items: seq<Item>, term: string, category: string, status: string)
    ensures IsSubsequence(FilteredItems(items, term, category, status), items)
  {
    FilterIsSubsequence(items, (x: Item) => Matches(x, term, category, status));
  }

  /** With no search term and no filters the list is shown unchanged. */
  lemma NoFiltersShowAll(items: seq<Item>)
    ensures FilteredItems(items, "", "", "") == items
  {
    FilterAll(items, (x: Item) => Matches(x, "", "", ""));
  }

  /** `uniqueCategories`: each category that occurs, once, in order of first
      occurrence, which is the order of the category filter's menu. */
  function UniqueCategories(items: seq<Item>): (r: seq<string>)
    ensures NoDuplicates(r)
    ensures forall c :: c in r <==> exists i :: 0 <= i < |items| && items[i].category == c
    ensures forall i :: 0 <= i < |r| ==> r[i] in Reports.CategoriesOf(items)
    ensures forall i, j :: 0 <= i < j < |r| ==>
              FirstIndex(Reports.CategoriesOf(items), r[i]) < FirstIndex(Reports.CategoriesOf(items), r[j])
  {
    var cats := Reports.CategoriesOf(items);
    var d := Distinct(cats);
    assert forall c :: c in d ==> c in cats;
    DistinctInFirstOccurrenceOrder(cats);
    d
  }

  /** `normalizeDate`, with `toIso` standing for the construction and ISO
      formatting of a date from day, month and year, which fails on an invalid date. */
  function NormalizeDate(value: Option<string>, toIso: (string, string, string) -> Option<string>): (r: Option<string>)
    ensures !Truthy(value) ==> r.None?
    ensures Truthy(value) && '-' in value.value ==> r == value
    ensures Truthy(value) && '-' !in value.value && '/' !in value.value ==> r == value
    ensures Truthy(value) ==> r.Some?
  {
    if !Truthy(value) then None
    else if '-' in value.value then value
    else if '/' in value.value then
      var parts := Split(value.value, '/');
      if |parts| >= 3 && parts[0] != "" && parts[1] != "" && parts[2] != "" then
        match toIso(parts[0], parts[1], parts[2])
        case Some(iso) => Some(iso)
        case None => value
      else value
    else value
  }

  /** The price field of the item form: text typed into it, or the number
      copied from a stored item when it is edited. */
  datatype PriceField = Typed(text: string) | Stored(amount: real)

  /** JavaScript truthiness of the price field: '' and 0 are falsy. */
  predicate PriceTruthy(f: PriceField)
  {
    match f
    case Typed(t) => t != ""
    case Stored(a) => a != 0.0
  }

  /** The item form's fields. A field copied from an item without `|| ''`
      (the location) may be missing. */
  datatype ItemForm = ItemForm(
    name: string, category: string, brand: string, model: string, serialNumber: string,
    status: string, location: Option<string>, purchaseDate: string, purchasePrice: PriceField,
    description: string)

  /** The blank form: every field empty, status Available. */
  const BlankItemForm := ItemForm("", "", "", "", "", AVAILABLE, Some(""), "", Typed(""), "")

  /** The body sent to create or update an item. */
  datatype ItemPayload = ItemPayload(
    itemName: string, category: string, brand: string, model: string, serialNumber: string,
    status: string, location: Option<string>, purchaseDate: Option<string>,
    purchasePrice: Option<PriceField>, description: string)

  /** The payload built from the form: `name` goes out as `itemName`, a falsy
      price ('' or 0) as `null`, the purchase date through `normalizeDate`. */
  function Payload(form: ItemForm, toIso: (string, string, string) -> Option<string>): (p: ItemPayload)
    ensures p.itemName == form.name
    ensures p.purchasePrice.None? <==> !PriceTruthy(form.purchasePrice)
    ensures p.purchasePrice.Some? ==> p.purchasePrice.value == form.purchasePrice
    ensures form.purchasePrice == Typed("") ==> p.purchasePrice.None?
    ensures p.purchaseDate == NormalizeDate(Some(form.purchaseDate), toIso)
    ensures p.category == form.category && p.brand == form.brand && p.model == form.model
    ensures p.serialNumber == form.serialNumber && p.status == form.status
    ensures p.location == form.location && p.description == form.description
  {
    ItemPayload(form.name, form.category, form.brand, form.model, form.serialNumber, form.status,
                form.location, NormalizeDate(Some(form.purchaseDate), toIso),
                if PriceTruthy(form.purchasePrice) then Some(form.purchasePrice) else None,
                form.description)
  }

  /** The form filled from an item for editing. `dateOnly` stands for cutting
      the stored purchase date down to its `yyyy-mm-dd` part; it fails (None)
      on text that is not a date, where the source's `toISOString` throws and
      no form is built. A falsy price (missing or 0) is shown as ''. */
  function EditForm(item: Item, dateOnly: string -> Option<string>): (r: Option<ItemForm>)
    ensures r.None? <==> Truthy(item.purchaseDate) && dateOnly(item.purchaseDate.value).None?
    ensures r.Some? ==>
              r.value.purchaseDate == (if Truthy(item.purchaseDate) then dateOnly(item.purchaseDate.value).value else "")
  {
    if Truthy(item.purchaseDate) && dateOnly(item.purchaseDate.value).None? then None
    else
      Some(ItemForm(item.itemName, item.category, Or(item.brand, ""), Or(item.model, ""),
                    item.serialNumber, item.status, item.location,
                    if Truthy(item.purchaseDate) then dateOnly(item.purchaseDate.value).value else "",
                    if item.purchasePrice.Some? && item.purchasePrice.value != 0.0
                    then Stored(item.purchasePrice.value) else Typed(""),
                    Or(item.description, "")))
  }

  /** Opening an item for editing and saving it unchanged sends the item's own
      name, category, serial number, status, location and non-zero price back,
      with a missing brand, model or description sent as '' and a missing or
      zero price as null. */
  lemma EditThenSaveUnchanged(item: Item, dateOnly: string -> Option<string>,
                              toIso: (string, string, string) -> Option<string>)
    requires EditForm(item, dateOnly).Some?
    ensures var p := Payload(EditForm(item, dateOnly).value, toIso);
            && p.itemName == item.itemName && p.category == item.category
            && p.serialNumber == item.serialNumber && p.status == item.status
            && p.location == item.location
            && p.brand == Or(item.brand, "") && p.model == Or(item.model, "")
            && p.description == Or(item.description, "")
            && p.purchasePrice == (if item.purchasePrice.Some? && item.purchasePrice.value != 0.0
                                   then Some(Stored(item.purchasePrice.value)) else None)
            && (!Truthy(item.purchaseDate) ==> p.purchaseDate.None?)
            && (Truthy(item.purchaseDate) ==>
                  p.purchaseDate == NormalizeDate(dateOnly(item.purchaseDate.value), toIso))
  {
  }

  /** A stored price of 0 is falsy: saving the item unchanged erases it to null. */
  lemma ZeroPriceSavedAsNull(item: Item, dateOnly: string -> Option<string>,
                             toIso: (string, string, string) -> Option<string>)
    requires EditForm(item, dateOnly).Some? && item.purchasePrice == Some(0.0)
    ensures Payload(EditForm(item, dateOnly).value, toIso).purchasePrice.None?
  {
  }

  /** The request a submit sends. */
  datatype ItemRequest = Create(payload: ItemPayload) | Update(id: string, payload: ItemPayload)

  /** The page's dialog and form state. */
  class InventoryPage {
    var open: bool
    var editingItem: Option<Item>
    var formData: ItemForm
    var loading: bool
    var error: string
    var refreshRequested: bool

    constructor ()
      ensures !open && editingItem.None? && formData == BlankItemForm
      ensures loading && error == "" && !refreshRequested
    {
      open := false;
      editingItem := None;
      formData := BlankItemForm;
      loading := true;
      error := "";
      refreshRequested := false;
    }

    /** `handleOpen`: a new item, on a blank form. */
    method HandleOpen()
      modifies this
      ensures open && editingItem.None? && formData == BlankItemForm
      ensures loading == old(loading) && error == old(error) && refreshRequested == old(refreshRequested)
    {
      editingItem := None;
      formData := BlankItemForm;
      open := true;
    }

    /** `handleClose`: the dialog closes and nothing is being edited; the form is kept. */
    method HandleClose()
      modifies this
      ensures !open && editingItem.None?
      ensures formData == old(formData) && loading == old(loading) && error == old(error)
      ensures refreshRequested == old(refreshRequested)
    {
      open := false;
      editingItem := None;
    }

    /** `handleEdit`: the item is marked as being edited, then the form is filled
        from it and the dialog opened. A stored purchase date that is not a date
        makes the formatting throw, which leaves the form and the dialog as they were. */
    method HandleEdit(item: Item, dateOnly: string -> Option<string>)
      modifies this
      ensures editingItem == Some(item)
      ensures EditForm(item, dateOnly).Some? ==> open && formData == EditForm(item, dateOnly).value
      ensures EditForm(item, dateOnly).None? ==> open == old(open) && formData == old(formData)
      ensures loading == old(loading) && error == old(error) && refreshRequested == old(refreshRequested)
    {
      editingItem := Some(item);
      var form := EditForm(item, dateOnly);
      if form.None? {
        return;
      }
      formData := form.value;
      open := true;
    }

    /** `handleSubmit`: updates the item being edited or creates a new one. On
        success the list is fetched again (the fetch clears the error before its
        first `await`) and the dialog closed; on failure the server's error, its
        message, or a default is shown. Loading ends false. */
    method HandleSubmit(outcome: Outcome<()>, toIso: (string, string, string) -> Option<string>)
      returns (request: ItemRequest)
      modifies this
      ensures old(editingItem).Some? ==> request == Update(old(editingItem).value.id, Payload(old(formData), toIso))
      ensures old(editingItem).None? ==> request == Create(Payload(old(formData), toIso))
      ensures !loading && formData == old(formData)
      ensures outcome.Done? ==>
                !open && editingItem.None? && refreshRequested && error == ""
      ensures outcome.Failed? ==>
                open == old(open) && editingItem == old(editingItem) && refreshRequested == old(refreshRequested) &&
                error == Or(ServerError(outcome.failure), Or(ServerMessage(outcome.failure),
                              if old(editingItem).Some? then "Failed to update item." else "Failed to add item."))
    {
      loading := true;
      var payload := Payload(formData, toIso);
      if editingItem.Some? {
        request := Update(editingItem.value.id, payload);
      } else {
        request := Create(payload);
      }
      match outcome {
        case Done(_) =>
          refreshRequested := true;
          error := "";
          HandleClose();
        case Failed(f) =>
          error := Or(ServerError(f), Or(ServerMessage(f),
                      if editingItem.Some? then "Failed to update item." else "Failed to add item."));
      }
      loading := false;
    }
  }
}

/** The colour a status or role chip is drawn in. Each mapping is written once
    here; several pages repeat the same `switch`. */
module Chips {
  import opened Records

  /** The five item statuses the inventory page offers. */
  const ItemStatuses: seq<string> := [AVAILABLE, ASSIGNED, UNDER_REPAIR, DAMAGED, DISPOSED]

  /** Inventory item status colour; an unknown status is drawn 'secondary'. */
  function ItemStatusColor(status: string): (r: string)
    ensures status in ItemStatuses <==> r != "secondary"
    ensures status == AVAILABLE ==> r == "success"
    ensures status == ASSIGNED ==> r == "primary"
    ensures status == UNDER_REPAIR ==> r == "warning"
    ensures status == DAMAGED ==> r == "error"
    ensures status == DISPOSED ==> r == "default"
  {
    match status
    case "Available" => "success"
    case "Assigned" => "primary"
    case "Under Repair" => "warning"
    case "Damaged" => "error"
    case "Disposed" => "default"
    case _ => "secondary"
  }

  /** The five known item statuses get five different colours. */
  lemma ItemStatusColorsDistinct(s: string, t: string)
    requires s in ItemStatuses && t in ItemStatuses && s != t
    ensures ItemStatusColor(s) != ItemStatusColor(t)
  {
  }

  /** The report page's item status colour: the inventory's colours for the
      four statuses it names, and 'default' for every other status, Disposed
      included. */
  function ReportItemStatusColor(status: string): (r: string)
    ensures r != "default" <==> status in [AVAILABLE, ASSIGNED, UNDER_REPAIR, DAMAGED]
  {
    match status
    case "Available" => "success"
    case "Assigned" => "primary"
    case "Under Repair" => "warning"
    case "Damaged" => "error"
    case _ => "default"
  }

  /** The two item status colourings agree on the four statuses the report page
      names and on Disposed; an unknown status is 'default' on the report page
      but 'secondary' on the inventory page. */
  lemma ItemColouringsCompared(status: string)
    ensures status in [AVAILABLE, ASSIGNED, UNDER_REPAIR, DAMAGED, DISPOSED] ==>
              ReportItemStatusColor(status) == ItemStatusColor(status)
    ensures status !in ItemStatuses ==>
              ReportItemStatusColor(status) == "default" && ItemStatusColor(status) == "secondary"
  {
  }

  const AssignmentStatuses: seq<string> := ["Active", "Returned", "Overdue"]

  /** Assignment status colour; anything but the three statuses is 'default'. */
  function AssignmentStatusColor(status: string): (r: string)
    ensures status in AssignmentStatuses <==> r != "default"
    ensures status == "Active" ==> r == "primary"
    ensures status == "Returned" ==> r == "success"
    ensures status == "Overdue" ==> r == "error"
  {
    match status
    case "Active" => "primary"
    case "Returned" => "success"
    case "Overdue" => "error"
    case _ => "default"
  }

  const Conditions: seq<string> := ["Excellent", "Good", "Fair", "Poor"]

  /** Condition colour; anything but the four conditions is 'default'. */
  function ConditionColor(condition: string): (r: string)
    ensures condition in Conditions <==> r != "default"
    ensures condition == "Excellent" ==> r == "success"
    ensures condition == "Good" ==> r == "primary"
    ensures condition == "Fair" ==> r == "warning"
    ensures condition == "Poor" ==> r == "error"
  {
    match condition
    case "Excellent" => "success"
    case "Good" => "primary"
    case "Fair" => "warning"
    case "Poor" => "error"
    case _ => "default"
  }

  /** Maintenance request status colour: Resolved and In Progress are marked,
      every other status (Open among them) is 'default'. */
  function RequestStatusColor(status: string): (r: string)
    ensures status == "Resolved" <==> r == "success"
    ensures status == "In Progress" <==> r == "warning"
    ensures status != "Resolved" && status != "In Progress" <==> r == "default"
  {
    if status == "Resolved" then "success"
    else if status == "In Progress" then "warning"
    else "default"
  }

  const Roles: seq<string> := ["Admin", "Manager", "Employee"]

  /** Role colour; an unknown role is 'default'. */
  function RoleColor(role: string): (r: string)
    ensures role in Roles <==> r != "default"
    ensures role == "Admin" ==> r == "error"
    ensures role == "Manager" ==> r == "warning"
    ensures role == "Employee" ==> r == "primary"
  {
    match role
    case "Admin" => "error"
    case "Manager" => "warning"
    case "Employee" => "primary"
    case _ => "default"
  }
}

/** The report page (`pages/Reports.jsx`): the status an assignment is shown
    with, derived from its dates, and the summaries computed from the fetched
    item and assignment lists. "Now" is a parameter. */
module Reports {
  import opened Js
  import opened Records
  import opened Tally

  /** `isAdminUser ? 'inventory' : 'my_assignments'`, used both as the initial
      report type and whenever the role changes. */
  function ReportTypeFor(isAdmin: bool): (r: string)
    ensures isAdmin <==> r == "inventory"
    ensures !isAdmin <==> r == "my_assignments"
  {
    if isAdmin then "inventory" else "my_assignments"
  }

  datatype DerivedStatus = Returned | Overdue | Active

  /** `getAssignmentStatus`. A date that does not parse compares false with now,
      so an unparsable expected date leaves the assignment Active. */
  function AssignmentStatus(a: Assignment, now: int): (r: DerivedStatus)
    ensures r == Returned <==> DateTruthy(a.actualReturnDate) || DateTruthy(a.returnDate)
    ensures r == Overdue <==>
              !DateTruthy(a.actualReturnDate) && !DateTruthy(a.returnDate) &&
              a.expectedReturnDate.At? && a.expectedReturnDate.instant < now
  {
    if DateTruthy(a.actualReturnDate) || DateTruthy(a.returnDate) then Returned
    else if a.expectedReturnDate.At? && a.expectedReturnDate.instant < now then Overdue
    else Active
  }

  /** An unreturned assignment with no expected date, or one not yet past, is Active. */
  lemma NotYetDueIsActive(a: Assignment, now: int)
    requires !DateTruthy(a.actualReturnDate) && !DateTruthy(a.returnDate)
    requires !a.expectedReturnDate.At? || a.expectedReturnDate.instant >= now
    ensures AssignmentStatus(a, now) == Active
  {
  }

  /** As time passes an unreturned assignment can only move from Active to Overdue. */
  lemma OverdueStaysOverdue(a: Assignment, now: int, later: int)
    requires now <= later && AssignmentStatus(a, now) == Overdue
    ensures AssignmentStatus(a, later) == Overdue
  {
  }

  /** Number of assignments whose derived status is `s`. */
  function CountDerived(assignments: seq<Assignment>, now: int, s: DerivedStatus): (n: nat)
    ensures n <= |assignments|
    decreases |assignments|
  {
    if assignments == [] then 0
    else
      var init := assignments[..|assignments| - 1];
      CountDerived(init, now, s)
        + (if AssignmentStatus(assignments[|assignments| - 1], now) == s then 1 else 0)
  }

  /** Every assignment has exactly one derived status. */
  lemma {:induction false} DerivedStatusesPartition(assignments: seq<Assignment>, now: int)
    ensures CountDerived(assignments, now, Returned) + CountDerived(assignments, now, Active)
              + CountDerived(assignments, now, Overdue) == |assignments|
    decreases |assignments|
  {
    if assignments != [] {
      DerivedStatusesPartition(assignments[..|assignments| - 1], now);
    }
  }

  datatype AssignmentStats = AssignmentStats(total: nat, active: nat, returned: nat, overdue: nat)

  /** `calculateAssignmentStats`: returned and not-returned assignments are
      counted apart, and an overdue one is counted as active too. */
  method CalculateAssignmentStats(assignments: seq<Assignment>, now: int) returns (stats: AssignmentStats)
    ensures stats.total == |assignments|
    ensures stats.returned == CountDerived(assignments, now, Returned)
    ensures stats.overdue == CountDerived(assignments, now, Overdue)
    ensures stats.active == CountDerived(assignments, now, Active) + CountDerived(assignments, now, Overdue)
    ensures stats.returned + stats.active == stats.total
    ensures stats.overdue <= stats.active
  {
    stats := AssignmentStats(|assignments|, 0, 0, 0);
    var i := 0;
    while i < |assignments|
      invariant 0 <= i <= |assignments|
      invariant stats.total == |assignments|
      invariant stats.returned == CountDerived(assignments[..i], now, Returned)
      invariant stats.overdue == CountDerived(assignments[..i], now, Overdue)
      invariant stats.active == CountDerived(assignments[..i], now, Active) + CountDerived(assignments[..i], now, Overdue)
    {
      assert assignments[..i + 1][..i] == assignments[..i];
      var status := AssignmentStatus(assignments[i], now);
      if status == Returned {
        stats := stats.(returned := stats.returned + 1);
      } else {
        stats := stats.(active := stats.active + 1);
        if status == Overdue {
          stats := stats.(overdue := stats.overdue + 1);
        }
      }
      i := i + 1;
    }
    assert assignments[..i] == assignments;
    DerivedStatusesPartition(assignments, now);
  }

  /** The status of every item, in list order. */
  function StatusesOf(items: seq<Item>): (r: seq<string>)
    ensures |r| == |items| && forall i :: 0 <= i < |items| ==> r[i] == items[i].status
  {
    seq(|items|, i requires 0 <= i < |items| => items[i].status)
  }

  /** The category of every item, in list order. */
  function CategoriesOf(items: seq<Item>): (r: seq<string>)
    ensures |r| == |items| && forall i :: 0 <= i < |items| ==> r[i] == items[i].category
  {
    seq(|items|, i requires 0 <= i < |items| => items[i].category)
  }

  /** `calculateInventoryStats`: the item count and, per status present, how many
      items have it. Its counts, summed over the distinct statuses (each key once),
      give the total. */
  method CalculateInventoryStats(items: seq<Item>) returns (total: nat, byStatus: map<string, nat>)
    ensures total == |items|
    ensures forall s :: s in byStatus <==> s in StatusesOf(items)
    ensures forall s :: s in byStatus ==> byStatus[s] == Occurrences(StatusesOf(items), s) && byStatus[s] >= 1
    ensures forall i :: 0 <= i < |Distinct(StatusesOf(items))| ==> Distinct(StatusesOf(items))[i] in byStatus
    ensures SumValues(byStatus, Distinct(StatusesOf(items))) == total
  {
    var statuses := StatusesOf(items);
    byStatus := map[];
    var i := 0;
    while i < |items|
      invariant 0 <= i <= |items|
      invariant forall s :: s in byStatus <==> s in statuses[..i]
      invariant forall s :: s in byStatus ==> byStatus[s] == Occurrences(statuses[..i], s)
    {
      var s := items[i].status;
      assert statuses[..i + 1] == statuses[..i] + [s];
      var before := byStatus;
      byStatus := byStatus[s := (if s in byStatus then byStatus[s] else 0) + 1];
      forall t | t in byStatus ensures byStatus[t] == Occurrences(statuses[..i + 1], t) {
        OccurrencesAppend(statuses[..i], s, t);
        if t != s {
          assert t in before && byStatus[t] == before[t];
        }
      }
      i := i + 1;
    }
    assert statuses[..i] == statuses;
    total := |items|;
    StatusCountsSum(byStatus, statuses);
  }

  /** A map from each status present to its number of occurrences has only
      positive counts, a key for every distinct status, and counts summing to
      the number of statuses. */
  lemma StatusCountsSum(byStatus: map<string, nat>, statuses: seq<string>)
    requires forall s :: s in byStatus <==> s in statuses
    requires forall s :: s in byStatus ==> byStatus[s] == Occurrences(statuses, s)
    ensures forall s :: s in byStatus ==> byStatus[s] >= 1
    ensures forall i :: 0 <= i < |Distinct(statuses)| ==> Distinct(statuses)[i] in byStatus
    ensures SumValues(byStatus, Distinct(statuses)) == |statuses|
  {
    SumValuesOfCounts(byStatus, statuses, Distinct(statuses));
    DistinctCountsAll(statuses);
  }

  /** Per-category counters of the category breakdown table. */
  datatype CategoryCounts = CategoryCounts(total: nat, available: nat, inUse: nat, underRepair: nat, damaged: nat)

  const NoCounts := CategoryCounts(0, 0, 0, 0, 0)

  /** The breakdown step as written: `total++`, then `acc[category][status]++`
      whenever that property exists, and `total` is itself such a property. */
  function BumpAsWritten(c: CategoryCounts, status: string): (r: CategoryCounts)
    ensures status == "total" ==> r.total == c.total + 2
  {
    var c := c.(total := c.total + 1);
    match status
    case "total" => c.(total := c.total + 1)
    case "Available" => c.(available := c.available + 1)
    case "Assigned" => c.(inUse := c.inUse + 1)
    case "Under Repair" => c.(underRepair := c.underRepair + 1)
    case "Damaged" => c.(damaged := c.damaged + 1)
    case _ => c
  }

  /** An item whose status is the string "total" is counted twice in its category. */
  lemma TotalStatusCountedTwice()
    ensures BumpAsWritten(NoCounts, "total").total == 2
  {
  }

  /** The breakdown step as intended: every item counts once in its category's
      total, and once more under its status when that is one of the four tracked. */
  function Bump(c: CategoryCounts, status: string): (r: CategoryCounts)
    ensures r.total == c.total + 1
    ensures r.available == c.available + (if status == AVAILABLE then 1 else 0)
    ensures r.inUse == c.inUse + (if status == ASSIGNED then 1 else 0)
    ensures r.underRepair == c.underRepair + (if status == UNDER_REPAIR then 1 else 0)
    ensures r.damaged == c.damaged + (if status == DAMAGED then 1 else 0)
  {
    var c := c.(total := c.total + 1);
    match status
    case "Available" => c.(available := c.available + 1)
    case "Assigned" => c.(inUse := c.inUse + 1)
    case "Under Repair" => c.(underRepair := c.underRepair + 1)
    case "Damaged" => c.(damaged := c.damaged + 1)
    case _ => c
  }

  /** The intended step agrees with the source's for every status but "total". */
  lemma BumpAgreesExceptTotal(c: CategoryCounts, status: string)
    requires status != "total"
    ensures Bump(c, status) == BumpAsWritten(c, status)
  {
  }

  /** Number of items of category `c` with status `s`. */
  function CountIn(items: seq<Item>, c: string, s: string): nat
  {
    |Filter(items, (x: Item) => x.category == c && x.status == s)|
  }

  /** What the breakdown should hold for category `c`. */
  function CountsFor(items: seq<Item>, c: string): CategoryCounts
  {
    CategoryCounts(Occurrences(CategoriesOf(items), c),
      CountIn(items, c, AVAILABLE), CountIn(items, c, ASSIGNED),
      CountIn(items, c, UNDER_REPAIR), CountIn(items, c, DAMAGED))
  }

  /** Adding one item to the list bumps its own category's counts and no other's. */
  lemma CountsForAppend(items: seq<Item>, x: Item, c: string)
    ensures CountsFor(items + [x], c) == if x.category == c then Bump(CountsFor(items, c), x.status) else CountsFor(items, c)
  {
    assert CategoriesOf(items + [x]) == CategoriesOf(items) + [x.category];
    OccurrencesAppend(CategoriesOf(items), x.category, c);
    FilterAppend(items, [x], (y: Item) => y.category == c && y.status == AVAILABLE);
    FilterAppend(items, [x], (y: Item) => y.category == c && y.status == ASSIGNED);
    FilterAppend(items, [x], (y: Item) => y.category == c && y.status == UNDER_REPAIR);
    FilterAppend(items, [x], (y: Item) => y.category == c && y.status == DAMAGED);
  }

  /** The category breakdown table: one row per category present. */
  method CategoryBreakdown(items: seq<Item>) returns (acc: map<string, CategoryCounts>)
    ensures forall c :: c in acc <==> c in CategoriesOf(items)
    ensures forall c :: c in acc ==> acc[c] == CountsFor(items, c)
  {
    acc := map[];
    var i := 0;
    while i < |items|
      invariant 0 <= i <= |items|
      invariant forall c :: c in acc <==> c in CategoriesOf(items[..i])
      invariant forall c :: c in acc ==> acc[c] == CountsFor(items[..i], c)
    {
      var item := items[i];
      assert items[..i + 1] == items[..i] + [item];
      assert CategoriesOf(items[..i + 1]) == CategoriesOf(items[..i]) + [item.category];
      forall c ensures CountsFor(items[..i + 1], c) == if item.category == c then Bump(CountsFor(items[..i], c), item.status) else CountsFor(items[..i], c) {
        CountsForAppend(items[..i], item, c);
      }
      if item.category !in acc {
        AbsentCategoryHasNoCounts(items[..i], item.category);
        acc := acc[item.category := NoCounts];
      }
      acc := acc[item.category := Bump(acc[item.category], item.status)];
      i := i + 1;
    }
    assert items[..i] == items;
  }

  /** A category no item has gets no counts at all. */
  lemma AbsentCategoryHasNoCounts(items: seq<Item>, c: string)
    requires c !in CategoriesOf(items)
    ensures CountsFor(items, c) == NoCounts
  {
    assert forall i :: 0 <= i < |items| ==> CategoriesOf(items)[i] != c;
    forall s | s in [AVAILABLE, ASSIGNED, UNDER_REPAIR, DAMAGED] ensures CountIn(items, c, s) == 0 {
      FilterNone(items, (x: Item) => x.category == c && x.status == s);
    }
  }

  /** Every row of the breakdown counts at least one item. */
  lemma PresentCategoryIsCounted(items: seq<Item>, c: string)
    requires c in CategoriesOf(items)
    ensures CountsFor(items, c).total >= 1
  {
  }

  /** The four tracked columns of a row never add up to more than its total;
      an item of any other status (Disposed, say) counts in the total only. */
  lemma {:induction false} TrackedWithinTotal(items: seq<Item>, c: string)
    ensures var r := CountsFor(items, c); r.available + r.inUse + r.underRepair + r.damaged <= r.total
    decreases |items|
  {
    if items != [] {
      var init := items[..|items| - 1];
      var last := items[|items| - 1];
      assert items == init + [last];
      TrackedWithinTotal(init, c);
      CountsForAppend(init, last, c);
    }
  }

  /** An item whose status is none of the four tracked ones changes only the
      total of its own row. */
  lemma UntrackedOnlyBumpsTotal(items: seq<Item>, x: Item)
    requires x.status !in [AVAILABLE, ASSIGNED, UNDER_REPAIR, DAMAGED]
    ensures CountsFor(items + [x], x.category) == CountsFor(items, x.category).(total := CountsFor(items, x.category).total + 1)
  {
    CountsForAppend(items, x, x.category);
  }

  /** The `total` of each category's row, added up over the categories `cs`. */
  function SumTotals(items: seq<Item>, cs: seq<string>): nat
  {
    if cs == [] then 0 else CountsFor(items, cs[0]).total + SumTotals(items, cs[1..])
  }

  /** A row's total is its category's number of occurrences, so the rows' totals
      add up as the occurrences do. */
  lemma {:induction false} SumTotalsIsSumOccurrences(items: seq<Item>, cs: seq<string>)
    ensures SumTotals(items, cs) == SumOccurrences(CategoriesOf(items), cs)
  {
    if cs != [] {
      SumTotalsIsSumOccurrences(items, cs[1..]);
    }
  }

  /** The rows' totals, one per distinct category, add up to the number of items. */
  lemma BreakdownTotalsSum(items: seq<Item>)
    ensures SumOccurrences(CategoriesOf(items), Distinct(CategoriesOf(items))) == |items|
    ensures SumTotals(items, Distinct(CategoriesOf(items))) == |items|
  {
    DistinctCountsAll(CategoriesOf(items));
    SumTotalsIsSumOccurrences(items, Distinct(CategoriesOf(items)));
  }
}

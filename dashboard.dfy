/** The counters of the main dashboard (`pages/Dashboard.jsx`), computed from the
    fetched item list with `filter(...).length`. */
module Dashboard {
  import opened Records
  import opened Tally
  import Reports

  datatype DashboardStats = DashboardStats(totalItems: nat, availableItems: nat, inUseItems: nat, maintenanceItems: nat)

  /** Number of items whose status is exactly `s`. */
  function CountStatus(items: seq<Item>, s: string): (n: nat)
    ensures n <= |items|
    ensures n > 0 <==> exists i :: 0 <= i < |items| && items[i].status == s
  {
    var r := Filter(items, (x: Item) => x.status == s);
    assert |r| > 0 ==> r[0] in items && r[0].status == s;
    |r|
  }

  /** The dashboard's four counters: the item count, and how many items are
      Available, Assigned and Under Repair; none exceeds the item count. */
  function Stats(items: seq<Item>): (r: DashboardStats)
    ensures r.totalItems == |items|
    ensures r.availableItems <= r.totalItems && r.inUseItems <= r.totalItems && r.maintenanceItems <= r.totalItems
    ensures r.availableItems == CountStatus(items, AVAILABLE) && r.inUseItems == CountStatus(items, ASSIGNED)
    ensures r.maintenanceItems == CountStatus(items, UNDER_REPAIR)
  {
    DashboardStats(|items|, CountStatus(items, AVAILABLE), CountStatus(items, ASSIGNED),
                   CountStatus(items, UNDER_REPAIR))
  }

  /** Appending one item adds one to the total and to the counter of its own
      status, if it has one. */
  lemma StatsAppend(items: seq<Item>, x: Item)
    ensures var before, after := Stats(items), Stats(items + [x]);
            && after.totalItems == before.totalItems + 1
            && after.availableItems == before.availableItems + (if x.status == AVAILABLE then 1 else 0)
            && after.inUseItems == before.inUseItems + (if x.status == ASSIGNED then 1 else 0)
            && after.maintenanceItems == before.maintenanceItems + (if x.status == UNDER_REPAIR then 1 else 0)
  {
    FilterAppend(items, [x], (y: Item) => y.status == AVAILABLE);
    FilterAppend(items, [x], (y: Item) => y.status == ASSIGNED);
    FilterAppend(items, [x], (y: Item) => y.status == UNDER_REPAIR);
  }

  /** One more Available item raises the total and the available count by one and
      leaves the other two counters alone. */
  lemma AddAvailableItem(items: seq<Item>, x: Item)
    requires x.status == AVAILABLE
    ensures Stats(items + [x]) == Stats(items).(totalItems := |items| + 1,
                                                availableItems := Stats(items).availableItems + 1)
  {
    StatsAppend(items, x);
  }

  /** A Damaged or Disposed item (any status but the three counted) shows only in
      the total. */
  lemma UncountedStatusOnlyInTotal(items: seq<Item>, x: Item)
    requires x.status != AVAILABLE && x.status != ASSIGNED && x.status != UNDER_REPAIR
    ensures Stats(items + [x]) == Stats(items).(totalItems := |items| + 1)
  {
    StatsAppend(items, x);
  }

  /** The three counted statuses are different, so their counters never add up to
      more than the total. */
  lemma {:induction false} CountersWithinTotal(items: seq<Item>)
    ensures var s := Stats(items); s.availableItems + s.inUseItems + s.maintenanceItems <= s.totalItems
    decreases |items|
  {
    if items != [] {
      var init, last := items[..|items| - 1], items[|items| - 1];
      assert items == init + [last];
      CountersWithinTotal(init);
      StatsAppend(init, last);
    }
  }

  /** An empty inventory shows four zeros. */
  lemma EmptyInventory()
    ensures Stats([]) == DashboardStats(0, 0, 0, 0)
  {
  }

  /** The dashboard's count for a status agrees with the report page's per-status
      count of the same items. */
  lemma {:induction false} AgreesWithReport(items: seq<Item>, s: string)
    ensures CountStatus(items, s) == Occurrences(Reports.StatusesOf(items), s)
  {
    if items != [] {
      AgreesWithReport(items[1..], s);
      assert Reports.StatusesOf(items)[1..] == Reports.StatusesOf(items[1..]);
    }
  }
}

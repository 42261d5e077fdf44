// The administrator's dashboard: three counters over the item list and a
// table with one row per item, each with a delete action.
module AdminDashboard {
  import opened Common
  import opened Items

  datatype Stats = Stats(lost: nat, found: nat, total: nat)

  /** `stats`: the two `filter(...).length` counts and `items.length`. */
  function DashboardStats(items: seq<Item>): (r: Stats)
    ensures r.total == |items|
    ensures r.lost <= r.total && r.found <= r.total
  {
    Stats(|Filter(items, IsLost)|, |Filter(items, IsFound)|, |items|)
  }

  /**
   * Every item is counted at most once, as lost or as found; the counters
   * add up to the total exactly when every item is lost or found.
   */
  lemma {:induction false} LostFoundBound(items: seq<Item>)
    ensures DashboardStats(items).lost + DashboardStats(items).found <= DashboardStats(items).total
    ensures DashboardStats(items).lost + DashboardStats(items).found == DashboardStats(items).total <==>
            forall i :: 0 <= i < |items| ==> IsLost(items[i]) || IsFound(items[i])
  {
    if items != [] {
      LostFoundBound(items[1..]);
      assert forall i :: 1 <= i < |items| ==> items[1..][i - 1] == items[i];
    }
  }

  /** A single item is counted as lost iff its type is 'lost', as found iff it is 'found'. */
  lemma CountsOne(x: Item)
    ensures DashboardStats([x]).lost == (if IsLost(x) then 1 else 0)
    ensures DashboardStats([x]).found == (if IsFound(x) then 1 else 0)
  {
  }

  /**
   * The counts of two lists put together are the sums of their counts;
   * with `CountsOne` this fixes each counter as the number of items of
   * its type.
   */
  lemma CountsAdd(a: seq<Item>, b: seq<Item>)
    ensures DashboardStats(a + b).lost == DashboardStats(a).lost + DashboardStats(b).lost
    ensures DashboardStats(a + b).found == DashboardStats(a).found + DashboardStats(b).found
  {
    FilterConcat(a, b, IsLost);
    FilterConcat(a, b, IsFound);
  }

  /** The badge of the type column: anything not 'lost' is shown as found. */
  datatype Badge = LostBadge | FoundBadge

  datatype Row = Row(
    title: Option<string>,
    description: string,
    badge: Badge,
    category: string,
    location: string,
    date: string,
    deleteId: string)

  /** `items.map(item => <tr>...)` */
  function Rows(items: seq<Item>): (rows: seq<Row>)
    ensures |rows| == |items|
    ensures forall i :: 0 <= i < |items| ==>
              && rows[i].deleteId == items[i].id
              && rows[i].title == items[i].data.title
              && (rows[i].badge == LostBadge <==> IsLost(items[i]))
  {
    seq(|items|, i requires 0 <= i < |items| =>
      var d := items[i].data;
      Row(d.title, d.description, if IsLost(items[i]) then LostBadge else FoundBadge,
          d.category, d.location, d.date, items[i].id))
  }

  /** The table body: the item rows and, for an empty list only, "No items found.". */
  datatype TableBody = TableBody(rows: seq<Row>, noItemsRow: bool)

  function Table(items: seq<Item>): (t: TableBody)
    ensures t.rows == Rows(items)
    ensures t.noItemsRow <==> items == []
    ensures |t.rows| == |items|
    ensures forall i :: 0 <= i < |items| ==> t.rows[i].deleteId == items[i].id
  {
    TableBody(Rows(items), |items| == 0)
  }
}

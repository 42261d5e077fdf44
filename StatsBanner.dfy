// The banner on the main page: the numbers of lost and of found items.
module StatsBanner {
  import opened Common
  import opened Items
  import AdminDashboard

  datatype Counts = Counts(lost: nat, found: nat)

  /** `stats`: two `filter(...).length` counts. */
  function BannerCounts(items: seq<Item>): (r: Counts)
    ensures r.lost + r.found <= |items|
  {
    AdminDashboard.LostFoundBound(items);
    Counts(|Filter(items, IsLost)|, |Filter(items, IsFound)|)
  }

  /** For the same items the banner shows the dashboard's lost and found counts. */
  lemma BannerAgreesWithDashboard(items: seq<Item>)
    ensures BannerCounts(items).lost == AdminDashboard.DashboardStats(items).lost
    ensures BannerCounts(items).found == AdminDashboard.DashboardStats(items).found
  {
  }

  /** A single item adds one to the lost count iff it is 'lost', to the found count iff it is 'found'. */
  lemma BannerCountsOne(x: Item)
    ensures BannerCounts([x]) == Counts(if IsLost(x) then 1 else 0, if IsFound(x) then 1 else 0)
  {
  }

  /** The banner's counts of two lists put together are the sums of their counts. */
  lemma BannerCountsAdd(a: seq<Item>, b: seq<Item>)
    ensures BannerCounts(a + b).lost == BannerCounts(a).lost + BannerCounts(b).lost
    ensures BannerCounts(a + b).found == BannerCounts(a).found + BannerCounts(b).found
  {
    FilterConcat(a, b, IsLost);
    FilterConcat(a, b, IsFound);
  }

  /** Reordering the items (as a new snapshot may) changes neither count. */
  lemma BannerIgnoresOrder(a: seq<Item>, b: seq<Item>)
    requires multiset(a) == multiset(b)
    ensures BannerCounts(a) == BannerCounts(b)
  {
    FilterCountPermutation(a, b, IsLost);
    FilterCountPermutation(a, b, IsFound);
  }
}

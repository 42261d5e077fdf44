// The map page: markers for the items that carry coordinates. The test is
// JavaScript truthiness, `item.coordinates && item.coordinates.lat &&
// item.coordinates.lng`, so a latitude or longitude of exactly 0 counts as
// missing.
module MapView {
  import opened Common
  import opened Items

  /** Coordinates are usable only when present; a zero latitude or longitude is not. */
  function HasLocation(item: Item): (usable: bool)
    ensures usable ==> item.data.coordinates.Some?
    ensures item.data.coordinates.Some? ==>
              (item.data.coordinates.value.lat == 0.0 || item.data.coordinates.value.lng == 0.0) ==> !usable
  {
    item.data.coordinates.Some? &&
    item.data.coordinates.value.lat != 0.0 &&
    item.data.coordinates.value.lng != 0.0
  }

  /** `itemsWithLocation`: only items of the list with usable coordinates. */
  function ItemsWithLocation(items: seq<Item>): (located: seq<Item>)
    ensures |located| <= |items|
    ensures forall x :: x in located ==> x in items && HasLocation(x)
  {
    Filter(items, HasLocation)
  }

  /**
   * The kept items are a subsequence of the items: exactly those with
   * coordinates whose latitude and longitude are both non-zero.
   */
  lemma ItemsWithLocationSpec(items: seq<Item>)
    ensures IsSubsequence(ItemsWithLocation(items), items)
    ensures forall x :: x in ItemsWithLocation(items) <==>
              && x in items
              && x.data.coordinates.Some?
              && x.data.coordinates.value.lat != 0.0
              && x.data.coordinates.value.lng != 0.0
  {
    FilterIsSubsequence(items, HasLocation);
    forall x
      ensures x in ItemsWithLocation(items) <==> x in items && HasLocation(x)
    {
      FilterMembership(items, HasLocation, x);
    }
  }

  datatype Marker = Marker(itemId: string, lat: real, lng: real)

  /** The marker placed at `[item.coordinates.lat, item.coordinates.lng]`. */
  function MarkerOf(item: Item): Marker
    requires item.data.coordinates.Some?
  {
    Marker(item.id, item.data.coordinates.value.lat, item.data.coordinates.value.lng)
  }

  /** `itemsWithLocation.map(item => <Marker position={[lat, lng]}>)` */
  function Markers(items: seq<Item>): (ms: seq<Marker>)
    ensures |ms| == |ItemsWithLocation(items)|
    ensures forall i :: 0 <= i < |ms| ==>
              && HasLocation(ItemsWithLocation(items)[i])
              && ms[i] == MarkerOf(ItemsWithLocation(items)[i])
  {
    var located := ItemsWithLocation(items);
    assert forall i :: 0 <= i < |located| ==> located[i] in located;
    seq(|located|, i requires 0 <= i < |located| => MarkerOf(located[i]))
  }

  /** "No items with location data found." is shown. */
  predicate ShowsNoLocationOverlay(items: seq<Item>) {
    |ItemsWithLocation(items)| == 0
  }

  /** The overlay appears exactly when no item has usable coordinates. */
  lemma OverlayIffNoLocation(items: seq<Item>)
    ensures ShowsNoLocationOverlay(items) <==> forall x :: x in items ==> !HasLocation(x)
  {
    ItemsWithLocationSpec(items);
    if !ShowsNoLocationOverlay(items) {
      assert ItemsWithLocation(items)[0] in ItemsWithLocation(items);
    }
  }
}

// The item report as the views read it from the `lost-found-items`
// collection. Fields that a document may lack are optional; `type` is kept
// as the raw string so that values other than 'lost' and 'found' stay
// representable.
module Items {
  import opened Common
  import opened Store

  /** `{lat, lng}` as picked on the map. */
  datatype Coordinates = Coordinates(lat: real, lng: real)

  datatype ItemData = ItemData(
    kind: string,                       // the `type` field: 'lost' or 'found'
    title: Option<string>,
    description: string,
    location: string,
    category: string,
    contact: string,
    date: string,
    coordinates: Option<Coordinates>,
    authorId: Option<string>,
    createdAt: Option<Stamp>)

  type Item = Entry<ItemData>

  const Lost := "lost"
  const Found := "found"

  predicate IsLost(item: Item) {
    item.data.kind == Lost
  }

  predicate IsFound(item: Item) {
    item.data.kind == Found
  }
}

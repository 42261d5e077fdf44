// What the document store hands to the views. A live snapshot is a sequence
// of documents; every snapshot callback in the application turns it into
// `snapshot.docs.map(doc => ({ id: doc.id, ...doc.data() }))`.
module Store {
  import opened Common

  /** A store timestamp (`{seconds, nanoseconds}`). */
  datatype Timestamp = Timestamp(seconds: int, nanoseconds: nat)

  /** A time field as written: the `serverTimestamp()` placeholder or a value. */
  datatype Stamp = ServerTime | At(time: Timestamp)

  /**
   * One document of a snapshot: the store-assigned id, the data, and the
   * value of a data field literally named `id`, if the document has one.
   */
  datatype Doc<D> = Doc(docId: string, storedId: Option<string>, data: D)

  /** The object `{ id: doc.id, ...doc.data() }` that the views keep. */
  datatype Entry<D> = Entry(id: string, data: D)

  /**
   * The spread comes after `id: doc.id`, so a data field named `id` would
   * win over the document id.
   */
  function WithId<D>(doc: Doc<D>): (e: Entry<D>)
    ensures e.data == doc.data
    ensures doc.storedId.None? ==> e.id == doc.docId
    ensures doc.storedId.Some? ==> e.id == doc.storedId.value
  {
    Entry(doc.storedId.GetOr(doc.docId), doc.data)
  }

  /** `snapshot.docs.map(...)`: one entry per document, in snapshot order. */
  function Hydrate<D>(docs: seq<Doc<D>>): (r: seq<Entry<D>>)
    ensures |r| == |docs|
    ensures forall i :: 0 <= i < |docs| ==> r[i] == WithId(docs[i])
  {
    seq(|docs|, i requires 0 <= i < |docs| => WithId(docs[i]))
  }

  /** No document of the snapshot carries its own `id` field. */
  predicate NoStoredIds<D>(docs: seq<Doc<D>>) {
    forall i :: 0 <= i < |docs| ==> docs[i].storedId.None?
  }

  /**
   * When no document stores an `id` field, the entries are exactly the
   * documents' data, in order, each tagged with its own document id.
   */
  lemma HydrateKeepsDocIds<D>(docs: seq<Doc<D>>)
    requires NoStoredIds(docs)
    ensures |Hydrate(docs)| == |docs|
    ensures forall i :: 0 <= i < |docs| ==>
              Hydrate(docs)[i] == Entry(docs[i].docId, docs[i].data)
  {
  }
}

// The `useItems` hook: the live list of item reports and the two write
// operations. The list changes only through the snapshot listener; posting
// and deleting only issue store writes, whose outcome is an input here.
module UseItems {
  import opened Common
  import opened Store
  import opened Items

  /** The signed-in user, as far as the hook uses it. */
  datatype User = User(uid: string)

  /**
   * `{...itemData, authorId: user.uid, createdAt: serverTimestamp()}`: the
   * stamps come after the spread, so they override whatever the caller
   * supplied, and every other field is the caller's.
   */
  function Stamped(itemData: ItemData, uid: string): (r: ItemData)
    ensures r.authorId == Some(uid)
    ensures r.createdAt == Some(ServerTime)
    ensures r.(authorId := itemData.authorId, createdAt := itemData.createdAt) == itemData
  {
    itemData.(authorId := Some(uid), createdAt := Some(ServerTime))
  }

  class ItemsHook {
    var items: seq<Item>
    var loading: bool

    constructor ()
      ensures items == [] && loading
    {
      items := [];
      loading := true;
    }

    /** A snapshot sets the items to its documents, in order, and ends loading. */
    method OnSnapshot(docs: seq<Doc<ItemData>>)
      modifies this`items, this`loading
      ensures items == Hydrate(docs) && !loading
    {
      items := Hydrate(docs);
      loading := false;
    }

    /** A listener error keeps the items and ends loading. */
    method OnSnapshotError()
      modifies this`loading
      ensures items == old(items) && !loading
    {
      loading := false;
    }

    /**
     * `addItem`: refused without a user (nothing written); otherwise the
     * stamped document is written and the result is the write's outcome.
     */
    method AddItem(user: Option<User>, itemData: ItemData, writeSucceeds: bool)
      returns (posted: bool, written: Option<ItemData>)
      ensures user.None? ==> written.None?
      ensures user.Some? ==> written == Some(Stamped(itemData, user.value.uid))
      ensures written.Some? ==> written.value.authorId == Some(user.value.uid)
      ensures posted <==> user.Some? && writeSucceeds
    {
      if user.None? {
        return false, None;
      }
      written := Some(Stamped(itemData, user.value.uid));
      posted := writeSucceeds;
    }

    /**
     * `deleteItem`: declined confirmation does nothing; otherwise the
     * document with exactly this id is deleted. No ownership is checked,
     * so the target does not depend on who is signed in.
     */
    method DeleteItem(itemId: string, confirmed: bool) returns (deleted: Option<string>)
      ensures confirmed ==> deleted == Some(itemId)
      ensures !confirmed ==> deleted.None?
    {
      if !confirmed {
        return None;
      }
      deleted := Some(itemId);
    }
  }
}

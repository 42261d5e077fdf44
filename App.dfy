// The main page: the type filter and title search over the live item list,
// and the submit handler of the "Post Item" modal.
module ItemBrowser {
  import opened Common
  import opened Items
  import Text
  import UseItems

  /** The filter value that shows every type. */
  const AllTypes := "all"

  /** `filter === 'all' || item.type === filter`: 'all' admits every type. */
  function MatchesFilter(item: Item, filter: string): (admitted: bool)
    ensures filter == AllTypes ==> admitted
    ensures filter != AllTypes ==> (admitted <==> item.data.kind == filter)
  {
    filter == AllTypes || item.data.kind == filter
  }

  /**
   * `item.title?.toLowerCase().includes(searchQuery.toLowerCase())`: an
   * item without a title yields `undefined`, which is falsy. An empty
   * query matches every titled item.
   */
  function MatchesSearch(item: Item, query: string): (matched: bool)
    ensures matched ==> item.data.title.Some?
    ensures query == "" ==> (matched <==> item.data.title.Some?)
  {
    item.data.title.Some? &&
    Text.Contains(Text.ToLower(item.data.title.value), Text.ToLower(query))
  }

  function Shown(filter: string, query: string): Item -> bool {
    item => MatchesFilter(item, filter) && MatchesSearch(item, query)
  }

  /** `filteredItems`: only items of the list that pass both tests. */
  function FilteredItems(items: seq<Item>, filter: string, query: string): (shown: seq<Item>)
    ensures |shown| <= |items|
    ensures forall x :: x in shown ==> x in items && MatchesFilter(x, filter) && MatchesSearch(x, query)
  {
    Filter(items, Shown(filter, query))
  }

  /**
   * The shown list keeps the order of `items` and holds exactly the items
   * of the chosen type (any type for 'all') whose title matches the query;
   * in particular an item without a title is never shown.
   */
  lemma FilteredItemsSpec(items: seq<Item>, filter: string, query: string)
    ensures IsSubsequence(FilteredItems(items, filter, query), items)
    ensures forall x :: x in FilteredItems(items, filter, query) <==>
              x in items && MatchesFilter(x, filter) && MatchesSearch(x, query)
    ensures filter != AllTypes ==>
              forall x :: x in FilteredItems(items, filter, query) ==> x.data.kind == filter
    ensures forall x :: x in FilteredItems(items, filter, query) ==> x.data.title.Some?
  {
    FilterIsSubsequence(items, Shown(filter, query));
    forall x
      ensures x in FilteredItems(items, filter, query) <==>
              x in items && MatchesFilter(x, filter) && MatchesSearch(x, query)
    {
      FilterMembership(items, Shown(filter, query), x);
    }
  }

  /** The query occurs, ignoring case, in `title` at position `k`. */
  predicate MatchesAt(title: string, query: string, k: int) {
    0 <= k && k + |query| <= |title| && Text.ToLower(title[k..k + |query|]) == Text.ToLower(query)
  }

  /** The search is a case-insensitive substring test of the query against the title. */
  lemma SearchIsCaseInsensitiveSubstring(item: Item, query: string)
    requires item.data.title.Some?
    ensures MatchesSearch(item, query) <==> exists k :: MatchesAt(item.data.title.value, query, k)
  {
    var title := item.data.title.value;
    var lower, needle := Text.ToLower(title), Text.ToLower(query);
    Text.ContainsIffOccurs(lower, needle);
    if exists k :: Text.OccursAt(lower, needle, k) {
      var k :| Text.OccursAt(lower, needle, k);
      Text.ToLowerSlice(title, k, k + |query|);
      assert MatchesAt(title, query, k);
    }
    if exists k :: MatchesAt(title, query, k) {
      var k :| MatchesAt(title, query, k);
      Text.ToLowerSlice(title, k, k + |query|);
      assert Text.OccursAt(lower, needle, k);
    }
  }

  predicate HasTitle(item: Item) {
    item.data.title.Some?
  }

  /**
   * With 'all' and an empty query the page shows exactly the titled
   * items, so the whole list when every item has a title.
   */
  lemma AllWithEmptyQuery(items: seq<Item>)
    ensures FilteredItems(items, AllTypes, "") == Filter(items, HasTitle)
    ensures (forall i :: 0 <= i < |items| ==> HasTitle(items[i])) ==> FilteredItems(items, AllTypes, "") == items
  {
    FilterCongruent(items, Shown(AllTypes, ""), HasTitle);
    if forall i :: 0 <= i < |items| ==> HasTitle(items[i]) {
      FilterAll(items, HasTitle);
    }
  }

  class App {
    var isModalOpen: bool
    var isSubmitting: bool
    var filter: string
    var searchQuery: string

    /** The items the grid shows for the current filter and query. */
    function Visible(items: seq<Item>): seq<Item>
      reads this
    {
      FilteredItems(items, filter, searchQuery)
    }

    /** The page opens on 'all' with an empty query: every titled item is shown. */
    constructor ()
      ensures !isModalOpen && !isSubmitting && filter == AllTypes && searchQuery == ""
      ensures forall items :: Visible(items) == Filter(items, HasTitle)
    {
      isModalOpen := false;
      isSubmitting := false;
      filter := AllTypes;
      searchQuery := "";
      new;
      forall items: seq<Item>
        ensures Visible(items) == Filter(items, HasTitle)
      {
        AllWithEmptyQuery(items);
      }
    }

    /**
     * The awaited `addItem(itemData)`: it is only reached with
     * `isSubmitting` raised, and it reports what the hook reports.
     */
    method Post(hook: UseItems.ItemsHook, user: Option<UseItems.User>, itemData: ItemData, writeSucceeds: bool)
      returns (success: bool, written: Option<ItemData>)
      requires isSubmitting
      ensures success <==> user.Some? && writeSucceeds
      ensures written == (if user.Some? then Some(UseItems.Stamped(itemData, user.value.uid)) else None)
    {
      success, written := hook.AddItem(user, itemData, writeSucceeds);
    }

    /**
     * `handleAddItem`: `isSubmitting` is raised before the post (which
     * `Post` requires) and is false afterwards on either outcome; the
     * modal closes only when the post succeeded.
     */
    method HandleAddItem(hook: UseItems.ItemsHook, user: Option<UseItems.User>, itemData: ItemData, writeSucceeds: bool)
      returns (written: Option<ItemData>)
      modifies this`isSubmitting, this`isModalOpen
      ensures !isSubmitting
      ensures isModalOpen == (old(isModalOpen) && !(user.Some? && writeSucceeds))
      ensures written == (if user.Some? then Some(UseItems.Stamped(itemData, user.value.uid)) else None)
    {
      isSubmitting := true;
      var success;
      success, written := Post(hook, user, itemData, writeSucceeds);
      isSubmitting := false;
      if success {
        isModalOpen := false;
      }
    }
  }
}

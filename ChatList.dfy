// The conversation list: the live snapshot of the user's chats, sorted most
// recent first on the client, and the pure helpers that render each row
// (other party's name, avatar initials, last-message preview, time label).
module ChatList {
  import opened Common
  import opened Store
  import Text
  import Sorting

  /** A chat document. Absent `itemTitle`/`lastMessage` are read as ''. */
  datatype ChatData = ChatData(
    participants: seq<string>,
    participantNames: Option<map<string, string>>,
    itemTitle: string,
    lastMessage: string,
    updatedAt: Option<Timestamp>)

  type Chat = Entry<ChatData>

  // ---------------------------------------------------------------------
  // Recency order

  /** `a.updatedAt?.seconds || 0`: a chat never updated counts as time 0. */
  function RecencyKey(c: Chat): (k: int)
    ensures c.data.updatedAt.None? ==> k == 0
    ensures c.data.updatedAt.Some? ==> k == c.data.updatedAt.value.seconds
  {
    match c.data.updatedAt
    case None => 0
    case Some(t) => t.seconds
  }

  /**
   * The order `fetchedChats.sort((a, b) => timeB - timeA)` leaves the
   * snapshot in: the stable sort by descending recency key, which holds
   * the same chats.
   */
  function SortByRecency(chats: seq<Chat>): (sorted: seq<Chat>)
    ensures multiset(sorted) == multiset(chats)
  {
    Sorting.SortDesc(chats, RecencyKey)
  }

  /** Most recent first: keys never increase along the list. */
  ghost predicate SortedByRecency(chats: seq<Chat>) {
    Sorting.SortedDesc(chats, RecencyKey)
  }

  /**
   * The sorted list is a permutation of the fetched chats and is
   * non-increasing in `updatedAt.seconds` (a missing time counting as 0).
   */
  lemma SortByRecencySpec(chats: seq<Chat>)
    ensures multiset(SortByRecency(chats)) == multiset(chats)
    ensures forall i, j :: 0 <= i < j < |SortByRecency(chats)| ==>
              RecencyKey(SortByRecency(chats)[i]) >= RecencyKey(SortByRecency(chats)[j])
  {
    Sorting.SortDescIsSorted(chats, RecencyKey);
  }

  /**
   * Chats with equal keys keep their snapshot order: restricted to any
   * one key, the sorted list and the snapshot are the same sequence.
   */
  lemma SortByRecencyIsStable(chats: seq<Chat>, k: int)
    ensures Filter(SortByRecency(chats), Sorting.KeyIs(RecencyKey, k)) ==
            Filter(chats, Sorting.KeyIs(RecencyKey, k))
  {
    Sorting.SortDescIsStable(chats, RecencyKey, k);
  }

  /** A chat without `updatedAt` comes after every chat with a positive time. */
  lemma UndatedAfterDated(chats: seq<Chat>, i: int, j: int)
    requires 0 <= i < |SortByRecency(chats)| && 0 <= j < |SortByRecency(chats)|
    requires SortByRecency(chats)[i].data.updatedAt.None?
    requires RecencyKey(SortByRecency(chats)[j]) > 0
    ensures j < i
  {
    SortByRecencySpec(chats);
  }

  // ---------------------------------------------------------------------
  // Row helpers

  /** Position `k` holds the first participant who is not `uid`. */
  predicate IsFirstOther(participants: seq<string>, uid: string, k: int) {
    && 0 <= k < |participants|
    && participants[k] != uid
    && forall i :: 0 <= i < k ==> participants[i] == uid
  }

  /** `participants.find(id => id !== uid)` */
  function FirstOther(participants: seq<string>, uid: string): (r: Option<string>)
    ensures r.Some? ==> exists k :: IsFirstOther(participants, uid, k) && participants[k] == r.value
    ensures forall k :: IsFirstOther(participants, uid, k) ==> r == Some(participants[k])
    ensures r.None? ==> forall i :: 0 <= i < |participants| ==> participants[i] == uid
  {
    if participants == [] then None
    else if participants[0] != uid then
      assert IsFirstOther(participants, uid, 0);
      Some(participants[0])
    else
      var r := FirstOther(participants[1..], uid);
      assert forall k :: IsFirstOther(participants, uid, k) ==> IsFirstOther(participants[1..], uid, k - 1);
      if r.Some? then
        var k :| IsFirstOther(participants[1..], uid, k) && participants[1..][k] == r.value;
        assert IsFirstOther(participants, uid, k + 1);
        r
      else r
  }

  /** The chat's `participantNames` gives `who` a non-empty label. */
  predicate Labelled(chat: ChatData, who: string) {
    && chat.participantNames.Some?
    && who in chat.participantNames.value
    && chat.participantNames.value[who] != ""
  }

  /** The first participant other than `uid` exists and has a non-empty label. */
  ghost predicate OtherIsLabelled(chat: ChatData, uid: string) {
    exists k :: IsFirstOther(chat.participants, uid, k) && Labelled(chat, chat.participants[k])
  }

  /** `getOtherUserName`: the other party's label, then the item title, then 'User'. */
  function OtherUserName(chat: ChatData, uid: string): (name: string)
    ensures name != ""
  {
    var given :=
      if chat.participantNames.None? then ""
      else
        var other := FirstOther(chat.participants, uid);
        if other.Some? && other.value in chat.participantNames.value
        then chat.participantNames.value[other.value] else "";
    if given != "" then given
    else if chat.itemTitle != "" then chat.itemTitle
    else "User"
  }

  /**
   * Where the displayed name comes from, in order of priority: the
   * non-empty label of the first participant other than the current user;
   * failing that, the non-empty item title; failing that, 'User'.
   */
  lemma OtherUserNameSource(chat: ChatData, uid: string)
    ensures forall k :: IsFirstOther(chat.participants, uid, k) && Labelled(chat, chat.participants[k]) ==>
              OtherUserName(chat, uid) == chat.participantNames.value[chat.participants[k]]
    ensures !OtherIsLabelled(chat, uid) && chat.itemTitle != "" ==> OtherUserName(chat, uid) == chat.itemTitle
    ensures !OtherIsLabelled(chat, uid) && chat.itemTitle == "" ==> OtherUserName(chat, uid) == "User"
  {
    var other := FirstOther(chat.participants, uid);
    if chat.participantNames.Some? && other.Some? && other.value in chat.participantNames.value &&
       chat.participantNames.value[other.value] != "" {
      var k :| IsFirstOther(chat.participants, uid, k) && chat.participants[k] == other.value;
      assert Labelled(chat, chat.participants[k]);
    }
  }

  /** `otherName.substring(0, 2).toUpperCase()` */
  function Initials(name: string): (r: string)
    ensures |r| == if |name| < 2 then |name| else 2
    ensures forall i :: 0 <= i < |r| ==> r[i] == Text.UpperChar(name[i])
  {
    Text.ToUpper(if |name| <= 2 then name else name[..2])
  }

  const EmptyPreview := "Start the conversation..."

  /** `chat.lastMessage || 'Start the conversation...'` */
  function Preview(chat: ChatData): (r: string)
    ensures r != ""
    ensures chat.lastMessage != "" ==> r == chat.lastMessage
    ensures chat.lastMessage == "" ==> r == EmptyPreview
  {
    if chat.lastMessage != "" then chat.lastMessage else EmptyPreview
  }

  // ---------------------------------------------------------------------
  // Time label

  /** The four display forms of `formatTime`, plus '' for a missing time. */
  datatype TimeLabel = NoTime | TimeOfDay | Yesterday | Weekday | MonthDay

  const MsPerDay := 86400000

  /**
   * `formatTime(updatedAt)` at wall-clock time `nowMs`. The elapsed
   * milliseconds are divided by a day with Dafny's `/`, which rounds down
   * for a positive divisor, as `Math.floor` does.
   */
  function FormatTime(t: Option<Timestamp>, nowMs: int): (shown: TimeLabel)
    ensures shown == NoTime <==> t.None?
  {
    match t
    case None => NoTime
    case Some(ts) =>
      var days := (nowMs - ts.seconds * 1000) / MsPerDay;
      if days == 0 then TimeOfDay
      else if days == 1 then Yesterday
      else if days < 7 then Weekday
      else MonthDay
  }

  /**
   * The labels in terms of elapsed time: under a day, one to two days,
   * two to seven days or in the future, seven days or more.
   */
  lemma FormatTimeWindows(ts: Timestamp, nowMs: int)
    ensures var elapsed := nowMs - ts.seconds * 1000;
            var shown := FormatTime(Some(ts), nowMs);
            && (shown == TimeOfDay <==> 0 <= elapsed < MsPerDay)
            && (shown == Yesterday <==> MsPerDay <= elapsed < 2 * MsPerDay)
            && (shown == Weekday <==> elapsed < 0 || 2 * MsPerDay <= elapsed < 7 * MsPerDay)
            && (shown == MonthDay <==> 7 * MsPerDay <= elapsed)
  {
    var elapsed := nowMs - ts.seconds * 1000;
    var days := elapsed / MsPerDay;
    assert elapsed == MsPerDay * days + elapsed % MsPerDay;
    assert 0 <= elapsed % MsPerDay < MsPerDay;
  }

  // ---------------------------------------------------------------------
  // The rendered list

  datatype ChatRow = ChatRow(
    chatId: string,
    name: string,
    initials: string,
    time: TimeLabel,
    preview: string,
    itemTitle: string,
    selected: bool)

  /** `chats.map(chat => ...)`: one row per chat; a click selects `chat.id`. */
  function Rows(chats: seq<Chat>, uid: string, nowMs: int, selectedChatId: Option<string>): (rows: seq<ChatRow>)
    ensures |rows| == |chats|
    ensures forall i :: 0 <= i < |chats| ==>
              && rows[i].chatId == chats[i].id
              && rows[i].name == OtherUserName(chats[i].data, uid)
              && rows[i].initials == Initials(rows[i].name)
              && rows[i].time == FormatTime(chats[i].data.updatedAt, nowMs)
              && rows[i].preview == Preview(chats[i].data)
              && rows[i].itemTitle == chats[i].data.itemTitle
              && rows[i].name != ""
              && 1 <= |rows[i].initials| <= 2
              && rows[i].preview != ""
              && (rows[i].selected <==> selectedChatId == Some(chats[i].id))
  {
    seq(|chats|, i requires 0 <= i < |chats| =>
      var name := OtherUserName(chats[i].data, uid);
      ChatRow(chats[i].id, name, Initials(name),
              FormatTime(chats[i].data.updatedAt, nowMs),
              Preview(chats[i].data), chats[i].data.itemTitle,
              selectedChatId == Some(chats[i].id)))
  }

  datatype Screen = Skeleton | NoChats | ChatRows(rows: seq<ChatRow>)

  // ---------------------------------------------------------------------
  // The component's state

  class ChatListView {
    /** `currentUser.uid`, absent when nobody is signed in. */
    const currentUid: Option<string>
    /** The snapshot listener is attached only when there is a user. */
    const subscribed: bool
    var chats: seq<Chat>
    var loading: bool

    ghost predicate Valid()
      reads this
    {
      && SortedByRecency(chats)
      && subscribed == currentUid.Some?
      && (!loading ==> subscribed)
    }

    constructor (currentUid: Option<string>)
      ensures Valid()
      ensures this.currentUid == currentUid && subscribed == currentUid.Some?
      ensures chats == [] && loading
    {
      this.currentUid := currentUid;
      subscribed := currentUid.Some?;
      chats := [];
      loading := true;
    }

    /** The snapshot callback: map, sort in place, then store. */
    method OnSnapshot(docs: seq<Doc<ChatData>>)
      requires Valid() && subscribed
      modifies this`chats, this`loading
      ensures Valid()
      ensures chats == SortByRecency(Hydrate(docs))
      ensures !loading
    {
      var fetched := Hydrate(docs);
      var a := new Chat[|fetched|](i requires 0 <= i < |fetched| => fetched[i]);
      assert a[..] == fetched;
      Sorting.SortInPlace(a, RecencyKey);
      chats := a[..];
      SortByRecencySpec(fetched);
      loading := false;
    }

    /** The error callback: the list is kept, loading ends. */
    method OnError()
      requires Valid() && subscribed
      modifies this`loading
      ensures Valid()
      ensures chats == old(chats) && !loading
    {
      loading := false;
    }

    /** What the component renders. */
    function View(nowMs: int, selectedChatId: Option<string>): (s: Screen)
      requires Valid()
      reads this
      ensures s.Skeleton? <==> loading
      ensures s.NoChats? <==> !loading && chats == []
      ensures s.ChatRows? ==> s.rows == Rows(chats, currentUid.value, nowMs, selectedChatId)
      ensures s.ChatRows? ==> |s.rows| == |chats| && forall i :: 0 <= i < |chats| ==> s.rows[i].chatId == chats[i].id
    {
      if loading then Skeleton
      else if chats == [] then NoChats
      else ChatRows(Rows(chats, currentUid.value, nowMs, selectedChatId))
    }
  }
}

# findIt: a verified model of the client-side rules

findIt is a lost-and-found web application. Users post lost or found
item reports, browse and filter them, see them on a map and chat with a
report's owner. The data lives in a hosted document store. The application
code is mostly React views over live snapshots of that store.

This project models the deterministic rules inside those views and hooks, and
proves what they promise:

- **Conversation list.** The snapshot of chats is sorted in place, most
  recent first (`Sorting`, `ChatList`). The list also computes the other
  party's name, the avatar initials, the last-message preview and the time
  label.
- **Chat window.** The composer refuses blank input and sends the untrimmed
  text. It is cleared only after a successful write (`ChatWindow`).
- **Item hook.** Snapshots become `{id, ...data}` entries (`Store`). Posting
  is refused without a user, and the author stamp overrides the caller's.
  Deletion is gated only by a confirmation (`UseItems`).
- **Item views.**
  - The main page's type filter and title search (`ItemBrowser`).
  - The lost/found/total counters (`AdminDashboard`, `StatsBanner`).
  - The map's "has coordinates" filter and its empty overlay (`MapView`).
- **Auth forms.**
  - The sign-in/sign-up dialog: error messages, loading flag, close-on-success
    and mode toggle (`AuthModal`).
  - The settings page: the password length guard, the field clearing and the
    loading flag (`UserSettings`).

Store and authentication calls are not modelled. A snapshot is an input
sequence of documents. The outcome of a write or an auth call is an input
(a success flag, or `AuthOk`/`AuthError(code)`). The calls a handler makes
are returned as values. `confirm()` is a boolean input. The clock is an input
(`nowMs`).

Component state that handlers update becomes a `class` whose methods have
`modifies` clauses: `ChatListView`, `ChatWindowView`, `ItemsHook`, `App`,
`AuthDialog` and `Settings`. Pure `filter`/`map` expressions become
functions with lemmas. The in-place `Array.prototype.sort` in the chat list
is modelled by an insertion sort on an `array`. It is proved to produce the same
sequence as the functional stable sort `Sorting.SortDesc`. Sortedness,
permutation and stability are proved about that sort.

Three facts about the modelled files shape the chat and item parts of the
model:

- `handleSendMessage` writes the message document only; the window shows it
  once the next snapshot arrives.
- `handleSendMessage` does not touch the chat's `lastMessage`/`updatedAt`.
  The chat list reads and sorts by those fields, so they are updated
  elsewhere.
- None of the files modelled here contains an item-matching query or a
  get-or-create of chat sessions; `MatchingItemsModal.jsx` only renders the
  `matches` its caller passes in. The model has neither.

## Model

| member | source | states |
|---|---|---|
| Store.WithId | src/hooks/useItems.js:15-18 | the entry carries the document's data; its id is the document id, unless the data has its own `id` field, which wins because the spread comes last |
| Store.Hydrate | src/hooks/useItems.js:15-18 | one entry per document, in snapshot order, the i-th being the i-th document with its id |
| Store.HydrateKeepsDocIds | src/components/ChatList.jsx:20-23 | when no document stores an `id` field, each entry is exactly the document's id and data |
| Common.Filter | src/App.jsx:43-47 | `Array.prototype.filter`: the result is no longer than the input and holds only input elements that satisfy the predicate |
| Common.FilterMembership | src/App.jsx:43-47 | an element is in the filtered list iff it is in the list and satisfies the predicate |
| Common.FilterIsSubsequence | src/App.jsx:43-47 | the filtered list keeps the input's order (it is a subsequence) |
| Common.FilterCountPermutation | src/components/StatsBanner.jsx:5-6 | reordering the input does not change how many elements pass a filter |
| Common.FilterCongruent | src/App.jsx:43-47 | two predicates that agree on every element give the same filtered list |
| Common.FilterAll | src/App.jsx:43-47 | a predicate that every element satisfies keeps the whole list |
| Common.FilterConcat | src/App.jsx:43-47 | filtering a concatenation is the concatenation of the filtered parts |
| Text.Trim | src/components/ChatWindow.jsx:38 | the result is the piece of the input between white space at both ends: everything before and after it is white space, it neither starts nor ends with white space, and it is empty iff the input is all white space |
| Text.TrimPieces | src/components/ChatWindow.jsx:38 | dropping leading white space and then trailing white space leaves the piece of the input between white space at both ends, empty iff the input is all white space |
| Text.IsBlank | src/components/ChatWindow.jsx:38 | a text is blank iff every character is white space |
| Text.Contains | src/App.jsx:45 | the empty needle is found in every string; a needle longer than the haystack is never found |
| Text.TrimStart | src/components/ChatWindow.jsx:38 | the result is a suffix of the input; everything dropped is white space; it does not start with white space |
| Text.TrimEnd | src/components/ChatWindow.jsx:38 | the result is a prefix of the input; everything dropped is white space; it does not end with white space |
| Text.ToLower | src/App.jsx:45 | same length; each character is the lower-case form of the input's |
| Text.ToUpper | src/components/ChatList.jsx:100 | same length; each character is the upper-case form of the input's |
| Text.ToLowerSlice | src/App.jsx:45 | lower-casing commutes with taking a slice |
| Text.ContainsIffOccurs | src/App.jsx:45 | `includes` holds iff the needle occurs at some position of the haystack |
| ChatList.RecencyKey | src/components/ChatList.jsx:27-28 | a chat without `updatedAt` has key 0; otherwise its key is `updatedAt.seconds` |
| ChatList.SortByRecency | src/components/ChatList.jsx:26-30 | the sorted chats are the fetched chats rearranged (same multiset) |
| Sorting.Insert | src/components/ChatList.jsx:26-30 | inserting into the sorted prefix adds exactly that element (multiset) |
| Sorting.SortDesc | src/components/ChatList.jsx:26-30 | the stable descending sort is a permutation of its input |
| Sorting.InsertSorted | src/components/ChatList.jsx:26-30 | inserting into a non-increasing list keeps it non-increasing |
| Sorting.SortDescIsSorted | src/components/ChatList.jsx:26-30 | the sort's output is non-increasing in the key |
| Sorting.InsertKeepsTies | src/components/ChatList.jsx:26-30 | insertion puts an element after every element with the same key |
| Sorting.SortDescIsStable | src/components/ChatList.jsx:26-30 | restricted to any one key, the output equals the input: elements with equal keys keep their order |
| Sorting.OpenSlot | src/components/ChatList.jsx:26-30 | elements of the prefix with a smaller key than the inserted one move one place right, and everything else stays; the slot's left neighbour, if any, has a key at least as large |
| Sorting.InsertLast | src/components/ChatList.jsx:26-30 | one insertion pass on the array leaves the prefix equal to the functional insertion and the rest untouched |
| Sorting.SortInPlace | src/components/ChatList.jsx:26-30 | the in-place sort leaves the array equal to the functional stable sort of its old contents |
| ChatList.SortByRecencySpec | src/components/ChatList.jsx:26-30 | the sorted chats are a permutation of the fetched chats and non-increasing in `updatedAt.seconds`, a missing time counting as 0 |
| ChatList.SortByRecencyIsStable | src/components/ChatList.jsx:26-30 | chats with equal recency keep their snapshot order |
| ChatList.UndatedAfterDated | src/components/ChatList.jsx:27-29 | a chat with no `updatedAt` comes after every chat with a positive time |
| ChatList.FirstOther | src/components/ChatList.jsx:64 | `find`: the first participant different from the user, or none when every participant is the user |
| ChatList.OtherUserName | src/components/ChatList.jsx:62-66 | the displayed name is never empty |
| ChatList.OtherUserNameSource | src/components/ChatList.jsx:62-66 | priority chain on the first participant other than the user: if that participant has a non-empty label, the name is that label; otherwise the non-empty item title; otherwise 'User' |
| ChatList.Initials | src/components/ChatList.jsx:100 | exactly the first two characters of the name (all of it when shorter), each upper-cased |
| ChatList.Preview | src/components/ChatList.jsx:130 | the last message when it is non-empty, 'Start the conversation...' otherwise |
| ChatList.FormatTime | src/components/ChatList.jsx:43-59 | the empty label is shown iff the chat has no time |
| ChatList.FormatTimeWindows | src/components/ChatList.jsx:43-59 | the label is time-of-day for under a day elapsed, 'Yesterday' for one to two days, a weekday for two to seven days or a future time, month-day beyond |
| ChatList.Rows | src/components/ChatList.jsx:98-130 | one row per chat, in order, with the chat's id, the name `OtherUserName` gives, that name's initials, the chat's time label and preview and item title, selected iff its id is the selected one |
| ChatList.ChatListView.constructor | src/components/ChatList.jsx:7-11 | starts loading with no chats; subscribed iff a user is signed in |
| ChatList.ChatListView.OnSnapshot | src/components/ChatList.jsx:19-33 | the chats become the mapped snapshot sorted by recency; loading ends; the list stays sorted |
| ChatList.ChatListView.OnError | src/components/ChatList.jsx:34-37 | the chats are kept and loading ends |
| ChatList.ChatListView.View | src/components/ChatList.jsx:68-98 | skeleton iff loading; the empty state iff loaded with no chats; otherwise exactly `Rows` of the chats for the signed-in user |
| ChatWindow.ChatWindowView.constructor | src/components/ChatWindow.jsx:8-14 | starts loading with no messages and an empty composer; subscribed iff the chat id is truthy |
| ChatWindow.ChatWindowView.OnSnapshot | src/components/ChatWindow.jsx:19-25 | the messages become the snapshot's documents in order, each with its id; loading ends |
| ChatWindow.ChatWindowView.Edit | src/components/ChatWindow.jsx:93 | the composer holds the typed text |
| ChatWindow.ChatWindowView.SendMessage | src/components/ChatWindow.jsx:36-52 | a write happens iff the text is not blank and the chat id is truthy; it carries the untrimmed text and the user's id; the composer is cleared only after a successful write; nothing else changes |
| ChatWindow.ChatWindowView.CanSend | src/components/ChatWindow.jsx:99 | the send button is enabled iff the composer has a non-white-space character |
| ChatWindow.ChatWindowView.IsMine | src/components/ChatWindow.jsx:72 | a bubble is drawn as the user's own iff its sender is the user, so every message the view sends is |
| UseItems.Stamped | src/hooks/useItems.js:39-43 | the written document has the user's id as `authorId` and a server `createdAt`, overriding the caller's, and every other field of the caller's data |
| UseItems.ItemsHook.constructor | src/hooks/useItems.js:7-8 | no items, loading |
| UseItems.ItemsHook.OnSnapshot | src/hooks/useItems.js:14-20 | the items become the snapshot's documents in order, each as `{id, ...data}`; loading ends |
| UseItems.ItemsHook.OnSnapshotError | src/hooks/useItems.js:21-25 | the items are kept; loading ends |
| UseItems.ItemsHook.AddItem | src/hooks/useItems.js:30-51 | without a user nothing is written and the result is false; otherwise the stamped data is written and the result is true iff the write succeeded |
| UseItems.ItemsHook.DeleteItem | src/hooks/useItems.js:53-58 | nothing is deleted unless confirmed; when confirmed, exactly the given id is deleted, with no ownership check |
| ItemBrowser.MatchesFilter | src/App.jsx:44 | 'all' admits every item; any other filter admits exactly the items of that type |
| ItemBrowser.MatchesSearch | src/App.jsx:45 | only titled items match; the empty query matches every titled item |
| ItemBrowser.FilteredItems | src/App.jsx:42-48 | no more items than the list, each from the list and passing both the type and the title test |
| ItemBrowser.FilteredItemsSpec | src/App.jsx:42-48 | the shown items keep the list's order and are exactly the items of the chosen type (any for 'all') whose title matches; a shown item always has a title |
| ItemBrowser.SearchIsCaseInsensitiveSubstring | src/App.jsx:45 | for a titled item the search holds iff the query occurs in the title, case ignored, at some position |
| ItemBrowser.AllWithEmptyQuery | src/App.jsx:44-45 | with 'all' and an empty query exactly the titled items are shown, hence the whole list when every item has a title |
| ItemBrowser.App.constructor | src/App.jsx:16-19 | modal closed, not submitting, filter 'all', empty query, so the grid shows exactly the titled items |
| ItemBrowser.App.Post | src/App.jsx:34 | the awaited `addItem` can only run with `isSubmitting` raised (its precondition); it succeeds iff there is a user and the write succeeds, and writes the stamped data |
| ItemBrowser.App.HandleAddItem | src/App.jsx:32-39 | the post goes through `Post`, so `isSubmitting` is raised while it runs; `isSubmitting` is false afterwards; the modal closes only when the post succeeded |
| AdminDashboard.DashboardStats | src/components/AdminDashboard.jsx:6-10 | the total is the number of items and bounds both counts |
| AdminDashboard.CountsOne | src/components/AdminDashboard.jsx:7-8 | a single item counts one as lost iff its type is 'lost', one as found iff its type is 'found' |
| AdminDashboard.CountsAdd | src/components/AdminDashboard.jsx:7-8 | the counts of two lists put together are the sums of their counts, so each counter is the number of items of its type |
| AdminDashboard.LostFoundBound | src/components/AdminDashboard.jsx:7-9 | lost + found is at most the total, with equality iff every item is lost or found |
| AdminDashboard.Rows | src/components/AdminDashboard.jsx:66-91 | one row per item, in order; its delete action passes that item's id; its badge is 'Lost' iff the type is 'lost' |
| AdminDashboard.Table | src/components/AdminDashboard.jsx:65-98 | the table shows exactly the item rows of `Rows`, and the "No items found." row appears iff there are no items |
| StatsBanner.BannerCounts | src/components/StatsBanner.jsx:4-8 | lost + found is at most the number of items |
| StatsBanner.BannerAgreesWithDashboard | src/components/StatsBanner.jsx:5-6 | the banner's counts equal the dashboard's for the same items |
| StatsBanner.BannerCountsOne | src/components/StatsBanner.jsx:5-6 | a single item counts one as lost iff its type is 'lost', one as found iff its type is 'found' |
| StatsBanner.BannerCountsAdd | src/components/StatsBanner.jsx:5-6 | the counts of two lists put together are the sums of their counts |
| StatsBanner.BannerIgnoresOrder | src/components/StatsBanner.jsx:5-6 | both counts are unchanged by any reordering of the items |
| MapView.HasLocation | src/components/MapView.jsx:22 | usable coordinates are present ones; a zero latitude or longitude is not usable |
| MapView.ItemsWithLocation | src/components/MapView.jsx:22 | no more items than the list, each from the list and with usable coordinates |
| MapView.ItemsWithLocationSpec | src/components/MapView.jsx:22 | the kept items are a subsequence, exactly those that have coordinates with non-zero latitude and longitude |
| MapView.Markers | src/components/MapView.jsx:39-42 | one marker per kept item, in order, placed at that item's latitude and longitude |
| MapView.OverlayIffNoLocation | src/components/MapView.jsx:62 | the "no location data" overlay is shown iff no item has usable coordinates |
| AuthModal.AuthErrorText | src/components/AuthModal.jsx:33-36 | each of the three known codes gets its own message; any other code gets "Authentication failed" |
| AuthModal.AuthErrorMessage | src/components/AuthModal.jsx:33-36 | the successive `if`s produce exactly that message |
| AuthModal.AuthDialog.constructor | src/components/AuthModal.jsx:8-9 | opens in sign-in mode, not loading |
| AuthModal.AuthDialog.ToggleMode | src/components/AuthModal.jsx:113 | flips the mode, so two toggles restore it |
| AuthModal.AuthDialog.CanSubmit | src/components/AuthModal.jsx:103 | the submit button is enabled iff no submission is running; it is disabled while `Authenticate` runs and enabled again after `HandleSubmit` |
| AuthModal.AuthDialog.Authenticate | src/components/AuthModal.jsx:21-30 | the calls can only run with `loading` raised (its precondition), so the submit button is disabled; sign-in makes one call; sign-up creates the account and sets the display name only after creation succeeded; no failure iff every call made succeeded, otherwise the failing call's code |
| AuthModal.AuthDialog.HandleSubmit | src/components/AuthModal.jsx:13-41 | the calls go through `Authenticate`, so `loading` is raised while they run; the dialog closes iff every call succeeded, otherwise the failing code's message is shown; `loading` ends false and the button is enabled again |
| UserSettings.PasswordErrorText | src/components/UserSettings.jsx:38-42 | 'auth/requires-recent-login' gives the re-login message; every other code gives the generic one |
| UserSettings.Settings.constructor | src/components/UserSettings.jsx:7-9 | the name field starts as the user's display name or ''; empty password; not loading |
| UserSettings.Settings.CanSubmitProfile | src/components/UserSettings.jsx:83 | the profile button is enabled iff no request is running; it is disabled while `SendProfile` runs and enabled again after `UpdateProfile` |
| UserSettings.Settings.CanSubmitPassword | src/components/UserSettings.jsx:117 | the password button is enabled iff no request is running and the field is non-empty; it is disabled while `SendPassword` runs; after a change it is enabled again iff the call failed |
| UserSettings.Settings.SendProfile | src/components/UserSettings.jsx:14-19 | the call can only run with `loading` raised (its precondition), so the button is disabled; the current name is sent; the message follows the outcome |
| UserSettings.Settings.UpdateProfile | src/components/UserSettings.jsx:11-23 | the call goes through `SendProfile`, so `loading` is raised while it runs; the current name is sent; the message follows the outcome; `loading` ends false and the button is enabled again |
| UserSettings.Settings.SendPassword | src/components/UserSettings.jsx:32-42 | the call can only run with `loading` raised and a password of at least six characters (its precondition), so the button is disabled; the password is sent, cleared only on success, and the message follows the error code |
| UserSettings.Settings.UpdatePassword | src/components/UserSettings.jsx:25-46 | a password under six characters is refused with no call and no state change; otherwise it is sent through `SendPassword` with `loading` raised, cleared only on success, kept on failure; `loading` ends false, so the button is enabled again iff the call failed |

## Left out

- Store plumbing is not modelled: `onSnapshot`, `query`/`where`/`orderBy`, `addDoc`, `deleteDoc` and `serverTimestamp`. Snapshots are input sequences and writes are success flags. Message order by `createdAt` and chat membership are store queries, so the model takes the snapshot's order as given.
- The subscription lifecycle (teardown, re-subscription, interleaving of asynchronous callbacks) is event-loop concurrency. Each handler is modelled as one atomic step.
- The authentication calls are not modelled; only their outcome (`AuthOk` or an error code) is an input.
- Toasts are modelled only where the handler's message is a returned value: the auth dialog's error message (`AuthModal.jsx` lines 33-37) and the settings page's profile and password messages (`UserSettings.jsx` lines 16-19, 28 and 34-41). The item hook's loading, success and failure toasts, the chat window's "Failed to send message" toast and the auth dialog's success toasts ("Welcome back!", "Account created successfully!") are not modelled.
- `console.error`, scrolling and the "Processing..." button text are side channels and are not modelled.
- ChatList.FormatTimeWindows: the label is a bucket tag. The locale strings from `toLocaleTimeString`/`toLocaleDateString` are not produced.
- ChatWindow.ChatWindowView.SendMessage: with a falsy chat id, the model has the store library reject the message path `chats/<id>/messages` before any write, which sends the handler to its `catch`. Those path rules belong to the store library, which is not part of this model.
- ChatList.ChatListView.View: the model fixes the user for the view's lifetime. Mounted without a user, the list never subscribes and stays on the skeleton, as in the source. A sign-out after chats have loaded, where the source would read `currentUser.uid` of a missing user, is not modelled.
- ChatList.OtherUserName: a missing `itemTitle`/`lastMessage` is read as the empty string, since both are falsy. When no other participant exists, `participantNames[undefined]` looks up the key "undefined". That key is not modelled; the lookup is treated as missing.
- ChatList.RecencyKey: `updatedAt.seconds` of 0 and a missing `updatedAt` both give key 0, as in the source. A present `updatedAt` without `seconds` is not modelled.
- Text.TrimStart and Text.TrimEnd cover only ASCII white space, not the full Unicode white-space set that `trim` removes.
- Text.ToLower and Text.ToUpper map only ASCII letters, not full Unicode case mapping.
- UserSettings.Settings.UpdatePassword: the length is counted in characters, not UTF-16 code units.
- MapView.ItemsWithLocationSpec: coordinates are real numbers, and only the zero/non-zero truthiness test is modelled. NaN, `undefined` latitude/longitude and map rendering are not.
- The Navbar's display-name fallback and the other presentation components (hero, item card, add-item form, matching modal, location picker) hold no rule worth modelling.

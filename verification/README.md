# quickchat screens in Dafny

A model of the list logic inside quickchat, a one-to-one chat web client. Two
of its screens hold that logic:

- The **chat screen** keeps the messages of one conversation and the text
  input. There are two versions. `src/pages/ChatPage.js` is the routed one.
  `src/pages/cH.js` is a later draft that adds read marking. The screen
  replaces its list with the history the backend returns and appends every
  message pushed over the socket. A message the user sends is POSTed first
  and appended only once the POST succeeds; then it is emitted to the socket.
  In the draft, after every change of the list, the screen asks the backend
  to mark read each unseen entry that is not tagged as own (`fromSelf` falsy).
  History entries carry no `fromSelf`, so the user's own messages reloaded
  from the history are included. Each acknowledgement sets `seen` on the
  entries with that id.
- The **home screen** fetches the users and drops the logged-in one. It then
  looks up the last message with each remaining user and shows skeleton rows,
  an empty notice, or one card per user. The older `src/pages/_Homepage.js`
  does the same without the last-message lookup.

Each screen is a class whose fields are the React state of the source:
`messages`, `input` (the source's `message`), `otherUsers`, `loadingUsers`.
The HTTP requests and socket emits a screen issues are appended to an
`outbox` or `requests` field. Each asynchronous callback (a request settling,
a socket push) is one method, so one run of the screen is a sequence of
method calls. The list updates themselves are pure functions in `Messages`
and `Users`. The lemmas are about those functions and about runs of callbacks
(`Replay`).

Modules:

- `Common`: `Option` and the user record.
- `Text`: JavaScript's `trim`, with its exact whitespace set.
- `Messages`: the message record, the outbox events, the append and
  mark-seen updaters, the auto-read selection and the receipt ticks.
- `ChatPage` and `ChatDraft`: one module per version of the chat screen.
- `Users`: the email filter, the home screens' requests and the choice of view.
- `HomePage` and `LegacyHome`: one module per version of the home screen.

The chat screens have no debounced send, no Pending/Sent/Delivered/Seen
state, no optimistic insertion, no echo suppression, no buffering of early
pushes and no reconnect handling. In their code:

- the only delivery state is the `seen` flag;
- an own message is appended only after its POST succeeds;
- every `receiveMessage` push is appended, whoever sent it;
- a history response replaces the list, including any entries pushed before
  it arrived.

## Model

| member | source | states |
|---|---|---|
| `Text.TrimStart` | src/pages/ChatPage.js:45 | the result is a suffix of the input; everything dropped is whitespace; it does not start with whitespace |
| `Text.TrimEnd` | src/pages/ChatPage.js:45 | the result is a prefix of the input; everything dropped is whitespace; it does not end with whitespace |
| `Text.Trim` | src/pages/cH.js:73 | `trim()` is empty exactly when every character is JavaScript whitespace; otherwise it neither starts nor ends with whitespace |
| `Messages.AppendTagged` | src/pages/cH.js:58 | the spread-append adds exactly one entry at the end: the payload with `fromSelf` overridden and nothing else changed; the earlier entries are untouched |
| `Messages.MarkSeen` | src/pages/cH.js:105-109 | the map by `_id` keeps the length, sets `seen` on every entry with the id, and leaves every other entry unchanged; every entry only advances (nothing but `seen` changes, and seen stays seen) |
| `Messages.MarkSeenIdempotent` | src/pages/cH.js:102-113 | applying a read acknowledgement twice equals applying it once |
| `Messages.MarkSeenCommutes` | src/pages/cH.js:102-113 | two read acknowledgements give the same list in either order |
| `Messages.UnreadIds` | src/pages/cH.js:118-122 | the auto-read selection has no more ids than the list has entries; it is empty exactly when no entry has falsy `fromSelf` and falsy `seen` |
| `Messages.UnreadIdsSnoc` | src/pages/cH.js:118-122 | scanning one entry further adds that entry's id at the end exactly when it needs reading; this is the list order of the `forEach` |
| `Messages.UnreadIdsMembership` | src/pages/cH.js:119-120 | an id is requested exactly when some entry with that id has falsy `fromSelf` and falsy `seen` |
| `Messages.MarkAllSeen` | src/pages/cH.js:102-113 | after the acknowledgements for a list of ids, the entries with those ids are seen and all others are unchanged |
| `Messages.AutoReadConverges` | src/pages/cH.js:116-124 | once every PUT of one auto-read pass has succeeded, the next pass selects nothing |
| `Messages.Glyph` | src/pages/ChatPage.js:112 | no tick renders as empty text, a sent receipt as `✓`, a read one as `✓✓`, each exactly |
| `Messages.TickOf` | src/pages/ChatPage.js:107-113 | a tick is shown exactly for own entries with a valid time; it is `✓✓` exactly when such an entry is seen, otherwise `✓` |
| `Messages.Receipts` | src/pages/ChatPage.js:93-120 | one receipt per rendered entry, in list order, each chosen by `TickOf`; `cH.js` renders the same ticks |
| `Messages.TickMonotone` | src/pages/cH.js:171-177 | when an entry only advances, a shown tick stays shown and `✓✓` never turns back into `✓` |
| `ChatPage.ReplayConcat` | src/pages/ChatPage.js:18-67 | running two runs of callbacks in a row equals running their concatenation |
| `ChatPage.ApplyAppends` | src/pages/ChatPage.js:34-66 | a callback other than a history load appends its tagged entry, if any, and leaves the rest of the list unchanged |
| `ChatPage.ReplayOnlyAppends` | src/pages/ChatPage.js:34-66 | between history loads the list is the old list, unchanged, followed by `{...message, fromSelf: false}` for each push and `{...response.data, fromSelf: true}` for each successful send, in the order the callbacks fired; no callback removes, reorders or changes `seen` |
| `ChatPage.HistoryThenAppends` | src/pages/ChatPage.js:18-66 | after any run, the list is exactly the last history response followed by the tagged entries appended since it arrived, in order |
| `ChatPage.ChatScreen.constructor` | src/pages/ChatPage.js:14-15 | the screen starts with no messages, empty input and nothing sent |
| `ChatPage.ChatScreen.Open` | src/pages/ChatPage.js:18-32 | with both users present, the history GET (local id, partner id) and then `joinRoom(local id)` are issued, the emit without waiting for the GET; otherwise nothing |
| `ChatPage.ChatScreen.OnHistoryLoaded` | src/pages/ChatPage.js:23-25 | the list becomes the response exactly, whatever it held |
| `ChatPage.ChatScreen.OnHistoryFailed` | src/pages/ChatPage.js:26-28 | a failed history fetch leaves the list unchanged |
| `ChatPage.ChatScreen.OnReceiveMessage` | src/pages/ChatPage.js:35-37 | a push appends exactly its `message` part with `fromSelf=false`; earlier entries are unchanged; the sender is not checked |
| `ChatPage.ChatScreen.SetInput` | src/pages/ChatPage.js:135 | typing sets the input |
| `ChatPage.ChatScreen.HandleSendMessage` | src/pages/ChatPage.js:44-68 | blank input changes nothing and sends nothing; otherwise the untrimmed text is POSTed with the local id as sender and the partner's id as receiver, and the input is cleared before the POST settles |
| `ChatPage.ChatScreen.OnSendSucceeded` | src/pages/ChatPage.js:54-62 | the response is appended as exactly one own entry; then `sendMessage` is emitted with both ids and the response |
| `ChatPage.ChatScreen.OnSendFailed` | src/pages/ChatPage.js:63-65 | a failed POST appends nothing |
| `ChatDraft.ApplyAdvances` | src/pages/cH.js:57-109 | a callback other than a history load appends its tagged entry or turns entries seen, and changes nothing else |
| `ChatDraft.ReplayOnlyAdvances` | src/pages/cH.js:45-109 | between history loads the list is, position by position, the old list followed by the tagged pushes and sends in callback order, except that entries may have turned seen; nothing is removed or reordered and a seen entry stays seen |
| `ChatDraft.TicksOnlyAdvance` | src/pages/cH.js:171-177 | between history loads a shown tick is never lost and `✓✓` never reverts to `✓` |
| `ChatDraft.OwnHistoryEntryIsMarkedRead` | src/pages/cH.js:44-123 | when the history response carries no `fromSelf`, the pass after it requests an id exactly when some unseen history entry has it, whoever sent it, own messages included |
| `ChatDraft.ReceivedEntryIsMarkedRead` | src/pages/cH.js:57-58 | after a push, its id is requested exactly when the payload is unseen or an earlier entry with that id still needs reading |
| `ChatDraft.PutReads` | src/pages/cH.js:118-122 | one PUT per id, in order |
| `ChatDraft.PutReadsSnoc` | src/pages/cH.js:118-122 | one more id adds its PUT at the end |
| `ChatDraft.ChatDraftScreen.constructor` | src/pages/cH.js:23-24 | the screen starts with no messages, empty input and nothing sent |
| `ChatDraft.ChatDraftScreen.Open` | src/pages/cH.js:39-53 | with both users present, the history GET and then `joinRoom(local id)` are issued; otherwise nothing |
| `ChatDraft.ChatDraftScreen.OnHistoryLoaded` | src/pages/cH.js:44-46 | the list becomes the response exactly |
| `ChatDraft.ChatDraftScreen.OnHistoryFailed` | src/pages/cH.js:47-49 | a failed history fetch leaves the list unchanged |
| `ChatDraft.ChatDraftScreen.OnReceiveMessage` | src/pages/cH.js:57-58 | a push appends exactly the whole payload with `fromSelf=false`, an echo of an own message included; earlier entries are unchanged |
| `ChatDraft.ChatDraftScreen.SetInput` | src/pages/cH.js:194 | typing sets the input |
| `ChatDraft.ChatDraftScreen.HandleSendMessage` | src/pages/cH.js:72-100 | blank input is a no-op; otherwise the untrimmed text is POSTed with both ids, and the input is cleared whatever the POST's outcome |
| `ChatDraft.ChatDraftScreen.OnSendSucceeded` | src/pages/cH.js:83-92 | the response is appended as exactly one own entry, then emitted as `sendMessage` |
| `ChatDraft.ChatDraftScreen.OnSendFailed` | src/pages/cH.js:95-97 | a failed POST leaves the list unchanged |
| `ChatDraft.ChatDraftScreen.MarkAsRead` | src/pages/cH.js:102-103 | `markAsRead(id)` issues one PUT for that id |
| `ChatDraft.ChatDraftScreen.OnMarkAsReadSucceeded` | src/pages/cH.js:104-110 | every entry with the id becomes seen; all others and the length are unchanged |
| `ChatDraft.ChatDraftScreen.OnMarkAsReadFailed` | src/pages/cH.js:111-113 | a failed PUT changes nothing |
| `ChatDraft.ChatDraftScreen.AutoRead` | src/pages/cH.js:116-124 | with both users present, one PUT per entry with falsy `fromSelf` and falsy `seen`, in list order; otherwise none |
| `Users.OtherUsers` | src/pages/HomePage.js:50 | a user is kept exactly when they were fetched and their email differs from the current user's |
| `Users.OtherUsersAppend` | src/pages/HomePage.js:50 | the filter works piecewise over concatenation, so kept users stay in their original order |
| `Users.OtherUsersKeepsAll` | src/pages/_Homepage.js:28 | a list without the current user's email passes unchanged |
| `Users.OtherUsersIdempotent` | src/pages/HomePage.js:50 | filtering twice is filtering once |
| `Users.OtherUsersLength` | src/pages/_Homepage.js:28 | nobody is dropped exactly when nobody has the current user's email |
| `Users.ViewOf` | src/pages/HomePage.js:81-201 | without a user, the spinner; while loading, 6 skeleton rows; loaded and empty, the notice; otherwise one card per entry, in list order |
| `HomePage.PreviewOf` | src/pages/HomePage.js:62-66 | a falsy response gives "No messages yet"; a truthy `messageText` gives that text; otherwise the response itself; a text preview is never empty |
| `HomePage.Enrich` | src/pages/HomePage.js:53-68 | `Promise.all` fails exactly when some lookup fails; otherwise each filtered user, in order, gets the preview of its own response |
| `HomePage.LastMessageRequests` | src/pages/HomePage.js:54-60 | one lookup per filtered user, from the local id to that user's id, in order |
| `HomePage.FetchThenView` | src/pages/HomePage.js:53-225 | after an all-successful fetch, the view is the notice if nobody is left, otherwise the cards of the enriched list; the current user's email is among none of them; the cards render (`Renderable`) exactly when no last message is an object without text |
| `HomePage.HomeScreen.constructor` | src/pages/HomePage.js:12-14 | no users listed, loading, nothing requested |
| `HomePage.HomeScreen.FetchUsers` | src/pages/HomePage.js:39-79 | without a user nothing happens; otherwise the list is replaced only when the user fetch and every lookup succeed, and `loadingUsers` ends false either way |
| `HomePage.HomeScreen.View` | src/pages/HomePage.js:81-237 | the screen's view: spinner, 6 skeleton rows, "No users found", or one card per listed user |
| `LegacyHome.LegacyHomeScreen.constructor` | src/pages/_Homepage.js:9-10 | no users listed, loading, nothing requested |
| `LegacyHome.LegacyHomeScreen.FetchUsers` | src/pages/_Homepage.js:23-38 | without a user nothing happens; on success the list is the filtered users; on failure it is unchanged; `loadingUsers` ends false either way |
| `LegacyHome.LegacyHomeScreen.View` | src/pages/_Homepage.js:40-163 | spinner, 6 skeleton rows, "No other users found.", or one card per user |

## Left out

- Sound playback and the page-visibility check (`src/pages/cH.js` lines 28-37, 60-64 and 93) are browser side effects.
- Scrolling to the newest message is a DOM operation.
- Parsing and formatting `createdAt` are locale and clock calls. Whether a message has a valid time is a field of the record (`hasValidTime`), and the time text is not modelled.
- The socket connection, `socket.off` on unmount and React's effect scheduling are not modelled. The caller runs `AutoRead` after each list change, as React re-runs the effect. The server behind the requests and emits is not part of this model.
- `console.error` logging on failures is not modelled; a failure only means "nothing changes".
- Backend records are modelled with fixed fields. A missing `_id`, or a `seen` of another type than boolean, is not represented.
- ChatPage.ChatScreen.OnSendSucceeded, ChatDraft.ChatDraftScreen.OnSendSucceeded: both require both users present. The source's POST callback only exists after `handleSendMessage` has read both ids.
- HomePage.HomeScreen.FetchUsers: takes the outcome of the users request and of every last-message lookup as arguments, aligned with the filtered list. It does not model the order in which the lookups settle. It also does not model a response that is not an array (a `TypeError` caught by the same handler).
- HomePage.PreviewOf: a response body is `null`-like, a string or a message object. Numbers, booleans and arrays as bodies are not modelled.
- HomePage.HomeScreen.View: chooses the cards even when a listed user's preview is `PreviewObject` (a last message that is an object with missing or empty `messageText`). React's render then throws on the object child at `src/pages/HomePage.js` line 225, and with no error boundary (`src/index.js` lines 9-14) the page goes blank instead of showing cards. `HomePage.Renderable` states when the cards render.
- HomePage.FetchThenView: states that the enriched cards are the view; that they actually appear only when `HomePage.Renderable` holds is its last clause, so a last message with empty text blanks the home screen.
- The cards' visual content is not modelled: avatar fallback, name, the empty unread badge of `HomePage.js` and the fixed "Last message preview..." and "3" of `_Homepage.js`.
- The home screen's drawer, email toggle, edit/settings log lines, logout redirect and chat navigation are UI state and routing.
- `src/pages/LoginPage.js`, `src/api/auth.js`, `src/context/UserContext.js`, `src/components/InstallPWA.js`, `src/App.js`, `src/index.js` and the two presentational components are not part of this model.

# Sentro chat client: local state transitions

This project models the part of the Sentro React chat client that can be stated
precisely: the state transitions that the home page (`src/home.js`) and the chat page
(`src/chat.js`) perform when a socket event arrives, an HTTP call completes or the user
acts. Each page is a class whose fields are the page's `useState` values plus an
`outbox`, the sequence of events emitted on the socket so far. Each handler is a method
whose postcondition gives the whole new state in terms of the old one. The updaters that
the handlers pass to `setFriends` and `setFriendRequests` are pure recursive functions
with lemmas about them. These are a `map` that bumps unread counters, a `map` that marks
a friend offline and a `filter` that drops a friend request.

Modules:

- `Entities` (entities.dfy): friends, requests, messages, outbound events, and the
  outcome of an HTTP call, `Response<T> = Ok(body) | NotOk(message) | Threw`. `NotOk`
  stands for a non-2xx response whose JSON body may carry a `message`. `Threw` stands
  for an exception from `fetch` or from parsing the body.
- `FriendList` (friend_list.dfy): the `new-message` and `user-offline` updaters.
- `RequestList` (request_list.dfy): the accept/reject filter.
- `Text` (text.dfy): `String.prototype.trim` as ECMA-262 defines it, which the send
  button's `disabled` test uses.
- `Home` (home.dfy): `HomePage`, with `friends`, `friendRequests`, `error` and `outbox`.
- `Chat` (chat.dfy): `ChatPage`, with the route's `friendId`, `selectedFriendId`,
  `friends`, `messages`, `messageInput`, `error`, `isTyping` and `outbox`.

Each handler is one atomic step. A fetch is split into two parts. Issuing it is not
modelled. Its completion is a method that takes the `Response` as a parameter. The
clock reads (`new Date()`) in `sendMessage` are parameters too.

Behaviour of the code that the model keeps as written:

- The chat page appends every inbound message to the open log, whatever its sender,
  and bumps the sender's unread counter even while that conversation is open
  (src/chat.js:56-64).
- `sendMessage` has no guard for empty or blank input. Only the send button's
  `disabled` attribute checks the trimmed input (src/chat.js:236).
- `user-offline` matches a friend on its `_id` field, not on `id` (src/chat.js:88). The
  model keeps `_id` as a separate, optional field, `docId`.
- Nothing sets a friend's unread counter to zero. The only other write to it is the
  in-place overwrite with the server's count after a history fetch (src/chat.js:115),
  which the model leaves out (see `Chat.ChatPage.FetchMessages` under "## Left out").
- Events that arrive while a fetch is in flight are not buffered. A fetch that completes
  after the user has switched peers is not discarded.
- The typing flag has no timeout and is not reset when the route changes.

## Model

| member | source | states |
|---|---|---|
| `FriendList.BumpNotificationsAt` | src/home.js:66-72 | the `new-message` updater keeps the list's length and order, raises `notifications` by exactly 1 on every entry whose `id` is the sender's, and leaves every other entry unchanged |
| `FriendList.BumpNotificationsNoMatch` | src/home.js:67-71 | when no entry's `id` is the sender's, the list is unchanged |
| `FriendList.BumpNotificationsTotal` | src/home.js:66-72 | the sum of all counters grows by exactly the number of entries that carry the sender's id |
| `FriendList.BumpNotificationsCommute` | src/chat.js:56-62 | two `new-message` events give the same counters in either arrival order |
| `FriendList.MarkOfflineAt` | src/chat.js:86-90 | the `user-offline` updater keeps length and order, sets `isOnline` to false on exactly the entries whose `_id` is the user's, and changes no other field and no other entry |
| `FriendList.MarkOfflineIdempotent` | src/chat.js:86-90 | a repeated `user-offline` for the same user changes nothing more |
| `FriendList.MarkOfflineBumpCommute` | src/chat.js:56-90 | a presence update and a counter bump commute |
| `RequestList.RemoveRequestCounts` | src/home.js:166-168 | the request filter keeps every request whose id differs, with its multiplicity, and drops every request with that id; membership in the result holds iff the request was present and has another id |
| `RequestList.RemoveRequestAppend` | src/home.js:182-184 | the filter distributes over concatenation, so the surviving requests keep their original order |
| `RequestList.RemoveRequestNoMatch` | src/home.js:182-184 | when no request carries the id, the list is unchanged |
| `RequestList.RemoveRequestIdempotent` | src/home.js:182-184 | rejecting the same id twice gives the list that rejecting it once gave |
| `RequestList.RemoveRequestCommute` | src/home.js:166-168 | handling two requests gives the same list in either order |
| `Text.TrimStart` | src/chat.js:236 | the result is a suffix of the input that starts with a non-whitespace character or is empty, and only whitespace was dropped |
| `Text.TrimEnd` | src/chat.js:236 | the result is a prefix of the input that ends with a non-whitespace character or is empty, and only whitespace was dropped |
| `Text.Trim` | src/chat.js:236 | the trimmed text is the slice of the input left after dropping only leading and trailing whitespace (everything before and after it is whitespace), and it neither starts nor ends with whitespace |
| `Text.TrimIsEmptyIff` | src/chat.js:236 | the trimmed text is empty iff every character of the input is whitespace |
| `Home.HomePage.constructor` | src/home.js:21-27 | the page starts with no friends, no requests, no error and nothing emitted |
| `Home.HomePage.OnNewMessage` | src/home.js:63-73 | `friends` becomes the bumped list: same length, the sender's entries gain exactly one unread message, other entries are unchanged; requests, error and outbox are unchanged |
| `Home.HomePage.FetchFriends` | src/home.js:31-55 | a success replaces `friends` and `friendRequests` wholesale with the response's lists and keeps the error; a non-ok response leaves both lists and sets the error to the body's `message`; an exception sets the generic error; nothing is emitted |
| `Home.HomePage.AcceptRequest` | src/home.js:142-175 | on success, exactly one `accept-friend` with `receiverId = friendId` is emitted and the requests with that id are filtered out; on failure nothing is emitted, the requests are unchanged, and the error is the body's non-empty `message` or else the generic text |
| `Home.HomePage.RejectRequest` | src/home.js:177-189 | the requests with that id are filtered out; nothing is emitted and nothing else changes |
| `Chat.ChatPage.constructor` | src/chat.js:12-22 | the page on `/chat/friendId` starts with empty log, input and friend list, no error, no typing flag, no selection and nothing emitted |
| `Chat.ChatPage.Navigate` | src/chat.js:13 | following a friend link changes only the route's `friendId`; the log, typing flag and selection are kept; when the selection was in sync and the route now names another friend, the typing notice is hidden |
| `Chat.ChatPage.SyncSelectedFriend` | src/chat.js:25-27 | `selectedFriendId` becomes the route's friend and nothing else changes; the typing notice then shows exactly `isTyping` |
| `Chat.ChatPage.OnNewMessage` | src/chat.js:54-65 | the message is appended at the end of the log with all earlier messages kept, whatever its sender; the sender's entries gain exactly one unread message and other entries are unchanged |
| `Chat.ChatPage.OnUserTyping` | src/chat.js:67-72 | `isTyping` takes the event's value iff its sender is the route's friend and is unchanged otherwise; with the selection in sync, the notice then shows exactly that value |
| `Chat.ChatPage.OnUserOffline` | src/chat.js:84-91 | entries whose `_id` is the user's go offline; every other field and entry is unchanged |
| `Chat.ChatPage.FetchFriends` | src/chat.js:30-51 | a success replaces the friend list; a non-ok response sets the error to the body's `message`; an exception sets the generic error |
| `Chat.ChatPage.FetchMessages` | src/chat.js:94-126 | a success replaces the log with the fetched history; a non-ok response sets the error to the body's `message`; an exception sets the generic error |
| `Chat.ChatPage.OnInputChange` | src/chat.js:226-229 | the buffer takes the typed text and one `typing: true` event to the open peer is emitted |
| `Chat.ChatPage.OnInputBlur` | src/chat.js:230 | one `typing: false` event to the open peer is emitted and nothing else changes |
| `Chat.ChatPage.SendMessage` | src/chat.js:146-169 | exactly one `sent-message` with the buffer as `message`, the user as sender and the route's friend as receiver is emitted; exactly one message with the buffer as content and the user as sender is appended; the buffer is emptied, the error cleared, and the send button is then disabled |
| `Chat.ChatPage.SendEnabled` | src/chat.js:236 | the send button is enabled iff the input holds a non-whitespace character, that is, iff its trimmed text is non-empty |
| `Chat.TypingFlagOutlivesNavigation` | src/chat.js:196-197 | after the open peer reports typing and the user follows a link to another friend, the notice is hidden while the selection lags the route and shown again once it catches up, because `isTyping` is never reset |

## Left out

- Issuing HTTP calls (URLs, headers, bearer token, JSON encoding) is left out. Only a
  call's completion is modelled, as a `Response` parameter.
- The socket subscription lifecycle is left out: `socket.on`/`socket.off`, re-subscribing
  after each friends fetch, handler stacking and effect dependency arrays. Each handler
  is one atomic step that reads the current state.
- The `user-connected` emits on page mount (src/home.js:58, src/chat.js:92) belong to
  that lifecycle and are not modelled.
- Home.HomePage.OnNewMessage: does not model the `fetchFriends()` call that the handler
  starts before bumping (src/home.js:65). That call's completion is a separate
  `FetchFriends` step.
- Home.HomePage.AcceptRequest: does not model the `fetchFriends()` call after a success
  (src/home.js:169). That call's completion is a separate `FetchFriends` step.
- `new-friend-request` only triggers a friends fetch (src/home.js:60-62). That is again
  a separate `FetchFriends` step.
- Chat.ChatPage.FetchMessages: does not model src/chat.js:111-119. There the page looks
  up the current friend and writes `notifications` on the result before checking it for
  `undefined`. When no friend matches, this throws after the log was replaced, and the
  generic error is set. The same lines set `currentFriendName`, which the model does not
  hold.
- Chat.ChatPage.SendMessage: builds the new log from the state at the time of the call.
  The source reads `messages` through the handler's closure, which can be stale. That
  difference only matters with concurrent updates, which the atomic-step model excludes.
- User search, `handleAddFriend` and logout are left out. `handleAddFriend` parses the
  response body twice (src/home.js:124-134), so its outcome depends on library
  behaviour. Logout uses `localStorage` and `window.location`.
- Audio playback, scrolling to the bottom, the auto-closing `Notification` component
  and `formatDate` are left out, because they depend on the DOM, timers and locale.
- The `unreadMessages`, `searchTerm`, `searchResults`, `notification` and
  `currentFriendName` state is not held in the model.
- src/login.js, src/signup.js and src/App.js (forms and routing) are not part of this
  model.
- Identifiers are strings compared for equality. JavaScript `===` between values of
  different types is not modelled.

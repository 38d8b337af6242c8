/** The values the chat client keeps in its page state, receives from the socket and
    from the HTTP back end, and emits on the socket. */
module Entities {

  /** User, friend and request identifiers; the client compares them with `===`. */
  type Id = string

  datatype Option<+T> = None | Some(value: T)

  /** An entry of the friend list as the back end returns it. `docId` stands for the
      record's `_id` field, which the presence handler matches on instead of `id`; it is
      `None` when the record carries no `_id`. */
  datatype Friend = Friend(id: Id, docId: Option<Id>, name: string, notifications: nat, isOnline: bool)

  /** A pending incoming friend request. */
  datatype Request = Request(id: Id, name: string)

  /** A chat message; `id` is the server-assigned id, absent on a locally sent message. */
  datatype Message = Message(id: Option<Id>, senderId: Id, content: string, createdAt: string)

  /** The socket events the modelled handlers emit, with their payload fields. */
  datatype OutboundEvent =
    | AcceptFriend(receiverId: Id)
    | SentMessage(message: string, date: string, senderId: Id, receiverId: Id)
    | Typing(typing: bool, senderId: Id, receiverId: Id)

  /** The outcome of one HTTP call as a handler sees it: a 2xx response with its parsed
      body, a non-2xx response with the `message` field of its body (`None` when the body
      has none), or an exception thrown by `fetch` or by parsing the body. */
  datatype Response<T> = Ok(body: T) | NotOk(message: Option<string>) | Threw

  /** The body of a successful `/friends` call. */
  datatype FriendsPayload = FriendsPayload(friends: seq<Friend>, requests: seq<Request>)

  /** The text every `catch` block stores in the page's `error` state. */
  const GenericError: string := "An error occurred. Please try again."
}

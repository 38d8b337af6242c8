/** The chat page's local state and the handlers that change it: inbound messages,
    typing and presence events, the friends and history fetches, the input buffer and
    sending, and the two predicates the page renders from. */
module Chat {
  import opened Entities
  import opened FriendList
  import opened Text

  class ChatPage {
    /** The logged-in user. */
    const userId: Id
    /** The `:friendId` route parameter: the open peer. */
    var friendId: Id
    /** Copied from `friendId` by an effect after each render; `None` before the first one. */
    var selectedFriendId: Option<Id>
    var friends: seq<Friend>
    var messages: seq<Message>
    var messageInput: string
    var error: Option<string>
    var isTyping: bool
    /** Every event emitted on the socket so far, oldest first. */
    var outbox: seq<OutboundEvent>

    /** The page mounted on `/chat/friendId`, with its initial `useState` values. */
    constructor (userId: Id, friendId: Id)
      ensures this.userId == userId && this.friendId == friendId && selectedFriendId == None
      ensures friends == [] && messages == [] && messageInput == "" && error == None
      ensures !isTyping && outbox == []
    {
      this.userId := userId;
      this.friendId := friendId;
      selectedFriendId := None;
      friends := [];
      messages := [];
      messageInput := "";
      error := None;
      isTyping := false;
      outbox := [];
    }

    /** Following a friend link while the page stays mounted: only the route parameter
        changes; the log, the typing flag and the selection stay until the effects run. */
    method Navigate(newFriendId: Id)
      modifies this
      ensures friendId == newFriendId
      ensures old(selectedFriendId) == Some(old(friendId)) && newFriendId != old(friendId) ==>
        !TypingNoticeShown()
      ensures selectedFriendId == old(selectedFriendId) && friends == old(friends)
      ensures messages == old(messages) && messageInput == old(messageInput)
      ensures error == old(error) && isTyping == old(isTyping) && outbox == old(outbox)
    {
      friendId := newFriendId;
    }

    /** The effect that copies the route parameter into `selectedFriendId`. */
    method SyncSelectedFriend()
      modifies this
      ensures selectedFriendId == Some(friendId)
      ensures TypingNoticeShown() == isTyping
      ensures friendId == old(friendId) && friends == old(friends)
      ensures messages == old(messages) && messageInput == old(messageInput)
      ensures error == old(error) && isTyping == old(isTyping) && outbox == old(outbox)
    {
      selectedFriendId := Some(friendId);
    }

    /** An inbound `new-message`, whatever its sender: the sender's entries gain one unread
        message and the message is appended to the open log. */
    method OnNewMessage(message: Message)
      modifies this
      ensures friends == BumpNotifications(old(friends), message.senderId)
      ensures |friends| == |old(friends)|
      ensures forall i :: 0 <= i < |friends| && old(friends)[i].id == message.senderId ==>
        friends[i].notifications == old(friends)[i].notifications + 1
      ensures forall i :: 0 <= i < |friends| && old(friends)[i].id != message.senderId ==>
        friends[i] == old(friends)[i]
      ensures messages == old(messages) + [message]
      ensures friendId == old(friendId) && selectedFriendId == old(selectedFriendId)
      ensures messageInput == old(messageInput) && error == old(error)
      ensures isTyping == old(isTyping) && outbox == old(outbox)
    {
      BumpNotificationsAt(friends, message.senderId);
      friends := BumpNotifications(friends, message.senderId);
      messages := messages + [message];
    }

    /** An inbound `user-typing`: taken only when it comes from the open peer. */
    method OnUserTyping(senderId: Id, typing: bool)
      modifies this
      ensures isTyping == if senderId == friendId then typing else old(isTyping)
      ensures senderId == friendId && selectedFriendId == Some(friendId) ==>
        TypingNoticeShown() == typing
      ensures friendId == old(friendId) && selectedFriendId == old(selectedFriendId)
      ensures friends == old(friends) && messages == old(messages)
      ensures messageInput == old(messageInput) && error == old(error) && outbox == old(outbox)
    {
      if senderId == friendId {
        isTyping := typing;
      }
    }

    /** An inbound `user-offline`: entries whose `_id` is the user's go offline. */
    method OnUserOffline(userId: Id)
      modifies this
      ensures friends == MarkOffline(old(friends), userId)
      ensures |friends| == |old(friends)|
      ensures forall i :: 0 <= i < |friends| && old(friends)[i].docId == Some(userId) ==>
        friends[i] == old(friends)[i].(isOnline := false)
      ensures forall i :: 0 <= i < |friends| && old(friends)[i].docId != Some(userId) ==>
        friends[i] == old(friends)[i]
      ensures friendId == old(friendId) && selectedFriendId == old(selectedFriendId)
      ensures messages == old(messages) && messageInput == old(messageInput)
      ensures error == old(error) && isTyping == old(isTyping) && outbox == old(outbox)
    {
      MarkOfflineAt(friends, userId);
      friends := MarkOffline(friends, userId);
    }

    /** The completion of a `/friends` call: a success replaces the friend list, a non-ok
        response stores the server's message, an exception the generic text. */
    method FetchFriends(response: Response<FriendsPayload>)
      modifies this
      ensures friends == if response.Ok? then response.body.friends else old(friends)
      ensures error == match response
                       case Ok(_) => old(error)
                       case NotOk(message) => message
                       case Threw => Some(GenericError)
      ensures friendId == old(friendId) && selectedFriendId == old(selectedFriendId)
      ensures messages == old(messages) && messageInput == old(messageInput)
      ensures isTyping == old(isTyping) && outbox == old(outbox)
    {
      match response
      case Ok(payload) =>
        friends := payload.friends;
      case NotOk(message) =>
        error := message;
      case Threw =>
        error := Some(GenericError);
    }

    /** The completion of a `/getConversation` call: a success replaces the log with the
        fetched history, a non-ok response stores the server's message, an exception the
        generic text. */
    method FetchMessages(response: Response<seq<Message>>)
      modifies this
      ensures messages == if response.Ok? then response.body else old(messages)
      ensures error == match response
                       case Ok(_) => old(error)
                       case NotOk(message) => message
                       case Threw => Some(GenericError)
      ensures friendId == old(friendId) && selectedFriendId == old(selectedFriendId)
      ensures friends == old(friends) && messageInput == old(messageInput)
      ensures isTyping == old(isTyping) && outbox == old(outbox)
    {
      match response
      case Ok(history) =>
        messages := history;
      case NotOk(message) =>
        error := message;
      case Threw =>
        error := Some(GenericError);
    }

    /** A keystroke in the input: the buffer takes the new text and `typing: true` is sent
        to the open peer. */
    method OnInputChange(value: string)
      modifies this
      ensures messageInput == value
      ensures outbox == old(outbox) + [Typing(true, userId, friendId)]
      ensures friendId == old(friendId) && selectedFriendId == old(selectedFriendId)
      ensures friends == old(friends) && messages == old(messages)
      ensures error == old(error) && isTyping == old(isTyping)
    {
      messageInput := value;
      outbox := outbox + [Typing(true, userId, friendId)];
    }

    /** The input losing focus: `typing: false` is sent to the open peer. */
    method OnInputBlur()
      modifies this
      ensures outbox == old(outbox) + [Typing(false, userId, friendId)]
      ensures friendId == old(friendId) && selectedFriendId == old(selectedFriendId)
      ensures friends == old(friends) && messages == old(messages)
      ensures messageInput == old(messageInput) && error == old(error) && isTyping == old(isTyping)
    {
      outbox := outbox + [Typing(false, userId, friendId)];
    }

    /** `sendMessage`, with the two clock readings it takes as parameters. It has no guard
        of its own: it emits one `sent-message` carrying the buffer, appends one message
        with the buffer's text to the log, empties the buffer and clears the error. */
    method SendMessage(sentAt: string, createdAt: string)
      modifies this
      ensures outbox == old(outbox) + [SentMessage(old(messageInput), sentAt, userId, friendId)]
      ensures messages == old(messages) + [Message(None, userId, old(messageInput), createdAt)]
      ensures messageInput == "" && error == None
      ensures !SendEnabled()
      ensures friendId == old(friendId) && selectedFriendId == old(selectedFriendId)
      ensures friends == old(friends) && isTyping == old(isTyping)
    {
      outbox := outbox + [SentMessage(messageInput, sentAt, userId, friendId)];
      var newMessage := Message(None, userId, messageInput, createdAt);
      messages := messages + [newMessage];
      messageInput := "";
      error := None;
      assert !SendEnabled();
    }

    /** The send button is enabled exactly when the buffer holds a non-whitespace character. */
    function SendEnabled(): (enabled: bool)
      reads this
      ensures enabled <==> exists i :: 0 <= i < |messageInput| && !IsWhitespace(messageInput[i])
    {
      TrimIsEmptyIff(messageInput);
      Trim(messageInput) != ""
    }

    /** The typing notice is shown exactly when the peer is typing and the selected friend
        is the route's friend. */
    function TypingNoticeShown(): bool
      reads this
    {
      isTyping && selectedFriendId == Some(friendId)
    }
  }

  /** The typing flag is never reset when the route changes: after the peer `a` reports
      typing and the user follows a link to another friend `b`, the notice is hidden while
      the selection lags the route, and shows again once the selection catches up, though
      no typing event has come from `b`. */
  method TypingFlagOutlivesNavigation(userId: Id, a: Id, b: Id)
    returns (shownBeforeSync: bool, shownAfterSync: bool)
    requires a != b
    ensures !shownBeforeSync && shownAfterSync
  {
    var page := new ChatPage(userId, a);
    page.SyncSelectedFriend();
    page.OnUserTyping(a, true);
    page.Navigate(b);
    shownBeforeSync := page.TypingNoticeShown();
    page.SyncSelectedFriend();
    shownAfterSync := page.TypingNoticeShown();
  }
}

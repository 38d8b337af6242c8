/** The home page's local state and the handlers that change it: the `new-message`
    counter bump, the friends fetch, and accepting or rejecting a friend request. */
module Home {
  import opened Entities
  import opened FriendList
  import opened RequestList

  class HomePage {
    var friends: seq<Friend>
    var friendRequests: seq<Request>
    var error: Option<string>
    /** Every event emitted on the socket so far, oldest first. */
    var outbox: seq<OutboundEvent>

    /** The page's initial `useState` values. */
    constructor ()
      ensures friends == [] && friendRequests == [] && error == None && outbox == []
    {
      friends := [];
      friendRequests := [];
      error := None;
      outbox := [];
    }

    /** An inbound `new-message`: the sender's entries gain one unread message. */
    method OnNewMessage(message: Message)
      modifies this
      ensures friends == BumpNotifications(old(friends), message.senderId)
      ensures |friends| == |old(friends)|
      ensures forall i :: 0 <= i < |friends| && old(friends)[i].id == message.senderId ==>
        friends[i].notifications == old(friends)[i].notifications + 1
      ensures forall i :: 0 <= i < |friends| && old(friends)[i].id != message.senderId ==>
        friends[i] == old(friends)[i]
      ensures friendRequests == old(friendRequests) && error == old(error) && outbox == old(outbox)
    {
      BumpNotificationsAt(friends, message.senderId);
      friends := BumpNotifications(friends, message.senderId);
    }

    /** The completion of a `/friends` call: a success replaces both lists wholesale, a
        non-ok response stores the server's message, an exception the generic text. */
    method FetchFriends(response: Response<FriendsPayload>)
      modifies this
      ensures response.Ok? ==>
        && friends == response.body.friends
        && friendRequests == response.body.requests
        && error == old(error)
      ensures !response.Ok? ==>
        && friends == old(friends)
        && friendRequests == old(friendRequests)
        && error == (if response.NotOk? then response.message else Some(GenericError))
      ensures outbox == old(outbox)
    {
      match response
      case Ok(payload) =>
        friends := payload.friends;
        friendRequests := payload.requests;
      case NotOk(message) =>
        error := message;
      case Threw =>
        error := Some(GenericError);
    }

    /** Accepting the request from `friendId`, given the outcome of its `/acceptFriend`
        call. On success it emits one `accept-friend` and drops the request; a non-ok
        response whose body has a non-empty `message` stores it, any other failure stores
        the generic text, and no failure emits anything or touches the requests. */
    method AcceptRequest(friendId: Id, response: Response<()>)
      modifies this
      ensures response.Ok? ==>
        && outbox == old(outbox) + [AcceptFriend(friendId)]
        && friendRequests == RemoveRequest(old(friendRequests), friendId)
        && error == old(error)
      ensures !response.Ok? ==>
        && outbox == old(outbox)
        && friendRequests == old(friendRequests)
        && error == Some(if response.NotOk? && response.message.Some? && response.message.value != ""
                         then response.message.value else GenericError)
      ensures friends == old(friends)
    {
      match response
      case Ok(_) =>
        outbox := outbox + [AcceptFriend(friendId)];
        friendRequests := RemoveRequest(friendRequests, friendId);
      case NotOk(message) =>
        if message.Some? && message.value != "" {
          error := message;
        } else {
          // `throw new Error(...)`, caught below it
          error := Some(GenericError);
        }
      case Threw =>
        error := Some(GenericError);
    }

    /** Rejecting the request from `friendId`: purely local, nothing is emitted. */
    method RejectRequest(friendId: Id)
      modifies this
      ensures friendRequests == RemoveRequest(old(friendRequests), friendId)
      ensures friends == old(friends) && error == old(error) && outbox == old(outbox)
    {
      friendRequests := RemoveRequest(friendRequests, friendId);
    }
  }
}

/** The pure updaters the pages pass to `setFriends`: each maps one change over the
    friend list, entry by entry, keeping its length and order. */
module FriendList {
  import opened Entities

  /** One entry after a `new-message` from `senderId`. */
  function Bumped(f: Friend, senderId: Id): Friend {
    if f.id == senderId then f.(notifications := f.notifications + 1) else f
  }

  /** The `new-message` updater: `Bumped` mapped over the list. */
  function BumpNotifications(friends: seq<Friend>, senderId: Id): seq<Friend> {
    if friends == [] then []
    else [Bumped(friends[0], senderId)] + BumpNotifications(friends[1..], senderId)
  }

  /** One entry after a `user-offline` for `userId`; the match is on `_id`, not on `id`. */
  function MarkedOffline(f: Friend, userId: Id): Friend {
    if f.docId == Some(userId) then f.(isOnline := false) else f
  }

  /** The `user-offline` updater: `MarkedOffline` mapped over the list. */
  function MarkOffline(friends: seq<Friend>, userId: Id): seq<Friend> {
    if friends == [] then []
    else [MarkedOffline(friends[0], userId)] + MarkOffline(friends[1..], userId)
  }

  /** The sum of all unread counters of a list. */
  function TotalNotifications(friends: seq<Friend>): nat {
    if friends == [] then 0 else friends[0].notifications + TotalNotifications(friends[1..])
  }

  /** How many entries of a list carry `id`. */
  function CountWithId(friends: seq<Friend>, id: Id): nat {
    if friends == [] then 0
    else (if friends[0].id == id then 1 else 0) + CountWithId(friends[1..], id)
  }

  /** A `new-message` keeps the list's length and order, raises the counter of every
      entry whose `id` is the sender's by exactly one and leaves every other entry as it was. */
  lemma {:induction false} BumpNotificationsAt(friends: seq<Friend>, senderId: Id)
    ensures |BumpNotifications(friends, senderId)| == |friends|
    ensures forall i :: 0 <= i < |friends| && friends[i].id == senderId ==>
      BumpNotifications(friends, senderId)[i] == friends[i].(notifications := friends[i].notifications + 1)
    ensures forall i :: 0 <= i < |friends| && friends[i].id != senderId ==>
      BumpNotifications(friends, senderId)[i] == friends[i]
  {
    if friends != [] {
      BumpNotificationsAt(friends[1..], senderId);
      var r := BumpNotifications(friends, senderId);
      assert forall i :: 1 <= i < |friends| ==>
        r[i] == BumpNotifications(friends[1..], senderId)[i - 1] && friends[i] == friends[1..][i - 1];
    }
  }

  /** When no entry carries the sender's id, a `new-message` leaves the list unchanged. */
  lemma {:induction false} BumpNotificationsNoMatch(friends: seq<Friend>, senderId: Id)
    requires forall i :: 0 <= i < |friends| ==> friends[i].id != senderId
    ensures BumpNotifications(friends, senderId) == friends
  {
    BumpNotificationsAt(friends, senderId);
  }

  /** Over the whole list, the unread counters grow by exactly the number of entries
      that carry the sender's id. */
  lemma {:induction false} BumpNotificationsTotal(friends: seq<Friend>, senderId: Id)
    ensures TotalNotifications(BumpNotifications(friends, senderId))
         == TotalNotifications(friends) + CountWithId(friends, senderId)
  {
    if friends != [] {
      BumpNotificationsTotal(friends[1..], senderId);
      var r := BumpNotifications(friends, senderId);
      assert r[0] == Bumped(friends[0], senderId);
      assert r[1..] == BumpNotifications(friends[1..], senderId);
    }
  }

  /** Two `new-message` events yield the same counters in either arrival order. */
  lemma {:induction false} BumpNotificationsCommute(friends: seq<Friend>, a: Id, b: Id)
    ensures BumpNotifications(BumpNotifications(friends, a), b)
         == BumpNotifications(BumpNotifications(friends, b), a)
  {
    if friends != [] {
      BumpNotificationsCommute(friends[1..], a, b);
      var ra := BumpNotifications(friends, a);
      var rb := BumpNotifications(friends, b);
      assert ra[0] == Bumped(friends[0], a) && ra[1..] == BumpNotifications(friends[1..], a);
      assert rb[0] == Bumped(friends[0], b) && rb[1..] == BumpNotifications(friends[1..], b);
    }
  }

  /** A `user-offline` keeps the list's length and order, clears `isOnline` on every entry
      whose `_id` is the user's and leaves every other entry, and every other field, as it was. */
  lemma {:induction false} MarkOfflineAt(friends: seq<Friend>, userId: Id)
    ensures |MarkOffline(friends, userId)| == |friends|
    ensures forall i :: 0 <= i < |friends| && friends[i].docId == Some(userId) ==>
      MarkOffline(friends, userId)[i] == friends[i].(isOnline := false)
    ensures forall i :: 0 <= i < |friends| && friends[i].docId != Some(userId) ==>
      MarkOffline(friends, userId)[i] == friends[i]
  {
    if friends != [] {
      MarkOfflineAt(friends[1..], userId);
      var r := MarkOffline(friends, userId);
      assert forall i :: 1 <= i < |friends| ==>
        r[i] == MarkOffline(friends[1..], userId)[i - 1] && friends[i] == friends[1..][i - 1];
    }
  }

  /** A repeated `user-offline` for the same user changes nothing more. */
  lemma {:induction false} MarkOfflineIdempotent(friends: seq<Friend>, userId: Id)
    ensures MarkOffline(MarkOffline(friends, userId), userId) == MarkOffline(friends, userId)
  {
    if friends != [] {
      MarkOfflineIdempotent(friends[1..], userId);
      var r := MarkOffline(friends, userId);
      assert r[0] == MarkedOffline(friends[0], userId) && r[1..] == MarkOffline(friends[1..], userId);
    }
  }

  /** A presence event and a message event give the same list in either arrival order. */
  lemma {:induction false} MarkOfflineBumpCommute(friends: seq<Friend>, userId: Id, senderId: Id)
    ensures MarkOffline(BumpNotifications(friends, senderId), userId)
         == BumpNotifications(MarkOffline(friends, userId), senderId)
  {
    if friends != [] {
      MarkOfflineBumpCommute(friends[1..], userId, senderId);
      var rb := BumpNotifications(friends, senderId);
      var rm := MarkOffline(friends, userId);
      assert rb[0] == Bumped(friends[0], senderId) && rb[1..] == BumpNotifications(friends[1..], senderId);
      assert rm[0] == MarkedOffline(friends[0], userId) && rm[1..] == MarkOffline(friends[1..], userId);
    }
  }
}

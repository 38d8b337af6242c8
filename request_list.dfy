/** The pure updater the home page passes to `setFriendRequests` when a request is
    accepted or rejected: a filter that drops every request carrying one id. */
module RequestList {
  import opened Entities

  /** `requests.filter(request => request.id !== id)`. */
  function RemoveRequest(requests: seq<Request>, id: Id): seq<Request> {
    if requests == [] then []
    else if requests[0].id != id then [requests[0]] + RemoveRequest(requests[1..], id)
    else RemoveRequest(requests[1..], id)
  }

  /** Removal drops every occurrence of every request with that id and keeps every other
      request with its multiplicity. */
  lemma {:induction false} RemoveRequestCounts(requests: seq<Request>, id: Id)
    ensures forall x :: multiset(RemoveRequest(requests, id))[x]
                     == if x.id == id then 0 else multiset(requests)[x]
    ensures forall x :: x in RemoveRequest(requests, id) <==> x in requests && x.id != id
  {
    if requests != [] {
      RemoveRequestCounts(requests[1..], id);
      assert requests == [requests[0]] + requests[1..];
      assert multiset(requests) == multiset{requests[0]} + multiset(requests[1..]);
    }
  }

  /** Removal works piecewise: the result on `a + b` is the result on `a` followed by the
      result on `b`, so the surviving requests keep their original order. */
  lemma {:induction false} RemoveRequestAppend(a: seq<Request>, b: seq<Request>, id: Id)
    ensures RemoveRequest(a + b, id) == RemoveRequest(a, id) + RemoveRequest(b, id)
  {
    if a != [] {
      RemoveRequestAppend(a[1..], b, id);
      assert (a + b)[0] == a[0] && (a + b)[1..] == a[1..] + b;
    } else {
      assert a + b == b;
    }
  }

  /** When no request carries the id, the list is unchanged. */
  lemma {:induction false} RemoveRequestNoMatch(requests: seq<Request>, id: Id)
    requires forall i :: 0 <= i < |requests| ==> requests[i].id != id
    ensures RemoveRequest(requests, id) == requests
  {
    if requests != [] {
      RemoveRequestNoMatch(requests[1..], id);
      assert requests == [requests[0]] + requests[1..];
    }
  }

  /** Removing the same id twice (a second reject, or an accept after a reject) gives the
      list that removing it once gave. */
  lemma {:induction false} RemoveRequestIdempotent(requests: seq<Request>, id: Id)
    ensures RemoveRequest(RemoveRequest(requests, id), id) == RemoveRequest(requests, id)
  {
    if requests != [] {
      RemoveRequestIdempotent(requests[1..], id);
      if requests[0].id != id {
        var r := RemoveRequest(requests, id);
        assert r[0] == requests[0] && r[1..] == RemoveRequest(requests[1..], id);
      }
    }
  }

  /** Handling two requests gives the same list in either order. */
  lemma {:induction false} RemoveRequestCommute(requests: seq<Request>, a: Id, b: Id)
    ensures RemoveRequest(RemoveRequest(requests, a), b) == RemoveRequest(RemoveRequest(requests, b), a)
  {
    if requests != [] {
      RemoveRequestCommute(requests[1..], a, b);
      var ra := RemoveRequest(requests, a);
      var rb := RemoveRequest(requests, b);
      if requests[0].id != a {
        assert ra[0] == requests[0] && ra[1..] == RemoveRequest(requests[1..], a);
      }
      if requests[0].id != b {
        assert rb[0] == requests[0] && rb[1..] == RemoveRequest(requests[1..], b);
      }
    }
  }
}

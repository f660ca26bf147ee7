/** What each call of the friends service does to one request and one friendship. */
module FriendEffects {
  import opened Ordering
  import opened Friends

  /** The request is there with this sender, receiver and status. */
  predicate IsThere(s: State, id: string, sender: string, receiver: string, status: Status) {
    id in s.requests && s.requests[id] == Request(sender, receiver, status)
  }

  /** Every other request is as it was. */
  predicate OthersStay(s: State, t: State, id: string) {
    t.requests - {id} == s.requests - {id}
  }

  /** A request to oneself is refused. Any other is pending afterwards, under the id it had or,
      if there was none, the new one, unless that is taken; nothing else changes. */
  lemma SendEffect(s: State, sender: string, receiver: string, newId: string)
    requires ProperRequests(s.requests)
    ensures var (t, reply) := Sent(s, sender, receiver, newId);
            && t.friends == s.friends
            && (sender == receiver ==> t == s && reply == SelfRequest)
            && (sender != receiver ==>
                  match reply
                  case Done(id) =>
                    && IsThere(t, id, sender, receiver, Pending) && OthersStay(s, t, id)
                    && (if id in s.requests then s.requests[id].sender == sender && s.requests[id].receiver == receiver
                        else id == newId)
                    && forall i | i in s.requests && s.requests[i].sender == sender
                                  && s.requests[i].receiver == receiver :: i == id
                  case Failed => t == s && newId in s.requests
                                 && forall i | i in s.requests ::
                                      s.requests[i].sender != sender || s.requests[i].receiver != receiver
                  case _ => false)
  {
    assert forall i | i in s.requests && Between(s.requests[i], sender, receiver) :: i in Matching(s, sender, receiver);
  }

  /** The receiver of a pending request, and nobody else, accepts it; the two are friends then,
      and no other friendship changes. */
  lemma AcceptEffect(s: State, id: string, user: string)
    requires Proper(s)
    ensures var (t, reply) := AcceptedBy(s, id, user);
            if id in s.requests && s.requests[id].receiver == user && s.requests[id].status == Pending
            then
              var sender := s.requests[id].sender;
              && reply == Done(sender) && IsThere(t, id, sender, user, Accepted) && OthersStay(s, t, id)
              && sender in FriendsOf(t.friends, user) && user in FriendsOf(t.friends, sender)
              && (forall a, b | {a, b} != {sender, user} ::
                    b in FriendsOf(t.friends, a) <==> b in FriendsOf(s.friends, a))
            else t == s && reply == NotFound
  {
    var t := AcceptedBy(s, id, user).0;
    if Receives(s, id, user) {
      var sender := s.requests[id].sender;
      AcceptKeeps(s, id, user);
      forall a, b
        ensures b in FriendsOf(t.friends, a) <==> a != b && Pair(a, b) in t.friends
        ensures b in FriendsOf(s.friends, a) <==> a != b && Pair(a, b) in s.friends
        ensures {a, b} != {sender, user} ==> Pair(a, b) != Pair(sender, user)
      {
        FriendshipIsSymmetric(t.friends, a, b);
        FriendshipIsSymmetric(s.friends, a, b);
        if Pair(a, b) == Pair(sender, user) {
          SamePair(a, b, sender, user);
        }
      }
      PairIsSymmetric(sender, user);
    }
  }

  /** The receiver of a pending request, and nobody else, declines it; nobody can accept it then,
      and friendships do not change. */
  lemma DeclineEffect(s: State, id: string, user: string, other: string)
    ensures var (t, reply) := DeclinedBy(s, id, user);
            if id in s.requests && s.requests[id].receiver == user && s.requests[id].status == Pending
            then
              && reply == Done(id) && IsThere(t, id, s.requests[id].sender, user, Declined)
              && OthersStay(s, t, id) && t.friends == s.friends
              && AcceptedBy(t, id, other) == (t, NotFound) && CancelledBy(t, id, other) == (t, NotFound)
            else t == s && reply == NotFound
  {
  }

  /** The sender of a pending request, and nobody else, cancels it; it is gone then, and
      friendships do not change. */
  lemma CancelEffect(s: State, id: string, user: string, other: string)
    ensures var (t, reply) := CancelledBy(s, id, user);
            if id in s.requests && s.requests[id].sender == user && s.requests[id].status == Pending
            then
              && reply == Done(id) && id !in t.requests && OthersStay(s, t, id) && t.friends == s.friends
              && AcceptedBy(t, id, other) == (t, NotFound)
            else t == s && reply == NotFound
  {
  }

  /** The two are no friends any more, in either argument order; every other friendship and all
      requests stay. */
  lemma UnfriendEffect(s: State, a: string, b: string)
    requires Ordered(s.friends)
    ensures var t := Unfriended(s, a, b);
            && t.requests == s.requests && t == Unfriended(s, b, a)
            && b !in FriendsOf(t.friends, a) && a !in FriendsOf(t.friends, b)
            && forall c, d | {c, d} != {a, b} :: d in FriendsOf(t.friends, c) <==> d in FriendsOf(s.friends, c)
  {
    var t := Unfriended(s, a, b);
    PairIsSymmetric(a, b);
    forall c, d
      ensures d in FriendsOf(t.friends, c) <==> c != d && Pair(c, d) in t.friends
      ensures d in FriendsOf(s.friends, c) <==> c != d && Pair(c, d) in s.friends
      ensures {c, d} != {a, b} ==> Pair(c, d) != Pair(a, b)
    {
      FriendshipIsSymmetric(t.friends, c, d);
      FriendshipIsSymmetric(s.friends, c, d);
      if Pair(c, d) == Pair(a, b) {
        SamePair(c, d, a, b);
      }
    }
  }
}

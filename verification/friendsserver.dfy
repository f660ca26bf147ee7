/** The friends service's calls as they are carried out on the two tables in place. */
module FriendsServer {
  import opened Ordering
  import opened Friends

  /** One entry for every row of the user, in some order of the rows. */
  ghost predicate Lists(resp: seq<string>, friends: set<Row>, user: string) {
    exists order: seq<Row> :: Enumerates(order, RowsOf(friends, user)) && IsOthers(resp, order, user)
  }

  ghost predicate Enumerates(order: seq<Row>, rows: set<Row>) {
    && (forall row :: row in order <==> row in rows)
    && forall i, j | 0 <= i < j < |order| :: order[i] != order[j]
  }

  predicate IsOthers(resp: seq<string>, order: seq<Row>, user: string) {
    |resp| == |order| && forall i | 0 <= i < |order| :: resp[i] == Other(order[i], user)
  }

  /** Over ordered rows the list names every friend, and names none twice. */
  lemma ListsWithoutRepeats(resp: seq<string>, friends: set<Row>, user: string)
    requires Ordered(friends) && Lists(resp, friends, user)
    ensures forall u :: u in resp <==> u in FriendsOf(friends, user)
    ensures forall i, j | 0 <= i < j < |resp| :: resp[i] != resp[j]
  {
    var order :| Enumerates(order, RowsOf(friends, user)) && IsOthers(resp, order, user);
    forall u
      ensures u in resp <==> u in FriendsOf(friends, user)
    {
      if u in resp {
        var i :| 0 <= i < |resp| && resp[i] == u;
        assert order[i] in RowsOf(friends, user);
      }
      if u in FriendsOf(friends, user) {
        var row :| row in RowsOf(friends, user) && Other(row, user) == u;
        var i :| 0 <= i < |order| && order[i] == row;
        assert resp[i] == u;
      }
    }
    forall i, j | 0 <= i < j < |resp|
      ensures resp[i] != resp[j]
    {
      assert order[i] in RowsOf(friends, user) && order[j] in RowsOf(friends, user);
      OrderedRowsDiffer(order[i], order[j], user);
    }
  }

  /** Two ordered rows of one user with the same other side are one row. */
  lemma OrderedRowsDiffer(p: Row, q: Row, user: string)
    requires Less(p.0, p.1) && Less(q.0, q.1) && p != q
    requires (p.0 == user || p.1 == user) && (q.0 == user || q.1 == user)
    ensures Other(p, user) != Other(q, user)
  {
    LessIsTotal(p.0, p.1);
    LessIsTotal(q.0, q.1);
  }

  method ReadFriends(friends: set<Row>, user: string) returns (resp: seq<string>)
    ensures Lists(resp, friends, user)
  {
    resp := [];
    var todo := RowsOf(friends, user);
    ghost var order: seq<Row> := [];
    while todo != {}
      invariant todo <= RowsOf(friends, user)
      invariant Enumerates(order, RowsOf(friends, user) - todo) && IsOthers(resp, order, user)
    {
      var row :| row in todo;
      resp := resp + [Other(row, user)];
      order := order + [row];
      todo := todo - {row};
    }
  }

  /** The unique index on sender and receiver. */
  method FindRequest(requests: map<string, Request>, sender: string, receiver: string)
    returns (found: bool, id: string)
    ensures found ==> id in requests && Between(requests[id], sender, receiver)
    ensures !found ==> forall i | i in requests :: !Between(requests[i], sender, receiver)
  {
    var todo := requests.Keys;
    while todo != {}
      invariant todo <= requests.Keys
      invariant forall i | i in requests.Keys - todo :: !Between(requests[i], sender, receiver)
    {
      id :| id in todo;
      if Between(requests[id], sender, receiver) {
        return true, id;
      }
      todo := todo - {id};
    }
    return false, "";
  }

  class Service {
    var requests: map<string, Request>
    var friends: set<Row>

    ghost function Contents(): State
      reads this
    {
      State(requests, friends)
    }

    constructor ()
      ensures Contents() == EMPTY
    {
      requests, friends := map[], {};
    }

    method SendFriendRequest(sender: string, receiver: string, newId: string) returns (reply: Reply)
      requires ProperRequests(requests)
      modifies this`requests
      ensures (Contents(), reply) == Sent(old(Contents()), sender, receiver, newId)
    {
      if sender == receiver {
        return SelfRequest;
      }
      var found, id := FindRequest(requests, sender, receiver);
      if found {
        OnlyMatch(Contents(), id);
        requests := requests[id := requests[id].(status := Pending)];
        return Done(id);
      }
      assert Matching(Contents(), sender, receiver) == {};
      if newId in requests {
        return Failed;
      }
      requests := requests[newId := Request(sender, receiver, Pending)];
      return Done(newId);
    }

    method AcceptFriendRequest(id: string, user: string) returns (reply: Reply)
      modifies this
      ensures (Contents(), reply) == AcceptedBy(old(Contents()), id, user)
    {
      if id !in requests || requests[id].receiver != user || requests[id].status != Pending {
        return NotFound;
      }
      var sender := requests[id].sender;
      requests := requests[id := requests[id].(status := Accepted)];
      var u1, u2 := sender, user;
      if Less(u2, u1) {
        u1, u2 := u2, u1;
      }
      friends := friends + {(u1, u2)};
      return Done(sender);
    }

    method DeclineFriendRequest(id: string, user: string) returns (reply: Reply)
      modifies this`requests
      ensures (Contents(), reply) == DeclinedBy(old(Contents()), id, user)
    {
      if id !in requests || requests[id].receiver != user || requests[id].status != Pending {
        return NotFound;
      }
      requests := requests[id := requests[id].(status := Declined)];
      return Done(id);
    }

    method CancelFriendRequest(id: string, user: string) returns (reply: Reply)
      modifies this`requests
      ensures (Contents(), reply) == CancelledBy(old(Contents()), id, user)
    {
      if id !in requests || requests[id].sender != user || requests[id].status != Pending {
        return NotFound;
      }
      requests := requests - {id};
      return Done(id);
    }

    method DeleteFriend(userId1: string, userId2: string)
      modifies this`friends
      ensures Contents() == Unfriended(old(Contents()), userId1, userId2)
    {
      var u1, u2 := userId1, userId2;
      if Less(u2, u1) {
        u1, u2 := u2, u1;
      }
      friends := friends - {(u1, u2)};
    }

    method GetFriends(user: string) returns (resp: seq<string>)
      ensures Lists(resp, friends, user)
    {
      resp := ReadFriends(friends, user);
    }
  }

  lemma OnlyMatch(s: State, id: string)
    requires ProperRequests(s.requests) && id in s.requests
    ensures Matching(s, s.requests[id].sender, s.requests[id].receiver) == {id}
  {
  }
}

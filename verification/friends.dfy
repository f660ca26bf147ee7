/** The friends service: requests between two users, and the friendships they lead to. */
module Friends {
  import opened Ordering

  datatype Status = Pending | Accepted | Declined

  datatype Request = Request(sender: string, receiver: string, status: Status)

  /** A friendship is one row, the smaller identifier first. */
  type Row = (string, string)

  datatype State = State(requests: map<string, Request>, friends: set<Row>)

  const EMPTY := State(map[], {})

  datatype Reply = Done(id: string) | SelfRequest | NotFound | Failed

  // ---------- The calls ----------

  predicate Between(r: Request, sender: string, receiver: string) {
    r.sender == sender && r.receiver == receiver
  }

  function Matching(s: State, sender: string, receiver: string): set<string> {
    set id | id in s.requests && Between(s.requests[id], sender, receiver)
  }

  function WithStatus(s: State, id: string, status: Status): State
    requires id in s.requests
  {
    s.(requests := s.requests[id := s.requests[id].(status := status)])
  }

  /** A request that is there already becomes pending again under its old id; a new one is
      refused only if its id is taken. The source looks for an existing friendship first, but
      by a column that the table of friendships does not have: the lookup always fails, and
      friends are not refused. */
  ghost function Sent(s: State, sender: string, receiver: string, newId: string): (State, Reply) {
    if sender == receiver then (s, SelfRequest)
    else if Matching(s, sender, receiver) != {} then
      var id :| id in Matching(s, sender, receiver);
      (WithStatus(s, id, Pending), Done(id))
    else if newId in s.requests then (s, Failed)
    else (s.(requests := s.requests[newId := Request(sender, receiver, Pending)]), Done(newId))
  }

  predicate Receives(s: State, id: string, user: string) {
    id in s.requests && s.requests[id].receiver == user && s.requests[id].status == Pending
  }

  predicate Awaits(s: State, id: string, user: string) {
    id in s.requests && s.requests[id].sender == user && s.requests[id].status == Pending
  }

  function AcceptedBy(s: State, id: string, user: string): (State, Reply) {
    if !Receives(s, id, user) then (s, NotFound)
    else
      var sender := s.requests[id].sender;
      (WithStatus(s, id, Accepted).(friends := s.friends + {Pair(sender, user)}), Done(sender))
  }

  function DeclinedBy(s: State, id: string, user: string): (State, Reply) {
    if Receives(s, id, user) then (WithStatus(s, id, Declined), Done(id)) else (s, NotFound)
  }

  function CancelledBy(s: State, id: string, user: string): (State, Reply) {
    if Awaits(s, id, user) then (s.(requests := s.requests - {id}), Done(id)) else (s, NotFound)
  }

  function Unfriended(s: State, a: string, b: string): State {
    s.(friends := s.friends - {Pair(a, b)})
  }

  /** The other side of a row. */
  function Other(row: Row, user: string): string {
    if row.0 == user then row.1 else row.0
  }

  function RowsOf(friends: set<Row>, user: string): set<Row> {
    set row | row in friends && (row.0 == user || row.1 == user)
  }

  function FriendsOf(friends: set<Row>, user: string): set<string> {
    set row | row in RowsOf(friends, user) :: Other(row, user)
  }

  // ---------- What every call keeps ----------

  predicate Ordered(friends: set<Row>) {
    forall row | row in friends :: Less(row.0, row.1)
  }

  /** Nobody asks oneself, and nobody has two requests to the same receiver. */
  ghost predicate ProperRequests(requests: map<string, Request>) {
    && (forall id | id in requests :: requests[id].sender != requests[id].receiver)
    && (forall i, j | i in requests && j in requests
                      && Between(requests[i], requests[j].sender, requests[j].receiver) :: i == j)
  }

  predicate AcceptedFor(s: State, id: string, row: Row) {
    && id in s.requests && s.requests[id].status == Accepted
    && Pair(s.requests[id].sender, s.requests[id].receiver) == row
  }

  /** Behind every friendship there is an accepted request, from one side or the other. */
  ghost predicate Earned(s: State) {
    forall row | row in s.friends :: exists id :: AcceptedFor(s, id, row)
  }

  ghost predicate Proper(s: State) {
    Ordered(s.friends) && ProperRequests(s.requests)
  }

  /** An accepted request from one to the other. */
  ghost predicate HasAccepted(s: State, sender: string, receiver: string) {
    exists id :: id in s.requests && Between(s.requests[id], sender, receiver) && s.requests[id].status == Accepted
  }

  /** Sending does not reopen the only accepted request behind a friendship. */
  ghost predicate Harmless(s: State, sender: string, receiver: string) {
    || sender == receiver || Pair(sender, receiver) !in s.friends
    || !HasAccepted(s, sender, receiver) || HasAccepted(s, receiver, sender)
  }

  lemma SendKeeps(s: State, sender: string, receiver: string, newId: string)
    requires Proper(s)
    ensures Proper(Sent(s, sender, receiver, newId).0)
  {
    hide Less, Pair;
    assert forall id | id in s.requests && Between(s.requests[id], sender, receiver) ::
        id in Matching(s, sender, receiver);
  }

  /** The call reopens at most its own request. */
  lemma SentAccepted(s: State, sender: string, receiver: string, newId: string, id: string, row: Row)
    requires Proper(s)
    ensures AcceptedFor(Sent(s, sender, receiver, newId).0, id, row)
       <==> AcceptedFor(s, id, row) && (sender == receiver || !Between(s.requests[id], sender, receiver))
  {
    hide Less, Pair;
    assert forall i | i in s.requests && Between(s.requests[i], sender, receiver) ::
        i in Matching(s, sender, receiver);
  }

  lemma HarmlessSendKeepsEarned(s: State, sender: string, receiver: string, newId: string)
    requires Proper(s) && Earned(s) && Harmless(s, sender, receiver)
    ensures Earned(Sent(s, sender, receiver, newId).0)
  {
    hide Less, Pair, Matching;
    var t := Sent(s, sender, receiver, newId).0;
    forall row | row in t.friends
      ensures exists id :: AcceptedFor(t, id, row)
    {
      var id :| AcceptedFor(s, id, row);
      SentAccepted(s, sender, receiver, newId, id, row);
      if sender != receiver && Between(s.requests[id], sender, receiver) {
        var other :| other in s.requests && Between(s.requests[other], receiver, sender)
                     && s.requests[other].status == Accepted;
        PairIsSymmetric(sender, receiver);
        SentAccepted(s, sender, receiver, newId, other, row);
      }
    }
  }

  lemma HarmfulSendUnearns(s: State, sender: string, receiver: string, newId: string)
    requires Proper(s) && !Harmless(s, sender, receiver)
    ensures !Earned(Sent(s, sender, receiver, newId).0)
  {
    hide Less, Pair, Matching;
    var t, row := Sent(s, sender, receiver, newId).0, Pair(sender, receiver);
    forall id
      ensures !AcceptedFor(t, id, row)
    {
      SentAccepted(s, sender, receiver, newId, id, row);
      if AcceptedFor(s, id, row) {
        SamePair(s.requests[id].sender, s.requests[id].receiver, sender, receiver);
      }
    }
    assert row in t.friends;
  }

  lemma AcceptKeeps(s: State, id: string, user: string)
    requires Proper(s)
    ensures var t := AcceptedBy(s, id, user).0; Proper(t) && (Earned(s) ==> Earned(t))
  {
    hide Less, Pair;
    var t := AcceptedBy(s, id, user).0;
    if Receives(s, id, user) {
      PairIsSymmetric(s.requests[id].sender, user);
      assert AcceptedFor(t, id, Pair(s.requests[id].sender, user));
      if Earned(s) {
        forall row | row in s.friends
          ensures exists i :: AcceptedFor(t, i, row)
        {
          var i :| AcceptedFor(s, i, row);
          assert AcceptedFor(t, i, row);
        }
      }
    }
  }

  /** Requests that were accepted stay as they are, and no row is new. */
  lemma KeepsEarned(s: State, t: State)
    requires Earned(s) && t.friends <= s.friends
    requires forall id | id in s.requests && s.requests[id].status == Accepted ::
               id in t.requests && t.requests[id] == s.requests[id]
    ensures Earned(t)
  {
    forall row | row in t.friends
      ensures exists i :: AcceptedFor(t, i, row)
    {
      var i :| AcceptedFor(s, i, row);
      assert AcceptedFor(t, i, row);
    }
  }

  /** Declining and cancelling touch pending requests only. */
  lemma SettlingKeeps(s: State, id: string, user: string)
    requires Proper(s)
    ensures Proper(DeclinedBy(s, id, user).0) && Proper(CancelledBy(s, id, user).0)
    ensures Earned(s) ==> Earned(DeclinedBy(s, id, user).0) && Earned(CancelledBy(s, id, user).0)
  {
    hide Less, Pair, Earned;
    if Earned(s) {
      KeepsEarned(s, DeclinedBy(s, id, user).0);
      KeepsEarned(s, CancelledBy(s, id, user).0);
    }
  }

  lemma UnfriendKeeps(s: State, a: string, b: string)
    requires Proper(s)
    ensures Proper(Unfriended(s, a, b)) && (Earned(s) ==> Earned(Unfriended(s, a, b)))
  {
    hide Less, Pair, Earned;
    if Earned(s) {
      KeepsEarned(s, Unfriended(s, a, b));
    }
  }

  // ---------- Runs ----------

  datatype Op =
    | Send(sender: string, receiver: string, newId: string)
    | Accept(id: string, user: string)
    | Decline(id: string, user: string)
    | Cancel(id: string, user: string)
    | Unfriend(a: string, b: string)

  ghost function Step(s: State, op: Op): State {
    match op
    case Send(sender, receiver, newId) => Sent(s, sender, receiver, newId).0
    case Accept(id, user) => AcceptedBy(s, id, user).0
    case Decline(id, user) => DeclinedBy(s, id, user).0
    case Cancel(id, user) => CancelledBy(s, id, user).0
    case Unfriend(a, b) => Unfriended(s, a, b)
  }

  ghost function Exec(ops: seq<Op>): State {
    if ops == [] then EMPTY else Step(Exec(ops[..|ops| - 1]), ops[|ops| - 1])
  }

  lemma StepKeeps(s: State, op: Op)
    requires Proper(s)
    ensures Proper(Step(s, op))
    ensures Earned(s) ==> (Earned(Step(s, op)) <==> (op.Send? ==> Harmless(s, op.sender, op.receiver)))
  {
    hide Proper, Earned, Harmless, Sent, AcceptedBy, DeclinedBy, CancelledBy, Unfriended;
    match op
    case Send(sender, receiver, newId) =>
      SendKeeps(s, sender, receiver, newId);
      if Harmless(s, sender, receiver) {
        if Earned(s) {
          HarmlessSendKeepsEarned(s, sender, receiver, newId);
        }
      } else {
        HarmfulSendUnearns(s, sender, receiver, newId);
      }
    case Accept(id, user) => AcceptKeeps(s, id, user);
    case Decline(id, user) => SettlingKeeps(s, id, user);
    case Cancel(id, user) => SettlingKeeps(s, id, user);
    case Unfriend(a, b) => UnfriendKeeps(s, a, b);
  }

  /** In every run rows are strictly ordered pairs, and nobody has two requests to one
      receiver or one to oneself. */
  lemma {:induction false} AlwaysProper(ops: seq<Op>)
    ensures Proper(Exec(ops))
  {
    hide Step;
    if ops != [] {
      AlwaysProper(ops[..|ops| - 1]);
      StepKeeps(Exec(ops[..|ops| - 1]), ops[|ops| - 1]);
    }
  }

  /** Every friendship had an accepted request behind it all along. */
  ghost predicate EarnedThroughout(ops: seq<Op>) {
    Earned(Exec(ops)) && (ops != [] ==> EarnedThroughout(ops[..|ops| - 1]))
  }

  ghost predicate HarmlessRun(ops: seq<Op>) {
    ops != [] ==>
      var before, op := ops[..|ops| - 1], ops[|ops| - 1];
      HarmlessRun(before) && (op.Send? ==> Harmless(Exec(before), op.sender, op.receiver))
  }

  /** Friendships stay earned throughout a run exactly when every request in it is sent while
      the two are no friends, or the sender has no accepted request to the receiver, or the
      receiver has one to the sender. */
  lemma {:induction false} EarnedIffHarmless(ops: seq<Op>)
    ensures EarnedThroughout(ops) <==> HarmlessRun(ops)
  {
    hide Step, Earned, Harmless, Proper;
    if ops == [] {
      NobodyIsFriends();
    } else {
      var before := ops[..|ops| - 1];
      EarnedIffHarmless(before);
      AlwaysProper(before);
      StepKeeps(Exec(before), ops[|ops| - 1]);
    }
  }

  lemma NobodyIsFriends()
    ensures Earned(EMPTY)
  {
  }

  /** A friend asks again. */
  const RESEND := [Send("a", "b", "1"), Accept("1", "b"), Send("a", "b", "2")]

  /** The accepted request is pending again and the friendship is still there. */
  lemma ResendUnearns()
    ensures Exec(RESEND).friends == {("a", "b")}
    ensures Exec(RESEND).requests == map["1" := Request("a", "b", Pending)]
    ensures !Earned(Exec(RESEND)) && Earned(Exec(RESEND[..2])) && !HarmlessRun(RESEND)
  {
    var asked := Request("a", "b", Pending);
    assert Pair("a", "b") == ("a", "b");
    assert RESEND[..2][..1] == RESEND[..1] && RESEND[..1][..0] == [];
    assert Exec(RESEND[..0]) == EMPTY;
    assert Exec(RESEND[..1]) == State(map["1" := asked], {});
    var two := Exec(RESEND[..2]);
    assert two == State(map["1" := asked.(status := Accepted)], {("a", "b")});
    assert AcceptedFor(two, "1", ("a", "b"));
    assert "1" in Matching(two, "a", "b");
    assert Exec(RESEND) == Sent(two, "a", "b", "2").0;
    assert ("a", "b") in Exec(RESEND).friends;
    assert forall id :: !AcceptedFor(Exec(RESEND), id, ("a", "b"));
    AlwaysProper(RESEND[..2]);
    StepKeeps(two, RESEND[2]);
  }

  /** Over ordered rows friendship is symmetric, and nobody is one's own friend. */
  lemma FriendshipIsSymmetric(friends: set<Row>, a: string, b: string)
    requires Ordered(friends)
    ensures b in FriendsOf(friends, a) <==> a in FriendsOf(friends, b)
    ensures b in FriendsOf(friends, a) <==> a != b && Pair(a, b) in friends
  {
    LessIsTotal(a, b);
    LessIsTotal(b, a);
    if b in FriendsOf(friends, a) {
      var row :| row in RowsOf(friends, a) && Other(row, a) == b;
      LessIsTotal(row.0, row.1);
      assert row in RowsOf(friends, b) && Other(row, b) == a;
    }
    if a in FriendsOf(friends, b) {
      var row :| row in RowsOf(friends, b) && Other(row, b) == a;
      LessIsTotal(row.0, row.1);
      assert row in RowsOf(friends, a) && Other(row, a) == b;
    }
    if a != b && Pair(a, b) in friends {
      assert Pair(a, b) in RowsOf(friends, a) && Other(Pair(a, b), a) == b;
    }
  }

  // ---------- What made two users friends ----------

  /** The call is the acceptance of a pending request between the two. */
  predicate Joins(s: State, op: Op, row: Row) {
    op.Accept? && Receives(s, op.id, op.user) && Pair(s.requests[op.id].sender, op.user) == row
  }

  predicate Parts(op: Op, row: Row) {
    op.Unfriend? && Pair(op.a, op.b) == row
  }

  /** Call `i` made the friendship and nothing has ended it since. */
  ghost predicate MadeBy(ops: seq<Op>, i: nat, row: Row) {
    && i < |ops| && Joins(Exec(ops[..i]), ops[i], row)
    && forall j | i < j < |ops| :: !Parts(ops[j], row)
  }

  lemma StepAndRow(s: State, op: Op, row: Row)
    ensures row in Step(s, op).friends <==> Joins(s, op, row) || (row in s.friends && !Parts(op, row))
  {
    hide Less, Pair;
  }

  /** Two users are friends exactly when one accepted a pending request of the other and
      neither has ended the friendship since. */
  lemma {:induction false} FriendsIffAcceptedSince(ops: seq<Op>, row: Row)
    ensures row in Exec(ops).friends <==> exists i: nat :: MadeBy(ops, i, row)
  {
    hide Step, Joins, Parts, Pair;
    if ops != [] {
      var before, n := ops[..|ops| - 1], |ops| - 1;
      FriendsIffAcceptedSince(before, row);
      StepAndRow(Exec(before), ops[n], row);
      assert forall i | 0 <= i < n :: before[..i] == ops[..i];
      if row in Exec(ops).friends {
        if Joins(Exec(before), ops[n], row) {
          assert MadeBy(ops, n, row);
        } else {
          var i: nat :| MadeBy(before, i, row);
          assert MadeBy(ops, i, row);
        }
      }
      if i: nat :| MadeBy(ops, i, row) {
        if i < n {
          assert MadeBy(before, i, row);
        }
      }
    }
  }

  predicate SentBy(op: Op, sender: string, receiver: string) {
    op.Send? && op.sender == sender && op.receiver == receiver
  }

  lemma {:induction false} RequestsWereSent(ops: seq<Op>, id: string)
    requires id in Exec(ops).requests
    ensures var r := Exec(ops).requests[id];
            exists i | 0 <= i < |ops| :: SentBy(ops[i], r.sender, r.receiver)
  {
    hide Less, Pair;
    var before, n := ops[..|ops| - 1], |ops| - 1;
    var r := Exec(ops).requests[id];
    if id in Exec(before).requests {
      RequestsWereSent(before, id);
      var i :| 0 <= i < |before| && SentBy(before[i], r.sender, r.receiver);
      assert SentBy(ops[i], r.sender, r.receiver);
    } else {
      assert SentBy(ops[n], r.sender, r.receiver);
    }
  }

  /** It takes both: one of two friends sent a request and the other, later, accepted. */
  lemma {:induction false} FriendshipTakesBoth(ops: seq<Op>, a: string, b: string)
    requires b in FriendsOf(Exec(ops).friends, a)
    ensures exists i: nat, j: nat | i < j < |ops| :: MadeTogether(ops, i, j, a, b)
  {
    hide Less, Pair, Exec, Joins, Receives, FriendsOf;
    AlwaysProper(ops);
    FriendshipIsSymmetric(Exec(ops).friends, a, b);
    FriendsIffAcceptedSince(ops, Pair(a, b));
    var j: nat :| MadeBy(ops, j, Pair(a, b));
    var i := AcceptedWasSent(ops, j, Pair(a, b));
    SamePair(a, b, ops[i].sender, ops[i].receiver);
    assert MadeTogether(ops, i, j, a, b);
  }

  /** Call `i` sent what call `j` accepted, one call by each of the two, and nothing has
      ended the friendship since. */
  ghost predicate MadeTogether(ops: seq<Op>, i: nat, j: nat, a: string, b: string) {
    && i < j < |ops|
    && ops[i].Send? && {ops[i].sender, ops[i].receiver} == {a, b}
    && ops[j].Accept? && ops[j].user == ops[i].receiver
    && forall k | j < k < |ops| :: !Parts(ops[k], Pair(a, b))
  }

  lemma AcceptedWasSent(ops: seq<Op>, j: nat, row: Row) returns (i: nat)
    requires j < |ops| && Joins(Exec(ops[..j]), ops[j], row)
    ensures i < j && ops[j].Accept? && ops[i].Send? && ops[i].receiver == ops[j].user
    ensures Pair(ops[i].sender, ops[i].receiver) == row
  {
    hide Less, Pair, Exec;
    var r := Exec(ops[..j]).requests[ops[j].id];
    RequestsWereSent(ops[..j], ops[j].id);
    i :| 0 <= i < j && SentBy(ops[..j][i], r.sender, r.receiver);
  }

  lemma SamePair(a: string, b: string, c: string, d: string)
    requires Pair(a, b) == Pair(c, d)
    ensures {a, b} == {c, d}
  {
    PairIsSymmetric(a, b);
    PairIsSymmetric(c, d);
  }
}

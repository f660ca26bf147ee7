/** Who is in a room and what its tracks are: what each handled signal, lost connection and
    relay does to the table, and whole runs told by joins, departures and relays alone. */
module CallMembers {
  import opened Peers
  import opened Rooms
  import opened Calls
  import opened CallShape
  import opened CallRelays

  predicate IsIn(s: State, chat: string, user: string, pc: PcId) {
    user in PeersOf(s.rooms, chat) && PeersOf(s.rooms, chat)[user] == pc
  }

  /** Every other chat is as it was. */
  ghost predicate OnlyThisChat(s: State, t: State, chat: string) {
    forall c | c != chat ::
      && (c in t.rooms <==> c in s.rooms)
      && PeersOf(t.rooms, c) == PeersOf(s.rooms, c) && TracksOf(t.rooms, c) == TracksOf(s.rooms, c)
  }

  /** The user is out, and so is the room if nobody else was in it. */
  ghost predicate IsOut(s: State, t: State, chat: string, user: string) {
    && OnlyThisChat(s, t, chat)
    && PeersOf(t.rooms, chat) == PeersOf(s.rooms, chat) - {user}
    && (chat in t.rooms <==> exists u :: u in PeersOf(s.rooms, chat) && u != user)
    && (chat in t.rooms ==> TracksOf(t.rooms, chat) == TracksOf(s.rooms, chat))
  }

  // ---------- Departures ----------

  lemma RemovedIsOut(s: State, chat: string, user: string, pc: PcId)
    requires IsIn(s, chat, user, pc)
    ensures IsOut(s, RemovePeerStep(s, chat, user, pc), chat, user)
  {
    hide RemovePeerStep;
    var left := PeersOf(s.rooms, chat) - {user};
    assert left == map[] <==> !exists u :: u in PeersOf(s.rooms, chat) && u != user by {
      if u :| u in PeersOf(s.rooms, chat) && u != user {
        assert u in left;
      }
      if left != map[] {
        assert left.Keys != {};
        var u :| u in left.Keys;
      }
    }
  }

  /** A lost connection's peer is out of its room, its connection will be closed and the room
      renegotiated; the callback of a connection that is not filed only closes it. */
  lemma LostPeerIsOut(s: State, pc: PcId)
    requires pc in s.links
    ensures var Link(chat, p, _) := s.links[pc];
            var t := Next(s, ConnectionLost(pc));
            && Closing(pc) in t.work
            && (IsIn(s, chat, p.user, pc) ==> IsOut(s, t, chat, p.user) && RenegotiateAll(chat) in t.work)
            && (!IsIn(s, chat, p.user, pc) ==> t.rooms == s.rooms)
  {
    hide RemovePeerStep, IsOut;
    var Link(chat, p, _) := s.links[pc];
    if IsIn(s, chat, p.user, pc) {
      RemovedIsOut(s, chat, p.user, pc);
    }
  }

  /** After the close the connection stays closed. */
  lemma ClosingCloses(s: State, pc: PcId)
    requires pc in s.links && Closing(pc) in s.work
    ensures Next(s, CloseConnection(pc)).links[pc].peer.closed
  {
  }

  function Handled(s: State, signal: Step, newPc: PcId): State {
    Next(Next(Next(Next(Next(s, signal), Continue(newPc)), Continue(newPc)), Continue(newPc)), Continue(newPc))
  }

  /** A hangup handled to its end takes the user out; one from nobody in the room changes
      nothing. */
  lemma HangupTakesOut(s: State, chat: string, user: string, newPc: PcId)
    requires s.signal.Idle?
    ensures var t := Handled(s, SignalHangup(chat, user), newPc);
            && t.signal.Idle? && t.links == s.links
            && (user in PeersOf(s.rooms, chat) ==>
                  IsOut(s, t, chat, user) && Closing(PeersOf(s.rooms, chat)[user]) in t.work
                  && RenegotiateAll(chat) in t.work)
            && (user !in PeersOf(s.rooms, chat) ==> t == s)
  {
    hide RemovePeerStep, IsOut;
    if user in PeersOf(s.rooms, chat) {
      var pc := PeersOf(s.rooms, chat)[user];
      var one := Next(s, SignalHangup(chat, user));
      assert one == s.(signal := Leaving(chat, user, pc, false));
      RemovedIsOut(s, chat, user, pc);
      SameTable(s, one, RemovePeerStep(s, chat, user, pc), Leave(one), chat, user);
      assert Next(one, Continue(newPc)) == Leave(one);
    }
  }

  lemma SameTable(s: State, s': State, t: State, t': State, chat: string, user: string)
    requires s'.rooms == s.rooms && t'.rooms == t.rooms && IsOut(s, t, chat, user)
    ensures IsOut(s', t', chat, user) && IsOut(s, t', chat, user)
  {
  }

  // ---------- Joins ----------

  /** The part of a join after the user's old connection has left: there is a place for fewer
      than sixteen others. */
  lemma CheckedJoin(s: State, chat: string, user: string, newPc: PcId)
    requires s.signal == Checking(chat, user) && newPc !in s.links && user !in PeersOf(s.rooms, chat)
    ensures var t := Next(Next(Next(s, Continue(newPc)), Continue(newPc)), Continue(newPc));
            && t.signal.Idle? && OnlyThisChat(s, t, chat) && TracksOf(t.rooms, chat) == TracksOf(s.rooms, chat)
            && (if |PeersOf(s.rooms, chat)| < 16
                then PeersOf(t.rooms, chat) == PeersOf(s.rooms, chat)[user := newPc]
                     && newPc in t.links && t.links[newPc].chat == chat && t.links[newPc].peer.user == user
                     && Queued(chat, newPc, false) in t.work
                else t.rooms == s.rooms && t.links == s.links)
  {
    var one := Next(s, Continue(newPc));
    var two := Next(one, Continue(newPc));
    if |PeersOf(s.rooms, chat)| < 16 {
      assert one == s.(signal := Admitted(chat, user));
      assert two == one.(links := two.links, signal := Joining(chat, user, newPc));
      InsertsOne(two, chat, user, newPc);
    }
  }

  lemma InsertsOne(s: State, chat: string, user: string, pc: PcId)
    requires s.signal == Joining(chat, user, pc)
    ensures var t := Next(s, Continue(pc));
            && t.signal.Idle? && t.links == s.links && OnlyThisChat(s, t, chat)
            && TracksOf(t.rooms, chat) == TracksOf(s.rooms, chat)
            && PeersOf(t.rooms, chat) == PeersOf(s.rooms, chat)[user := pc] && Queued(chat, pc, false) in t.work
  {
  }

  /** The first part: the user's old connection leaves. */
  lemma OldConnectionLeaves(s: State, chat: string, user: string, newPc: PcId)
    requires s.signal.Idle? && user in PeersOf(s.rooms, chat)
    ensures var t := Next(Next(s, SignalJoin(chat, user)), Continue(newPc));
            && t.signal == Checking(chat, user) && t.links == s.links && IsOut(s, t, chat, user)
            && Closing(PeersOf(s.rooms, chat)[user]) in t.work
  {
    hide RemovePeerStep, IsOut;
    var pc := PeersOf(s.rooms, chat)[user];
    var one := Next(s, SignalJoin(chat, user));
    assert one == s.(signal := Leaving(chat, user, pc, true));
    RemovedIsOut(s, chat, user, pc);
    SameTable(s, one, RemovePeerStep(s, chat, user, pc), Leave(one), chat, user);
    assert Next(one, Continue(newPc)) == Leave(one);
  }

  lemma NobodyLeaves(s: State, chat: string, user: string)
    requires s.signal.Idle? && user !in PeersOf(s.rooms, chat)
    ensures Next(s, SignalJoin(chat, user)) == s.(signal := Checking(chat, user))
  {
  }

  lemma IdleContinues(s: State, newPc: PcId)
    requires s.signal.Idle?
    ensures Next(s, Continue(newPc)) == s
  {
  }

  /** The user is in with the new connection if there is a place, next to the others. */
  ghost predicate IsInWith(s: State, t: State, others: map<string, PcId>, chat: string, user: string, newPc: PcId) {
    && PeersOf(t.rooms, chat) == (if |others| < 16 then others[user := newPc] else others)
    && (forall c | c != chat :: PeersOf(t.rooms, c) == PeersOf(s.rooms, c)
                                && TracksOf(t.rooms, c) == TracksOf(s.rooms, c))
    && (|others| < 16 ==> newPc in t.links && t.links[newPc].chat == chat
                          && t.links[newPc].peer.user == user && Queued(chat, newPc, false) in t.work)
  }

  lemma RestOfJoin(s: State, left: State, chat: string, user: string, newPc: PcId)
    requires left.signal == Checking(chat, user) && newPc !in left.links && user !in PeersOf(left.rooms, chat)
    requires OnlyThisChat(s, left, chat)
    ensures var t := Next(Next(Next(left, Continue(newPc)), Continue(newPc)), Continue(newPc));
            t.signal.Idle? && IsInWith(s, t, PeersOf(left.rooms, chat), chat, user, newPc)
  {
    hide Next;
    CheckedJoin(left, chat, user, newPc);
  }

  /** A join handled to its end, with nothing in between, files the user under a new connection
      if there are fewer than sixteen others in the room, and otherwise leaves it to them; in
      both cases the user's old connection is out and will be closed. */
  lemma JoinTakesIn(s: State, chat: string, user: string, newPc: PcId)
    requires s.signal.Idle? && newPc !in s.links
    ensures var t := Handled(s, SignalJoin(chat, user), newPc);
            t.signal.Idle? && IsInWith(s, t, PeersOf(s.rooms, chat) - {user}, chat, user, newPc)
    ensures user in PeersOf(s.rooms, chat) ==>
              Closing(PeersOf(s.rooms, chat)[user]) in Next(Next(s, SignalJoin(chat, user)), Continue(newPc)).work
  {
    hide Next, IsInWith, OnlyThisChat;
    var one := Next(s, SignalJoin(chat, user));
    if user in PeersOf(s.rooms, chat) {
      OldConnectionLeaves(s, chat, user, newPc);
      RestOfJoin(s, Next(one, Continue(newPc)), chat, user, newPc);
    } else {
      NobodyLeaves(s, chat, user);
      assert OnlyThisChat(s, one, chat) by { SameTableElsewhere(s, one, chat); }
      assert PeersOf(s.rooms, chat) - {user} == PeersOf(one.rooms, chat);
      RestOfJoin(s, one, chat, user, newPc);
      IdleContinues(Next(Next(Next(one, Continue(newPc)), Continue(newPc)), Continue(newPc)), newPc);
    }
  }

  lemma SameTableElsewhere(s: State, t: State, chat: string)
    requires t.rooms == s.rooms
    ensures OnlyThisChat(s, t, chat)
  {
  }

  // ---------- Membership over runs ----------

  /** The step completes a join of the user with this connection. */
  predicate Joins(s: State, step: Step, chat: string, user: string, pc: PcId) {
    step.Continue? && s.signal == Joining(chat, user, pc)
  }

  /** The step completes a hangup, or the departure before a new join, of this connection, or
      is its loss. */
  predicate Departs(s: State, step: Step, chat: string, user: string, pc: PcId) {
    || (step.Continue? && s.signal.Leaving? && s.signal.chat == chat && s.signal.user == user && s.signal.pc == pc)
    || step == ConnectionLost(pc)
  }

  /** Whether the room's entry for the user can have changed. */
  lemma RemovalAndMember(s: State, c: string, u: string, lost: PcId, chat: string, user: string, pc: PcId)
    ensures IsIn(RemovePeerStep(s, c, u, lost), chat, user, pc)
       <==> IsIn(s, chat, user, pc) && !(c == chat && u == user && lost == pc)
  {
    hide RemovePeerStep;
  }

  lemma RelaysKeepMembers(s: State, id: nat, chat: string)
    ensures PeersOf(Start(s, id).rooms, chat) == PeersOf(s.rooms, chat)
    ensures PeersOf(End(s, id).rooms, chat) == PeersOf(s.rooms, chat)
  {
    hide Add, SetRooms;
  }

  lemma LoopAndMember(s: State, newPc: PcId, chat: string, user: string, pc: PcId)
    ensures var t := Next(s, Continue(newPc));
            IsIn(t, chat, user, pc) <==>
            (s.signal == Joining(chat, user, pc)
             || (IsIn(s, chat, user, pc) && !Departs(s, Continue(newPc), chat, user, pc)
                 && !(s.signal.Joining? && s.signal.chat == chat && s.signal.user == user)))
  {
    hide RemovePeerStep, Answer, Feed, Connect, Check, IsIn;
    match s.signal
    case Leaving(c, u, lost, _) =>
      RemovalAndMember(s, c, u, lost, chat, user, pc);
      MemberOfTable(RemovePeerStep(s, c, u, lost), Leave(s), chat, user, pc);
    case Joining(c, u, joined) => InsertionAndMember(s, c, u, joined, chat, user, pc);
    case _ =>
      LoopKeepsRooms(s, newPc);
      MemberOfTable(s, Next(s, Continue(newPc)), chat, user, pc);
  }

  lemma MemberOfTable(s: State, t: State, chat: string, user: string, pc: PcId)
    requires t.rooms == s.rooms
    ensures IsIn(t, chat, user, pc) <==> IsIn(s, chat, user, pc)
  {
  }

  lemma LoopKeepsRooms(s: State, newPc: PcId)
    requires !s.signal.Leaving? && !s.signal.Joining?
    ensures Next(s, Continue(newPc)).rooms == s.rooms
  {
    hide Answered, WithCandidate, FreshPeer;
  }

  lemma InsertionAndMember(s: State, c: string, u: string, joined: PcId, chat: string, user: string, pc: PcId)
    requires s.signal == Joining(c, u, joined)
    ensures IsIn(Join(s), chat, user, pc) <==> if c == chat && u == user then pc == joined else IsIn(s, chat, user, pc)
  {
  }

  lemma StepAndMember(s: State, step: Step, chat: string, user: string, pc: PcId)
    requires Shape(s)
    ensures IsIn(Next(s, step), chat, user, pc) <==>
            (Joins(s, step, chat, user, pc)
             || (IsIn(s, chat, user, pc) && !Departs(s, step, chat, user, pc)
                 && !exists other :: Joins(s, step, chat, user, other)))
  {
    hide RemovePeerStep, Start, End, Visit, Snapshot, Reconcile, Close, Shape, IsIn;
    match step
    case Continue(newPc) =>
      LoopAndMember(s, newPc, chat, user, pc);
      if s.signal.Joining? && s.signal.chat == chat && s.signal.user == user {
        assert Joins(s, step, chat, user, s.signal.pc);
      }
    case ConnectionLost(lost) =>
      if lost in s.links {
        var c, u := s.links[lost].chat, s.links[lost].peer.user;
        RemovalAndMember(s, c, u, lost, chat, user, pc);
      }
      MemberIsFiled(s, chat, user, pc);
      MemberOfTable(s, s, chat, user, pc);
    case StartRelay(id) => RelaysKeepMembers(s, id, chat); MemberOfPeers(s, Next(s, step), chat, user, pc);
    case EndRelay(id) => RelaysKeepMembers(s, id, chat); MemberOfPeers(s, Next(s, step), chat, user, pc);
    case _ =>
      OthersKeepRooms(s, step);
      MemberOfTable(s, Next(s, step), chat, user, pc);
  }

  lemma MemberOfPeers(s: State, t: State, chat: string, user: string, pc: PcId)
    requires PeersOf(t.rooms, chat) == PeersOf(s.rooms, chat)
    ensures IsIn(t, chat, user, pc) <==> IsIn(s, chat, user, pc)
  {
  }

  lemma MemberIsFiled(s: State, chat: string, user: string, pc: PcId)
    requires Shape(s)
    ensures IsIn(s, chat, user, pc) ==> Filed(s.links, chat, user, pc)
  {
    if IsIn(s, chat, user, pc) {
      assert RoomOk(s.rooms[chat], chat, s.links);
    }
  }

  lemma OthersKeepRooms(s: State, step: Step)
    requires !step.Continue? && !step.ConnectionLost? && !step.StartRelay? && !step.EndRelay?
    ensures Next(s, step).rooms == s.rooms
  {
    hide Visits, IsVisit, Negotiated;
  }

  lemma NobodyIsIn(chat: string, user: string, pc: PcId)
    ensures !IsIn(INIT, chat, user, pc)
  {
  }

  /** Step `i` completed the user's last join there, with this connection, which has not
      departed since. */
  ghost predicate JoinedBy(steps: seq<Step>, i: nat, chat: string, user: string, pc: PcId) {
    && i < |steps| && Joins(Exec(steps[..i]), steps[i], chat, user, pc)
    && forall j | i < j < |steps| ::
         && !Departs(Exec(steps[..j]), steps[j], chat, user, pc)
         && !exists other :: Joins(Exec(steps[..j]), steps[j], chat, user, other)
  }

  /** After every run a user is in a room exactly if the user's last join there has completed
      and its connection has neither hung up nor been lost since. */
  lemma {:induction false} InRoomIffJoinedSince(steps: seq<Step>, chat: string, user: string, pc: PcId)
    ensures IsIn(Exec(steps), chat, user, pc) <==> exists i: nat :: JoinedBy(steps, i, chat, user, pc)
  {
    hide Next, Joins, Departs, Shape, IsIn;
    if steps == [] {
      NobodyIsIn(chat, user, pc);
    } else {
      var before, n := steps[..|steps| - 1], |steps| - 1;
      InRoomIffJoinedSince(before, chat, user, pc);
      ShapeAlways(before);
      StepAndMember(Exec(before), steps[n], chat, user, pc);
      assert forall i | 0 <= i < n :: before[..i] == steps[..i];
      if IsIn(Exec(steps), chat, user, pc) {
        if Joins(Exec(before), steps[n], chat, user, pc) {
          assert JoinedBy(steps, n, chat, user, pc);
        } else {
          var i: nat :| JoinedBy(before, i, chat, user, pc);
          assert JoinedBy(steps, i, chat, user, pc);
        }
      }
      if i: nat :| JoinedBy(steps, i, chat, user, pc) {
        if i < n {
          assert JoinedBy(before, i, chat, user, pc);
        }
      }
    }
  }
}

/** Room shape under interleaving: in every reachable state each room has between one and
    sixteen peers, each under its own user id. */
module CallShape {
  import opened Wrappers
  import opened Peers
  import opened Rooms
  import opened Calls

  ghost predicate Filed(links: map<PcId, Link>, chat: string, user: string, pc: PcId) {
    pc in links && links[pc].chat == chat && links[pc].peer.user == user
  }

  ghost predicate RoomOk(room: Room, chat: string, links: map<PcId, Link>) {
    && 1 <= |room.peers| <= MAX_PEERS_PER_ROOM
    && forall u | u in room.peers :: Filed(links, chat, u, room.peers[u])
  }

  /** Every room has between one and sixteen peers, each filed under its own user id in
      the chat it was made for. */
  ghost predicate RoomShape(rooms: Table, links: map<PcId, Link>) {
    forall chat | chat in rooms :: RoomOk(rooms[chat], chat, links)
  }

  /** What the signal loop has found out and no other goroutine can undo. */
  ghost predicate LoopShape(s: State) {
    match s.signal
    case Admitted(chat, _) => !IsFull(s.rooms, chat)
    case Joining(chat, user, pc) => !IsFull(s.rooms, chat) && Filed(s.links, chat, user, pc)
    case Answering(chat, pc) => pc in s.links && s.links[pc].chat == chat
    case _ => true
  }

  ghost predicate Shape(s: State) {
    RoomShape(s.rooms, s.links) && LoopShape(s)
  }

  ghost predicate SameFiling(links: map<PcId, Link>, links': map<PcId, Link>) {
    forall pc | pc in links :: Filed(links', links[pc].chat, links[pc].peer.user, pc)
  }

  lemma RefiledShape(rooms: Table, links: map<PcId, Link>, links': map<PcId, Link>)
    requires RoomShape(rooms, links) && SameFiling(links, links')
    ensures RoomShape(rooms, links')
  {
    forall chat | chat in rooms ensures RoomOk(rooms[chat], chat, links') {
      assert RoomOk(rooms[chat], chat, links);
      forall u | u in rooms[chat].peers ensures Filed(links', chat, u, rooms[chat].peers[u]) {
        assert Filed(links, chat, u, rooms[chat].peers[u]);
      }
    }
  }

  lemma RemovedShape(rooms: Table, links: map<PcId, Link>, chat: string, user: string, pc: PcId)
    requires RoomShape(rooms, links)
    ensures RoomShape(Removed(rooms, chat, user, pc), links)
    ensures forall c :: PeersOf(Removed(rooms, chat, user, pc), c).Keys <= PeersOf(rooms, c).Keys
  {
    var rooms' := Removed(rooms, chat, user, pc);
    if Removes(rooms, chat, user, pc) {
      var was := rooms[chat].peers;
      var left := was - {user};
      assert RoomOk(rooms[chat], chat, links);
      assert left.Keys == was.Keys - {user};
      forall c | c in rooms' ensures RoomOk(rooms'[c], c, links) {
        assert RoomOk(rooms[c], c, links);
        if c == chat {
          assert rooms'[c].peers == left && left.Keys != {};
        }
      }
    }
  }

  lemma InsertedShape(rooms: Table, links: map<PcId, Link>, chat: string, user: string, pc: PcId)
    requires RoomShape(rooms, links) && !IsFull(rooms, chat) && Filed(links, chat, user, pc)
    ensures RoomShape(Inserted(rooms, chat, user, pc), links)
  {
    var rooms' := Inserted(rooms, chat, user, pc);
    var was, now := PeersOf(rooms, chat), PeersOf(rooms, chat)[user := pc];
    assert now.Keys == was.Keys + {user} && user in now.Keys;
    forall c | c in rooms' ensures RoomOk(rooms'[c], c, links) {
      if c in rooms {
        assert RoomOk(rooms[c], c, links);
      }
    }
  }

  /** A change of tracks only. */
  ghost predicate SamePeers(rooms: Table, rooms': Table) {
    && rooms'.Keys == rooms.Keys
    && forall chat | chat in rooms :: rooms'[chat].peers == rooms[chat].peers
  }

  lemma RetrackedShape(rooms: Table, rooms': Table, links: map<PcId, Link>)
    requires RoomShape(rooms, links) && SamePeers(rooms, rooms')
    ensures RoomShape(rooms', links)
  {
    forall c | c in rooms' ensures RoomOk(rooms'[c], c, links) {
      assert RoomOk(rooms[c], c, links);
    }
  }

  lemma TrackRegionsKeepPeers(rooms: Table, chat: string, user: string, track: Track)
    ensures SamePeers(rooms, Registered(rooms, chat, user, track))
    ensures SamePeers(rooms, Unregistered(rooms, chat, user, track))
  {
  }

  /** The table as other goroutines may leave it: no new peers, no peer re-filed. */
  ghost predicate OnlyRemoves(s: State, t: State) {
    && SameFiling(s.links, t.links)
    && forall chat :: PeersOf(t.rooms, chat).Keys <= PeersOf(s.rooms, chat).Keys
  }

  lemma LoopKept(s: State, t: State)
    requires LoopShape(s) && OnlyRemoves(s, t) && t.signal == s.signal
    ensures LoopShape(t)
  {
    if s.signal.Admitted? || s.signal.Joining? {
      var was, now := PeersOf(s.rooms, s.signal.chat), PeersOf(t.rooms, s.signal.chat);
      assert was.Keys == now.Keys + (was.Keys - now.Keys);
      assert |now.Keys| == |now| && |was.Keys| == |was|;
    }
    if s.signal.Answering? || s.signal.Joining? {
      var pc := s.signal.pc;
      assert Filed(t.links, s.links[pc].chat, s.links[pc].peer.user, pc);
    }
  }

  /** A step of another goroutine on links and work only. */
  lemma RefiledKeepsShape(s: State, t: State)
    requires Shape(s) && t.rooms == s.rooms && t.signal == s.signal && SameFiling(s.links, t.links)
    ensures Shape(t)
  {
    RefiledShape(s.rooms, s.links, t.links);
    LoopKept(s, t);
  }

  lemma LoseKeepsShape(s: State, pc: PcId)
    requires Shape(s)
    ensures Shape(Lose(s, pc))
  {
    hide RemovePeerStep, Removed, RoomShape, LoopShape;
    if pc in s.links {
      RemovedShape(s.rooms, s.links, s.links[pc].chat, s.links[pc].peer.user, pc);
      LoopKept(s, Lose(s, pc));
    }
  }

  lemma TracksKeepShape(s: State, t: State, chat: string, user: string, track: Track)
    requires Shape(s) && t.links == s.links && t.signal == s.signal
    requires t.rooms == Registered(s.rooms, chat, user, track) || t.rooms == Unregistered(s.rooms, chat, user, track)
    ensures Shape(t)
  {
    TrackRegionsKeepPeers(s.rooms, chat, user, track);
    RetrackedShape(s.rooms, t.rooms, s.links);
    LoopKept(s, t);
  }

  lemma RelaysKeepShape(s: State, id: nat)
    requires Shape(s)
    ensures Shape(Start(s, id)) && Shape(End(s, id))
  {
    hide Add, SetRooms, Registered, Unregistered, Unregisters, RoomShape, LoopShape;
    if id in s.relays {
      var Relay(chat, user, _) := s.relays[id];
      if InPhase(s, id, Opened) {
        var t := Start(s, id);
        if chat in s.rooms {
          TracksKeepShape(s, t, chat, user, LocalTrack(user, id));
        } else {
          RefiledKeepsShape(s, t);
        }
      }
      if InPhase(s, id, Sending) {
        TracksKeepShape(s, End(s, id), chat, user, LocalTrack(user, id));
      }
    }
  }

  lemma LoopStepsKeepShape(s: State, newPc: PcId)
    requires Shape(s)
    ensures s.signal.Leaving? ==> Shape(Leave(s))
    ensures s.signal.Admitted? ==> Shape(Connect(s, newPc))
    ensures s.signal.Joining? ==> Shape(Join(s))
  {
    hide RemovePeerStep, Removed, Inserted, Add, RoomShape;
    match s.signal
    case Leaving(chat, user, pc, _) => RemovedShape(s.rooms, s.links, chat, user, pc);
    case Admitted(chat, user) => RefiledShape(s.rooms, s.links, Connect(s, newPc).links);
    case Joining(chat, user, pc) => InsertedShape(s.rooms, s.links, chat, user, pc);
    case _ =>
  }

  lemma PeerStepsKeepShape(s: State)
    requires Shape(s)
    ensures s.signal.Answering? ==> Shape(Answer(s))
    ensures s.signal.Feeding? ==> Shape(Feed(s))
  {
    hide Answered, WithCandidate, Add, RoomShape;
    match s.signal
    case Answering(_, _) => RefiledShape(s.rooms, s.links, Answer(s).links);
    case Feeding(_, _) => RefiledShape(s.rooms, s.links, Feed(s).links);
    case _ =>
  }

  lemma FindKeepsShape(s: State, chat: string, user: string)
    requires Shape(s)
    ensures Shape(FindForAnswer(s, chat, user))
  {
    if user in PeersOf(s.rooms, chat) {
      assert RoomOk(s.rooms[chat], chat, s.links);
    }
  }

  lemma QueueKeepsShape(s: State, chat: string, pc: PcId, again: bool)
    requires Shape(s)
    ensures Shape(Visit(s, chat)) && Shape(Snapshot(s, chat, pc, again))
  {
    hide Add, Done, Visit, Shape;
    RefiledKeepsShape(s, Visit(s, chat));
    RefiledKeepsShape(s, Snapshot(s, chat, pc, again));
  }

  lemma CloseKeepsShape(s: State, pc: PcId)
    requires Shape(s)
    ensures Shape(Close(s, pc))
  {
    hide Done, Shape;
    RefiledKeepsShape(s, Close(s, pc));
  }

  lemma ReconcileKeepsShape(s: State, task: Task)
    requires Shape(s)
    ensures Shape(Reconcile(s, task))
  {
    hide Negotiated, Done, Shape;
    RefiledKeepsShape(s, Reconcile(s, task));
  }

  lemma ShapeKept(s: State, step: Step)
    requires Shape(s)
    ensures Shape(Next(s, step))
  {
    hide Leave, Join, Connect, Answer, Feed, Lose, Start, End, Visit, Snapshot, Reconcile, Close, RoomShape;
    match step
    case Continue(newPc) =>
      LoopStepsKeepShape(s, newPc);
      PeerStepsKeepShape(s);
    case ConnectionLost(pc) => LoseKeepsShape(s, pc);
    case StartRelay(id) => RelaysKeepShape(s, id);
    case EndRelay(id) => RelaysKeepShape(s, id);
    case OpenRelay(_, _) => RefiledKeepsShape(s, Next(s, step));
    case SignalAnswer(chat, user) => FindKeepsShape(s, chat, user);
    case SignalJoin(_, _) =>
    case SignalHangup(_, _) =>
    case SignalIce(_, _, _) =>
    case VisitRoom(chat) => QueueKeepsShape(s, chat, 0, false);
    case TakeSnapshot(chat, pc, again) => QueueKeepsShape(s, chat, pc, again);
    case CloseConnection(pc) => CloseKeepsShape(s, pc);
    case ReconcilePeer(task) => ReconcileKeepsShape(s, task);
  }

  lemma {:induction false} ShapeAlways(steps: seq<Step>)
    ensures Shape(Exec(steps))
  {
    if steps != [] {
      ShapeAlways(steps[..|steps| - 1]);
      ShapeKept(Exec(steps[..|steps| - 1]), steps[|steps| - 1]);
    }
  }

  /** In every reachable state every room has between one and sixteen peers, each under its own
      user id and made for that chat. */
  lemma RoomsStayInShape(steps: seq<Step>, chat: string)
    requires chat in Exec(steps).rooms
    ensures var s := Exec(steps);
            && 1 <= |s.rooms[chat].peers| <= 16
            && forall u | u in s.rooms[chat].peers ::
                 var pc := s.rooms[chat].peers[u];
                 pc in s.links && s.links[pc].chat == chat && s.links[pc].peer.user == u
  {
    ShapeAlways(steps);
    var s := Exec(steps);
    assert RoomOk(s.rooms[chat], chat, s.links);
    assert forall u | u in s.rooms[chat].peers :: Filed(s.links, chat, u, s.rooms[chat].peers[u]);
  }

  /** A late callback for a connection that has been replaced never evicts the replacement. */
  lemma LateCallbackIsHarmless(s: State, lost: PcId, chat: string, user: string)
    requires Find(s.rooms, chat, user).Some? && Find(s.rooms, chat, user) != Some(lost)
    ensures Find(Next(s, ConnectionLost(lost)).rooms, chat, user) == Find(s.rooms, chat, user)
  {
    if lost in s.links {
      var c, u := s.links[lost].chat, s.links[lost].peer.user;
      if c == chat && Removes(s.rooms, c, u, lost) {
        assert user in PeersOf(s.rooms, c) - {u};
      }
    }
  }
}

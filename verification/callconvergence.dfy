/** Fan-out convergence: whoever is in a room either sends exactly the others' current
    tracks or has a negotiation still to come, provided the negotiations of one peer are
    reconciled in the order of their snapshots. */
module CallConvergence {
  import opened Peers
  import opened Rooms
  import opened Calls
  import opened CallShape

  // ---------- Snapshots and versions ----------

  ghost predicate TaskOk(s: State, t: Task) {
    && (t.Queued? || t.InFlight? ==> t.pc in s.links && s.links[t.pc].chat == t.chat)
    && (t.InFlight? ==>
          t.version <= Version(s, t.chat)
          && (t.version == Version(s, t.chat) ==> t.tracks == TracksOf(s.rooms, t.chat)))
  }

  /** A peer last reconciled at the current version sends what it should send now. */
  ghost predicate LinkOk(s: State, l: Link) {
    && l.seen <= Version(s, l.chat)
    && (l.seen == Version(s, l.chat) ==> l.peer.senders == Desired(l.peer.user, TracksOf(s.rooms, l.chat)))
  }

  ghost predicate SnapshotInv(s: State) {
    && (forall t | t in s.work :: TaskOk(s, t))
    && (forall pc | pc in s.links :: LinkOk(s, s.links[pc]))
  }

  /** The tracks of a chat stay as they are while its version does. */
  ghost predicate SameOrNewer(s: State, t: State) {
    forall chat ::
      || Version(t, chat) > Version(s, chat)
      || (Version(t, chat) == Version(s, chat) && TracksOf(t.rooms, chat) == TracksOf(s.rooms, chat))
  }

  ghost predicate SameSending(l: Link, l': Link) {
    l' == l.(peer := l'.peer) && l'.peer.senders == l.peer.senders && l'.peer.user == l.peer.user
  }

  ghost predicate KeepsChats(s: State, t: State) {
    forall pc | pc in s.links :: pc in t.links && t.links[pc].chat == s.links[pc].chat
  }

  lemma SnapshotsKept(s: State, t: State)
    requires SnapshotInv(s) && SameOrNewer(s, t) && KeepsChats(s, t)
    requires forall x | x in t.work :: x in s.work || TaskOk(t, x)
    requires forall pc | pc in t.links ::
               (pc in s.links && SameSending(s.links[pc], t.links[pc])) || LinkOk(t, t.links[pc])
    ensures SnapshotInv(t)
  {
    forall x | x in t.work ensures TaskOk(t, x) {
      if x in s.work {
        assert TaskOk(s, x);
      }
    }
    forall pc | pc in t.links ensures LinkOk(t, t.links[pc]) {
      if pc in s.links {
        assert LinkOk(s, s.links[pc]);
      }
    }
  }

  // ---------- Convergence ----------

  /** A negotiation of this peer is still to come, with the tracks as they are now. */
  ghost predicate Owes(s: State, chat: string, pc: PcId) {
    || RenegotiateAll(chat) in s.work
    || exists again: bool ::
         Queued(chat, pc, again) in s.work
         || InFlight(chat, pc, TracksOf(s.rooms, chat), Version(s, chat), again) in s.work
  }

  ghost predicate Agrees(s: State, chat: string, pc: PcId)
    requires pc in s.links
  {
    s.links[pc].peer.closed || s.links[pc].seen == Version(s, chat) || Owes(s, chat, pc)
  }

  ghost predicate Converged(s: State) {
    forall chat, u | u in PeersOf(s.rooms, chat) ::
      PeersOf(s.rooms, chat)[u] in s.links && Agrees(s, chat, PeersOf(s.rooms, chat)[u])
  }

  /** The room and its tracks are as they were, and what it was owed still is. */
  ghost predicate ChatUntouched(s: State, t: State, chat: string) {
    && PeersOf(t.rooms, chat) == PeersOf(s.rooms, chat)
    && TracksOf(t.rooms, chat) == TracksOf(s.rooms, chat)
    && Version(t, chat) == Version(s, chat)
  }

  ghost predicate LinksUntouched(s: State, t: State) {
    forall pc | pc in s.links ::
      pc in t.links && t.links[pc].seen == s.links[pc].seen
      && (s.links[pc].peer.closed ==> t.links[pc].peer.closed)
  }

  /** A step that puts a whole renegotiation of every touched chat in the queue. */
  lemma RequeuedConverged(s: State, t: State, touched: string)
    requires Converged(s) && LinksUntouched(s, t) && s.work <= t.work
    requires forall chat | chat != touched :: ChatUntouched(s, t, chat)
    requires RoomShape(t.rooms, t.links)
    requires RenegotiateAll(touched) in t.work || ChatUntouched(s, t, touched)
    ensures Converged(t)
  {
    forall chat, u | u in PeersOf(t.rooms, chat)
      ensures PeersOf(t.rooms, chat)[u] in t.links && Agrees(t, chat, PeersOf(t.rooms, chat)[u])
    {
      var pc := PeersOf(t.rooms, chat)[u];
      assert RoomOk(t.rooms[chat], chat, t.links);
      assert Filed(t.links, chat, u, pc);
      if ChatUntouched(s, t, chat) {
        assert u in PeersOf(s.rooms, chat) && Agrees(s, chat, pc);
      }
    }
  }

  // ---------- The steps ----------

  ghost predicate Settling(s: State) {
    SnapshotInv(s) && Converged(s)
  }

  /** Outside one chat nothing about rooms and versions changes, and inside it the tracks
      change only together with the version. */
  ghost predicate OneChat(s: State, t: State, chat: string) {
    && SameOrNewer(s, t)
    && forall c | c != chat :: ChatUntouched(s, t, c)
  }

  lemma RemovalTouchesOneChat(s: State, chat: string, user: string, pc: PcId)
    ensures var t := RemovePeerStep(s, chat, user, pc);
            OneChat(s, t, chat) && (RenegotiateAll(chat) in t.work || ChatUntouched(s, t, chat))
  {
    hide RemovePeerStep;
  }

  lemma RemovalSettles(s: State, chat: string, user: string, pc: PcId)
    requires Shape(s) && Settling(s)
    ensures Settling(RemovePeerStep(s, chat, user, pc))
  {
    hide RemovePeerStep, Removed, OneChat, ChatUntouched, Shape, Settling;
    RemovalTouchesOneChat(s, chat, user, pc);
    ShapeOfRooms(s);
    RemovedShape(s.rooms, s.links, chat, user, pc);
    OneChatSettles(s, RemovePeerStep(s, chat, user, pc), chat);
  }

  lemma RelayTouchesOneChat(s: State, id: nat)
    requires id in s.relays
    ensures var chat := s.relays[id].chat;
            && OneChat(s, Start(s, id), chat) && OneChat(s, End(s, id), chat)
            && (RenegotiateAll(chat) in Start(s, id).work || ChatUntouched(s, Start(s, id), chat))
            && (RenegotiateAll(chat) in End(s, id).work || ChatUntouched(s, End(s, id), chat))
  {
    hide Add, SetRooms, OneChat;
    var Relay(chat, user, phase) := s.relays[id];
    var track := LocalTrack(user, id);
    if phase == Opened && chat in s.rooms {
      MovedTouchesOneChat(s, Start(s, id), chat, Registered(s.rooms, chat, user, track), true);
    } else {
      assert OneChat(s, Start(s, id), chat) by { Untouched(s, Start(s, id), chat); }
    }
    if phase == Sending {
      MovedTouchesOneChat(s, End(s, id), chat, Unregistered(s.rooms, chat, user, track),
                          Unregisters(s.rooms, chat, user, track));
    } else {
      assert OneChat(s, End(s, id), chat) by { Untouched(s, End(s, id), chat); }
    }
  }

  lemma Untouched(s: State, t: State, chat: string)
    requires t.rooms == s.rooms && t.versions == s.versions
    ensures OneChat(s, t, chat) && ChatUntouched(s, t, chat)
  {
  }

  lemma MovedTouchesOneChat(s: State, t: State, chat: string, rooms: Table, changed: bool)
    requires t.rooms == rooms
    requires rooms - {chat} == s.rooms - {chat} && (changed || rooms == s.rooms)
    requires t.versions == if changed then s.versions[chat := Version(s, chat) + 1] else s.versions
    ensures OneChat(s, t, chat)
  {
    forall c | c != chat ensures ChatUntouched(s, t, c) {
      assert c in rooms <==> c in (rooms - {chat});
      assert c in s.rooms <==> c in (s.rooms - {chat});
      if c in rooms {
        assert rooms[c] == (rooms - {chat})[c] == s.rooms[c];
      }
    }
    assert changed ==> Version(t, chat) > Version(s, chat);
    assert forall c | c != chat ::
        ChatUntouched(s, t, c) ==> Version(t, c) == Version(s, c) && TracksOf(rooms, c) == TracksOf(s.rooms, c);
  }

  lemma OneChatSettles(s: State, t: State, chat: string)
    requires Shape(s) && Settling(s) && RoomShape(t.rooms, t.links)
    requires OneChat(s, t, chat) && (RenegotiateAll(chat) in t.work || ChatUntouched(s, t, chat))
    requires t.links == s.links && s.work <= t.work
    requires forall x | x in t.work :: x in s.work || x.RenegotiateAll? || x.Closing?
    ensures Settling(t)
  {
    hide SameOrNewer, ChatUntouched, RoomShape, LinkOk, Converged, TracksOf, Version;
    SnapshotsKept(s, t);
    RequeuedConverged(s, t, chat);
  }

  lemma RelaySettles(s: State, id: nat)
    requires Shape(s) && Settling(s)
    ensures Settling(Start(s, id)) && Settling(End(s, id))
  {
    hide Start, End, OneChat, ChatUntouched, Shape, Settling;
    if id in s.relays {
      RelayTouchesOneChat(s, id);
      RelaysKeepShape(s, id);
      RelayWork(s, id);
      ShapeOfRooms(Start(s, id));
      ShapeOfRooms(End(s, id));
      OneChatSettles(s, Start(s, id), s.relays[id].chat);
      OneChatSettles(s, End(s, id), s.relays[id].chat);
    } else {
      NoRelay(s, id);
    }
  }

  lemma ShapeOfRooms(s: State)
    requires Shape(s)
    ensures RoomShape(s.rooms, s.links)
  {
  }

  lemma NoRelay(s: State, id: nat)
    requires id !in s.relays
    ensures Start(s, id) == s && End(s, id) == s
  {
  }

  lemma RelayWork(s: State, id: nat)
    ensures forall t | t == Start(s, id) || t == End(s, id) ::
              && t.links == s.links && s.work <= t.work
              && forall x | x in t.work :: x in s.work || x.RenegotiateAll?
  {
    hide SetRooms, Registered, Unregistered, Unregisters;
  }

  /** A step that leaves rooms and versions alone, changes nothing a peer sends, and takes
      nothing but finished closes out of the queue. */
  lemma QuietSettles(s: State, t: State)
    requires Settling(s) && t.rooms == s.rooms && t.versions == s.versions
    requires forall pc | pc in s.links ::
               pc in t.links && SameSending(s.links[pc], t.links[pc])
               && (s.links[pc].peer.closed ==> t.links[pc].peer.closed)
    requires forall pc | pc in t.links :: pc in s.links || LinkOk(t, t.links[pc])
    requires forall x | x in s.work && !x.Closing? :: x in t.work
    requires forall x | x in t.work :: x in s.work || TaskOk(t, x)
    ensures Settling(t)
  {
    SnapshotsKept(s, t);
    forall chat, u | u in PeersOf(t.rooms, chat)
      ensures PeersOf(t.rooms, chat)[u] in t.links && Agrees(t, chat, PeersOf(t.rooms, chat)[u])
    {
      assert Agrees(s, chat, PeersOf(s.rooms, chat)[u]);
    }
  }

  lemma ConnectSettles(s: State, pc: PcId)
    requires Settling(s) && s.signal.Admitted?
    ensures Settling(Connect(s, pc))
  {
    hide Settling;
    QuietSettles(s, Connect(s, pc));
  }

  lemma AnswerSettles(s: State)
    requires Shape(s) && Settling(s) && s.signal.Answering?
    ensures Settling(Answer(s))
  {
    hide Settling, Answered, RoomShape;
    QuietSettles(s, Answer(s));
  }

  lemma FeedSettles(s: State)
    requires Settling(s) && s.signal.Feeding?
    ensures Settling(Feed(s))
  {
    hide Settling, WithCandidate;
    QuietSettles(s, Feed(s));
  }

  lemma CloseSettles(s: State, pc: PcId)
    requires Settling(s)
    ensures Settling(Close(s, pc))
  {
    hide Settling;
    QuietSettles(s, Close(s, pc));
  }

  lemma JoinSettles(s: State)
    requires Shape(s) && Settling(s) && s.signal.Joining?
    ensures Settling(Join(s))
  {
    hide RoomShape, LinkOk;
    var Joining(joined, user, pc) := s.signal;
    var t := Join(s);
    assert forall chat :: TracksOf(t.rooms, chat) == TracksOf(s.rooms, chat);
    assert forall chat :: Version(t, chat) == Version(s, chat);
    SnapshotsKept(s, t);
    forall chat, u | u in PeersOf(t.rooms, chat)
      ensures PeersOf(t.rooms, chat)[u] in t.links && Agrees(t, chat, PeersOf(t.rooms, chat)[u])
    {
      if chat != joined || u != user {
        assert u in PeersOf(s.rooms, chat) && Agrees(s, chat, PeersOf(s.rooms, chat)[u]);
      }
    }
  }

  lemma VisitKeepsSnapshots(s: State, visited: string)
    requires Shape(s) && SnapshotInv(s)
    ensures SnapshotInv(Visit(s, visited))
  {
    if visited in s.rooms {
      assert RoomOk(s.rooms[visited], visited, s.links);
    }
    hide RoomShape, LinkOk, Visit;
    SnapshotsKept(s, Visit(s, visited));
  }

  lemma VisitSettles(s: State, visited: string)
    requires Shape(s) && Settling(s)
    ensures Settling(Visit(s, visited))
  {
    hide RoomShape, SnapshotInv;
    var t := Visit(s, visited);
    VisitKeepsSnapshots(s, visited);
    if RenegotiateAll(visited) in s.work {
      var visits := Visits(PeersOf(s.rooms, visited), visited);
      assert forall u | u in PeersOf(s.rooms, visited) ::
          Queued(visited, PeersOf(s.rooms, visited)[u], false) in visits;
      hide Visits;
      forall chat, u | u in PeersOf(t.rooms, chat)
        ensures PeersOf(t.rooms, chat)[u] in t.links && Agrees(t, chat, PeersOf(t.rooms, chat)[u])
      {
        var pc := PeersOf(s.rooms, chat)[u];
        assert Agrees(s, chat, pc);
        if chat == visited {
          assert Queued(chat, pc, false) in t.work;
        }
      }
    }
  }

  lemma SnapshotSettles(s: State, chat: string, pc: PcId, again: bool)
    requires Settling(s)
    ensures Settling(Snapshot(s, chat, pc, again))
  {
    hide LinkOk;
    var t := Snapshot(s, chat, pc, again);
    if Queued(chat, pc, again) in s.work {
      var taken := InFlight(chat, pc, TracksOf(s.rooms, chat), Version(s, chat), again);
      assert TaskOk(s, Queued(chat, pc, again)) && TaskOk(t, taken);
      SnapshotsKept(s, t);
      forall c, u | u in PeersOf(t.rooms, c)
        ensures PeersOf(t.rooms, c)[u] in t.links && Agrees(t, c, PeersOf(t.rooms, c)[u])
      {
        assert Agrees(s, c, PeersOf(s.rooms, c)[u]);
        assert taken in t.work;
      }
    }
  }

  /** The snapshot is no older than the one the peer was last reconciled with. */
  predicate InOrder(s: State, task: Task) {
    CanReconcile(s, task) ==> task.version >= s.links[task.pc].seen
  }

  lemma ReconcileSettles(s: State, task: Task)
    requires Shape(s) && Settling(s) && InOrder(s, task)
    ensures Settling(Reconcile(s, task))
  {
    if CanReconcile(s, task) {
      var t := Reconcile(s, task);
      assert TaskOk(s, task);
      ReconcileKeepsSnapshots(s, task);
      forall chat, u | u in PeersOf(t.rooms, chat)
        ensures PeersOf(t.rooms, chat)[u] in t.links && Agrees(t, chat, PeersOf(t.rooms, chat)[u])
      {
        var pc := PeersOf(s.rooms, chat)[u];
        assert Agrees(s, chat, pc);
        assert RoomOk(s.rooms[chat], chat, s.links) && Filed(s.links, chat, u, pc);
      }
    }
  }

  lemma ReconcileKeepsSnapshots(s: State, task: Task)
    requires SnapshotInv(s)
    ensures SnapshotInv(Reconcile(s, task))
  {
    if CanReconcile(s, task) {
      assert TaskOk(s, task) && LinkOk(s, s.links[task.pc]);
      SnapshotsKept(s, Reconcile(s, task));
    }
  }

  lemma LeaveSettles(s: State)
    requires Shape(s) && Settling(s) && s.signal.Leaving?
    ensures Settling(Leave(s))
  {
    var Leaving(chat, user, pc, _) := s.signal;
    RemovalSettles(s, chat, user, pc);
    hide RemovePeerStep, Settling;
    QuietSettles(RemovePeerStep(s, chat, user, pc), Leave(s));
  }

  /** Finding a peer for a signal and opening a relay leave the shared state alone. */
  lemma SignalSettles(s: State, t: State)
    requires Settling(s) && t.rooms == s.rooms && t.links == s.links && t.work == s.work && t.versions == s.versions
    ensures Settling(t)
  {
    QuietSettles(s, t);
  }

  lemma {:induction false} SettlingKept(s: State, step: Step)
    requires Shape(s) && Settling(s) && (step.ReconcilePeer? ==> InOrder(s, step.task))
    ensures Settling(Next(s, step))
  {
    hide Settling, Shape, Leave, Connect, Join, Answer, Feed, Start, End, Visit, Snapshot, Reconcile, Close;
    hide RemovePeerStep, InOrder;
    match step
    case Continue(newPc) =>
      match s.signal {
        case Leaving(_, _, _, _) => LeaveSettles(s);
        case Admitted(_, _) => ConnectSettles(s, newPc);
        case Joining(_, _, _) => JoinSettles(s);
        case Answering(_, _) => AnswerSettles(s);
        case Feeding(_, _) => FeedSettles(s);
        case _ => SignalSettles(s, Next(s, step));
      }
    case ConnectionLost(pc) =>
      if pc in s.links {
        RemovalSettles(s, s.links[pc].chat, s.links[pc].peer.user, pc);
      }
    case CloseConnection(pc) => CloseSettles(s, pc);
    case StartRelay(id) => RelaySettles(s, id);
    case EndRelay(id) => RelaySettles(s, id);
    case VisitRoom(chat) => VisitSettles(s, chat);
    case TakeSnapshot(chat, pc, again) => SnapshotSettles(s, chat, pc, again);
    case ReconcilePeer(task) => ReconcileSettles(s, task);
    case _ => SignalSettles(s, Next(s, step));
  }

  // ---------- Whole runs ----------

  /** Every reconcile of the run applies a snapshot no older than the peer's last one. */
  predicate InOrderRun(steps: seq<Step>) {
    steps == [] ||
    var before, step := steps[..|steps| - 1], steps[|steps| - 1];
    InOrderRun(before) && (step.ReconcilePeer? ==> InOrder(Exec(before), step.task))
  }

  lemma {:induction false} AlwaysSettling(steps: seq<Step>)
    requires InOrderRun(steps)
    ensures Settling(Exec(steps))
  {
    if steps != [] {
      var before, step := steps[..|steps| - 1], steps[|steps| - 1];
      AlwaysSettling(before);
      ShapeAlways(before);
      SettlingKept(Exec(before), step);
    }
  }

  /** The peer sends exactly the other members' current tracks. */
  predicate UpToDate(s: State, chat: string, user: string)
    requires user in PeersOf(s.rooms, chat) && PeersOf(s.rooms, chat)[user] in s.links
  {
    s.links[PeersOf(s.rooms, chat)[user]].peer.senders == Desired(user, TracksOf(s.rooms, chat))
  }

  /** In every state of an in-order run each open peer of a room sends exactly the room's
      current tracks but its own, or a negotiation with the current tracks is still due. */
  lemma {:induction false} FanOutConverges(steps: seq<Step>, chat: string, user: string)
    requires InOrderRun(steps) && user in PeersOf(Exec(steps).rooms, chat)
    ensures var s := Exec(steps);
            var pc := PeersOf(s.rooms, chat)[user];
            pc in s.links && (s.links[pc].peer.closed || UpToDate(s, chat, user) || Owes(s, chat, pc))
  {
    var s := Exec(steps);
    AlwaysSettling(steps);
    ShapeAlways(steps);
    var pc := PeersOf(s.rooms, chat)[user];
    assert RoomOk(s.rooms[chat], chat, s.links) && Filed(s.links, chat, user, pc);
    assert Agrees(s, chat, pc) && LinkOk(s, s.links[pc]);
  }

  /** No goroutine still has to negotiate in this chat. */
  predicate QuietChat(s: State, chat: string) {
    forall t | t in s.work :: t.Closing? || t.chat != chat
  }

  // ---------- Overlapping negotiations ----------

  /** Some negotiation of the peer has taken its snapshot and not been reconciled. */
  predicate Busy(s: State, pc: PcId) {
    exists t | t in s.work :: t.InFlight? && t.pc == pc
  }

  /** Two negotiations of one peer never overlap. */
  predicate OneAtATime(steps: seq<Step>) {
    steps == [] ||
    var before, step := steps[..|steps| - 1], steps[|steps| - 1];
    OneAtATime(before) && (step.TakeSnapshot? ==> !Busy(Exec(before), step.pc))
  }

  ghost predicate Serial(s: State) {
    && (forall t, t' | t in s.work && t' in s.work && t.InFlight? && t'.InFlight? && t.pc == t'.pc :: t == t')
    && (forall t | t in s.work && t.InFlight? && t.pc in s.links :: t.version >= s.links[t.pc].seen)
  }

  /** No snapshot is taken and no peer is reconciled. */
  ghost predicate NoNewSnapshots(s: State, t: State) {
    && (forall x | x in t.work && x.InFlight? :: x in s.work)
    && (forall pc | pc in s.links :: pc in t.links && t.links[pc].seen == s.links[pc].seen)
  }

  lemma SerialKept(s: State, t: State)
    requires Serial(s) && SnapshotInv(s) && NoNewSnapshots(s, t)
    ensures Serial(t)
  {
    forall x | x in t.work && x.InFlight? && x.pc in t.links ensures x.version >= t.links[x.pc].seen {
      assert x in s.work && TaskOk(s, x);
    }
  }

  lemma SnapshotKeepsSerial(s: State, chat: string, pc: PcId, again: bool)
    requires Serial(s) && SnapshotInv(s) && !Busy(s, pc)
    ensures Serial(Snapshot(s, chat, pc, again))
  {
    if Queued(chat, pc, again) in s.work {
      assert TaskOk(s, Queued(chat, pc, again)) && LinkOk(s, s.links[pc]);
      hide LinkOk, TaskOk, Version, TracksOf;
    }
  }

  lemma ReconcileKeepsSerial(s: State, task: Task)
    requires Serial(s)
    ensures Serial(Reconcile(s, task)) && InOrder(s, task)
  {
    hide Negotiated;
  }

  lemma LoopTakesNoSnapshot(s: State, newPc: PcId)
    ensures s.signal.Leaving? ==> NoNewSnapshots(s, Leave(s))
    ensures s.signal.Admitted? ==> NoNewSnapshots(s, Connect(s, newPc))
    ensures s.signal.Joining? ==> NoNewSnapshots(s, Join(s))
  {
    hide Inserted, Removed, RemovePeerStep, Add;
  }

  lemma AnswerTakesNoSnapshot(s: State)
    requires s.signal.Answering?
    ensures NoNewSnapshots(s, Answer(s))
  {
    hide Answered, Add, Accepts;
  }

  lemma PeerTakesNoSnapshot(s: State, pc: PcId)
    ensures s.signal.Feeding? ==> NoNewSnapshots(s, Feed(s))
    ensures NoNewSnapshots(s, Close(s, pc))
  {
    hide WithCandidate, Done;
  }

  lemma RelayTakesNoSnapshot(s: State, id: nat)
    ensures NoNewSnapshots(s, Start(s, id)) && NoNewSnapshots(s, End(s, id))
  {
    hide Add, SetRooms, Registered, Unregistered, Unregisters;
  }

  lemma VisitTakesNoSnapshot(s: State, chat: string)
    ensures NoNewSnapshots(s, Visit(s, chat))
  {
    assert forall x | x in Visits(PeersOf(s.rooms, chat), chat) :: x.Queued?;
    hide Visits;
  }

  lemma OthersTakeNoSnapshot(s: State, step: Step)
    requires !step.TakeSnapshot? && !step.ReconcilePeer?
    ensures NoNewSnapshots(s, Next(s, step))
  {
    hide RemovePeerStep, Leave, Connect, Join, Answer, Feed, Close, Start, End, Visit;
    match step
    case Continue(newPc) =>
      LoopTakesNoSnapshot(s, newPc);
      PeerTakesNoSnapshot(s, 0);
      if s.signal.Answering? {
        AnswerTakesNoSnapshot(s);
      }
    case CloseConnection(pc) => PeerTakesNoSnapshot(s, pc);
    case StartRelay(id) => RelayTakesNoSnapshot(s, id);
    case EndRelay(id) => RelayTakesNoSnapshot(s, id);
    case VisitRoom(chat) => VisitTakesNoSnapshot(s, chat);
    case _ =>
  }

  lemma OthersKeepSerial(s: State, step: Step)
    requires Serial(s) && SnapshotInv(s) && !step.TakeSnapshot? && !step.ReconcilePeer?
    ensures Serial(Next(s, step))
  {
    hide Next, Serial, SnapshotInv, NoNewSnapshots;
    OthersTakeNoSnapshot(s, step);
    SerialKept(s, Next(s, step));
  }

  lemma SerialStep(s: State, step: Step)
    requires Serial(s) && SnapshotInv(s) && (step.TakeSnapshot? ==> !Busy(s, step.pc))
    ensures Serial(Next(s, step)) && (step.ReconcilePeer? ==> InOrder(s, step.task))
  {
    hide Serial, SnapshotInv, NoNewSnapshots, Snapshot, Reconcile, InOrder, Busy;
    match step
    case TakeSnapshot(chat, pc, again) => SnapshotKeepsSerial(s, chat, pc, again);
    case ReconcilePeer(task) => ReconcileKeepsSerial(s, task);
    case _ => OthersKeepSerial(s, step);
  }

  /** Taking snapshot and reconcile as one step, or just never letting two negotiations of
      one peer overlap, is enough for the reconciles to be in order. */
  lemma {:induction false} OneAtATimeIsInOrder(steps: seq<Step>)
    requires OneAtATime(steps)
    ensures InOrderRun(steps) && Serial(Exec(steps))
  {
    if steps != [] {
      var before, step := steps[..|steps| - 1], steps[|steps| - 1];
      OneAtATimeIsInOrder(before);
      AlwaysSettling(before);
      SerialStep(Exec(before), step);
    }
  }
}

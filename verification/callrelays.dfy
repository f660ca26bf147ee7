/** Tracks belong to live relays: what a room's track map holds was put there by a relay
    for that chat and user that has registered and not finished. */
module CallRelays {
  import opened Peers
  import opened Rooms
  import opened Calls

  ghost predicate OfLiveRelay(relays: map<nat, Relay>, chat: string, user: string, track: Track) {
    && track == LocalTrack(user, track.id)
    && track.id in relays && relays[track.id] == Relay(chat, user, Sending)
  }

  ghost predicate TracksLive(rooms: Table, relays: map<nat, Relay>) {
    forall chat, u | u in TracksOf(rooms, chat) :: OfLiveRelay(relays, chat, u, TracksOf(rooms, chat)[u])
  }

  ghost predicate SnapshotsOwned(work: multiset<Task>) {
    forall t | t in work && t.InFlight? :: WellOwned(t.tracks)
  }

  ghost predicate RelayInv(s: State) {
    TracksLive(s.rooms, s.relays) && SnapshotsOwned(s.work)
  }

  /** No track is new and none is replaced. */
  ghost predicate OnlyDropsTracks(rooms: Table, rooms': Table) {
    forall chat, u | u in TracksOf(rooms', chat) ::
      u in TracksOf(rooms, chat) && TracksOf(rooms', chat)[u] == TracksOf(rooms, chat)[u]
  }

  lemma PeerRegionsDropTracks(rooms: Table, chat: string, user: string, pc: PcId)
    ensures OnlyDropsTracks(rooms, Removed(rooms, chat, user, pc))
    ensures OnlyDropsTracks(rooms, Inserted(rooms, chat, user, pc))
  {
  }

  lemma DroppedTracksLive(rooms: Table, rooms': Table, relays: map<nat, Relay>)
    requires TracksLive(rooms, relays) && OnlyDropsTracks(rooms, rooms')
    ensures TracksLive(rooms', relays)
  {
  }

  lemma StartLive(rooms: Table, relays: map<nat, Relay>, id: nat)
    requires TracksLive(rooms, relays) && id in relays && relays[id].phase == Opened
    ensures var Relay(chat, user, _) := relays[id];
            TracksLive(Registered(rooms, chat, user, LocalTrack(user, id)),
                       relays[id := Relay(chat, user, Sending)])
  {
    var Relay(chat, user, _) := relays[id];
    var rooms' := Registered(rooms, chat, user, LocalTrack(user, id));
    var relays' := relays[id := Relay(chat, user, Sending)];
    forall c, u | u in TracksOf(rooms', c) ensures OfLiveRelay(relays', c, u, TracksOf(rooms', c)[u]) {
      if c != chat || u != user {
        assert OfLiveRelay(relays, c, u, TracksOf(rooms, c)[u]);
      }
    }
  }

  lemma FinishLive(rooms: Table, relays: map<nat, Relay>, id: nat)
    requires TracksLive(rooms, relays) && id in relays
    ensures var Relay(chat, user, _) := relays[id];
            TracksLive(Unregistered(rooms, chat, user, LocalTrack(user, id)),
                       relays[id := Relay(chat, user, Finished)])
  {
    var Relay(chat, user, _) := relays[id];
    var rooms' := Unregistered(rooms, chat, user, LocalTrack(user, id));
    var relays' := relays[id := Relay(chat, user, Finished)];
    forall c, u | u in TracksOf(rooms', c) ensures OfLiveRelay(relays', c, u, TracksOf(rooms', c)[u]) {
      assert u in TracksOf(rooms, c);
      assert OfLiveRelay(relays, c, u, TracksOf(rooms, c)[u]);
    }
  }

  lemma OpenLive(s: State, pc: PcId, id: nat)
    requires RelayInv(s)
    ensures RelayInv(Open(s, pc, id))
  {
    forall c, u | u in TracksOf(s.rooms, c)
      ensures OfLiveRelay(Open(s, pc, id).relays, c, u, TracksOf(s.rooms, c)[u])
    {
      assert OfLiveRelay(s.relays, c, u, TracksOf(s.rooms, c)[u]);
    }
  }

  lemma RelaysKeepLive(s: State, id: nat)
    requires RelayInv(s)
    ensures RelayInv(Start(s, id)) && RelayInv(End(s, id))
  {
    hide Add, SetRooms, Registered, Unregistered, Unregisters, TracksLive;
    if id in s.relays {
      if InPhase(s, id, Opened) {
        StartLive(s.rooms, s.relays, id);
        UnregisteredNothing(s.rooms, s.relays, id);
      }
      FinishLive(s.rooms, s.relays, id);
    }
  }

  /** A relay that finds no room had no track anywhere. */
  lemma UnregisteredNothing(rooms: Table, relays: map<nat, Relay>, id: nat)
    requires TracksLive(rooms, relays) && id in relays && relays[id].phase == Opened
    ensures TracksLive(rooms, relays[id := relays[id].(phase := Finished)])
  {
    var relays' := relays[id := relays[id].(phase := Finished)];
    forall c, u | u in TracksOf(rooms, c) ensures OfLiveRelay(relays', c, u, TracksOf(rooms, c)[u]) {
      assert OfLiveRelay(relays, c, u, TracksOf(rooms, c)[u]);
    }
  }

  lemma PeerStepsKeepLive(s: State, chat: string, user: string, pc: PcId)
    requires RelayInv(s)
    ensures RelayInv(RemovePeerStep(s, chat, user, pc))
    ensures s.signal.Joining? ==> RelayInv(Join(s))
  {
    hide RemovePeerStep, Removed, Inserted, Add, TracksLive, OnlyDropsTracks;
    PeerRegionsDropTracks(s.rooms, chat, user, pc);
    DroppedTracksLive(s.rooms, Removed(s.rooms, chat, user, pc), s.relays);
    if s.signal.Joining? {
      PeerRegionsDropTracks(s.rooms, s.signal.chat, s.signal.user, s.signal.pc);
      DroppedTracksLive(s.rooms, Join(s).rooms, s.relays);
    }
  }

  lemma SnapshotOwned(s: State, chat: string, pc: PcId, again: bool)
    requires RelayInv(s)
    ensures RelayInv(Snapshot(s, chat, pc, again))
  {
    hide Add, Done;
    assert forall u | u in TracksOf(s.rooms, chat) :: OfLiveRelay(s.relays, chat, u, TracksOf(s.rooms, chat)[u]);
  }

  /** A step that touches neither rooms nor relays and takes no snapshot. */
  lemma SameRelayInv(s: State, t: State)
    requires RelayInv(s) && t.rooms == s.rooms && t.relays == s.relays
    requires forall x | x in t.work && x.InFlight? :: x in s.work
    ensures RelayInv(t)
  {
  }

  lemma OnlyQueuedAreNew(s: State, chat: string, x: Task)
    requires x in Visit(s, chat).work && x.InFlight?
    ensures x in s.work
  {
    hide Visit;
  }

  lemma VisitKeepsLive(s: State, chat: string)
    requires RelayInv(s)
    ensures RelayInv(Visit(s, chat))
  {
    hide RelayInv, Visit, IsVisit;
    forall x | x in Visit(s, chat).work && x.InFlight?
      ensures x in s.work
    {
      OnlyQueuedAreNew(s, chat, x);
    }
    SameRelayInv(s, Visit(s, chat));
  }

  lemma CloseKeepsLive(s: State, pc: PcId)
    requires RelayInv(s)
    ensures RelayInv(Close(s, pc))
  {
    hide Done, RelayInv;
    SameRelayInv(s, Close(s, pc));
  }

  lemma ReconcileKeepsLive(s: State, task: Task)
    requires RelayInv(s)
    ensures RelayInv(Reconcile(s, task))
  {
    hide Done, Negotiated, RelayInv;
    SameRelayInv(s, Reconcile(s, task));
  }

  lemma LoopKeepsLive(s: State, newPc: PcId)
    requires RelayInv(s)
    ensures s.signal.Admitted? ==> RelayInv(Connect(s, newPc))
    ensures s.signal.Answering? ==> RelayInv(Answer(s))
    ensures s.signal.Feeding? ==> RelayInv(Feed(s))
    ensures s.signal.Checking? ==> RelayInv(Check(s))
    ensures s.signal.Leaving? ==> RelayInv(Leave(s))
  {
    hide Add, RemovePeerStep, Answered, WithCandidate, RelayInv;
    match s.signal
    case Admitted(_, _) => SameRelayInv(s, Connect(s, newPc));
    case Answering(_, _) => SameRelayInv(s, Answer(s));
    case Feeding(_, _) => SameRelayInv(s, Feed(s));
    case Checking(_, _) => SameRelayInv(s, Check(s));
    case Leaving(chat, user, pc, _) =>
      PeerStepsKeepLive(s, chat, user, pc);
      SameRelayInv(RemovePeerStep(s, chat, user, pc), Leave(s));
    case _ =>
  }

  lemma RelayInvKept(s: State, step: Step)
    requires RelayInv(s)
    ensures RelayInv(Next(s, step))
  {
    hide RemovePeerStep, Leave, Join, Connect, Check, Answer, Feed, Start, End;
    hide Snapshot, Visit, Reconcile, Close, RelayInv;
    match step
    case Continue(newPc) =>
      LoopKeepsLive(s, newPc);
      if s.signal.Joining? {
        PeerStepsKeepLive(s, "", "", 0);
      }
    case ConnectionLost(pc) =>
      if pc in s.links {
        PeerStepsKeepLive(s, s.links[pc].chat, s.links[pc].peer.user, pc);
      }
    case StartRelay(id) => RelaysKeepLive(s, id);
    case EndRelay(id) => RelaysKeepLive(s, id);
    case OpenRelay(pc, id) => OpenLive(s, pc, id);
    case TakeSnapshot(chat, pc, again) => SnapshotOwned(s, chat, pc, again);
    case VisitRoom(chat) => VisitKeepsLive(s, chat);
    case CloseConnection(pc) => CloseKeepsLive(s, pc);
    case ReconcilePeer(task) => ReconcileKeepsLive(s, task);
    case _ => SameRelayInv(s, Next(s, step));
  }

  lemma {:induction false} TracksAlwaysLive(steps: seq<Step>)
    ensures RelayInv(Exec(steps))
  {
    if steps != [] {
      TracksAlwaysLive(steps[..|steps| - 1]);
      RelayInvKept(Exec(steps[..|steps| - 1]), steps[|steps| - 1]);
    }
  }

  lemma OthersStayRegistered(rooms: Table, chat: string, user: string, track: Track)
    ensures var after := Unregistered(rooms, chat, user, track);
            forall c, u | u in TracksOf(rooms, c) && TracksOf(rooms, c)[u] != track ::
              u in TracksOf(after, c) && TracksOf(after, c)[u] == TracksOf(rooms, c)[u]
  {
  }

  /** In every reachable state a finishing relay takes its own track out of every room and
      leaves every other relay's track where it is, even when the room has been deleted
      and created again in between. */
  lemma {:induction false} FinishingTakesOwnTrackOnly(steps: seq<Step>, id: nat)
    requires InPhase(Exec(steps), id, Sending)
    ensures var before, after := Exec(steps).rooms, Exec(steps + [EndRelay(id)]).rooms;
            && (forall chat, u | u in TracksOf(before, chat) && TracksOf(before, chat)[u].id != id ::
                  u in TracksOf(after, chat) && TracksOf(after, chat)[u] == TracksOf(before, chat)[u])
            && (forall chat, u | u in TracksOf(after, chat) :: TracksOf(after, chat)[u].id != id)
  {
    hide Unregistered, Unregisters, TracksOf;
    var s := Exec(steps);
    assert (steps + [EndRelay(id)])[..|steps|] == steps;
    var t := End(s, id);
    OthersStayRegistered(s.rooms, s.relays[id].chat, s.relays[id].user, LocalTrack(s.relays[id].user, id));
    TracksAlwaysLive(steps + [EndRelay(id)]);
    forall chat, u | u in TracksOf(t.rooms, chat) ensures TracksOf(t.rooms, chat)[u].id != id {
      assert OfLiveRelay(t.relays, chat, u, TracksOf(t.rooms, chat)[u]);
    }
  }
}

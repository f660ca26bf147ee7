/** The whole call server as a step system: the signal loop, the relays, the connection
    callbacks and the queued negotiations meet only at the room table's mutex and the
    peers' mutexes, so every step is one region that holds one of them. */
module Calls {
  import opened Peers
  import opened Rooms

  // ---------- State ----------

  datatype Phase = Opened | Sending | Finished

  datatype Relay = Relay(chat: string, user: string, phase: Phase)

  /** Work some goroutine still has to do. `again` marks the continuation of an answer.
      `version` counts the changes of the chat's tracks up to the snapshot. */
  datatype Task =
    | RenegotiateAll(chat: string)
    | Queued(chat: string, pc: PcId, again: bool)
    | InFlight(chat: string, pc: PcId, tracks: Tracks, version: nat, again: bool)
    | Closing(pc: PcId)

  /** Where the signal loop stands inside the signal it is handling. */
  datatype SignalLoop =
    | Idle
    | Leaving(chat: string, user: string, pc: PcId, rejoin: bool)
    | Checking(chat: string, user: string)
    | Admitted(chat: string, user: string)
    | Joining(chat: string, user: string, pc: PcId)
    | Answering(chat: string, pc: PcId)
    | Feeding(pc: PcId, candidate: Candidate)

  /** A peer with the chat its callbacks were made for and the version of the snapshot it
      was last reconciled with (-1: none yet). */
  datatype Link = Link(chat: string, peer: PeerState, seen: int)

  datatype State = State(
    rooms: Table, links: map<PcId, Link>, relays: map<nat, Relay>,
    work: multiset<Task>, signal: SignalLoop, versions: map<string, nat>)

  const INIT := State(map[], map[], map[], multiset{}, Idle, map[])

  function Version(s: State, chat: string): nat {
    if chat in s.versions then s.versions[chat] else 0
  }

  // ---------- Steps ----------

  datatype Step =
    | SignalJoin(chat: string, user: string)
    | SignalHangup(chat: string, user: string)
    | SignalAnswer(chat: string, user: string)
    | SignalIce(chat: string, user: string, candidate: Candidate)
    | Continue(newPc: PcId)
    | ConnectionLost(pc: PcId)
    | CloseConnection(pc: PcId)
    | OpenRelay(pc: PcId, id: nat)
    | StartRelay(id: nat)
    | EndRelay(id: nat)
    | VisitRoom(chat: string)
    | TakeSnapshot(chat: string, pc: PcId, again: bool)
    | ReconcilePeer(task: Task)

  /** Nothing but the pending work differs. */
  ghost predicate OnlyWork(s: State, t: State) {
    && t.rooms == s.rooms && t.links == s.links && t.relays == s.relays
    && t.signal == s.signal && t.versions == s.versions
  }

  function Add(s: State, task: Task): (t: State)
    ensures OnlyWork(s, t) && t.work == s.work + multiset{task}
  {
    s.(work := s.work + multiset{task})
  }

  function Done(s: State, task: Task): (t: State)
    ensures OnlyWork(s, t) && t.work == s.work - multiset{task}
  {
    s.(work := s.work - multiset{task})
  }

  function SetPeer(s: State, pc: PcId, p: PeerState): (t: State)
    requires pc in s.links
    ensures t == s.(links := s.links[pc := s.links[pc].(peer := p)])
  {
    s.(links := s.links[pc := s.links[pc].(peer := p)])
  }

  /** A new table; the chat's version moves when its tracks change. */
  function SetRooms(s: State, chat: string, rooms: Table, changed: bool): (t: State)
    ensures t.rooms == rooms && t.links == s.links && t.relays == s.relays
    ensures t.work == s.work && t.signal == s.signal
    ensures t.versions == if changed then s.versions[chat := Version(s, chat) + 1] else s.versions
  {
    s.(rooms := rooms, versions := if changed then s.versions[chat := Version(s, chat) + 1] else s.versions)
  }

  /** `removePeer`: the region, and the close and the renegotiation that follow it. */
  function RemovePeerStep(s: State, chat: string, user: string, pc: PcId): (t: State)
    ensures t.rooms == Removed(s.rooms, chat, user, pc) && t.links == s.links
    ensures t.relays == s.relays && t.signal == s.signal
    ensures t.work == s.work + multiset{Closing(pc)}
                      + if Removes(s.rooms, chat, user, pc) then multiset{RenegotiateAll(chat)} else multiset{}
    ensures t.versions == if Removes(s.rooms, chat, user, pc) && chat !in t.rooms
                          then s.versions[chat := Version(s, chat) + 1] else s.versions
  {
    var closing := Add(s, Closing(pc));
    if Removes(s.rooms, chat, user, pc)
    then
      var rooms := Removed(s.rooms, chat, user, pc);
      Add(SetRooms(closing, chat, rooms, chat !in rooms), RenegotiateAll(chat))
    else closing
  }

  // ----- The signal loop -----

  function FindForLeave(s: State, chat: string, user: string, rejoin: bool): State {
    match Find(s.rooms, chat, user)
    case Some(pc) => s.(signal := Leaving(chat, user, pc, rejoin))
    case None => s.(signal := if rejoin then Checking(chat, user) else Idle)
  }

  function FindForAnswer(s: State, chat: string, user: string): State {
    match Find(s.rooms, chat, user)
    case Some(pc) => s.(signal := Answering(chat, pc))
    case None => s
  }

  function FindForIce(s: State, chat: string, user: string, candidate: Candidate): State {
    match Find(s.rooms, chat, user)
    case Some(pc) => s.(signal := Feeding(pc, candidate))
    case None => s
  }

  function Leave(s: State): State
    requires s.signal.Leaving?
  {
    var Leaving(chat, user, pc, rejoin) := s.signal;
    RemovePeerStep(s, chat, user, pc).(signal := if rejoin then Checking(chat, user) else Idle)
  }

  function Check(s: State): State
    requires s.signal.Checking?
  {
    s.(signal := if IsFull(s.rooms, s.signal.chat) then Idle else Admitted(s.signal.chat, s.signal.user))
  }

  function Connect(s: State, pc: PcId): State
    requires s.signal.Admitted?
  {
    var Admitted(chat, user) := s.signal;
    if pc in s.links then s
    else s.(links := s.links[pc := Link(chat, FreshPeer(user), -1)], signal := Joining(chat, user, pc))
  }

  function Join(s: State): State
    requires s.signal.Joining?
  {
    var Joining(chat, user, pc) := s.signal;
    Add(s.(rooms := Inserted(s.rooms, chat, user, pc), signal := Idle), Queued(chat, pc, false))
  }

  function Answer(s: State): State
    requires s.signal.Answering?
  {
    var Answering(chat, pc) := s.signal;
    if pc !in s.links then s
    else
      var p := s.links[pc].peer;
      var t := SetPeer(s, pc, Answered(p)).(signal := Idle);
      if Accepts(p) && p.needsOffer then Add(t, Queued(chat, pc, true)) else t
  }

  function Feed(s: State): State
    requires s.signal.Feeding?
  {
    var Feeding(pc, candidate) := s.signal;
    if pc !in s.links then s
    else SetPeer(s, pc, WithCandidate(s.links[pc].peer, candidate)).(signal := Idle)
  }

  // ----- The relays -----

  /** A track has arrived on a connection. */
  function Open(s: State, pc: PcId, id: nat): State {
    if id in s.relays || pc !in s.links then s
    else s.(relays := s.relays[id := Relay(s.links[pc].chat, s.links[pc].peer.user, Opened)])
  }

  predicate InPhase(s: State, id: nat, phase: Phase) {
    id in s.relays && s.relays[id].phase == phase
  }

  function SetPhase(s: State, id: nat, phase: Phase): State
    requires id in s.relays
  {
    s.(relays := s.relays[id := s.relays[id].(phase := phase)])
  }

  /** A relay that finds no room gives up at once. */
  function Start(s: State, id: nat): State {
    if !InPhase(s, id, Opened) then s
    else
      var Relay(chat, user, _) := s.relays[id];
      if chat !in s.rooms then SetPhase(s, id, Finished)
      else
        var rooms := Registered(s.rooms, chat, user, LocalTrack(user, id));
        Add(SetRooms(SetPhase(s, id, Sending), chat, rooms, true), RenegotiateAll(chat))
  }

  function End(s: State, id: nat): State {
    if !InPhase(s, id, Sending) then s
    else
      var Relay(chat, user, _) := s.relays[id];
      var track := LocalTrack(user, id);
      var rooms := Unregistered(s.rooms, chat, user, track);
      Add(SetRooms(SetPhase(s, id, Finished), chat, rooms, Unregisters(s.rooms, chat, user, track)),
          RenegotiateAll(chat))
  }

  // ----- The negotiations -----

  /** The negotiations one `renegotiateAll` queues. */
  function Visits(peers: map<string, PcId>, chat: string): multiset<Task> {
    multiset(set u | u in peers :: Queued(chat, peers[u], false))
  }

  /** A negotiation with one of the room's peers. */
  ghost predicate IsVisit(s: State, chat: string, x: Task) {
    && x.Queued? && x.chat == chat && !x.again
    && exists u | u in PeersOf(s.rooms, chat) :: PeersOf(s.rooms, chat)[u] == x.pc
  }

  function Visit(s: State, chat: string): (t: State)
    ensures OnlyWork(s, t)
    ensures forall x | x in s.work && !x.RenegotiateAll? :: x in t.work
    ensures forall x | x in t.work :: x in s.work || IsVisit(s, chat, x)
  {
    if RenegotiateAll(chat) !in s.work then s
    else
      s.(work := s.work - multiset{RenegotiateAll(chat)} + Visits(PeersOf(s.rooms, chat), chat))
  }

  function Snapshot(s: State, chat: string, pc: PcId, again: bool): State {
    if Queued(chat, pc, again) !in s.work then s
    else
      Add(Done(s, Queued(chat, pc, again)),
          InFlight(chat, pc, TracksOf(s.rooms, chat), Version(s, chat), again))
  }

  predicate CanReconcile(s: State, task: Task) {
    task.InFlight? && task in s.work && task.pc in s.links
  }

  function Reconcile(s: State, task: Task): State {
    if !CanReconcile(s, task) then s
    else
      var l := s.links[task.pc];
      var seen := if l.peer.closed then l.seen else task.version;
      Done(s, task).(links := s.links[task.pc := Link(l.chat, Negotiated(l.peer, task.tracks), seen)])
  }

  // ----- The connection callbacks -----

  function Lose(s: State, pc: PcId): State {
    if pc !in s.links then s else RemovePeerStep(s, s.links[pc].chat, s.links[pc].peer.user, pc)
  }

  function Close(s: State, pc: PcId): State {
    if Closing(pc) !in s.work || pc !in s.links then s
    else Done(SetPeer(s, pc, s.links[pc].peer.(closed := true)), Closing(pc))
  }

  /** A step that is not possible in a state leaves it unchanged, so the step sequences
      are exactly the runs. */
  function Next(s: State, step: Step): State {
    match step
    case SignalJoin(chat, user) => if s.signal.Idle? then FindForLeave(s, chat, user, true) else s
    case SignalHangup(chat, user) => if s.signal.Idle? then FindForLeave(s, chat, user, false) else s
    case SignalAnswer(chat, user) => if s.signal.Idle? then FindForAnswer(s, chat, user) else s
    case SignalIce(chat, user, c) => if s.signal.Idle? then FindForIce(s, chat, user, c) else s
    case Continue(newPc) =>
      (match s.signal
       case Idle => s
       case Leaving(_, _, _, _) => Leave(s)
       case Checking(_, _) => Check(s)
       case Admitted(_, _) => Connect(s, newPc)
       case Joining(_, _, _) => Join(s)
       case Answering(_, _) => Answer(s)
       case Feeding(_, _) => Feed(s))
    case ConnectionLost(pc) => Lose(s, pc)
    case CloseConnection(pc) => Close(s, pc)
    case OpenRelay(pc, id) => Open(s, pc, id)
    case StartRelay(id) => Start(s, id)
    case EndRelay(id) => End(s, id)
    case VisitRoom(chat) => Visit(s, chat)
    case TakeSnapshot(chat, pc, again) => Snapshot(s, chat, pc, again)
    case ReconcilePeer(task) => Reconcile(s, task)
  }

  function Exec(steps: seq<Step>): State {
    if steps == [] then INIT else Next(Exec(steps[..|steps| - 1]), steps[|steps| - 1])
  }
}

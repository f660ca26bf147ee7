/** What the peers of the call server do is what single peers do: each connection's record is
    the run of its own events, and in a room that has come to rest two accepted answers are
    enough. */
module CallSettle {
  import opened Peers
  import opened Rooms
  import opened Calls
  import opened CallShape
  import opened CallConvergence
  import opened CallOffers
  import PeerRuns

  // ---------- One peer's part of a run ----------

  /** What a step does to the peer of this connection, if anything. */
  function EventOf(s: State, step: Step, pc: PcId): seq<PeerRuns.Event> {
    if pc !in s.links then []
    else
      match step
      case Continue(_) =>
        if s.signal.Answering? && s.signal.pc == pc then [PeerRuns.Answer]
        else if s.signal.Feeding? && s.signal.pc == pc then [PeerRuns.Ice(s.signal.candidate)]
        else []
      case ReconcilePeer(task) =>
        if CanReconcile(s, task) && task.pc == pc then [PeerRuns.Negotiate(task.tracks)] else []
      case CloseConnection(closed) =>
        if closed == pc && Closing(pc) in s.work then [PeerRuns.Close] else []
      case _ => []
  }

  function OwnEvents(steps: seq<Step>, pc: PcId): seq<PeerRuns.Event> {
    if steps == [] then []
    else OwnEvents(steps[..|steps| - 1], pc) + EventOf(Exec(steps[..|steps| - 1]), steps[|steps| - 1], pc)
  }

  function Moved(p: PeerState, events: seq<PeerRuns.Event>): PeerState {
    if events == [] then p else PeerRuns.Apply(p, events[0])
  }

  /** The steps that leave every peer alone. */
  lemma LoopLeavesPeers(s: State)
    ensures s.signal.Leaving? ==> Leave(s).links == s.links
    ensures s.signal.Joining? ==> Join(s).links == s.links
    ensures s.signal.Checking? ==> Check(s).links == s.links
  {
    hide RemovePeerStep, Inserted, Add;
  }

  lemma WorkLeavesPeers(s: State, step: Step)
    requires !step.Continue? && !step.ReconcilePeer? && !step.CloseConnection?
    ensures Next(s, step).links == s.links
  {
    hide RemovePeerStep, Start, End, Visit, Snapshot;
    match step
    case StartRelay(id) => RelayWork(s, id);
    case EndRelay(id) => RelayWork(s, id);
    case TakeSnapshot(chat, pc, again) => SnapshotLeavesPeers(s, chat, pc, again);
    case _ =>
  }

  lemma SnapshotLeavesPeers(s: State, chat: string, pc: PcId, again: bool)
    ensures Snapshot(s, chat, pc, again).links == s.links
  {
  }

  lemma LoopMovesPeer(s: State, newPc: PcId, pc: PcId)
    requires pc in s.links
    ensures pc in Next(s, Continue(newPc)).links
    ensures Next(s, Continue(newPc)).links[pc].chat == s.links[pc].chat
    ensures Next(s, Continue(newPc)).links[pc].peer == Moved(s.links[pc].peer, EventOf(s, Continue(newPc), pc))
  {
    hide Leave, Join, Check, Answer, Feed, Connect;
    LoopLeavesPeers(s);
    if s.signal.Answering? {
      AnswerMovesPeer(s, pc);
    } else if s.signal.Feeding? {
      FeedMovesPeer(s, pc);
    } else if s.signal.Admitted? {
      ConnectMovesNobody(s, newPc, pc);
    }
  }

  lemma AnswerMovesPeer(s: State, pc: PcId)
    requires pc in s.links && s.signal.Answering?
    ensures pc in Answer(s).links && Answer(s).links[pc].chat == s.links[pc].chat
    ensures Answer(s).links[pc].peer
            == if s.signal.pc == pc then Answered(s.links[pc].peer) else s.links[pc].peer
  {
    hide Answered, Accepts;
    var at := s.signal.pc;
    if at in s.links {
      assert Answer(s).links == SetPeer(s, at, Answered(s.links[at].peer)).links;
    }
  }

  lemma FeedMovesPeer(s: State, pc: PcId)
    requires pc in s.links && s.signal.Feeding?
    ensures pc in Feed(s).links && Feed(s).links[pc].chat == s.links[pc].chat
    ensures Feed(s).links[pc].peer
            == if s.signal.pc == pc then WithCandidate(s.links[pc].peer, s.signal.candidate) else s.links[pc].peer
  {
    hide WithCandidate;
  }

  lemma ConnectMovesNobody(s: State, newPc: PcId, pc: PcId)
    requires pc in s.links && s.signal.Admitted?
    ensures pc in Connect(s, newPc).links && Connect(s, newPc).links[pc] == s.links[pc]
  {
  }

  lemma StepMovesPeer(s: State, step: Step, pc: PcId)
    requires pc in s.links
    ensures pc in Next(s, step).links
    ensures Next(s, step).links[pc].chat == s.links[pc].chat
    ensures Next(s, step).links[pc].peer == Moved(s.links[pc].peer, EventOf(s, step, pc))
  {
    match step
    case Continue(newPc) => LoopMovesPeer(s, newPc, pc);
    case ReconcilePeer(task) => ReconcileMovesPeer(s, task, pc);
    case CloseConnection(closed) => CloseMovesPeer(s, closed, pc);
    case _ =>
      hide Next;
      WorkLeavesPeers(s, step);
  }

  lemma ReconcileMovesPeer(s: State, task: Task, pc: PcId)
    requires pc in s.links
    ensures pc in Reconcile(s, task).links && Reconcile(s, task).links[pc].chat == s.links[pc].chat
    ensures Reconcile(s, task).links[pc].peer == Moved(s.links[pc].peer, EventOf(s, ReconcilePeer(task), pc))
  {
    hide Negotiated;
  }

  lemma CloseMovesPeer(s: State, closed: PcId, pc: PcId)
    requires pc in s.links
    ensures pc in Close(s, closed).links && Close(s, closed).links[pc].chat == s.links[pc].chat
    ensures Close(s, closed).links[pc].peer == Moved(s.links[pc].peer, EventOf(s, CloseConnection(closed), pc))
  {
  }

  lemma StepMakesPeer(s: State, step: Step, pc: PcId)
    requires pc !in s.links && pc in Next(s, step).links
    ensures var p := Next(s, step).links[pc].peer; p == FreshPeer(p.user)
  {
    hide RemovePeerStep, Negotiated, Answered, WithCandidate, Leave, Join, Check, Start, End, Visit, Snapshot;
    if step.Continue? {
      LoopLeavesPeers(s);
    } else if !step.ReconcilePeer? && !step.CloseConnection? {
      hide Next;
      WorkLeavesPeers(s, step);
    }
  }

  /** In every run of the server each connection's peer is the run of its own events. */
  lemma {:induction false} LinkIsItsRun(steps: seq<Step>, pc: PcId)
    ensures pc !in Exec(steps).links ==> OwnEvents(steps, pc) == []
    ensures pc in Exec(steps).links ==>
              var p := Exec(steps).links[pc].peer;
              p == PeerRuns.Run(FreshPeer(p.user), OwnEvents(steps, pc))
  {
    hide Next, EventOf, FreshPeer, PeerRuns.Apply;
    if steps != [] {
      var before, step := steps[..|steps| - 1], steps[|steps| - 1];
      var s, events := Exec(before), EventOf(Exec(before), step, pc);
      LinkIsItsRun(before, pc);
      OneEventAtMost(s, step, pc);
      assert OwnEvents(before, pc) + [] == OwnEvents(before, pc);
      if pc in s.links {
        StepMovesPeer(s, step, pc);
        RunGoesOn(s.links[pc].peer.user, OwnEvents(before, pc), events);
      } else if pc in Next(s, step).links {
        StepMakesPeer(s, step, pc);
      }
    }
  }

  lemma OneEventAtMost(s: State, step: Step, pc: PcId)
    ensures |EventOf(s, step, pc)| <= 1
    ensures pc !in s.links ==> EventOf(s, step, pc) == []
  {
  }

  lemma RunGoesOn(user: string, events: seq<PeerRuns.Event>, more: seq<PeerRuns.Event>)
    requires |more| <= 1
    ensures PeerRuns.Run(FreshPeer(user), events + more) == Moved(PeerRuns.Run(FreshPeer(user), events), more)
    ensures Moved(PeerRuns.Run(FreshPeer(user), events), more).user == PeerRuns.Run(FreshPeer(user), events).user
  {
    if more == [] {
      assert events + more == events;
    } else {
      assert (events + more)[..|events|] == events;
    }
  }

  /** In every reachable state, for every connection: the candidates handed over followed by
      those buffered are those that reached the connection, in order, less only the early ones
      after the fiftieth; the buffer is bounded and is empty once there is a remote
      description. */
  lemma {:induction false} CandidatesKeepOrder(steps: seq<Step>, pc: PcId)
    requires pc in Exec(steps).links
    ensures var p, events := Exec(steps).links[pc].peer, OwnEvents(steps, pc);
            var early := PeerRuns.ArrivalsWhen(FreshPeer(p.user), events, true);
            var late := PeerRuns.ArrivalsWhen(FreshPeer(p.user), events, false);
            PeerRuns.Arrivals(events) == early + late && PeerRuns.InOrder(p, early, late)
  {
    hide Exec, OwnEvents, PeerRuns.Arrivals, PeerRuns.ArrivalsWhen, PeerRuns.InOrder, FreshPeer, PeerRuns.Run;
    LinkIsItsRun(steps, pc);
    PeerRuns.IceKeepsOrder(Exec(steps).links[pc].peer.user, OwnEvents(steps, pc));
  }

  // ---------- A room at rest ----------

  /** A negotiation of this peer. */
  predicate IsOwn(x: Task, pc: PcId) {
    (x.Queued? || x.InFlight?) && x.pc == pc
  }

  /** The connection is open, the chat's tracks are these, and nobody but an answer's
      continuation negotiates with the peer. */
  ghost predicate Calm(s: State, chat: string, pc: PcId, tracks: Tracks) {
    && pc in s.links && s.links[pc].chat == chat && !s.links[pc].peer.closed
    && TracksOf(s.rooms, chat) == tracks
    && forall x | x in s.work && IsOwn(x, pc) :: x.again
  }

  /** Answers that were accepted, or have still to come, before the peer is settled. */
  function StillOwed(p: PeerState): nat {
    (if p.signaling == HaveLocalOffer then 1 else 0) + (if p.needsOffer then 1 else 0)
  }

  /** Since it was `start`, the peer's flag has not been set, and clearing it has brought the
      current tracks. */
  predicate Since(p: PeerState, start: PeerState, tracks: Tracks) {
    && p.user == start.user && (p.needsOffer ==> start.needsOffer)
    && p.senders == if start.needsOffer && !p.needsOffer then Desired(p.user, tracks) else start.senders
  }

  /** The peer is tidy, and at most the one continuation that it owes is pending. */
  ghost predicate AtRest(s: State, chat: string, pc: PcId, tracks: Tracks, start: PeerState)
    requires pc in s.links
  {
    var p := s.links[pc].peer;
    && Since(p, start, tracks)
    && (!p.needsOffer ==> p.offered == p.senders)
    && forall x | x in s.work && IsOwn(x, pc) ::
         && p.signaling == Stable && p.needsOffer && s.work[x] == 1 && x.chat == chat
         && (x.InFlight? ==> x.tracks == tracks)
         && forall y | y in s.work && IsOwn(y, pc) :: y == x
  }

  /** The same continuations of this peer are pending. */
  ghost predicate SameContinuations(s: State, t: State, pc: PcId) {
    forall x | IsOwn(x, pc) && x.again :: t.work[x] == s.work[x]
  }

  /** Steps that neither touch the peer's exchange nor its continuations. */
  lemma RestKept(s: State, t: State, chat: string, pc: PcId, tracks: Tracks, start: PeerState)
    requires pc in s.links && AtRest(s, chat, pc, tracks, start) && Calm(t, chat, pc, tracks)
    requires var p, q := s.links[pc].peer, t.links[pc].peer;
             q == p.(applied := q.applied, buffered := q.buffered)
    requires SameContinuations(s, t, pc)
    ensures AtRest(t, chat, pc, tracks, start) && StillOwed(t.links[pc].peer) == StillOwed(s.links[pc].peer)
  {
    forall x | x in t.work && IsOwn(x, pc)
      ensures x in s.work
    {
      assert x.again && t.work[x] == s.work[x];
    }
  }

  lemma AnswerAtRest(s: State, chat: string, pc: PcId, tracks: Tracks, start: PeerState)
    requires Shape(s) && Calm(s, chat, pc, tracks) && AtRest(s, chat, pc, tracks, start)
    requires s.signal.Answering? && s.signal.pc == pc
    ensures pc in Answer(s).links && AtRest(Answer(s), chat, pc, tracks, start)
    ensures var p := s.links[pc].peer;
            StillOwed(Answer(s).links[pc].peer) + (if Accepts(p) then 1 else 0) == StillOwed(p)
  {
    hide RoomShape;
    var again := Queued(chat, pc, true);
    assert s.links[pc].chat == s.signal.chat == chat;
    if Accepts(s.links[pc].peer) {
      assert forall x | x in s.work :: !IsOwn(x, pc);
      assert again !in s.work;
    }
  }

  lemma SnapshotAtRest(s: State, chat: string, pc: PcId, tracks: Tracks, own: string, again: bool, start: PeerState)
    requires Calm(s, chat, pc, tracks) && AtRest(s, chat, pc, tracks, start)
    ensures AtRest(Snapshot(s, own, pc, again), chat, pc, tracks, start)
  {
    var t, queued := Snapshot(s, own, pc, again), Queued(own, pc, again);
    if queued in s.work {
      assert IsOwn(queued, pc) && own == chat && s.work[queued] == 1;
      var taken := InFlight(chat, pc, tracks, Version(s, chat), again);
      assert forall x | x in s.work && IsOwn(x, pc) :: x == queued;
      assert taken !in s.work;
      assert forall x | x in t.work && IsOwn(x, pc) :: x == taken;
      assert t.work[taken] == 1;
    }
  }

  lemma ReconcileAtRest(s: State, chat: string, pc: PcId, tracks: Tracks, task: Task, start: PeerState)
    requires Calm(s, chat, pc, tracks) && AtRest(s, chat, pc, tracks, start) && task.InFlight? && task.pc == pc
    ensures AtRest(Reconcile(s, task), chat, pc, tracks, start)
    ensures StillOwed(Reconcile(s, task).links[pc].peer) == StillOwed(s.links[pc].peer)
  {
    if task in s.work {
      assert IsOwn(task, pc) && s.work[task] == 1;
      assert forall x | x in Reconcile(s, task).work :: !IsOwn(x, pc);
    }
  }

  lemma LeaveLeavesContinuations(s: State, pc: PcId)
    requires s.signal.Leaving?
    ensures SameContinuations(s, Leave(s), pc)
  {
    hide Removed, Removes, RemovePeerStep;
  }

  lemma JoinLeavesContinuations(s: State, pc: PcId)
    requires s.signal.Joining?
    ensures SameContinuations(s, Join(s), pc)
  {
    hide Inserted;
  }

  lemma AnswerLeavesContinuations(s: State, pc: PcId)
    requires s.signal.Answering? && s.signal.pc != pc
    ensures SameContinuations(s, Answer(s), pc)
  {
    hide Answered, Accepts;
  }

  lemma LoopLeavesContinuations(s: State, newPc: PcId, pc: PcId)
    requires !(s.signal.Answering? && s.signal.pc == pc)
    ensures SameContinuations(s, Next(s, Continue(newPc)), pc)
  {
    hide WithCandidate, FreshPeer, Leave, Join, Answer;
    match s.signal
    case Leaving(_, _, _, _) => LeaveLeavesContinuations(s, pc);
    case Joining(_, _, _) => JoinLeavesContinuations(s, pc);
    case Answering(_, _) => AnswerLeavesContinuations(s, pc);
    case _ =>
  }

  lemma RelaysLeaveContinuations(s: State, id: nat, pc: PcId)
    ensures SameContinuations(s, Start(s, id), pc) && SameContinuations(s, End(s, id), pc)
  {
    hide SetRooms, Registered, Unregistered, Unregisters;
  }

  lemma SnapshotLeavesContinuations(s: State, chat: string, other: PcId, again: bool, pc: PcId)
    requires other != pc
    ensures SameContinuations(s, Snapshot(s, chat, other, again), pc)
  {
  }

  lemma ReconcileLeavesContinuations(s: State, task: Task, pc: PcId)
    requires !IsOwn(task, pc)
    ensures SameContinuations(s, Reconcile(s, task), pc)
  {
    hide Negotiated;
  }

  lemma CloseLeavesContinuations(s: State, other: PcId, pc: PcId)
    ensures SameContinuations(s, Close(s, other), pc)
  {
  }

  lemma VisitLeavesContinuations(s: State, chat: string, pc: PcId)
    ensures SameContinuations(s, Visit(s, chat), pc)
  {
    hide Visits;
    VisitsAreFirst(PeersOf(s.rooms, chat), chat);
  }

  lemma LoseLeavesContinuations(s: State, lost: PcId, pc: PcId)
    ensures SameContinuations(s, Lose(s, lost), pc)
  {
    hide Removed, Removes;
  }

  /** Steps of others leave this peer's continuations where they are. */
  lemma OthersLeaveContinuations(s: State, step: Step, pc: PcId)
    requires !(step.Continue? && s.signal.Answering? && s.signal.pc == pc)
    requires !(step.TakeSnapshot? && step.pc == pc) && !(step.ReconcilePeer? && IsOwn(step.task, pc))
    ensures SameContinuations(s, Next(s, step), pc)
  {
    hide Start, End, Snapshot, Reconcile, Close, Visit, Lose;
    match step
    case Continue(newPc) => LoopLeavesContinuations(s, newPc, pc);
    case StartRelay(id) => RelaysLeaveContinuations(s, id, pc);
    case EndRelay(id) => RelaysLeaveContinuations(s, id, pc);
    case VisitRoom(chat) => VisitLeavesContinuations(s, chat, pc);
    case ConnectionLost(lost) => LoseLeavesContinuations(s, lost, pc);
    case TakeSnapshot(chat, other, again) => SnapshotLeavesContinuations(s, chat, other, again, pc);
    case ReconcilePeer(task) => ReconcileLeavesContinuations(s, task, pc);
    case CloseConnection(other) => CloseLeavesContinuations(s, other, pc);
    case _ =>
  }

  lemma VisitsAreFirst(peers: map<string, PcId>, chat: string)
    ensures forall x: Task | x.Queued? || x.InFlight? :: x.again ==> Visits(peers, chat)[x] == 0
  {
  }

  lemma OthersKeepRest(s: State, step: Step, chat: string, pc: PcId, tracks: Tracks, start: PeerState)
    requires Calm(s, chat, pc, tracks) && AtRest(s, chat, pc, tracks, start) && Calm(Next(s, step), chat, pc, tracks)
    requires !(step.Continue? && s.signal.Answering? && s.signal.pc == pc)
    requires !(step.TakeSnapshot? && step.pc == pc) && !(step.ReconcilePeer? && IsOwn(step.task, pc))
    ensures AtRest(Next(s, step), chat, pc, tracks, start)
    ensures StillOwed(Next(s, step).links[pc].peer) == StillOwed(s.links[pc].peer)
  {
    hide Next, AtRest, StillOwed;
    OthersLeaveContinuations(s, step, pc);
    StepMovesPeer(s, step, pc);
    CalmEvents(s, step, pc);
    RestKept(s, Next(s, step), chat, pc, tracks, start);
  }

  /** Such a step does at most bring the peer a candidate, unless it closes it. */
  lemma CalmEvents(s: State, step: Step, pc: PcId)
    requires pc in s.links
    requires !(step.Continue? && s.signal.Answering? && s.signal.pc == pc)
    requires !(step.ReconcilePeer? && IsOwn(step.task, pc))
    ensures var p := s.links[pc].peer;
            var q := Moved(p, EventOf(s, step, pc));
            q == p.(applied := q.applied, buffered := q.buffered) || q.closed
  {
  }

  /** Whether the step is an answer this peer accepts. */
  predicate IsAccepted(s: State, step: Step, pc: PcId) {
    pc in s.links && EventOf(s, step, pc) == [PeerRuns.Answer] && Accepts(s.links[pc].peer)
  }

  lemma StepAtRest(s: State, step: Step, chat: string, pc: PcId, tracks: Tracks, start: PeerState)
    requires Shape(s) && Calm(s, chat, pc, tracks) && AtRest(s, chat, pc, tracks, start)
    requires Calm(Next(s, step), chat, pc, tracks)
    ensures AtRest(Next(s, step), chat, pc, tracks, start)
    ensures StillOwed(Next(s, step).links[pc].peer) + (if IsAccepted(s, step, pc) then 1 else 0)
            == StillOwed(s.links[pc].peer)
  {
    hide AtRest, Calm, StillOwed, Shape, Answer, Snapshot, Reconcile, Accepts;
    if step.Continue? && s.signal.Answering? && s.signal.pc == pc {
      LinkedIfCalm(s, chat, pc, tracks);
      AnswerAtRest(s, chat, pc, tracks, start);
    } else if step.TakeSnapshot? && step.pc == pc {
      SnapshotAtRest(s, chat, pc, tracks, step.chat, step.again, start);
      LinkedIfCalm(s, chat, pc, tracks);
      StepMovesPeer(s, step, pc);
    } else if step.ReconcilePeer? && IsOwn(step.task, pc) {
      if step.task.InFlight? {
        ReconcileAtRest(s, chat, pc, tracks, step.task, start);
      } else {
        NothingToReconcile(s, step.task);
      }
    } else {
      OthersKeepRest(s, step, chat, pc, tracks, start);
    }
  }

  lemma LinkedIfCalm(s: State, chat: string, pc: PcId, tracks: Tracks)
    requires Calm(s, chat, pc, tracks)
    ensures pc in s.links
  {
  }

  lemma NothingToReconcile(s: State, task: Task)
    requires !task.InFlight?
    ensures Reconcile(s, task) == s
  {
  }

  /** The peer stays calm through the whole continuation of a run. */
  ghost predicate CalmRun(steps: seq<Step>, more: seq<Step>, chat: string, pc: PcId, tracks: Tracks) {
    Calm(Exec(steps + more), chat, pc, tracks)
    && (more != [] ==> CalmRun(steps, more[..|more| - 1], chat, pc, tracks))
  }

  /** Answers of this peer that the continuation has it accept. */
  function AcceptedIn(steps: seq<Step>, more: seq<Step>, pc: PcId): nat {
    if more == [] then 0
    else
      var before := more[..|more| - 1];
      AcceptedIn(steps, before, pc) + if IsAccepted(Exec(steps + before), more[|more| - 1], pc) then 1 else 0
  }

  lemma {:induction false} RestLasts(steps: seq<Step>, more: seq<Step>, chat: string, pc: PcId,
                                     tracks: Tracks, start: PeerState)
    requires CalmRun(steps, more, chat, pc, tracks) && pc in Exec(steps).links
    requires AtRest(Exec(steps), chat, pc, tracks, start)
    ensures pc in Exec(steps + more).links && AtRest(Exec(steps + more), chat, pc, tracks, start)
    ensures AcceptedIn(steps, more, pc) + StillOwed(Exec(steps + more).links[pc].peer)
            == StillOwed(Exec(steps).links[pc].peer)
  {
    hide AtRest, Next, StillOwed, IsAccepted, Shape;
    if more == [] {
      assert steps + more == steps;
    } else {
      var before, step := more[..|more| - 1], more[|more| - 1];
      RestLasts(steps, before, chat, pc, tracks, start);
      assert (steps + more)[..|steps + more| - 1] == steps + before;
      ShapeAlways(steps + before);
      assert Calm(Exec(steps + before), chat, pc, tracks);
      StepAtRest(Exec(steps + before), step, chat, pc, tracks, start);
    }
  }

  // ---------- Tasks are filed under their connections ----------

  ghost predicate TaskFiled(s: State, x: Task) {
    x.Queued? || x.InFlight? ==> x.pc in s.links && s.links[x.pc].chat == x.chat
  }

  lemma VisitsAreFiled(s: State, visited: string, x: Task)
    requires Shape(s) && IsVisit(s, visited, x)
    ensures TaskFiled(s, x)
  {
    hide LoopShape;
    var u :| u in PeersOf(s.rooms, visited) && PeersOf(s.rooms, visited)[u] == x.pc;
    assert RoomOk(s.rooms[visited], visited, s.links) && Filed(s.links, visited, u, x.pc);
  }

  lemma LoopTasksAreFiled(s: State, newPc: PcId, x: Task)
    requires Shape(s) && x in Next(s, Continue(newPc)).work && x !in s.work
    ensures TaskFiled(s, x)
  {
    hide RoomShape, RemovePeerStep, Inserted, Answered, WithCandidate, Accepts, FreshPeer;
  }

  lemma SnapshotTasksAreFiled(s: State, chat: string, pc: PcId, again: bool, x: Task)
    requires forall y | y in s.work :: TaskFiled(s, y)
    requires x in Snapshot(s, chat, pc, again).work && x !in s.work
    ensures TaskFiled(s, x)
  {
    assert TaskFiled(s, Queued(chat, pc, again));
  }

  lemma RelaysQueueWholeRooms(s: State, id: nat)
    ensures forall x | x in Start(s, id).work || x in End(s, id).work :: x in s.work || x.RenegotiateAll?
  {
    hide Start, End;
    RelayWork(s, id);
  }

  lemma ClearedWork(s: State, task: Task, pc: PcId)
    ensures forall x | x in Reconcile(s, task).work || x in Close(s, pc).work :: x in s.work
  {
    hide Negotiated;
  }

  lemma LossQueuesWholeRooms(s: State, pc: PcId)
    ensures forall x | x in Lose(s, pc).work :: x in s.work || x.RenegotiateAll? || x.Closing?
  {
    hide Removed, Removes;
  }

  lemma NewTasksAreFiled(s: State, step: Step, x: Task)
    requires Shape(s) && (forall y | y in s.work :: TaskFiled(s, y))
    requires x in Next(s, step).work && x !in s.work
    ensures TaskFiled(s, x)
  {
    hide Shape, Start, End, Visit, Snapshot, Reconcile, Close, Lose, IsVisit;
    match step
    case Continue(newPc) => LoopTasksAreFiled(s, newPc, x);
    case VisitRoom(chat) => VisitsAreFiled(s, chat, x);
    case TakeSnapshot(chat, pc, again) => SnapshotTasksAreFiled(s, chat, pc, again, x);
    case StartRelay(id) => RelaysQueueWholeRooms(s, id);
    case EndRelay(id) => RelaysQueueWholeRooms(s, id);
    case ReconcilePeer(task) => ClearedWork(s, task, 0);
    case CloseConnection(pc) => ClearedWork(s, Closing(pc), pc);
    case ConnectionLost(pc) => LossQueuesWholeRooms(s, pc);
    case _ =>
  }

  /** In every reachable state, in any reconcile order, a negotiation's connection exists and
      belongs to the negotiation's chat. */
  lemma {:induction false} TasksAlwaysFiled(steps: seq<Step>)
    ensures forall x | x in Exec(steps).work :: TaskFiled(Exec(steps), x)
  {
    hide Next, Shape;
    if steps != [] {
      var before, step := steps[..|steps| - 1], steps[|steps| - 1];
      var s, t := Exec(before), Exec(steps);
      TasksAlwaysFiled(before);
      ShapeAlways(before);
      forall x | x in t.work
        ensures TaskFiled(t, x)
      {
        if x !in s.work {
          NewTasksAreFiled(s, step, x);
        }
        if (x.Queued? || x.InFlight?) && x.pc in s.links {
          StepMovesPeer(s, step, x.pc);
        }
      }
    }
  }

  // ---------- Settling ----------

  lemma {:induction false} QuietIsAtRest(steps: seq<Step>, pc: PcId)
    requires pc in Exec(steps).links && !Exec(steps).links[pc].peer.closed
    requires QuietChat(Exec(steps), Exec(steps).links[pc].chat)
    ensures var s := Exec(steps);
            AtRest(s, s.links[pc].chat, pc, TracksOf(s.rooms, s.links[pc].chat), s.links[pc].peer)
  {
    hide Exec, TracksOf;
    var s := Exec(steps);
    NoRenegotiationIsLost(steps);
    TasksAlwaysFiled(steps);
    assert OfferOk(s.work, pc, s.links[pc].peer);
    forall x | x in s.work
      ensures !IsOwn(x, pc)
    {
      assert TaskFiled(s, x);
    }
  }

  /** After any run, whatever the order of its reconciles, that leaves nothing to negotiate in
      the chat of an open connection, and for any continuation in which the chat's tracks stay
      as they are and only answers renegotiate with the peer: every answer it accepts takes
      one off the at most two it owes, and when it owes none, and only then, it is settled.
      Its last offer is then of exactly the others' tracks if and only if it sent those at
      the outset or had its flag set. */
  lemma {:induction false} TwoAcceptedAnswersSettle(steps: seq<Step>, more: seq<Step>, pc: PcId)
    requires pc in Exec(steps).links && !Exec(steps).links[pc].peer.closed
    requires QuietChat(Exec(steps), Exec(steps).links[pc].chat)
    requires var s := Exec(steps);
             CalmRun(steps, more, s.links[pc].chat, pc, TracksOf(s.rooms, s.links[pc].chat))
    ensures var s, t := Exec(steps), Exec(steps + more);
            && pc in t.links
            && var p, q := s.links[pc].peer, t.links[pc].peer;
               var wanted := Desired(p.user, TracksOf(s.rooms, s.links[pc].chat));
               && AcceptedIn(steps, more, pc) + StillOwed(q) == StillOwed(p) <= 2
               && (StillOwed(q) == 0 <==> PeerRuns.Settled(q))
               && (PeerRuns.Settled(q) ==> (q.offered == wanted <==> p.needsOffer || p.senders == wanted))
  {
    hide Exec, CalmRun, AcceptedIn, TracksOf, QuietChat, OwnEvents;
    var s := Exec(steps);
    QuietIsAtRest(steps, pc);
    RestLasts(steps, more, s.links[pc].chat, pc, TracksOf(s.rooms, s.links[pc].chat), s.links[pc].peer);
  }

  /** In an in-order run a quiet room's members send the current tracks already, so the offer
      they settle on is of exactly those. */
  lemma {:induction false} InOrderSettlesOnCurrentTracks(steps: seq<Step>, more: seq<Step>, chat: string, user: string)
    requires InOrderRun(steps) && QuietChat(Exec(steps), chat) && user in PeersOf(Exec(steps).rooms, chat)
    requires var s := Exec(steps);
             var pc := PeersOf(s.rooms, chat)[user];
             CalmRun(steps, more, chat, pc, TracksOf(s.rooms, chat)) && pc in s.links && !s.links[pc].peer.closed
    ensures var s, t := Exec(steps), Exec(steps + more);
            var pc := PeersOf(s.rooms, chat)[user];
            && pc in t.links
            && AcceptedIn(steps, more, pc) + StillOwed(t.links[pc].peer) == StillOwed(s.links[pc].peer) <= 2
            && (StillOwed(t.links[pc].peer) == 0 ==>
                  && PeerRuns.Settled(t.links[pc].peer)
                  && t.links[pc].peer.offered == Desired(user, TracksOf(s.rooms, chat)))
  {
    hide Exec, CalmRun, AcceptedIn, TracksOf, InOrderRun, OwnEvents;
    var s := Exec(steps);
    var pc := PeersOf(s.rooms, chat)[user];
    FanOutConverges(steps, chat, user);
    FiledUnderUser(steps, chat, user);
    TwoAcceptedAnswersSettle(steps, more, pc);
  }

  lemma FiledUnderUser(steps: seq<Step>, chat: string, user: string)
    requires user in PeersOf(Exec(steps).rooms, chat)
    ensures Filed(Exec(steps).links, chat, user, PeersOf(Exec(steps).rooms, chat)[user])
  {
    ShapeAlways(steps);
    assert RoomOk(Exec(steps).rooms[chat], chat, Exec(steps).links);
  }
}

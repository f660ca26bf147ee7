/** Exactly when the fan-out converges: a run keeps every member up to date or due for a
    negotiation if and only if no peer is reconciled with an outdated snapshot while nothing
    else is pending for it. A peer with an offer out and its flag set renegotiates at its next
    answer; `owed` says whether that counts as pending. */
module CallExact {
  import opened Peers
  import opened Rooms
  import opened Calls
  import opened CallShape
  import opened CallConvergence

  /** The tracks make no difference to what this user should be sent. */
  predicate AsCurrent(s: State, chat: string, user: string, tracks: Tracks) {
    Desired(user, tracks) == Desired(user, TracksOf(s.rooms, chat))
  }

  /** A negotiation that will reconcile the peer with the current tracks. */
  predicate CatchesUp(s: State, chat: string, user: string, pc: PcId, t: Task) {
    || (t.Queued? && t.chat == chat && t.pc == pc)
    || (t.InFlight? && t.chat == chat && t.pc == pc && AsCurrent(s, chat, user, t.tracks))
  }

  ghost predicate WillCatchUp(s: State, chat: string, user: string, pc: PcId) {
    RenegotiateAll(chat) in s.work || exists t | t in s.work :: CatchesUp(s, chat, user, pc, t)
  }

  /** The answer to the offer that is out will renegotiate. */
  predicate OwesAnswer(p: PeerState) {
    p.signaling == HaveLocalOffer && p.needsOffer
  }

  ghost predicate InStep(s: State, chat: string, user: string, owed: bool)
    requires user in PeersOf(s.rooms, chat)
  {
    var pc := PeersOf(s.rooms, chat)[user];
    && pc in s.links
    && (s.links[pc].peer.closed || UpToDate(s, chat, user) || WillCatchUp(s, chat, user, pc)
        || (owed && OwesAnswer(s.links[pc].peer)))
  }

  /** Every member is closed, up to date, or due for a negotiation that will make it so. */
  ghost predicate Converging(s: State, owed: bool) {
    forall chat, u | u in PeersOf(s.rooms, chat) :: InStep(s, chat, u, owed)
  }

  // ---------- Steps that reconcile no peer ----------

  ghost predicate SameSender(s: State, t: State, pc: PcId) {
    pc in s.links ==>
    && pc in t.links && t.links[pc].peer.senders == s.links[pc].peer.senders
    && (s.links[pc].peer.closed ==> t.links[pc].peer.closed)
    && (OwesAnswer(s.links[pc].peer) ==> OwesAnswer(t.links[pc].peer))
  }

  ghost predicate SameSenders(s: State, t: State) {
    forall pc :: SameSender(s, t, pc)
  }

  /** No negotiation leaves the queue. */
  ghost predicate KeepsWork(s: State, t: State) {
    forall x | x in s.work && !x.Closing? :: x in t.work
  }

  lemma StaysInStep(s: State, t: State, chat: string, user: string, owed: bool)
    requires user in PeersOf(s.rooms, chat) && InStep(s, chat, user, owed)
    requires SameSender(s, t, PeersOf(s.rooms, chat)[user]) && KeepsWork(s, t)
    requires user in PeersOf(t.rooms, chat) && PeersOf(t.rooms, chat)[user] == PeersOf(s.rooms, chat)[user]
    requires TracksOf(t.rooms, chat) == TracksOf(s.rooms, chat)
    ensures InStep(t, chat, user, owed)
  {
    var pc := PeersOf(s.rooms, chat)[user];
    if x :| x in s.work && CatchesUp(s, chat, user, pc, x) {
      assert x in t.work && CatchesUp(t, chat, user, pc, x);
    }
  }

  lemma GrowingKeeps(s: State, t: State, touched: string, owed: bool)
    requires Converging(s, owed) && RoomShape(t.rooms, t.links) && SameSenders(s, t) && KeepsWork(s, t)
    requires forall c | c != touched :: ChatUntouched(s, t, c)
    requires RenegotiateAll(touched) in t.work || ChatUntouched(s, t, touched)
    ensures Converging(t, owed)
  {
    hide InStep;
    forall chat, u | u in PeersOf(t.rooms, chat)
      ensures InStep(t, chat, u, owed)
    {
      if ChatUntouched(s, t, chat) {
        StaysInStep(s, t, chat, u, owed);
      } else {
        DueInStep(t, chat, u, owed);
      }
    }
  }

  lemma DueInStep(t: State, chat: string, u: string, owed: bool)
    requires RoomShape(t.rooms, t.links) && u in PeersOf(t.rooms, chat) && RenegotiateAll(chat) in t.work
    ensures InStep(t, chat, u, owed)
  {
    assert RoomOk(t.rooms[chat], chat, t.links);
    assert Filed(t.links, chat, u, PeersOf(t.rooms, chat)[u]);
  }

  lemma UntouchedKeeps(s: State, t: State, owed: bool)
    requires Converging(s, owed) && SameSenders(s, t) && KeepsWork(s, t)
    requires t.rooms == s.rooms
    ensures Converging(t, owed)
  {
    hide InStep;
    forall chat, u | u in PeersOf(t.rooms, chat)
      ensures InStep(t, chat, u, owed)
    {
      StaysInStep(s, t, chat, u, owed);
    }
  }

  lemma RemovalConverging(s: State, chat: string, user: string, pc: PcId, owed: bool)
    requires Shape(s) && Converging(s, owed)
    ensures Converging(RemovePeerStep(s, chat, user, pc), owed)
  {
    hide RemovePeerStep, Removed, ChatUntouched, Shape, Converging;
    RemovalTouchesOneChat(s, chat, user, pc);
    ShapeOfRooms(s);
    RemovedShape(s.rooms, s.links, chat, user, pc);
    GrowingKeeps(s, RemovePeerStep(s, chat, user, pc), chat, owed);
  }

  lemma LeaveConverging(s: State, owed: bool)
    requires Shape(s) && Converging(s, owed) && s.signal.Leaving?
    ensures Converging(Leave(s), owed)
  {
    hide RemovePeerStep, Converging;
    var Leaving(chat, user, pc, _) := s.signal;
    RemovalConverging(s, chat, user, pc, owed);
    UntouchedKeeps(RemovePeerStep(s, chat, user, pc), Leave(s), owed);
  }

  lemma RelayConverging(s: State, id: nat, owed: bool)
    requires Shape(s) && Converging(s, owed)
    ensures Converging(Start(s, id), owed) && Converging(End(s, id), owed)
  {
    hide Start, End, ChatUntouched, Shape, Converging;
    if id in s.relays {
      RelayTouchesOneChat(s, id);
      RelaysKeepShape(s, id);
      RelayWork(s, id);
      ShapeOfRooms(Start(s, id));
      ShapeOfRooms(End(s, id));
      GrowingKeeps(s, Start(s, id), s.relays[id].chat, owed);
      GrowingKeeps(s, End(s, id), s.relays[id].chat, owed);
    } else {
      NoRelay(s, id);
    }
  }

  lemma JoinConverging(s: State, owed: bool)
    requires Shape(s) && Converging(s, owed) && s.signal.Joining?
    ensures Converging(Join(s), owed)
  {
    hide InStep, RoomShape;
    var Joining(joined, user, pc) := s.signal;
    var t := Join(s);
    forall chat, u | u in PeersOf(t.rooms, chat)
      ensures InStep(t, chat, u, owed)
    {
      if chat == joined && u == user {
        QueuedInStep(t, chat, u, false, owed);
      } else {
        StaysInStep(s, t, chat, u, owed);
      }
    }
  }

  lemma QueuedInStep(t: State, chat: string, u: string, again: bool, owed: bool)
    requires u in PeersOf(t.rooms, chat) && PeersOf(t.rooms, chat)[u] in t.links
    requires Queued(chat, PeersOf(t.rooms, chat)[u], again) in t.work
    ensures InStep(t, chat, u, owed)
  {
    assert CatchesUp(t, chat, u, PeersOf(t.rooms, chat)[u], Queued(chat, PeersOf(t.rooms, chat)[u], again));
  }

  lemma VisitConverging(s: State, visited: string, owed: bool)
    requires Converging(s, owed)
    ensures Converging(Visit(s, visited), owed)
  {
    hide InStep, Visits;
    var t := Visit(s, visited);
    if RenegotiateAll(visited) in s.work {
      forall chat, u | u in PeersOf(t.rooms, chat)
        ensures InStep(t, chat, u, owed)
      {
        assert InStep(s, chat, u, owed);
        if chat == visited {
          VisitsEveryone(PeersOf(s.rooms, visited), visited, u);
          assert PeersOf(t.rooms, chat)[u] in t.links by { InStepIsLinked(s, chat, u, owed); }
          QueuedInStep(t, chat, u, false, owed);
        } else {
          OtherChatInStep(s, t, visited, chat, u, owed);
        }
      }
    }
  }

  lemma InStepIsLinked(s: State, chat: string, u: string, owed: bool)
    requires u in PeersOf(s.rooms, chat) && InStep(s, chat, u, owed)
    ensures PeersOf(s.rooms, chat)[u] in s.links
  {
  }

  lemma VisitsEveryone(peers: map<string, PcId>, chat: string, u: string)
    requires u in peers
    ensures Queued(chat, peers[u], false) in Visits(peers, chat)
  {
  }

  /** Finishing one chat's renegotiation takes nothing from another chat. */
  lemma OtherChatInStep(s: State, t: State, visited: string, chat: string, u: string, owed: bool)
    requires u in PeersOf(s.rooms, chat) && InStep(s, chat, u, owed) && chat != visited
    requires t.rooms == s.rooms && t.links == s.links
    requires forall x | x in s.work && x != RenegotiateAll(visited) :: x in t.work
    ensures InStep(t, chat, u, owed)
  {
    var pc := PeersOf(s.rooms, chat)[u];
    if x :| x in s.work && CatchesUp(s, chat, u, pc, x) {
      assert CatchesUp(t, chat, u, pc, x);
    }
  }

  lemma SnapshotConverging(s: State, chat: string, pc: PcId, again: bool, owed: bool)
    requires Converging(s, owed)
    ensures Converging(Snapshot(s, chat, pc, again), owed)
  {
    hide InStep;
    var t := Snapshot(s, chat, pc, again);
    if Queued(chat, pc, again) in s.work {
      var taken := InFlight(chat, pc, TracksOf(s.rooms, chat), Version(s, chat), again);
      assert taken in t.work;
      forall c, u | u in PeersOf(t.rooms, c)
        ensures InStep(t, c, u, owed)
      {
        TakenInStep(s, t, Queued(chat, pc, again), taken, c, u, owed);
      }
    }
  }

  /** A queued negotiation that has taken its snapshot still catches up. */
  lemma TakenInStep(s: State, t: State, queued: Task, taken: Task, chat: string, u: string, owed: bool)
    requires u in PeersOf(s.rooms, chat) && InStep(s, chat, u, owed)
    requires t.rooms == s.rooms && t.links == s.links
    requires queued.Queued? && taken.InFlight? && taken.chat == queued.chat && taken.pc == queued.pc
    requires taken.tracks == TracksOf(s.rooms, queued.chat) && taken in t.work
    requires forall x | x in s.work && x != queued :: x in t.work
    ensures InStep(t, chat, u, owed)
  {
    var pc := PeersOf(s.rooms, chat)[u];
    if x :| x in s.work && CatchesUp(s, chat, u, pc, x) {
      assert CatchesUp(t, chat, u, pc, if x == queued then taken else x);
    }
  }

  lemma ConnectConverging(s: State, pc: PcId, owed: bool)
    requires Converging(s, owed) && s.signal.Admitted?
    ensures Converging(Connect(s, pc), owed)
  {
    hide Converging;
    UntouchedKeeps(s, Connect(s, pc), owed);
  }

  lemma AnswerKeepsOthers(s: State, pc: PcId)
    requires s.signal.Answering? && pc in s.links && pc != s.signal.pc
    ensures SameSender(s, Answer(s), pc)
  {
    hide Answered, Accepts;
  }

  /** An answer that is not accepted changes nothing; one that is renegotiates if the flag was
      set. */
  lemma AnsweredPeer(s: State)
    requires s.signal.Answering? && s.signal.pc in s.links
    ensures var Answering(chat, pc) := s.signal;
            SameSender(s, Answer(s), pc)
            || (Queued(chat, pc, true) in Answer(s).work && pc in Answer(s).links)
  {
  }

  lemma AnswerLeavesRooms(s: State)
    requires s.signal.Answering?
    ensures Answer(s).rooms == s.rooms && KeepsWork(s, Answer(s))
  {
    hide Answered, Accepts;
  }

  lemma AnswerConverging(s: State, owed: bool)
    requires Shape(s) && Converging(s, owed) && s.signal.Answering?
    ensures Converging(Answer(s), owed)
  {
    hide InStep, Answer, KeepsWork, SameSender, RoomShape;
    var Answering(_, answering) := s.signal;
    var t := Answer(s);
    AnswerLeavesRooms(s);
    forall chat, u | u in PeersOf(t.rooms, chat)
      ensures InStep(t, chat, u, owed)
    {
      var pc := PeersOf(s.rooms, chat)[u];
      InStepIsLinked(s, chat, u, owed);
      if pc != answering {
        AnswerKeepsOthers(s, pc);
        StaysInStep(s, t, chat, u, owed);
      } else {
        AnsweredPeer(s);
        ChatOfMember(s, chat, u);
        if SameSender(s, t, pc) {
          StaysInStep(s, t, chat, u, owed);
        } else {
          QueuedInStep(t, chat, u, true, owed);
        }
      }
    }
  }

  lemma ChatOfMember(s: State, chat: string, u: string)
    requires Shape(s) && u in PeersOf(s.rooms, chat)
    ensures Filed(s.links, chat, u, PeersOf(s.rooms, chat)[u])
  {
    hide LoopShape;
    assert RoomOk(s.rooms[chat], chat, s.links);
  }

  lemma FeedConverging(s: State, owed: bool)
    requires Converging(s, owed) && s.signal.Feeding?
    ensures Converging(Feed(s), owed)
  {
    hide Converging, WithCandidate;
    UntouchedKeeps(s, Feed(s), owed);
  }

  lemma CloseConverging(s: State, pc: PcId, owed: bool)
    requires Converging(s, owed)
    ensures Converging(Close(s, pc), owed)
  {
    hide Converging;
    UntouchedKeeps(s, Close(s, pc), owed);
  }

  lemma LoopConverging(s: State, newPc: PcId, owed: bool)
    requires Shape(s) && Converging(s, owed)
    ensures Converging(Next(s, Continue(newPc)), owed)
  {
    hide Converging, Shape, Leave, Join, Connect, Answer, Feed;
    match s.signal
    case Leaving(_, _, _, _) => LeaveConverging(s, owed);
    case Joining(_, _, _) => JoinConverging(s, owed);
    case Admitted(_, _) => ConnectConverging(s, newPc, owed);
    case Answering(_, _) => AnswerConverging(s, owed);
    case Feeding(_, _) => FeedConverging(s, owed);
    case _ => UntouchedKeeps(s, Next(s, Continue(newPc)), owed);
  }

  /** Every step but a reconcile keeps the room converging. */
  lemma OthersKeepConverging(s: State, step: Step, owed: bool)
    requires Shape(s) && Converging(s, owed) && !step.ReconcilePeer?
    ensures Converging(Next(s, step), owed)
  {
    hide Converging, Shape, Start, End, Visit, Snapshot, RemovePeerStep, Close;
    match step
    case Continue(newPc) => LoopConverging(s, newPc, owed);
    case ConnectionLost(pc) =>
      if pc in s.links {
        RemovalConverging(s, s.links[pc].chat, s.links[pc].peer.user, pc, owed);
      }
    case CloseConnection(pc) => CloseConverging(s, pc, owed);
    case StartRelay(id) => RelayConverging(s, id, owed);
    case EndRelay(id) => RelayConverging(s, id, owed);
    case VisitRoom(chat) => VisitConverging(s, chat, owed);
    case TakeSnapshot(chat, pc, again) => SnapshotConverging(s, chat, pc, again, owed);
    case _ => UntouchedKeeps(s, Next(s, step), owed);
  }

  // ---------- Reconciling ----------

  predicate IsMember(s: State, chat: string, user: string, pc: PcId) {
    user in PeersOf(s.rooms, chat) && PeersOf(s.rooms, chat)[user] == pc
  }

  /** The snapshot is current for its peer, or something else is pending for it (an answer, if
      those count), or it no longer matters. */
  ghost predicate Covered(s: State, task: Task, owed: bool) {
    CanReconcile(s, task) ==>
      var Link(chat, p, _) := s.links[task.pc];
      || p.closed || !IsMember(s, chat, p.user, task.pc) || (owed && p.signaling != Stable)
      || AsCurrent(s, chat, p.user, task.tracks) || WillCatchUp(Done(s, task), chat, p.user, task.pc)
  }

  lemma OthersUntouched(s: State, task: Task, chat: string, u: string, owed: bool)
    requires CanReconcile(s, task) && u in PeersOf(s.rooms, chat) && InStep(s, chat, u, owed)
    requires PeersOf(s.rooms, chat)[u] != task.pc
    ensures InStep(Reconcile(s, task), chat, u, owed)
  {
    hide Negotiated;
    var t, pc := Reconcile(s, task), PeersOf(s.rooms, chat)[u];
    if x :| x in s.work && CatchesUp(s, chat, u, pc, x) {
      assert x in t.work && CatchesUp(t, chat, u, pc, x);
    }
  }

  lemma ReconciledInStep(s: State, task: Task, chat: string, u: string, owed: bool)
    requires Shape(s) && CanReconcile(s, task) && IsMember(s, chat, u, task.pc)
    ensures var l := s.links[task.pc]; l.chat == chat && l.peer.user == u
    ensures IsMember(Reconcile(s, task), chat, u, task.pc)
    ensures InStep(Reconcile(s, task), chat, u, owed) <==> Covered(s, task, owed)
  {
    assert RoomOk(s.rooms[chat], chat, s.links) && Filed(s.links, chat, u, task.pc);
    var t, rest := Reconcile(s, task), Done(s, task);
    assert t.work == rest.work && t.rooms == rest.rooms;
    assert forall x :: CatchesUp(t, chat, u, task.pc, x) == CatchesUp(rest, chat, u, task.pc, x);
  }

  /** A reconcile keeps the room converging exactly when it is covered. */
  lemma ReconcileKeepsIffCovered(s: State, task: Task, owed: bool)
    requires Shape(s) && Converging(s, owed)
    ensures Converging(Reconcile(s, task), owed) <==> Covered(s, task, owed)
  {
    hide InStep, Shape, Negotiated;
    if CanReconcile(s, task) {
      var t := Reconcile(s, task);
      forall chat, u | u in PeersOf(s.rooms, chat)
        ensures InStep(t, chat, u, owed) <==> (PeersOf(s.rooms, chat)[u] == task.pc ==> Covered(s, task, owed))
      {
        if PeersOf(s.rooms, chat)[u] == task.pc {
          ReconciledInStep(s, task, chat, u, owed);
        } else {
          OthersUntouched(s, task, chat, u, owed);
        }
      }
      var l := s.links[task.pc];
      if IsMember(s, l.chat, l.peer.user, task.pc) {
        assert InStep(t, l.chat, l.peer.user, owed) <==> Covered(s, task, owed);
      }
    }
  }

  // ---------- Whole runs ----------

  ghost predicate CoveredRun(steps: seq<Step>, owed: bool) {
    steps == [] ||
    var before, step := steps[..|steps| - 1], steps[|steps| - 1];
    CoveredRun(before, owed) && (step.ReconcilePeer? ==> Covered(Exec(before), step.task, owed))
  }

  ghost predicate ConvergingThroughout(steps: seq<Step>, owed: bool) {
    Converging(Exec(steps), owed) && (steps != [] ==> ConvergingThroughout(steps[..|steps| - 1], owed))
  }

  /** The fan-out converges throughout a run exactly when every reconcile in it is covered. */
  lemma {:induction false} ConvergesIffCovered(steps: seq<Step>, owed: bool)
    ensures ConvergingThroughout(steps, owed) <==> CoveredRun(steps, owed)
  {
    hide Converging, Covered, Next, Shape;
    if steps == [] {
      NobodyToServe(owed);
    } else {
      var before, step := steps[..|steps| - 1], steps[|steps| - 1];
      ConvergesIffCovered(before, owed);
      ShapeAlways(before);
      if ConvergingThroughout(before, owed) {
        StepConverging(Exec(before), step, owed);
      }
    }
  }

  lemma NobodyToServe(owed: bool)
    ensures Converging(INIT, owed)
  {
  }

  lemma StepConverging(s: State, step: Step, owed: bool)
    requires Shape(s) && Converging(s, owed)
    ensures Converging(Next(s, step), owed) <==> (step.ReconcilePeer? ==> Covered(s, step.task, owed))
  {
    hide Converging, Covered, Shape, Reconcile;
    if step.ReconcilePeer? {
      ReconcileKeepsIffCovered(s, step.task, owed);
    } else {
      OthersKeepConverging(s, step, owed);
    }
  }

  /** In-order runs, and so runs without overlapping negotiations, are covered. */
  lemma {:induction false} InOrderIsCovered(steps: seq<Step>, owed: bool)
    requires InOrderRun(steps)
    ensures CoveredRun(steps, owed)
  {
    hide Converging, Covered, Next, Shape, Settling;
    if steps == [] {
    } else {
      var before, step := steps[..|steps| - 1], steps[|steps| - 1];
      InOrderIsCovered(before, owed);
      ConvergesIffCovered(before, owed);
      AlwaysSettling(steps);
      ShapeAlways(steps);
      SettlingIsConverging(Exec(steps), owed);
      ConvergesIffCovered(steps, owed);
    }
  }

  lemma SettlingIsConverging(s: State, owed: bool)
    requires Shape(s) && Settling(s)
    ensures Converging(s, owed)
  {
    forall chat, u | u in PeersOf(s.rooms, chat)
      ensures InStep(s, chat, u, owed)
    {
      SettledInStep(s, chat, u, owed);
    }
  }

  lemma SettledInStep(s: State, chat: string, u: string, owed: bool)
    requires Shape(s) && Settling(s) && u in PeersOf(s.rooms, chat)
    ensures InStep(s, chat, u, owed)
  {
    var pc := PeersOf(s.rooms, chat)[u];
    assert RoomOk(s.rooms[chat], chat, s.links) && Filed(s.links, chat, u, pc);
    assert Agrees(s, chat, pc) && LinkOk(s, s.links[pc]);
    if Owes(s, chat, pc) && RenegotiateAll(chat) !in s.work {
      var again :| Queued(chat, pc, again) in s.work
                   || InFlight(chat, pc, TracksOf(s.rooms, chat), Version(s, chat), again) in s.work;
      var flying := InFlight(chat, pc, TracksOf(s.rooms, chat), Version(s, chat), again);
      assert CatchesUp(s, chat, u, pc, if flying in s.work then flying else Queued(chat, pc, again));
    }
  }
}

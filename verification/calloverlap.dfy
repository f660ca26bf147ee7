/** Why the order of the reconciles matters: a run in which two negotiations of one peer
    overlap, and the older snapshot is reconciled last, when the newer one has been offered
    and answered already. */
module CallOverlap {
  import opened Peers
  import opened Rooms
  import opened Calls
  import opened CallConvergence
  import opened CallExact
  import PeerRuns

  // ---------- Stretches of a run ----------

  function Extend(steps: seq<Step>, step: Step): seq<Step> {
    steps + [step]
  }

  /** The signal loop takes a user in, as far as the room table. */
  function JoinSteps(steps: seq<Step>, user: string, pc: PcId): seq<Step> {
    Extend(Extend(Extend(Extend(steps, SignalJoin("c", user)), Continue(pc)), Continue(pc)), Continue(pc))
  }

  function AnswerSteps(steps: seq<Step>, user: string): seq<Step> {
    Extend(Extend(steps, SignalAnswer("c", user)), Continue(0))
  }

  /** A queued negotiation takes its snapshot, reconciles and offers, and is answered. */
  function ServeSteps(steps: seq<Step>, user: string, pc: PcId, tracks: Tracks, version: nat): seq<Step> {
    var taken := Extend(steps, TakeSnapshot("c", pc, false));
    AnswerSteps(Extend(taken, ReconcilePeer(InFlight("c", pc, tracks, version, false))), user)
  }

  /** A track arrives and its relay begins to renegotiate the room. */
  function TrackSteps(steps: seq<Step>, pc: PcId, id: nat): seq<Step> {
    Extend(Extend(Extend(steps, OpenRelay(pc, id)), StartRelay(id)), VisitRoom("c"))
  }

  // ---------- The run ----------

  const ONE: Tracks := map["a" := LocalTrack("a", 6)]
  const TWO: Tracks := map["a" := LocalTrack("a", 6), "b" := LocalTrack("b", 7)]

  /** The snapshot for "a" that the first relay takes, before the second track is there. */
  const OLDER := InFlight("c", 0, ONE, 1, false)

  /** Users "b" and "a" join, and each answers its first offer. */
  const B_IN := ServeSteps(JoinSteps([], "b", 1), "b", 1, map[], 0)
  const BOTH_IN := ServeSteps(JoinSteps(B_IN, "a", 0), "a", 0, map[], 0)

  /** The track of "a" arrives. Its relay renegotiates with "b", and takes the snapshot for
      "a" itself. */
  const FIRST_TRACK := ServeSteps(TrackSteps(BOTH_IN, 0, 6), "b", 1, ONE, 1)
  const TAKEN := Extend(FIRST_TRACK, TakeSnapshot("c", 0, false))

  /** The track of "b" arrives, and its relay overtakes: both are sent offers with the current
      tracks, and answer. */
  const SECOND_TRACK := TrackSteps(TAKEN, 1, 7)
  const OVERTAKEN := ServeSteps(ServeSteps(SECOND_TRACK, "a", 0, TWO, 2), "b", 1, TWO, 2)

  /** The first relay goes on with its snapshot; "a" answers once more. */
  const STALE := Extend(OVERTAKEN, ReconcilePeer(OLDER))
  const OVERLAP := AnswerSteps(STALE, "a")

  // ---------- What the stretches do ----------

  lemma Extended(steps: seq<Step>, step: Step)
    ensures Exec(Extend(steps, step)) == Next(Exec(steps), step)
  {
    assert Extend(steps, step)[..|steps|] == steps;
  }

  lemma Joins(steps: seq<Step>, user: string, pc: PcId)
    requires var s := Exec(steps);
             s.signal == Idle && pc !in s.links && user !in PeersOf(s.rooms, "c") && !IsFull(s.rooms, "c")
    ensures var s := Exec(steps);
            Exec(JoinSteps(steps, user, pc)) ==
            s.(rooms := Inserted(s.rooms, "c", user, pc), links := s.links[pc := Link("c", FreshPeer(user), -1)],
               work := s.work + multiset{Queued("c", pc, false)})
  {
    hide Exec, FreshPeer, Inserted;
    var s := Exec(steps);
    var one := Extend(steps, SignalJoin("c", user));
    var two := Extend(one, Continue(pc));
    var three := Extend(two, Continue(pc));
    Extended(steps, SignalJoin("c", user));
    Extended(one, Continue(pc));
    Extended(two, Continue(pc));
    Extended(three, Continue(pc));
    assert Exec(one) == s.(signal := Checking("c", user));
    assert Exec(two) == s.(signal := Admitted("c", user));
    assert Exec(three) == s.(links := s.links[pc := Link("c", FreshPeer(user), -1)], signal := Joining("c", user, pc));
  }

  lemma TakesSnapshot(steps: seq<Step>, pc: PcId)
    requires Queued("c", pc, false) in Exec(steps).work
    ensures var s := Exec(steps);
            Exec(Extend(steps, TakeSnapshot("c", pc, false))) ==
            s.(work := s.work - multiset{Queued("c", pc, false)}
                       + multiset{InFlight("c", pc, TracksOf(s.rooms, "c"), Version(s, "c"), false)})
  {
    hide Exec;
    Extended(steps, TakeSnapshot("c", pc, false));
  }

  lemma Reconciles(steps: seq<Step>, task: Task)
    requires CanReconcile(Exec(steps), task) && !Exec(steps).links[task.pc].peer.closed
    ensures var s := Exec(steps);
            var l := s.links[task.pc];
            Exec(Extend(steps, ReconcilePeer(task))) ==
            s.(work := s.work - multiset{task},
               links := s.links[task.pc := Link(l.chat, Negotiated(l.peer, task.tracks), task.version)])
  {
    hide Exec, Negotiated;
    Extended(steps, ReconcilePeer(task));
  }

  /** The one peer of the room that the signal loop finds, with its offer out. */
  predicate Offered(s: State, user: string, pc: PcId) {
    && s.signal == Idle && IsMember(s, "c", user, pc) && pc in s.links && s.links[pc].chat == "c"
    && Accepts(s.links[pc].peer) && !s.links[pc].peer.needsOffer
  }

  lemma Answers(steps: seq<Step>, user: string, pc: PcId)
    requires Offered(Exec(steps), user, pc)
    ensures var s := Exec(steps);
            Exec(AnswerSteps(steps, user)) ==
            s.(links := s.links[pc := s.links[pc].(peer := Answered(s.links[pc].peer))])
  {
    hide Exec, Answered;
    var s, asked := Exec(steps), Extend(steps, SignalAnswer("c", user));
    Extended(steps, SignalAnswer("c", user));
    Extended(asked, Continue(0));
    assert Exec(asked) == s.(signal := Answering("c", pc));
  }

  /** An offer with these tracks, and its answer. */
  function Ready(p: PeerState, tracks: Tracks): PeerState {
    Answered(Negotiated(p, tracks))
  }

  predicate Resting(p: PeerState) {
    !p.closed && p.signaling == Stable && !p.needsOffer
  }

  lemma ReadyRests(p: PeerState, tracks: Tracks)
    requires Resting(p)
    ensures var q := Ready(p, tracks);
            && Resting(q) && q.user == p.user
            && q.senders == Desired(p.user, tracks) && q.offered == Desired(p.user, tracks)
    ensures Accepts(Negotiated(p, tracks)) && !Negotiated(p, tracks).needsOffer
  {
  }

  predicate Servable(s: State, user: string, pc: PcId) {
    && s.signal == Idle && IsMember(s, "c", user, pc) && pc in s.links && s.links[pc].chat == "c"
    && Resting(s.links[pc].peer) && Queued("c", pc, false) in s.work
  }

  lemma Serves(steps: seq<Step>, user: string, pc: PcId, tracks: Tracks, version: nat)
    requires Servable(Exec(steps), user, pc)
    requires tracks == TracksOf(Exec(steps).rooms, "c") && version == Version(Exec(steps), "c")
    ensures var s := Exec(steps);
            Exec(ServeSteps(steps, user, pc, tracks, version)) ==
            s.(work := s.work - multiset{Queued("c", pc, false)},
               links := s.links[pc := Link("c", Ready(s.links[pc].peer, tracks), version)])
  {
    hide Exec, Answered, Negotiated, Resting, Accepts, TracksOf;
    var s, task := Exec(steps), InFlight("c", pc, tracks, version, false);
    var taken := Extend(steps, TakeSnapshot("c", pc, false));
    var offered := Extend(taken, ReconcilePeer(task));
    TakesSnapshot(steps, pc);
    ReadyRests(s.links[pc].peer, tracks);
    StillOpen(s.links[pc].peer);
    Reconciles(taken, task);
    assert s.work - multiset{Queued("c", pc, false)} + multiset{task} - multiset{task}
           == s.work - multiset{Queued("c", pc, false)};
    Answers(offered, user, pc);
  }

  lemma StillOpen(p: PeerState)
    requires Resting(p)
    ensures !p.closed
  {
  }

  lemma VisitsBoth(peers: map<string, PcId>)
    requires peers == map["b" := 1, "a" := 0]
    ensures Visits(peers, "c") == multiset{Queued("c", 0, false), Queued("c", 1, false)}
  {
    var visits := set u | u in peers :: Queued("c", peers[u], false);
    assert Queued("c", peers["a"], false) in visits && Queued("c", peers["b"], false) in visits;
    assert visits == {Queued("c", 0, false), Queued("c", 1, false)};
  }

  /** The room with both, and the relays of its tracks. */
  function Room2(a: PeerState, seenA: int, b: PeerState, seenB: int, tracks: Tracks, relays: map<nat, Relay>,
                 work: multiset<Task>, versions: map<string, nat>): State {
    State(map["c" := Room(map["b" := 1, "a" := 0], tracks)],
          map[1 := Link("c", b, seenB), 0 := Link("c", a, seenA)], relays, work, Idle, versions)
  }

  lemma RelayStarts(steps: seq<Step>, pc: PcId, id: nat)
    requires var s := Exec(steps);
             pc in s.links && s.links[pc].chat == "c" && id !in s.relays && "c" in s.rooms
    ensures var s := Exec(steps);
            var user := s.links[pc].peer.user;
            Exec(Extend(Extend(steps, OpenRelay(pc, id)), StartRelay(id))) ==
            s.(rooms := Registered(s.rooms, "c", user, LocalTrack(user, id)),
               relays := s.relays[id := Relay("c", user, Sending)],
               versions := s.versions["c" := Version(s, "c") + 1], work := s.work + multiset{RenegotiateAll("c")})
  {
    hide Exec, Registered, LocalTrack;
    var s, one := Exec(steps), Extend(steps, OpenRelay(pc, id));
    Extended(steps, OpenRelay(pc, id));
    Extended(one, StartRelay(id));
    var user := s.links[pc].peer.user;
    assert Exec(one) == s.(relays := s.relays[id := Relay("c", user, Opened)]);
    assert s.relays[id := Relay("c", user, Opened)][id := Relay("c", user, Sending)]
           == s.relays[id := Relay("c", user, Sending)];
  }

  lemma TrackArrives(steps: seq<Step>, pc: PcId, id: nat)
    requires var s := Exec(steps);
             && pc in s.links && s.links[pc].chat == "c" && id !in s.relays && "c" in s.rooms
             && RenegotiateAll("c") !in s.work && PeersOf(s.rooms, "c") == map["b" := 1, "a" := 0]
    ensures var s := Exec(steps);
            var user := s.links[pc].peer.user;
            Exec(TrackSteps(steps, pc, id)) ==
            s.(rooms := Registered(s.rooms, "c", user, LocalTrack(user, id)),
               relays := s.relays[id := Relay("c", user, Sending)],
               versions := s.versions["c" := Version(s, "c") + 1],
               work := s.work + multiset{Queued("c", 0, false), Queued("c", 1, false)})
  {
    hide Exec, Visits, IsVisit, LocalTrack;
    var s, two := Exec(steps), Extend(Extend(steps, OpenRelay(pc, id)), StartRelay(id));
    RelayStarts(steps, pc, id);
    Extended(two, VisitRoom("c"));
    VisitsBoth(PeersOf(Exec(two).rooms, "c"));
    assert s.work + multiset{RenegotiateAll("c")} - multiset{RenegotiateAll("c")} == s.work;
  }

  function VersionIn(versions: map<string, nat>): nat {
    if "c" in versions then versions["c"] else 0
  }

  lemma ServesA(steps: seq<Step>, a: PeerState, seenA: int, b: PeerState, seenB: int, tracks: Tracks,
                relays: map<nat, Relay>, rest: multiset<Task>, versions: map<string, nat>)
    requires Exec(steps) ==
             Room2(a, seenA, b, seenB, tracks, relays, rest + multiset{Queued("c", 0, false)}, versions)
    requires Resting(a)
    ensures Exec(ServeSteps(steps, "a", 0, tracks, VersionIn(versions))) ==
            Room2(Ready(a, tracks), VersionIn(versions), b, seenB, tracks, relays, rest, versions)
  {
    hide Exec, ServeSteps, Ready, Resting;
    Serves(steps, "a", 0, tracks, VersionIn(versions));
  }

  lemma ServesB(steps: seq<Step>, a: PeerState, seenA: int, b: PeerState, seenB: int, tracks: Tracks,
                relays: map<nat, Relay>, rest: multiset<Task>, versions: map<string, nat>)
    requires Exec(steps) ==
             Room2(a, seenA, b, seenB, tracks, relays, rest + multiset{Queued("c", 1, false)}, versions)
    requires Resting(b)
    ensures Exec(ServeSteps(steps, "b", 1, tracks, VersionIn(versions))) ==
            Room2(a, seenA, Ready(b, tracks), VersionIn(versions), tracks, relays, rest, versions)
  {
    hide Exec, ServeSteps, Ready, Resting;
    Serves(steps, "b", 1, tracks, VersionIn(versions));
  }

  lemma TrackOfB(steps: seq<Step>, id: nat, a: PeerState, seenA: int, b: PeerState, seenB: int, tracks: Tracks,
                 relays: map<nat, Relay>, rest: multiset<Task>, versions: map<string, nat>)
    requires Exec(steps) == Room2(a, seenA, b, seenB, tracks, relays, rest, versions)
    requires id !in relays && RenegotiateAll("c") !in rest && b.user == "b"
    ensures Exec(TrackSteps(steps, 1, id)) ==
            Room2(a, seenA, b, seenB, tracks["b" := LocalTrack("b", id)], relays[id := Relay("c", "b", Sending)],
                  rest + multiset{Queued("c", 0, false), Queued("c", 1, false)},
                  versions["c" := VersionIn(versions) + 1])
  {
    hide Exec, TrackSteps, LocalTrack;
    TrackArrives(steps, 1, id);
  }

  // ---------- The states of the run ----------

  const B0 := Ready(FreshPeer("b"), map[])
  const A0 := Ready(FreshPeer("a"), map[])
  const B1 := Ready(B0, ONE)
  const A1 := Ready(A0, TWO)
  const B2 := Ready(B1, TWO)
  const A2 := Ready(A1, ONE)

  const RELAY_A: map<nat, Relay> := map[6 := Relay("c", "a", Sending)]
  const RELAYS: map<nat, Relay> := map[6 := Relay("c", "a", Sending), 7 := Relay("c", "b", Sending)]

  lemma AllRest()
    ensures Resting(FreshPeer("a")) && Resting(FreshPeer("b")) && Resting(A0) && Resting(B0)
    ensures Resting(A1) && Resting(B1) && Resting(B2) && Resting(A2)
    ensures A0.user == A1.user == A2.user == "a" && B0.user == B1.user == B2.user == "b"
    ensures A2.senders == Desired("a", ONE) == A2.offered && B2.senders == Desired("b", TWO) == B2.offered
  {
    ReadyRests(FreshPeer("a"), map[]);
    ReadyRests(FreshPeer("b"), map[]);
    hide Ready, Resting;
    ReadyRests(B0, ONE);
    ReadyRests(A0, TWO);
    ReadyRests(B1, TWO);
    ReadyRests(A1, ONE);
  }

  lemma FirstIsIn()
    ensures Exec(B_IN) == State(map["c" := Room(map["b" := 1], map[])], map[1 := Link("c", B0, 0)],
                                map[], multiset{}, Idle, map[])
  {
    AllRest();
    Joins([], "b", 1);
    hide Exec, FreshPeer, Ready, Resting;
    EmptyStart();
    Serves(JoinSteps([], "b", 1), "b", 1, map[], 0);
  }

  lemma EmptyStart()
    ensures Exec([]) == INIT
  {
  }

  lemma SecondIsIn()
    ensures Exec(BOTH_IN) == Room2(A0, 0, B0, 0, map[], map[], multiset{}, map[])
  {
    hide Exec, FreshPeer, Ready, Resting;
    AllRest();
    FirstIsIn();
    Joins(B_IN, "a", 0);
    Serves(JoinSteps(B_IN, "a", 0), "a", 0, map[], 0);
  }

  lemma FirstTrackArrives()
    ensures Exec(TrackSteps(BOTH_IN, 0, 6)) ==
            Room2(A0, 0, B0, 0, ONE, RELAY_A, multiset{Queued("c", 0, false)} + multiset{Queued("c", 1, false)},
                  map["c" := 1])
  {
    hide Exec, FreshPeer, Ready, Resting, TrackSteps;
    AllRest();
    SecondIsIn();
    TrackArrives(BOTH_IN, 0, 6);
  }

  lemma FirstTrack()
    ensures Exec(FIRST_TRACK) ==
            Room2(A0, 0, B1, 1, ONE, RELAY_A, multiset{Queued("c", 0, false)}, map["c" := 1])
  {
    hide Exec, FreshPeer, Ready, Resting, TrackSteps, Room2;
    AllRest();
    FirstTrackArrives();
    ServesB(TrackSteps(BOTH_IN, 0, 6), A0, 0, B0, 0, ONE, RELAY_A, multiset{Queued("c", 0, false)}, map["c" := 1]);
  }

  lemma Takes()
    ensures Exec(TAKEN) == Room2(A0, 0, B1, 1, ONE, RELAY_A, multiset{OLDER}, map["c" := 1])
  {
    hide Exec, FreshPeer, Ready, Resting, TrackSteps;
    FirstTrack();
    TakesSnapshot(FIRST_TRACK, 0);
  }

  lemma SecondTrack()
    ensures Exec(SECOND_TRACK) ==
            Room2(A0, 0, B1, 1, TWO, RELAYS,
                  multiset{OLDER} + multiset{Queued("c", 1, false)} + multiset{Queued("c", 0, false)}, map["c" := 2])
  {
    hide Exec, FreshPeer, Ready, Resting, TrackSteps, Room2;
    AllRest();
    Takes();
    TrackOfB(TAKEN, 7, A0, 0, B1, 1, ONE, RELAY_A, multiset{OLDER}, map["c" := 1]);
    var versions: map<string, nat> := map["c" := 1];
    assert versions["c" := VersionIn(versions) + 1] == map["c" := 2];
    assert multiset{OLDER} + multiset{Queued("c", 0, false), Queued("c", 1, false)}
           == multiset{OLDER} + multiset{Queued("c", 1, false)} + multiset{Queued("c", 0, false)};
    assert ONE["b" := LocalTrack("b", 7)] == TWO;
    assert RELAY_A[7 := Relay("c", "b", Sending)] == RELAYS;
  }

  lemma Overtakes()
    ensures Exec(OVERTAKEN) == Room2(A1, 2, B2, 2, TWO, RELAYS, multiset{OLDER}, map["c" := 2])
  {
    hide Exec, FreshPeer, Ready, Resting, TrackSteps, ServeSteps, Room2;
    AllRest();
    SecondTrack();
    ServesA(SECOND_TRACK, A0, 0, B1, 1, TWO, RELAYS, multiset{OLDER} + multiset{Queued("c", 1, false)}, map["c" := 2]);
    ServesB(ServeSteps(SECOND_TRACK, "a", 0, TWO, 2), A1, 2, B1, 1, TWO, RELAYS, multiset{OLDER}, map["c" := 2]);
  }

  lemma Overlaps()
    ensures Exec(STALE) == Room2(Negotiated(A1, ONE), 1, B2, 2, TWO, RELAYS, multiset{}, map["c" := 2])
    ensures Exec(OVERLAP) == Room2(A2, 1, B2, 2, TWO, RELAYS, multiset{}, map["c" := 2])
  {
    hide Exec, FreshPeer, Answered, Negotiated, Resting, Accepts;
    AllRest();
    Overtakes();
    StillOpen(A1);
    Reconciles(OVERTAKEN, OLDER);
    ReadyRests(A1, ONE);
    Answers(STALE, "a", 0);
  }

  // ---------- What is left behind ----------

  lemma OnlyTheOther()
    ensures Desired("a", ONE) == {} && LocalTrack("b", 7) in Desired("a", TWO)
  {
    assert TWO["b"] == LocalTrack("b", 7);
  }

  /** Nothing is left to negotiate or to answer: both peers are settled, yet "a" does not send
      the track of "b", and nothing will make it. The locks alone do not give convergence. */
  lemma OverlapLeavesPeerBehind()
    ensures var s := Exec(OVERLAP);
            && s.work == multiset{} && s.signal == Idle
            && PeersOf(s.rooms, "c") == map["b" := 1, "a" := 0] && TracksOf(s.rooms, "c") == TWO
            && s.links.Keys == {0, 1}
            && !s.links[0].peer.closed && PeerRuns.Settled(s.links[0].peer) && !UpToDate(s, "c", "a")
            && !s.links[1].peer.closed && PeerRuns.Settled(s.links[1].peer) && UpToDate(s, "c", "b")
  {
    hide Exec, Ready, FreshPeer;
    Overlaps();
    AllRest();
    OnlyTheOther();
  }

  /** The reconcile that did it is not in order, and even if owed answers count it is not
      covered. */
  lemma OverlapIsOutOfOrder()
    ensures !InOrderRun(OVERLAP) && !CoveredRun(OVERLAP, true)
  {
    hide Exec, Ready, FreshPeer, Covered, CoveredRun;
    OverlapLeavesPeerBehind();
    assert !InStep(Exec(OVERLAP), "c", "a", true);
    ConvergesIffCovered(OVERLAP, true);
    if InOrderRun(OVERLAP) {
      InOrderIsCovered(OVERLAP, true);
    }
  }
}

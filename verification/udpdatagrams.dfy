/** The old UDP relay's goroutines: one per connection, which handles a datagram in several
    regions, so that other connections and the cleaning come in between. A lookup that meets a
    missing record ends the process. */
module UdpDatagrams {
  import opened UdpLoss
  import opened UdpRooms

  /** Where a connection's goroutine stands with the datagram it is handling. */
  datatype Stage = Reading | Entered | Stamping(id: RecId) | Touched | Counting(id: RecId)

  datatype Server = Server(maps: State, stages: map<string, Stage>, crashed: bool)

  const START := Server(EMPTY, map[], false)

  /** A connection is known by its address. `Enter` is the question for the participants,
      `FindToStamp` and `FindToCount` are the two lookups that follow if it is let in; a short
      datagram is not counted. */
  datatype Event =
    | SayHello(addr: string, room: string, user: string, now: int)
    | SayBye(addr: string)
    | Enter(addr: string)
    | FindToStamp(addr: string)
    | StampFound(addr: string, now: int)
    | FindToCount(addr: string)
    | CountFound(addr: string, number: uint32)
    | SkipShort(addr: string)
    | CleanUp(now: int)

  function StageOf(v: Server, addr: string): Stage {
    if addr in v.stages then v.stages[addr] else Reading
  }

  function To(v: Server, addr: string, stage: Stage): Server {
    v.(stages := v.stages[addr := stage])
  }

  /** The region of the maps or of a record that an event runs, if any. */
  function Region(v: Server, e: Event): seq<Op> {
    if v.crashed then []
    else
      match e
      case SayHello(addr, room, user, now) => if StageOf(v, addr).Reading? then [Hello(room, user, addr, now)] else []
      case SayBye(addr) => if StageOf(v, addr).Reading? then [Bye(addr)] else []
      case StampFound(addr, now) => if StageOf(v, addr).Stamping? then [Stamp(StageOf(v, addr).id, now)] else []
      case CountFound(addr, number) =>
        if StageOf(v, addr).Counting? then [Packet(StageOf(v, addr).id, number)] else []
      case CleanUp(now) => [Sweep(now)]
      case _ => []
  }

  function Changed(s: State, ops: seq<Op>): State {
    if ops == [] then s else Step(s, ops[0])
  }

  /** A lookup passes an unknown address over. */
  function Looked(v: Server, addr: string, unknown: Stage, found: RecId -> Stage): Server {
    match ReachOf(v.maps, addr)
    case Unknown => To(v, addr, unknown)
    case Dangling => v.(crashed := true)
    case At(_, _, id) => To(v, addr, found(id))
  }

  /** An event that is not possible where its goroutine stands leaves the server as it is. */
  function Next(v: Server, e: Event): Server {
    var w := v.(maps := Changed(v.maps, Region(v, e)));
    if v.crashed then v
    else
      match e
      case Enter(addr) =>
        if StageOf(v, addr).Reading? && Accepted(v.maps, addr) then To(v, addr, Entered) else v
      case FindToStamp(addr) =>
        if StageOf(v, addr).Entered? then Looked(v, addr, Touched, (id: RecId) => Stamping(id)) else v
      case StampFound(addr, _) => if StageOf(v, addr).Stamping? then To(w, addr, Touched) else v
      case FindToCount(addr) =>
        if StageOf(v, addr).Touched? then Looked(v, addr, Reading, (id: RecId) => Counting(id)) else v
      case CountFound(addr, _) => if StageOf(v, addr).Counting? then To(w, addr, Reading) else v
      case SkipShort(addr) => if StageOf(v, addr).Touched? then To(v, addr, Reading) else v
      case _ => w
  }

  function Exec(events: seq<Event>): Server {
    if events == [] then START else Next(Exec(events[..|events| - 1]), events[|events| - 1])
  }

  // ---------- The maps' part of a run ----------

  /** The regions of the maps and records that a run goes through. */
  function Regions(events: seq<Event>): seq<Op> {
    if events == [] then []
    else
      var before := events[..|events| - 1];
      Regions(before) + Region(Exec(before), events[|events| - 1])
  }

  lemma NextMaps(v: Server, e: Event)
    ensures Next(v, e).maps == Changed(v.maps, Region(v, e))
  {
    hide Step, ReachOf, Accepted;
  }

  lemma {:induction false} MapsAreARun(events: seq<Event>)
    ensures Exec(events).maps == UdpRooms.Exec(Regions(events))
  {
    hide Step, Next, Region;
    if events != [] {
      var before, e := events[..|events| - 1], events[|events| - 1];
      MapsAreARun(before);
      NextMaps(Exec(before), e);
      OneRegion(Exec(before), e);
      var ops, more := Regions(before), Region(Exec(before), e);
      if more == [] {
        assert ops + more == ops;
      } else {
        assert (ops + more)[..|ops + more| - 1] == ops;
      }
    }
  }

  lemma OneRegion(v: Server, e: Event)
    ensures |Region(v, e)| <= 1
  {
  }

  // ---------- Crashes ----------

  /** A lookup is taken whose address is known and whose user is registered in no room. */
  predicate LooksForHomeless(v: Server, e: Event) {
    && ((e.FindToStamp? && StageOf(v, e.addr).Entered?) || (e.FindToCount? && StageOf(v, e.addr).Touched?))
    && e.addr in v.maps.addrs
    && v.maps.addrs[e.addr] !in v.maps.homes && !Has(v.maps, "", v.maps.addrs[e.addr])
  }

  /** Some lookup of the run is of that kind. */
  predicate MeetsHomeless(events: seq<Event>) {
    events != [] &&
    (MeetsHomeless(events[..|events| - 1]) || LooksForHomeless(Exec(events[..|events| - 1]), events[|events| - 1]))
  }

  lemma NextCrashes(v: Server, e: Event)
    requires HomesFilled(v.maps)
    ensures Next(v, e).crashed <==> v.crashed || LooksForHomeless(v, e)
  {
    hide Has, Step, HomesFilled;
    if e.FindToStamp? || e.FindToCount? {
      DanglingIffHomeless(v.maps, e.addr);
    }
  }

  /** The process ends exactly in the runs in which a datagram that was let in comes to a
      lookup after its user has lost its room and before its address is forgotten. */
  lemma {:induction false} CrashesIffHomeless(events: seq<Event>)
    ensures Exec(events).crashed <==> MeetsHomeless(events)
  {
    hide Next, LooksForHomeless;
    if events != [] {
      var before := events[..|events| - 1];
      CrashesIffHomeless(before);
      MapsAreARun(before);
      HomesAlwaysFilled(Regions(before));
      NextCrashes(Exec(before), events[|events| - 1]);
    }
  }

  /** A run whose hellos are all orderly never ends the process, whatever comes in between. */
  lemma {:induction false} OrderlyNeverCrashes(events: seq<Event>)
    requires OrderlyRun(Regions(events))
    ensures !Exec(events).crashed
  {
    hide Next, Region;
    if events != [] {
      var before, e := events[..|events| - 1], events[|events| - 1];
      OneRegion(Exec(before), e);
      OrderlyPrefix(Regions(before), Region(Exec(before), e));
      OrderlyNeverCrashes(before);
      MapsAreARun(before);
      HomesAlwaysFilled(Regions(before));
      NextCrashes(Exec(before), e);
      if LooksForHomeless(Exec(before), e) {
        LookupsAlwaysFind(Regions(before), e.addr, Exec(before).maps.addrs[e.addr]);
      }
    }
  }

  lemma OrderlyPrefix(ops: seq<Op>, more: seq<Op>)
    requires |more| <= 1 && OrderlyRun(ops + more)
    ensures OrderlyRun(ops)
  {
    if more == [] {
      assert ops + more == ops;
    } else {
      assert (ops + more)[..|ops + more| - 1] == ops;
    }
  }

  // ---------- A run that ends the process ----------

  /** A user moves from room a to room b and to another connection, and its datagram is let
      in; the record left in room a times out and takes the user's room with it before the
      datagram's first lookup. */
  const HELLOS := [SayHello("x", "a", "ann", 0), SayHello("y", "b", "ann", TIMEOUT)]
  const SWEPT := HELLOS + [Enter("y"), CleanUp(TIMEOUT + 1)]

  const OLD_RECORD := NewRecord("x", 0)
  const NEW_RECORD := NewRecord("y", TIMEOUT)

  function Moved(): State {
    State(map["a" := map["ann" := 0], "b" := map["ann" := 1]], map[0 := OLD_RECORD, 1 := NEW_RECORD],
          map["y" := "ann"], map["ann" := "b"], 2)
  }

  lemma Extended(events: seq<Event>, e: Event)
    ensures Exec(events + [e]) == Next(Exec(events), e)
  {
    assert (events + [e])[..|events|] == events;
  }

  lemma Moves()
    ensures Exec(HELLOS) == Server(Moved(), map[], false)
  {
    hide Exec;
    var one := State(map["a" := map["ann" := 0]], map[0 := OLD_RECORD], map["x" := "ann"], map["ann" := "a"], 1);
    assert HELLOS == ([] + [HELLOS[0]]) + [HELLOS[1]];
    StartsEmpty();
    Extended([], HELLOS[0]);
    Extended([] + [HELLOS[0]], HELLOS[1]);
    assert Exec([] + [HELLOS[0]]).maps == one;
    assert FreedAddrs(one, "ann", "y") == map[];
  }

  lemma StartsEmpty()
    ensures Exec([]) == START
  {
  }

  /** What the cleaning leaves: the new record and its address, and no room for its user. */
  lemma Sweeps()
    ensures var t := Cleaned(Moved(), TIMEOUT + 1);
            && t.addrs == map["y" := "ann"] && t.homes == map[] && "" !in t.rooms
            && Has(t, "b", "ann") && !Idle(Rec(t, "b", "ann"), TIMEOUT + 1)
  {
    var s := Moved();
    SurvivorsOfCleanup(s, TIMEOUT + 1, "b", "ann");
    IdleUserIff(s, TIMEOUT + 1, "ann");
    IdleAddrIff(s, TIMEOUT + 1, "y");
    assert IsIdleIn(s, "a", "ann", TIMEOUT + 1);
    forall room, user | IsIdleIn(s, room, user, TIMEOUT + 1)
      ensures Rec(s, room, user).addr != "y"
    {
      assert room == "a";
    }
    assert "ann" in AllIdleUsers(s.records, s.rooms, TIMEOUT + 1);
    assert "y" !in AllIdleAddrs(s.records, s.rooms, TIMEOUT + 1);
  }

  /** The datagram had been let in, and its lookup ends the process. */
  lemma RoomChangeCrashes()
    ensures !Exec(SWEPT).crashed && StageOf(Exec(SWEPT), "y") == Entered
    ensures Exec(SWEPT + [FindToStamp("y")]).crashed
    ensures !OrderlyRun(Regions(SWEPT))
  {
    hide Exec, Regions, Cleaned;
    Moves();
    Sweeps();
    var inside := HELLOS + [Enter("y")];
    assert SWEPT == inside + [CleanUp(TIMEOUT + 1)];
    Extended(HELLOS, Enter("y"));
    Extended(inside, CleanUp(TIMEOUT + 1));
    Extended(SWEPT, FindToStamp("y"));
    assert Exec(inside) == Server(Moved(), map["y" := Entered], false);
    assert Exec(SWEPT) == Server(Cleaned(Moved(), TIMEOUT + 1), map["y" := Entered], false);
    MapsAreARun(SWEPT);
    if OrderlyRun(Regions(SWEPT)) {
      LookupsAlwaysFind(Regions(SWEPT), "y", "ann");
    }
  }

  /** A datagram that comes after the cleaning is not even let in, although its sender has
      been active all along and has a record. */
  lemma RoomChangeShutsOut()
    ensures var v := Exec(HELLOS + [CleanUp(TIMEOUT + 1)]);
            && Has(v.maps, "b", "ann") && !Idle(Rec(v.maps, "b", "ann"), TIMEOUT + 1)
            && Rec(v.maps, "b", "ann").addr == "y"
            && !Accepted(v.maps, "y") && Next(v, Enter("y")) == v
  {
    hide Exec, Cleaned;
    Moves();
    Sweeps();
    Extended(HELLOS, CleanUp(TIMEOUT + 1));
    SurvivorsOfCleanup(Moved(), TIMEOUT + 1, "b", "ann");
  }
}

/** The old UDP relay's room manager: three maps that index each other, and the records they
    lead to. Times are in nanoseconds. */
module UdpRooms {
  import opened UdpLoss

  const TIMEOUT := 30_000_000_000

  /** The identity of a record: a goroutine that has looked one up holds on to it, whatever
      happens to the maps. */
  type RecId = nat

  type Users = map<string, RecId>

  type Records = map<RecId, Record>

  /** `made` numbers the records. */
  datatype State = State(rooms: map<string, Users>, records: Records,
                         addrs: map<string, string>, homes: map<string, string>, made: nat)

  const EMPTY := State(map[], map[], map[], map[], 0)

  // ---------- The three maps ----------

  predicate Has(s: State, room: string, user: string) {
    room in s.rooms && user in s.rooms[room]
  }

  function RecordOf(records: Records, id: RecId): Record {
    if id in records then records[id] else NewRecord("", 0)
  }

  function Rec(s: State, room: string, user: string): Record
    requires Has(s, room, user)
  {
    RecordOf(s.records, s.rooms[room][user])
  }

  function Members(s: State, room: string): Users {
    if room in s.rooms then s.rooms[room] else map[]
  }

  /** The zero value stands for a user in no room. */
  function Home(s: State, user: string): string {
    if user in s.homes then s.homes[user] else ""
  }

  /** What the lookup of an address arrives at. */
  datatype Reach = Unknown | Dangling | At(room: string, user: string, id: RecId)

  /** Dangling stands for the nil record that the source then dereferences. */
  function ReachOf(s: State, addr: string): Reach {
    if addr !in s.addrs then Unknown
    else
      var user := s.addrs[addr];
      if Has(s, Home(s, user), user) then At(Home(s, user), user, s.rooms[Home(s, user)][user]) else Dangling
  }

  /** A datagram from this address is let in. */
  predicate Accepted(s: State, addr: string) {
    addr in s.addrs && s.addrs[addr] in s.homes
  }

  predicate AddrsResolve(s: State) {
    forall a | a in s.addrs ::
      && ReachOf(s, a).At?
      && ReachOf(s, a).user in s.homes
      && Rec(s, ReachOf(s, a).room, ReachOf(s, a).user).addr == a
  }

  ghost predicate RecordsIndexed(s: State) {
    forall room, user | Has(s, room, user) ::
      && user in s.homes && s.homes[user] == room
      && Rec(s, room, user).addr in s.addrs && s.addrs[Rec(s, room, user).addr] == user
  }

  predicate HomesFilled(s: State) {
    forall user | user in s.homes :: Has(s, s.homes[user], user)
  }

  ghost predicate Numbered(s: State) {
    forall room, user | Has(s, room, user) :: s.rooms[room][user] < s.made
  }

  /** The maps are mutually inverse. */
  ghost predicate Inverse(s: State) {
    AddrsResolve(s) && RecordsIndexed(s) && HomesFilled(s) && Numbered(s)
  }

  predicate NoEmptyRoom(s: State) {
    forall room | room in s.rooms :: s.rooms[room] != map[]
  }

  // ---------- The regions ----------

  /** A user who says hello again from elsewhere gives the old address up. */
  function FreedAddrs(s: State, user: string, addr: string): map<string, string> {
    if user in s.homes && Has(s, s.homes[user], user) && Rec(s, s.homes[user], user).addr != addr
    then s.addrs - {Rec(s, s.homes[user], user).addr}
    else s.addrs
  }

  function Filed(s: State, room: string, user: string, r: Record): State {
    s.(rooms := s.rooms[room := Members(s, room)[user := s.made]],
       records := s.records[s.made := r], made := s.made + 1)
  }

  function Added(s: State, room: string, user: string, addr: string, now: int): State {
    Filed(s, room, user, NewRecord(addr, now))
      .(addrs := FreedAddrs(s, user, addr)[addr := user], homes := s.homes[user := room])
  }

  function Dropped(s: State, room: string, user: string): map<string, Users> {
    if room in s.rooms then s.rooms[room := s.rooms[room] - {user}] else s.rooms
  }

  function Removed(s: State, addr: string): State {
    if addr !in s.addrs then s
    else
      var user := s.addrs[addr];
      s.(rooms := Dropped(s, Home(s, user), user), addrs := s.addrs - {addr}, homes := s.homes - {user})
  }

  /** A record that has been looked up is stamped, wherever it is filed by now. */
  function Stamped(s: State, id: RecId, now: int): State {
    s.(records := s.records[id := RecordOf(s.records, id).(lastSeen := now)])
  }

  function Counted(s: State, id: RecId, current: uint32): (State, Action) {
    var (r, action) := OnPacket(RecordOf(s.records, id), current);
    (s.(records := s.records[id := r]), action)
  }

  predicate Idle(r: Record, now: int) {
    now - r.lastSeen > TIMEOUT
  }

  function IdleUsers(records: Records, users: Users, now: int): set<string> {
    set user | user in users && Idle(RecordOf(records, users[user]), now)
  }

  function IdleAddrs(records: Records, users: Users, now: int): set<string> {
    set user | user in IdleUsers(records, users, now) :: RecordOf(records, users[user]).addr
  }

  /** The timed-out users, and their addresses, of a set of rooms. */
  function AllIdleUsers(records: Records, rooms: map<string, Users>, now: int): set<string> {
    set room, user | room in rooms && user in IdleUsers(records, rooms[room], now) :: user
  }

  function AllIdleAddrs(records: Records, rooms: map<string, Users>, now: int): set<string> {
    set room, addr | room in rooms && addr in IdleAddrs(records, rooms[room], now) :: addr
  }

  function Kept(records: Records, users: Users, now: int): Users {
    users - IdleUsers(records, users, now)
  }

  function Cleaned(s: State, now: int): State {
    s.(rooms := map room | room in s.rooms && Kept(s.records, s.rooms[room], now) != map[] ::
                  Kept(s.records, s.rooms[room], now),
       addrs := s.addrs - AllIdleAddrs(s.records, s.rooms, now),
       homes := s.homes - AllIdleUsers(s.records, s.rooms, now))
  }

  // ---------- Hellos ----------

  /** Says hello into the room the user is in, if any, from an address no one else has. */
  predicate Orderly(s: State, room: string, user: string, addr: string) {
    && (user in s.homes ==> s.homes[user] == room)
    && (addr in s.addrs ==> s.addrs[addr] == user)
  }

  lemma AddedRecords(s: State, room: string, user: string, addr: string, now: int, r: string, u: string)
    requires Numbered(s)
    ensures var t := Added(s, room, user, addr, now);
            && (Has(t, r, u) <==> Has(s, r, u) || (r == room && u == user))
            && (Has(t, r, u) ==>
                  Rec(t, r, u) == if r == room && u == user then NewRecord(addr, now) else Rec(s, r, u))
            && (Has(t, r, u) ==> t.rooms[r][u] < t.made)
  {
    if Has(s, r, u) {
      assert s.rooms[r][u] < s.made;
    }
  }

  /** Only the one who says hello changes entries of the address map. */
  lemma AddedAddrs(s: State, room: string, user: string, addr: string, now: int)
    requires Inverse(s) && Orderly(s, room, user, addr)
    ensures var t := Added(s, room, user, addr, now);
            && t.addrs.Keys == (set a | a in s.addrs && s.addrs[a] != user) + {addr}
            && t.addrs[addr] == user
            && forall a | a in t.addrs && a != addr :: t.addrs[a] == s.addrs[a]
  {
    hide RecordOf, Filed, Numbered;
    var t := Added(s, room, user, addr, now);
    forall a | a in s.addrs && a != addr
      ensures a in t.addrs <==> s.addrs[a] != user
    {
      assert ReachOf(s, a).At?;
    }
  }

  lemma OrderlyResolves(s: State, room: string, user: string, addr: string, now: int)
    requires Inverse(s) && Orderly(s, room, user, addr)
    ensures AddrsResolve(Added(s, room, user, addr, now))
  {
    hide Filed, FreedAddrs, Rec, Has, Numbered;
    var t := Added(s, room, user, addr, now);
    AddedAddrs(s, room, user, addr, now);
    AddedRecords(s, room, user, addr, now, room, user);
    forall a | a in t.addrs && a != addr
      ensures ReachOf(t, a).At? && ReachOf(t, a).user in t.homes
      ensures Rec(t, ReachOf(t, a).room, ReachOf(t, a).user).addr == a
    {
      assert ReachOf(s, a).At?;
      AddedRecords(s, room, user, addr, now, ReachOf(s, a).room, ReachOf(s, a).user);
    }
  }

  lemma OrderlyIndexes(s: State, room: string, user: string, addr: string, now: int)
    requires Inverse(s) && Orderly(s, room, user, addr)
    ensures RecordsIndexed(Added(s, room, user, addr, now))
  {
    hide Filed, FreedAddrs, Rec, Has, AddrsResolve, Numbered;
    var t := Added(s, room, user, addr, now);
    AddedAddrs(s, room, user, addr, now);
    forall r, u | Has(t, r, u)
      ensures u in t.homes && t.homes[u] == r && Rec(t, r, u).addr in t.addrs && t.addrs[Rec(t, r, u).addr] == u
    {
      AddedRecords(s, room, user, addr, now, r, u);
    }
  }

  /** Whatever the hello, everyone's home stays filled. */
  lemma HelloFillsHomes(s: State, room: string, user: string, addr: string, now: int)
    requires HomesFilled(s) && Numbered(s)
    ensures HomesFilled(Added(s, room, user, addr, now)) && Numbered(Added(s, room, user, addr, now))
  {
    hide Filed, FreedAddrs, Rec, RecordOf;
    var t := Added(s, room, user, addr, now);
    forall u | u in t.homes
      ensures Has(t, t.homes[u], u)
    {
      AddedRecords(s, room, user, addr, now, t.homes[u], u);
    }
    forall r, u | Has(t, r, u)
      ensures t.rooms[r][u] < t.made
    {
      AddedRecords(s, room, user, addr, now, r, u);
    }
  }

  lemma OrderlyKeeps(s: State, room: string, user: string, addr: string, now: int)
    requires Inverse(s) && Orderly(s, room, user, addr)
    ensures Inverse(Added(s, room, user, addr, now))
  {
    hide AddrsResolve, RecordsIndexed, HomesFilled, Numbered, Orderly, Added;
    OrderlyResolves(s, room, user, addr, now);
    OrderlyIndexes(s, room, user, addr, now);
    HelloFillsHomes(s, room, user, addr, now);
  }

  lemma DisorderlyBreaks(s: State, room: string, user: string, addr: string, now: int)
    requires Inverse(s) && !Orderly(s, room, user, addr)
    ensures !RecordsIndexed(Added(s, room, user, addr, now))
  {
    hide Filed, FreedAddrs, Rec, Has;
    var t := Added(s, room, user, addr, now);
    if user in s.homes && s.homes[user] != room {
      AddedRecords(s, room, user, addr, now, s.homes[user], user);
      assert Has(s, s.homes[user], user) && Has(t, s.homes[user], user);
    } else {
      var other := s.addrs[addr];
      assert ReachOf(s, addr).At?;
      AddedRecords(s, room, user, addr, now, Home(s, other), other);
      assert Has(t, Home(s, other), other) && Rec(t, Home(s, other), other).addr == addr;
    }
  }

  /** A hello keeps the maps inverse exactly when it is orderly: one into another room leaves
      a record behind, and one from another user's address takes that user's entry. */
  lemma HelloKeepsIffOrderly(s: State, room: string, user: string, addr: string, now: int)
    requires Inverse(s)
    ensures Inverse(Added(s, room, user, addr, now)) <==> Orderly(s, room, user, addr)
  {
    hide AddrsResolve, RecordsIndexed, HomesFilled, Numbered, Orderly, Added;
    if Orderly(s, room, user, addr) {
      OrderlyKeeps(s, room, user, addr, now);
    } else {
      DisorderlyBreaks(s, room, user, addr, now);
    }
  }

  // ---------- Removals ----------

  lemma RemovedRecords(s: State, addr: string, r: string, u: string)
    requires addr in s.addrs
    ensures var t, user := Removed(s, addr), s.addrs[addr];
            && (Has(t, r, u) <==> Has(s, r, u) && !(r == Home(s, user) && u == user))
            && (Has(t, r, u) ==> Rec(t, r, u) == Rec(s, r, u) && t.rooms[r][u] == s.rooms[r][u])
  {
  }

  lemma RemovalIndexes(s: State, addr: string)
    requires Inverse(s)
    ensures RecordsIndexed(Removed(s, addr))
  {
    hide Rec, Has, Dropped;
    if addr in s.addrs {
      forall r, u
        ensures var t, user := Removed(s, addr), s.addrs[addr];
                && (Has(t, r, u) <==> Has(s, r, u) && !(r == Home(s, user) && u == user))
                && (Has(t, r, u) ==> Rec(t, r, u) == Rec(s, r, u))
      {
        RemovedRecords(s, addr, r, u);
      }
      assert ReachOf(s, addr).At?;
    }
  }

  lemma RemovalResolves(s: State, addr: string)
    requires Inverse(s)
    ensures AddrsResolve(Removed(s, addr))
  {
    hide Rec, Has, Dropped, Numbered;
    var t := Removed(s, addr);
    if addr in s.addrs {
      assert ReachOf(s, addr).At?;
      forall a | a in t.addrs
        ensures ReachOf(t, a).At? && ReachOf(t, a).user in t.homes
        ensures Rec(t, ReachOf(t, a).room, ReachOf(t, a).user).addr == a
      {
        assert ReachOf(s, a).At?;
        RemovedRecords(s, addr, ReachOf(s, a).room, ReachOf(s, a).user);
      }
    }
  }

  lemma RemovalFillsHomes(s: State, addr: string)
    requires HomesFilled(s) && Numbered(s)
    ensures HomesFilled(Removed(s, addr)) && Numbered(Removed(s, addr))
  {
    hide Rec, Dropped;
    var t := Removed(s, addr);
    if addr in s.addrs {
      forall u | u in t.homes
        ensures Has(t, t.homes[u], u)
      {
        RemovedRecords(s, addr, t.homes[u], u);
      }
      forall r, u | Has(t, r, u)
        ensures t.rooms[r][u] < t.made
      {
        RemovedRecords(s, addr, r, u);
      }
    }
  }

  lemma RemovalKeeps(s: State, addr: string)
    requires Inverse(s)
    ensures Inverse(Removed(s, addr))
  {
    hide AddrsResolve, RecordsIndexed, HomesFilled, Numbered, Removed;
    RemovalIndexes(s, addr);
    RemovalResolves(s, addr);
    RemovalFillsHomes(s, addr);
  }

  // ---------- Records ----------

  function WithRecord(s: State, id: RecId, r: Record): State {
    s.(records := s.records[id := r])
  }

  /** A change to a record that leaves its address alone. */
  lemma RecordUpdateKeeps(s: State, id: RecId, r: Record)
    requires r.addr == RecordOf(s.records, id).addr
    ensures Inverse(s) ==> Inverse(WithRecord(s, id, r))
    ensures HomesFilled(s) && Numbered(s) ==> HomesFilled(WithRecord(s, id, r)) && Numbered(WithRecord(s, id, r))
  {
    var t := WithRecord(s, id, r);
    assert forall p, u :: Has(t, p, u) <==> Has(s, p, u);
    assert forall p, u | Has(t, p, u) :: Rec(t, p, u).addr == Rec(s, p, u).addr;
    if Inverse(s) {
      forall a | a in t.addrs
        ensures ReachOf(t, a).At? && ReachOf(t, a).user in t.homes
        ensures Rec(t, ReachOf(t, a).room, ReachOf(t, a).user).addr == a
      {
        assert ReachOf(s, a) == ReachOf(t, a);
      }
    }
  }

  lemma VisitsKeep(s: State, id: RecId, now: int, current: uint32)
    ensures Inverse(s) ==> Inverse(Stamped(s, id, now)) && Inverse(Counted(s, id, current).0)
    ensures HomesFilled(s) && Numbered(s) ==>
              && HomesFilled(Stamped(s, id, now)) && Numbered(Stamped(s, id, now))
              && HomesFilled(Counted(s, id, current).0) && Numbered(Counted(s, id, current).0)
  {
    hide Inverse, HomesFilled, Numbered;
    RecordUpdateKeeps(s, id, RecordOf(s.records, id).(lastSeen := now));
    RecordUpdateKeeps(s, id, OnPacket(RecordOf(s.records, id), current).0);
  }

  // ---------- Cleaning ----------

  lemma SurvivorsOfCleanup(s: State, now: int, room: string, user: string)
    ensures var t := Cleaned(s, now);
            && (Has(t, room, user) <==> Has(s, room, user) && !Idle(Rec(s, room, user), now))
            && (Has(t, room, user) ==>
                  Rec(t, room, user) == Rec(s, room, user) && t.rooms[room][user] == s.rooms[room][user])
  {
    if Has(s, room, user) && !Idle(Rec(s, room, user), now) {
      assert user in Kept(s.records, s.rooms[room], now);
    }
  }

  /** In any state at all, cleaning leaves exactly the records that have not timed out, and
      no empty room. */
  lemma CleanupIsExact(s: State, now: int)
    ensures NoEmptyRoom(Cleaned(s, now))
    ensures forall room, user ::
              Has(Cleaned(s, now), room, user) <==> (Has(s, room, user) && !Idle(Rec(s, room, user), now))
    ensures forall room, user | Has(Cleaned(s, now), room, user) ::
              && Rec(Cleaned(s, now), room, user) == Rec(s, room, user)
              && Cleaned(s, now).rooms[room][user] == s.rooms[room][user]
  {
    forall room, user
      ensures Has(Cleaned(s, now), room, user) <==> Has(s, room, user) && !Idle(Rec(s, room, user), now)
      ensures Has(Cleaned(s, now), room, user) ==>
                && Rec(Cleaned(s, now), room, user) == Rec(s, room, user)
                && Cleaned(s, now).rooms[room][user] == s.rooms[room][user]
    {
      SurvivorsOfCleanup(s, now, room, user);
    }
  }

  ghost predicate IsIdleIn(s: State, room: string, user: string, now: int) {
    Has(s, room, user) && Idle(Rec(s, room, user), now)
  }

  lemma IdleUserIff(s: State, now: int, user: string)
    ensures user in AllIdleUsers(s.records, s.rooms, now)
       <==> exists room :: IsIdleIn(s, room, user, now)
  {
    if user in AllIdleUsers(s.records, s.rooms, now) {
      var room :| room in s.rooms && user in IdleUsers(s.records, s.rooms[room], now);
      assert IsIdleIn(s, room, user, now);
    }
    if room :| IsIdleIn(s, room, user, now) {
      assert user in IdleUsers(s.records, s.rooms[room], now);
    }
  }

  lemma IdleAddrIff(s: State, now: int, a: string)
    ensures a in AllIdleAddrs(s.records, s.rooms, now)
       <==> exists room, user :: IsIdleIn(s, room, user, now) && Rec(s, room, user).addr == a
  {
    if a in AllIdleAddrs(s.records, s.rooms, now) {
      var room :| room in s.rooms && a in IdleAddrs(s.records, s.rooms[room], now);
      var user :| user in IdleUsers(s.records, s.rooms[room], now)
                  && RecordOf(s.records, s.rooms[room][user]).addr == a;
      assert IsIdleIn(s, room, user, now) && Rec(s, room, user).addr == a;
    }
    if room, user :| IsIdleIn(s, room, user, now) && Rec(s, room, user).addr == a {
      assert user in IdleUsers(s.records, s.rooms[room], now);
      assert a in IdleAddrs(s.records, s.rooms[room], now);
    }
  }

  lemma CleanupFillsHomes(s: State, now: int)
    requires HomesFilled(s) && Numbered(s)
    ensures HomesFilled(Cleaned(s, now)) && Numbered(Cleaned(s, now))
  {
    CleanupIsExact(s, now);
    hide Rec, Has, AllIdleUsers, AllIdleAddrs, Kept, RecordOf, NoEmptyRoom;
    var t := Cleaned(s, now);
    forall u | u in t.homes
      ensures Has(t, t.homes[u], u)
    {
      IdleUserIff(s, now, u);
      assert Has(s, s.homes[u], u) && !IsIdleIn(s, s.homes[u], u, now);
    }
  }

  /** The entries cleaning drops are those of the records it drops. */
  lemma CleanedIndexes(s: State, now: int)
    requires Inverse(s)
    ensures var t := Cleaned(s, now);
            && (forall a :: a in t.addrs <==> (a in s.addrs && !Idle(Rec(s, s.homes[s.addrs[a]], s.addrs[a]), now)))
            && (forall a | a in t.addrs :: t.addrs[a] == s.addrs[a])
            && (forall u :: u in t.homes <==> (u in s.homes && !Idle(Rec(s, s.homes[u], u), now)))
            && (forall u | u in t.homes :: t.homes[u] == s.homes[u])
  {
    hide Rec, Has, AllIdleUsers, AllIdleAddrs, Kept, RecordOf, Numbered;
    forall a | a in s.addrs
      ensures a in AllIdleAddrs(s.records, s.rooms, now) <==> Idle(Rec(s, s.homes[s.addrs[a]], s.addrs[a]), now)
    {
      assert ReachOf(s, a).At?;
      IdleAddrIff(s, now, a);
    }
    forall u | u in s.homes
      ensures u in AllIdleUsers(s.records, s.rooms, now) <==> Idle(Rec(s, s.homes[u], u), now)
    {
      IdleUserIff(s, now, u);
      assert Has(s, s.homes[u], u);
      assert IsIdleIn(s, s.homes[u], u, now) <==> Idle(Rec(s, s.homes[u], u), now);
    }
  }

  lemma CleanupKeeps(s: State, now: int)
    requires Inverse(s)
    ensures Inverse(Cleaned(s, now))
  {
    CleanupIsExact(s, now);
    CleanupFillsHomes(s, now);
    CleanedIndexes(s, now);
    hide Cleaned, Rec, Has, NoEmptyRoom, Numbered, HomesFilled;
    var t := Cleaned(s, now);
    forall a | a in t.addrs
      ensures ReachOf(t, a).At? && ReachOf(t, a).user in t.homes
      ensures Rec(t, ReachOf(t, a).room, ReachOf(t, a).user).addr == a
    {
      assert ReachOf(s, a).At?;
    }
  }

  // ---------- Runs ----------

  datatype Op =
    | Hello(room: string, user: string, addr: string, now: int)
    | Bye(addr: string)
    | Stamp(id: RecId, now: int)
    | Packet(id: RecId, number: uint32)
    | Sweep(now: int)

  function Step(s: State, op: Op): State {
    match op
    case Hello(room, user, addr, now) => Added(s, room, user, addr, now)
    case Bye(addr) => Removed(s, addr)
    case Stamp(id, now) => Stamped(s, id, now)
    case Packet(id, number) => Counted(s, id, number).0
    case Sweep(now) => Cleaned(s, now)
  }

  function Exec(ops: seq<Op>): State {
    if ops == [] then EMPTY else Step(Exec(ops[..|ops| - 1]), ops[|ops| - 1])
  }

  /** Every hello of the run was orderly when it came. */
  predicate OrderlyRun(ops: seq<Op>) {
    ops != [] ==>
      && OrderlyRun(ops[..|ops| - 1])
      && (ops[|ops| - 1].Hello? ==>
            var op := ops[|ops| - 1];
            Orderly(Exec(ops[..|ops| - 1]), op.room, op.user, op.addr))
  }

  /** The maps were inverse all along. */
  ghost predicate InverseThroughout(ops: seq<Op>) {
    Inverse(Exec(ops)) && (ops != [] ==> InverseThroughout(ops[..|ops| - 1]))
  }

  /** The maps stay inverse throughout a run exactly when every hello in it is orderly. */
  lemma {:induction false} InverseIffOrderly(ops: seq<Op>)
    ensures InverseThroughout(ops) <==> OrderlyRun(ops)
  {
    hide Step, Orderly;
    if ops != [] {
      InverseIffOrderly(ops[..|ops| - 1]);
      StepKeeps(Exec(ops[..|ops| - 1]), ops[|ops| - 1]);
    }
  }

  lemma StepKeeps(s: State, op: Op)
    ensures Inverse(s) ==> (Inverse(Step(s, op)) <==> (op.Hello? ==> Orderly(s, op.room, op.user, op.addr)))
  {
    hide Inverse, HomesFilled, Numbered, Added, Removed, Stamped, Counted, Cleaned, Orderly;
    if Inverse(s) {
      match op
      case Hello(room, user, addr, now) => HelloKeepsIffOrderly(s, room, user, addr, now);
      case Bye(addr) => RemovalKeeps(s, addr);
      case Stamp(id, now) => VisitsKeep(s, id, now, 0);
      case Packet(id, number) => VisitsKeep(s, id, 0, number);
      case Sweep(now) => CleanupKeeps(s, now);
    }
  }

  /** In every run, orderly or not, whoever is registered has a record in the registered
      room; so an address whose datagrams are let in leads to a record at that moment. */
  lemma {:induction false} HomesAlwaysFilled(ops: seq<Op>)
    ensures HomesFilled(Exec(ops)) && Numbered(Exec(ops))
    ensures forall addr | Accepted(Exec(ops), addr) :: ReachOf(Exec(ops), addr).At?
  {
    hide Added, Removed, Stamped, Counted, Cleaned;
    if ops != [] {
      var s := Exec(ops[..|ops| - 1]);
      HomesAlwaysFilled(ops[..|ops| - 1]);
      match ops[|ops| - 1]
      case Hello(room, user, addr, now) => HelloFillsHomes(s, room, user, addr, now);
      case Bye(addr) => RemovalFillsHomes(s, addr);
      case Stamp(id, now) => VisitsKeep(s, id, now, 0);
      case Packet(id, number) => VisitsKeep(s, id, 0, number);
      case Sweep(now) => CleanupFillsHomes(s, now);
    }
  }

  /** After an orderly run an address resolves to a user exactly when that user's record, in
      the user's room, has that address; so a lookup never meets a missing record. */
  lemma LookupsAlwaysFind(ops: seq<Op>, addr: string, user: string)
    requires OrderlyRun(ops)
    ensures var s := Exec(ops);
            && ReachOf(s, addr) != Dangling
            && ((addr in s.addrs && s.addrs[addr] == user)
                <==> (user in s.homes && Has(s, s.homes[user], user) && Rec(s, s.homes[user], user).addr == addr))
            && ((ReachOf(s, addr).At? && ReachOf(s, addr).user == user) <==> (addr in s.addrs && s.addrs[addr] == user))
  {
    InverseIffOrderly(ops);
    var s := Exec(ops);
    if addr in s.addrs {
      assert ReachOf(s, addr).At?;
    }
    if user in s.homes && Has(s, s.homes[user], user) && Rec(s, s.homes[user], user).addr == addr {
      assert s.addrs[addr] == user;
    }
  }

  // ---------- How a lookup loses its record ----------

  /** A lookup meets a missing record exactly when the address is known and its user is
      registered in no room (nor filed in the room with the empty name, where the source
      then looks). */
  lemma DanglingIffHomeless(s: State, addr: string)
    requires HomesFilled(s)
    ensures ReachOf(s, addr) == Dangling
       <==> addr in s.addrs && s.addrs[addr] !in s.homes && !Has(s, "", s.addrs[addr])
  {
  }

  /** Takes the user of the address out of its room and leaves the address: another address of
      the same user says goodbye, or a record of the user's times out in some room, and none
      with this address does. */
  ghost predicate Strands(s: State, op: Op, addr: string)
    requires addr in s.addrs
  {
    var user := s.addrs[addr];
    && !Has(Step(s, op), "", user)
    && match op
       case Bye(other) => other != addr && other in s.addrs && s.addrs[other] == user
       case Sweep(now) =>
         && (exists room :: IsIdleIn(s, room, user, now))
         && forall room, u | IsIdleIn(s, room, u, now) :: Rec(s, room, u).addr != addr
       case _ => false
  }

  /** An address that was let in leads to a missing record after one more call exactly when
      that call strands it. */
  lemma StrandedIff(s: State, op: Op, addr: string)
    requires HomesFilled(s) && Numbered(s) && Accepted(s, addr)
    ensures ReachOf(Step(s, op), addr) == Dangling <==> Strands(s, op, addr)
  {
    hide Has, Rec, RecordOf, Filed, Dropped, AllIdleUsers, AllIdleAddrs, Kept, IsIdleIn;
    DanglingIffHomeless(s, addr);
    match op
    case Hello(room, user, a, now) =>
      HelloFillsHomes(s, room, user, a, now);
      DanglingIffHomeless(Step(s, op), addr);
    case Bye(other) =>
      RemovalFillsHomes(s, other);
      DanglingIffHomeless(Step(s, op), addr);
    case Sweep(now) =>
      CleanupFillsHomes(s, now);
      DanglingIffHomeless(Step(s, op), addr);
      IdleUserIff(s, now, s.addrs[addr]);
      IdleAddrIff(s, now, addr);
    case Stamp(id, now) => StampKeepsRooms(s, id, now, 0);
    case Packet(id, number) => StampKeepsRooms(s, id, 0, number);
  }

  lemma StampKeepsRooms(s: State, id: RecId, now: int, current: uint32)
    ensures forall addr :: ReachOf(Stamped(s, id, now), addr) == ReachOf(s, addr)
    ensures forall addr :: ReachOf(Counted(s, id, current).0, addr) == ReachOf(s, addr)
  {
  }
}

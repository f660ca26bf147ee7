/** The room manager's methods, one per region that holds a mutex, which carry the operations
    out on the maps and records in place. */
module UdpRelay {
  import opened Listings
  import opened UdpLoss
  import opened UdpRooms

  class RoomManager {
    var rooms: map<string, Users>
    var records: Records
    var addrs: map<string, string>
    var homes: map<string, string>
    /** The records made so far. */
    var made: nat

    ghost function Contents(): State
      reads this
    {
      State(rooms, records, addrs, homes, made)
    }

    constructor ()
      ensures Contents() == EMPTY
    {
      rooms, records, addrs, homes, made := map[], map[], map[], map[], 0;
    }

    method AddUser(room: string, user: string, addr: string, now: int) returns (isNew: bool)
      modifies this
      ensures Contents() == Added(old(Contents()), room, user, addr, now)
      ensures isNew <==> user !in old(homes)
    {
      hide RecordOf, NewRecord;
      isNew := user !in homes;
      if user in homes && homes[user] in rooms && user in rooms[homes[user]] {
        var was := RecordOf(records, rooms[homes[user]][user]).addr;
        if was != addr {
          addrs := addrs - {was};
        }
      }
      assert addrs == FreedAddrs(old(Contents()), user, addr);
      if room !in rooms {
        rooms := rooms[room := map[]];
      }
      var users: Users := rooms[room];
      users := users[user := made];
      rooms := rooms[room := users];
      assert rooms == old(rooms)[room := Members(old(Contents()), room)[user := made]];
      records := records[made := NewRecord(addr, now)];
      made := made + 1;
      addrs := addrs[addr := user];
      homes := homes[user := room];
    }

    /** The connections of everyone in the sender's room, each once, in some order. */
    method GetParticipants(addr: string) returns (conns: seq<string>, ok: bool)
      ensures ok == Accepted(Contents(), addr)
      ensures !ok ==> conns == []
      ensures ok ==> |conns| == |Members(Contents(), homes[addrs[addr]])|
      ensures ok ==> forall c :: c in conns <==> c in AddrsOf(records, Members(Contents(), homes[addrs[addr]]))
      ensures ok && Inverse(Contents()) ==> addr in conns && forall i, j | 0 <= i < j < |conns| :: conns[i] != conns[j]
    {
      if addr !in addrs {
        return [], false;
      }
      var user := addrs[addr];
      if user !in homes {
        return [], false;
      }
      var users := if homes[user] in rooms then rooms[homes[user]] else map[];
      conns := Connections(records, users);
      if Inverse(Contents()) {
        OwnAddresses(Contents(), homes[user]);
        DistinctIfFull(conns, AddrsOf(records, users));
        assert ReachOf(Contents(), addr).At?;
      }
      ok := true;
    }

    /** The lookup that `UpdateActivity` and `AnalyzePacketLoss` begin with. */
    method Lookup(addr: string) returns (reach: Reach)
      ensures reach == ReachOf(Contents(), addr)
    {
      if addr !in addrs {
        return Unknown;
      }
      var user := addrs[addr];
      var room := if user in homes then homes[user] else "";
      if room !in rooms || user !in rooms[room] {
        return Dangling;
      }
      return At(room, user, rooms[room][user]);
    }

    /** The rest of `UpdateActivity`, under the record's own mutex. */
    method Touch(id: RecId, now: int)
      modifies this`records
      ensures Contents() == Stamped(old(Contents()), id, now)
    {
      records := records[id := RecordOf(records, id).(lastSeen := now)];
    }

    /** The rest of `AnalyzePacketLoss`, under the record's own mutex. */
    method Count(id: RecId, current: uint32) returns (action: Action)
      modifies this`records
      ensures (Contents(), action) == Counted(old(Contents()), id, current)
    {
      var record: Record;
      record, action := CountPacket(RecordOf(records, id), current);
      records := records[id := record];
    }

    method RemoveUserByAddr(addr: string)
      modifies this
      ensures Contents() == Removed(old(Contents()), addr)
    {
      if addr !in addrs {
        return;
      }
      var user := addrs[addr];
      var room := if user in homes then homes[user] else "";
      addrs := addrs - {addr};
      homes := homes - {user};
      if room in rooms {
        rooms := rooms[room := rooms[room] - {user}];
      }
    }

    method Cleanup(now: int)
      modifies this
      ensures Contents() == Cleaned(old(Contents()), now)
    {
      rooms, addrs, homes := CleanRooms(records, rooms, addrs, homes, now);
    }
  }

  // ---------- Cleaning ----------

  /** The timed-out users leave their room, and their entries in the other two maps go. */
  method CleanRoom(records: Records, users: Users, now: int, addrs: map<string, string>, homes: map<string, string>)
    returns (left: Users, addrsLeft: map<string, string>, homesLeft: map<string, string>)
    ensures left == Kept(records, users, now)
    ensures addrsLeft == addrs - IdleAddrs(records, users, now)
    ensures homesLeft == homes - IdleUsers(records, users, now)
  {
    hide IdleUsers, IdleAddrs, RecordOf, Idle;
    left, addrsLeft, homesLeft := users, addrs, homes;
    NobodyIdle(records, now);
    var todo := users.Keys;
    ghost var done: Users := map[];
    while todo != {}
      invariant todo <= users.Keys && done == users - todo
      invariant left == users - IdleUsers(records, done, now)
      invariant addrsLeft == addrs - IdleAddrs(records, done, now)
      invariant homesLeft == homes - IdleUsers(records, done, now)
    {
      var user :| user in todo;
      var r := RecordOf(records, users[user]);
      if Idle(r, now) {
        addrsLeft := addrsLeft - {r.addr};
        homesLeft := homesLeft - {user};
        left := left - {user};
      }
      OneMoreUser(records, done, user, users[user], now);
      MinusTwice(addrs, IdleAddrs(records, done, now), {r.addr});
      MinusTwice(homes, IdleUsers(records, done, now), {user});
      MinusTwice(users, IdleUsers(records, done, now), {user});
      done := done[user := users[user]];
      todo := todo - {user};
    }
    assert done == users;
  }

  lemma NobodyIdle(records: Records, now: int)
    ensures IdleUsers(records, map[], now) == {} && IdleAddrs(records, map[], now) == {}
  {
  }

  lemma OneMoreUser(records: Records, done: Users, user: string, id: RecId, now: int)
    requires user !in done
    ensures var more, r := done[user := id], RecordOf(records, id);
            && IdleUsers(records, more, now) == IdleUsers(records, done, now) + (if Idle(r, now) then {user} else {})
            && IdleAddrs(records, more, now) == IdleAddrs(records, done, now) + (if Idle(r, now) then {r.addr} else {})
  {
    hide RecordOf;
    var more := done[user := id];
    assert Idle(RecordOf(records, id), now) ==> user in IdleUsers(records, more, now);
    forall addr | addr in IdleAddrs(records, done, now)
      ensures addr in IdleAddrs(records, more, now)
    {
      var u :| u in IdleUsers(records, done, now) && RecordOf(records, done[u]).addr == addr;
      assert u in IdleUsers(records, more, now);
    }
  }

  lemma OneMoreRoom(records: Records, done: map<string, Users>, room: string, users: Users, now: int)
    requires room !in done
    ensures AllIdleUsers(records, done[room := users], now)
            == AllIdleUsers(records, done, now) + IdleUsers(records, users, now)
    ensures AllIdleAddrs(records, done[room := users], now)
            == AllIdleAddrs(records, done, now) + IdleAddrs(records, users, now)
  {
    hide IdleUsers, IdleAddrs;
    var more := done[room := users];
    assert forall r | r in done :: more[r] == done[r];
    assert room in more && more[room] == users;
  }

  /** The two nested loops of the cleaning, in any map order. */
  method CleanRooms(records: Records, rooms: map<string, Users>, addrs: map<string, string>,
                    homes: map<string, string>, now: int)
    returns (roomsLeft: map<string, Users>, addrsLeft: map<string, string>, homesLeft: map<string, string>)
    ensures forall made ::
              State(roomsLeft, records, addrsLeft, homesLeft, made)
              == Cleaned(State(rooms, records, addrs, homes, made), now)
  {
    hide Cleaned, Kept, AllIdleAddrs, AllIdleUsers, IdleAddrs, IdleUsers;
    roomsLeft, addrsLeft, homesLeft := rooms, addrs, homes;
    NoIdleInNoRooms(records, now);
    var todo := rooms.Keys;
    ghost var done: map<string, Users> := map[];
    while todo != {}
      invariant todo <= rooms.Keys && done == rooms - todo
      invariant todo <= roomsLeft.Keys <= rooms.Keys
      invariant forall r | r in todo :: roomsLeft[r] == rooms[r]
      invariant forall r | r in done :: r in roomsLeft <==> Kept(records, rooms[r], now) != map[]
      invariant forall r | r in done && r in roomsLeft :: roomsLeft[r] == Kept(records, rooms[r], now)
      invariant addrsLeft == addrs - AllIdleAddrs(records, done, now)
      invariant homesLeft == homes - AllIdleUsers(records, done, now)
    {
      var room :| room in todo;
      var left: Users;
      left, addrsLeft, homesLeft := CleanRoom(records, roomsLeft[room], now, addrsLeft, homesLeft);
      roomsLeft := if left == map[] then roomsLeft - {room} else roomsLeft[room := left];
      OneMoreRoom(records, done, room, rooms[room], now);
      MinusTwice(addrs, AllIdleAddrs(records, done, now), IdleAddrs(records, rooms[room], now));
      MinusTwice(homes, AllIdleUsers(records, done, now), IdleUsers(records, rooms[room], now));
      done := done[room := rooms[room]];
      todo := todo - {room};
    }
    assert done == rooms;
    forall made: nat
      ensures State(roomsLeft, records, addrsLeft, homesLeft, made)
              == Cleaned(State(rooms, records, addrs, homes, made), now)
    {
      AllRoomsCleaned(State(rooms, records, addrs, homes, made), now, roomsLeft);
    }
  }

  lemma MinusTwice<V>(m: map<string, V>, a: set<string>, b: set<string>)
    ensures (m - a) - b == m - (a + b) && a + {} == a
  {
  }

  lemma NoIdleInNoRooms(records: Records, now: int)
    ensures AllIdleAddrs(records, map[], now) == {} && AllIdleUsers(records, map[], now) == {}
  {
  }

  lemma AllRoomsCleaned(s: State, now: int, left: map<string, Users>)
    requires left.Keys <= s.rooms.Keys
    requires forall r | r in s.rooms :: r in left <==> Kept(s.records, s.rooms[r], now) != map[]
    requires forall r | r in left :: left[r] == Kept(s.records, s.rooms[r], now)
    ensures Cleaned(s, now) == s.(rooms := left, addrs := s.addrs - AllIdleAddrs(s.records, s.rooms, now),
                                  homes := s.homes - AllIdleUsers(s.records, s.rooms, now))
  {
    hide Kept;
    assert Cleaned(s, now).rooms == left;
  }

  // ---------- Counting ----------

  /** One packet, counter by counter. */
  method CountPacket(r: Record, current: uint32) returns (s: Record, action: Action)
    ensures (s, action) == OnPacket(r, current)
  {
    s, action := r.(total := r.total + 1), Nothing;
    if s.lastSeq != 0 && current > (s.lastSeq + 1) % UINT32 {
      s := s.(lost := s.lost + (current - s.lastSeq - 1) % UINT32);
    }
    s := s.(lastSeq := current);
    if s.total >= WINDOW {
      var lossRate := s.lost as real / s.total as real;
      s := s.(lost := 0, total := 0);
      if lossRate > 0.05 {
        action := Down;
      } else if lossRate < 0.01 {
        action := Up;
      }
    }
  }

  // ---------- Participants ----------

  function AddrsOf(records: Records, users: Users): set<string> {
    set user | user in users :: RecordOf(records, users[user]).addr
  }

  method Connections(records: Records, users: Users) returns (conns: seq<string>)
    ensures |conns| == |users|
    ensures forall c :: c in conns <==> c in AddrsOf(records, users)
  {
    conns := [];
    var todo := users.Keys;
    while todo != {}
      invariant todo <= users.Keys && |conns| + |todo| == |users|
      invariant forall c :: c in conns <==>
                  exists user | user in users.Keys - todo :: RecordOf(records, users[user]).addr == c
    {
      var user :| user in todo;
      conns := conns + [RecordOf(records, users[user]).addr];
      todo := todo - {user};
    }
  }

  /** Where the maps are inverse no two users of a room share an address. */
  lemma OwnAddresses(s: State, room: string)
    requires Inverse(s)
    ensures |AddrsOf(s.records, Members(s, room))| == |Members(s, room)|
  {
    assert forall user | user in Members(s, room) :: Has(s, room, user);
    DistinctAddrs(s.records, Members(s, room));
  }

  predicate OwnAddrs(records: Records, users: Users) {
    forall u, v | u in users && v in users && u != v ::
      RecordOf(records, users[u]).addr != RecordOf(records, users[v]).addr
  }

  lemma {:induction false} DistinctAddrs(records: Records, users: Users)
    requires OwnAddrs(records, users)
    ensures |AddrsOf(records, users)| == |users|
    decreases |users|
  {
    hide AddrsOf, OwnAddrs;
    if users == map[] {
      NobodysAddrs(records, users);
    } else {
      var user :| user in users;
      OneFewer(records, users, user);
      DistinctAddrs(records, users - {user});
    }
  }

  lemma NobodysAddrs(records: Records, users: Users)
    requires users == map[]
    ensures AddrsOf(records, users) == {}
  {
  }

  lemma OneFewer(records: Records, users: Users, user: string)
    requires OwnAddrs(records, users) && user in users
    ensures OwnAddrs(records, users - {user})
    ensures |users - {user}| == |users| - 1
    ensures |AddrsOf(records, users - {user})| == |AddrsOf(records, users)| - 1
  {
    hide RecordOf;
    var rest, own := users - {user}, RecordOf(records, users[user]).addr;
    assert rest.Keys == users.Keys - {user};
    forall addr
      ensures addr in AddrsOf(records, rest) <==> addr in AddrsOf(records, users) && addr != own
    {
      if u :| u in users && RecordOf(records, users[u]).addr == addr && u != user {
        assert u in rest && RecordOf(records, rest[u]).addr == addr;
      }
    }
    assert AddrsOf(records, rest) == AddrsOf(records, users) - {own};
  }
}

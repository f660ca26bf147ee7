/** What a hello, a goodbye, a datagram and a cleaning mean for one user of the old UDP relay,
    and what each record has counted after any run. */
module UdpEffects {
  import opened UdpLoss
  import opened UdpRooms

  // ---------- Hellos and goodbyes ----------

  /** After a hello the address leads to a new record of the user in that room, seen now, with
      nothing counted, and its datagrams are let in. */
  lemma HelloEffect(s: State, room: string, user: string, addr: string, now: int)
    requires Numbered(s)
    ensures var t := Step(s, Hello(room, user, addr, now));
            && Accepted(t, addr) && ReachOf(t, addr) == At(room, user, s.made)
            && t.records[s.made] == Record(addr, now, 0, 0, 0)
            && user in t.homes && t.homes[user] == room
            && (forall u | u in s.homes && u != user :: u in t.homes && t.homes[u] == s.homes[u])
            && (forall r, u | Has(s, r, u) && !(r == room && u == user) :: Has(t, r, u) && Rec(t, r, u) == Rec(s, r, u))
            && (forall r, u | Has(t, r, u) && !(r == room && u == user) :: Has(s, r, u))
  {
    forall r, u | Has(s, r, u)
      ensures s.rooms[r][u] < s.made
    {
    }
  }

  /** A user who was known under another address is not any more, and nobody else's entry is
      lost. */
  lemma HelloFreesOldAddress(s: State, room: string, user: string, addr: string, now: int)
    ensures var t := Step(s, Hello(room, user, addr, now));
            && (user in s.homes && Has(s, s.homes[user], user) && Rec(s, s.homes[user], user).addr != addr ==>
                  Rec(s, s.homes[user], user).addr !in t.addrs)
            && forall a | a in s.addrs && a != addr
                          && !(user in s.homes && Has(s, s.homes[user], user)
                               && Rec(s, s.homes[user], user).addr == a) ::
                 a in t.addrs && t.addrs[a] == s.addrs[a]
  {
  }

  /** After a goodbye the address is unknown, its user registered nowhere and gone from its
      room; everybody else stays. */
  lemma ByeEffect(s: State, addr: string)
    ensures var t := Step(s, Bye(addr));
            && addr !in t.addrs && ReachOf(t, addr) == Unknown && !Accepted(t, addr)
            && (addr !in s.addrs ==> t == s)
            && (addr in s.addrs ==>
                  var user := s.addrs[addr];
                  && user !in t.homes
                  && (user in s.homes ==> !Has(t, s.homes[user], user))
                  && (forall a | a in s.addrs && a != addr :: a in t.addrs && t.addrs[a] == s.addrs[a])
                  && (forall u | u in s.homes && u != user :: u in t.homes && t.homes[u] == s.homes[u])
                  && (forall r, u | u != user :: (Has(t, r, u) <==> Has(s, r, u))
                                                 && (Has(t, r, u) ==> Rec(t, r, u) == Rec(s, r, u))))
  {
  }

  // ---------- What a record has counted ----------

  /** The sequence numbers counted on a record since it was made. */
  function OwnNumbers(ops: seq<Op>, id: RecId): seq<uint32> {
    if ops == [] then []
    else
      var before, op := ops[..|ops| - 1], ops[|ops| - 1];
      if op.Hello? && Exec(before).made == id then []
      else if op.Packet? && op.id == id then OwnNumbers(before, id) + [op.number]
      else OwnNumbers(before, id)
  }

  /** When the record was made, or last stamped since. */
  function OwnLastSeen(ops: seq<Op>, id: RecId): int {
    if ops == [] then 0
    else
      var before, op := ops[..|ops| - 1], ops[|ops| - 1];
      if op.Hello? && Exec(before).made == id then op.now
      else if op.Stamp? && op.id == id then op.now
      else OwnLastSeen(before, id)
  }

  predicate SameCounters(r: Record, q: Record) {
    r.lastSeq == q.lastSeq && r.lost == q.lost && r.total == q.total
  }

  lemma CountingIgnoresTheRest(r: Record, q: Record, n: uint32)
    requires SameCounters(r, q)
    ensures SameCounters(OnPacket(r, n).0, OnPacket(q, n).0) && OnPacket(r, n).1 == OnPacket(q, n).1
    ensures OnPacket(r, n).0.lastSeen == r.lastSeen && OnPacket(r, n).0.addr == r.addr
  {
  }

  lemma StepAndRecord(s: State, op: Op, id: RecId)
    requires id < s.made
    ensures var r, q := RecordOf(s.records, id), RecordOf(Step(s, op).records, id);
            && (op.Packet? && op.id == id ==> q == OnPacket(r, op.number).0)
            && (op.Stamp? && op.id == id ==> q == r.(lastSeen := op.now))
            && (!(op.Packet? && op.id == id) && !(op.Stamp? && op.id == id) ==> q == r)
    ensures Step(s, op).made == if op.Hello? then s.made + 1 else s.made
  {
  }

  /** In every run each record holds exactly the counters of its own packets, in their order,
      and the time of its making or last stamp. */
  lemma {:induction false} RecordIsItsRun(ops: seq<Op>, id: RecId)
    requires id < Exec(ops).made
    ensures var r := RecordOf(Exec(ops).records, id);
            SameCounters(r, Fed(NewRecord("", 0), OwnNumbers(ops, id))) && r.lastSeen == OwnLastSeen(ops, id)
  {
    var before, op := ops[..|ops| - 1], ops[|ops| - 1];
    var s := Exec(before);
    if id < s.made {
      RecordIsItsRun(before, id);
      hide Step, OnPacket;
      StepAndRecord(s, op, id);
      if op.Packet? && op.id == id {
        var numbers := OwnNumbers(before, id);
        assert (numbers + [op.number])[..|numbers|] == numbers;
        CountingIgnoresTheRest(RecordOf(s.records, id), Fed(NewRecord("", 0), numbers), op.number);
      }
    } else {
      NewRecordIsFresh(s, op, id);
    }
  }

  lemma NewRecordIsFresh(s: State, op: Op, id: RecId)
    requires s.made <= id < Step(s, op).made
    ensures op.Hello? && id == s.made
    ensures RecordOf(Step(s, op).records, id) == NewRecord(op.addr, op.now)
  {
  }

  /** So on every record: a packet that continues an increasing run of its own non-zero numbers
      is answered DOWN if and only if it is its hundredth, two hundredth and so on, and at
      least six numbers were skipped in that hundred, and UP if and only if none was. */
  lemma RelayAnswers(ops: seq<Op>, id: RecId, number: uint32)
    requires id < Exec(ops).made && Increasing(OwnNumbers(ops, id) + [number])
    ensures var all := OwnNumbers(ops, id) + [number];
            var n := |all|;
            var action := Counted(Exec(ops), id, number).1;
            if n % 100 != 0 then action == Nothing
            else
              var skippedBefore := if n == 100 then 0 else all[n - 101] - all[0] + 1 - (n - 100);
              var skipped := (all[n - 1] - all[0] + 1 - n) - skippedBefore;
              (action == Down <==> skipped >= 6) && (action == Up <==> skipped == 0)
  {
    var numbers := OwnNumbers(ops, id);
    var all := numbers + [number];
    RecordIsItsRun(ops, id);
    WindowsAnswer("", 0, all);
    assert all[..|all| - 1] == numbers && all[|all| - 1] == number;
    CountingIgnoresTheRest(RecordOf(Exec(ops).records, id), Fed(NewRecord("", 0), numbers), number);
  }

  // ---------- Cleaning ----------

  /** In an orderly run a cleaning keeps exactly the users seen in the last thirty seconds: an
      address that is let in still is afterwards if and only if its record was made or stamped
      within that time. */
  lemma ActiveUsersStay(ops: seq<Op>, addr: string, now: int)
    requires OrderlyRun(ops) && Accepted(Exec(ops), addr)
    ensures ReachOf(Exec(ops), addr).At?
    ensures Accepted(Exec(ops + [Sweep(now)]), addr)
       <==> now - RecordOf(Exec(ops).records, ReachOf(Exec(ops), addr).id).lastSeen <= 30_000_000_000
  {
    hide Step;
    var s := Exec(ops);
    assert (ops + [Sweep(now)])[..|ops|] == ops;
    InverseIffOrderly(ops);
    HomesAlwaysFilled(ops);
    KeptIffSeen(s, addr, now);
  }

  lemma KeptIffSeen(s: State, addr: string, now: int)
    requires Inverse(s) && Accepted(s, addr) && ReachOf(s, addr).At?
    ensures Accepted(Step(s, Sweep(now)), addr)
       <==> now - RecordOf(s.records, ReachOf(s, addr).id).lastSeen <= 30_000_000_000
  {
    CleanedIndexes(s, now);
    hide Cleaned;
  }
}

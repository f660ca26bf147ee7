/** How the old UDP relay counts the packets each user loses. */
module UdpLoss {
  // ---------- A user's record ----------

  const UINT32 := 0x1_0000_0000

  type uint32 = x: int | 0 <= x < UINT32

  /** A registered user: address, last activity, and the counters of the current window. */
  datatype Record = Record(addr: string, lastSeen: int, lastSeq: uint32, lost: int, total: int)

  datatype Action = Nothing | Down | Up

  const WINDOW := 100

  /** The loss rate of a closed window decides; the subtraction wraps at 32 bits. */
  function Verdict(lost: int, total: int): Action
    requires total > 0
  {
    var rate := lost as real / total as real;
    if rate > 0.05 then Down else if rate < 0.01 then Up else Nothing
  }

  function OnPacket(r: Record, current: uint32): (Record, Action) {
    var total := r.total + 1;
    var lost := if r.lastSeq != 0 && current > (r.lastSeq + 1) % UINT32
                then r.lost + (current - r.lastSeq - 1) % UINT32 else r.lost;
    var s := r.(lastSeq := current);
    if total >= WINDOW then (s.(lost := 0, total := 0), Verdict(lost, total))
    else (s.(lost := lost, total := total), Nothing)
  }

  // ---------- Loss accounting over a run of packets ----------

  /** Later packets have larger sequence numbers, and none is zero. */
  predicate Increasing(seqs: seq<uint32>) {
    (forall i | 0 <= i < |seqs| :: seqs[i] > 0) && forall i, j | 0 <= i < j < |seqs| :: seqs[i] < seqs[j]
  }

  function NewRecord(addr: string, now: int): Record {
    Record(addr, now, 0, 0, 0)
  }

  function Fed(r: Record, seqs: seq<uint32>): Record {
    if seqs == [] then r else OnPacket(Fed(r, seqs[..|seqs| - 1]), seqs[|seqs| - 1]).0
  }

  /** The answer to the last packet of a run. */
  function LastAction(r: Record, seqs: seq<uint32>): Action
    requires seqs != []
  {
    OnPacket(Fed(r, seqs[..|seqs| - 1]), seqs[|seqs| - 1]).1
  }

  /** Losses of all the windows a run has closed. */
  function ClosedLosses(r: Record, seqs: seq<uint32>): int {
    if seqs == [] then 0
    else
      var before, current := seqs[..|seqs| - 1], seqs[|seqs| - 1];
      var was := Fed(r, before);
      ClosedLosses(r, before)
      + if was.total + 1 >= WINDOW then was.lost + Gap(was, current) else 0
  }

  /** Sequence numbers skipped by a packet. */
  function Gap(r: Record, current: uint32): int {
    if r.lastSeq != 0 && current > r.lastSeq then current - r.lastSeq - 1 else 0
  }

  /** Sequence numbers missing among the first `n` packets: what `n` consecutive ones would
      not have skipped. */
  function Missing(seqs: seq<uint32>, n: nat): int
    requires n <= |seqs|
  {
    if n == 0 then 0 else seqs[n - 1] - seqs[0] + 1 - n
  }

  /** On a later packet nothing wraps. */
  lemma LaterPacket(r: Record, current: uint32)
    requires current > r.lastSeq && 0 <= r.total < WINDOW
    ensures var (s, action) := OnPacket(r, current);
            && s.lastSeq == current
            && (if r.total + 1 < WINDOW
                then s.total == r.total + 1 && s.lost == r.lost + Gap(r, current) && action == Nothing
                else s.total == 0 && s.lost == 0 && action == Verdict(r.lost + Gap(r, current), WINDOW))
  {
  }

  lemma VerdictBounds(lost: int)
    requires lost >= 0
    ensures Verdict(lost, WINDOW) == Down <==> lost >= 6
    ensures Verdict(lost, WINDOW) == Up <==> lost == 0
  {
    assert lost as real / 100.0 > 0.05 <==> lost as real > 5.0;
    assert lost as real / 100.0 < 0.01 <==> lost as real < 1.0;
  }

  /** Where a run stands: `counted` packets have been counted by closed windows. */
  ghost predicate Stands(r: Record, closed: int, seqs: seq<uint32>, counted: nat) {
    && counted <= |seqs| < counted + WINDOW
    && closed == Missing(seqs, counted)
    && r.lost == Missing(seqs, |seqs|) - Missing(seqs, counted)
    && r.total == |seqs| - counted
    && r.lastSeq == (if seqs == [] then 0 else seqs[|seqs| - 1])
  }

  lemma StandsKept(r: Record, closed: int, seqs: seq<uint32>, current: uint32, counted: nat)
    requires Stands(r, closed, seqs, counted) && Increasing(seqs + [current])
    ensures var s := OnPacket(r, current).0;
            if |seqs| + 1 < counted + WINDOW then Stands(s, closed, seqs + [current], counted)
            else Stands(s, closed + r.lost + Gap(r, current), seqs + [current], counted + WINDOW)
  {
    var all := seqs + [current];
    assert all[|seqs|] == current;
    if seqs != [] {
      assert all[|seqs| - 1] < all[|seqs|];
    }
    assert forall n | 0 <= n <= |seqs| :: Missing(all, n) == Missing(seqs, n);
    assert r.lost + Gap(r, current) == Missing(all, |all|) - Missing(all, counted);
    LaterPacket(r, current);
  }

  /** The packets counted by closed windows. */
  function ByClosedWindows(n: nat): nat {
    if n == 0 then 0 else if n >= ByClosedWindows(n - 1) + WINDOW then n else ByClosedWindows(n - 1)
  }

  /** Windows close after whole hundreds. */
  lemma {:induction false} ClosedCountIsHundreds(n: nat)
    ensures ByClosedWindows(n) == n - n % WINDOW
  {
    if n > 0 {
      ClosedCountIsHundreds(n - 1);
    }
  }

  lemma {:induction false} RunStands(addr: string, now: int, seqs: seq<uint32>)
    requires Increasing(seqs)
    ensures var r := NewRecord(addr, now);
            Stands(Fed(r, seqs), ClosedLosses(r, seqs), seqs, ByClosedWindows(|seqs|))
  {
    if seqs != [] {
      var before, current := seqs[..|seqs| - 1], seqs[|seqs| - 1];
      assert before + [current] == seqs;
      RunStands(addr, now, before);
      StandsKept(Fed(NewRecord(addr, now), before), ClosedLosses(NewRecord(addr, now), before), before, current,
                 ByClosedWindows(|before|));
    }
  }

  /** After any increasing run, the losses of all closed windows and of the open one add up
      to last - first + 1 - received, and the open window has counted what is left of the
      run after whole hundreds. */
  lemma {:induction false} LossesTelescope(addr: string, now: int, seqs: seq<uint32>)
    requires Increasing(seqs)
    ensures var r := Fed(NewRecord(addr, now), seqs);
            && ClosedLosses(NewRecord(addr, now), seqs) + r.lost
               == (if seqs == [] then 0 else seqs[|seqs| - 1] - seqs[0] + 1 - |seqs|)
            && r.total == |seqs| % 100
  {
    RunStands(addr, now, seqs);
    ClosedCountIsHundreds(|seqs|);
  }

  lemma {:induction false} MissingGrows(seqs: seq<uint32>, m: nat, n: nat)
    requires Increasing(seqs) && m <= n <= |seqs|
    ensures Missing(seqs, m) <= Missing(seqs, n)
  {
    if m < n {
      MissingGrows(seqs, m, n - 1);
      if n > 1 {
        assert seqs[n - 2] < seqs[n - 1];
      }
    }
  }

  /** A window closes with every hundredth packet and no other; it answers DOWN exactly when
      at least six numbers were skipped since the last closing, UP exactly when none was. */
  lemma {:induction false} WindowsAnswer(addr: string, now: int, seqs: seq<uint32>)
    requires Increasing(seqs) && seqs != []
    ensures var action := LastAction(NewRecord(addr, now), seqs);
            if |seqs| % WINDOW != 0 then action == Nothing
            else
              var skipped := Missing(seqs, |seqs|) - Missing(seqs, |seqs| - WINDOW);
              && (action == Down <==> skipped >= 6)
              && (action == Up <==> skipped == 0)
  {
    var before, current := seqs[..|seqs| - 1], seqs[|seqs| - 1];
    var r := Fed(NewRecord(addr, now), before);
    RunStands(addr, now, before);
    ClosedCountIsHundreds(|before|);
    ClosedCountIsHundreds(|seqs|);
    assert forall n | 0 <= n <= |before| :: Missing(seqs, n) == Missing(before, n);
    if before != [] {
      assert seqs[|before| - 1] < seqs[|before|];
    }
    LaterPacket(r, current);
    if |seqs| % WINDOW == 0 {
      MissingGrows(seqs, |seqs| - WINDOW, |seqs|);
      VerdictBounds(Missing(seqs, |seqs|) - Missing(seqs, |seqs| - WINDOW));
    }
  }
}

/** One participant of a call: the peer connection's sender list and JSEP signalling
    state, the needsOffer flag and the ICE buffer. Every method of `Peer` is one region
    of the code that runs while the peer's mutex is held. */
module Peers {
  import opened Wrappers

  type Candidate = string

  const MAX_BUFFERED_ICE := 50

  const STREAM_PREFIX := "user-"

  // ---------- Tracks ----------

  /** A relayed audio track. `id` stands for the identity of the track object. */
  datatype Track = Track(streamId: string, id: nat)

  function TrimPrefix(s: string, prefix: string): string {
    if prefix <= s then s[|prefix|..] else s
  }

  function Owner(t: Track): string {
    TrimPrefix(t.streamId, STREAM_PREFIX)
  }

  /** The track a relay creates for its user. */
  function LocalTrack(user: string, id: nat): (t: Track)
    ensures Owner(t) == user
  {
    Track(STREAM_PREFIX + user, id)
  }

  type Tracks = map<string, Track>

  /** Every track is filed under the user its stream id names. */
  ghost predicate WellOwned(tracks: Tracks) {
    forall u | u in tracks :: Owner(tracks[u]) == u
  }

  /** What a peer should send: everybody's current track but its own. */
  function Desired(user: string, tracks: Tracks): set<Track> {
    set o | o in tracks && o != user :: tracks[o]
  }

  // ---------- Sender slots ----------

  type Slots = seq<Option<Track>>

  function Live(slots: Slots): set<Track> {
    set i | 0 <= i < |slots| && slots[i].Some? :: slots[i].value
  }

  ghost predicate UniqueOwners(slots: Slots) {
    forall i, j | 0 <= i < j < |slots| && slots[i].Some? && slots[j].Some? ::
      Owner(slots[i].value) != Owner(slots[j].value)
  }

  ghost predicate NotOwn(user: string, slots: Slots) {
    forall i | 0 <= i < |slots| && slots[i].Some? :: Owner(slots[i].value) != user
  }

  /** Exactly one slot carries `t`. */
  ghost predicate SentOnce(slots: Slots, t: Track) {
    exists i :: 0 <= i < |slots| && slots[i] == Some(t)
                && forall j | 0 <= j < |slots| && slots[j] == Some(t) :: j == i
  }

  /** A reconciled sender list holds each other owner's current track in exactly one slot,
      and no slot holds a vanished, replaced or own track. */
  lemma ReconciledSlots(user: string, slots: Slots, tracks: Tracks)
    requires UniqueOwners(slots) && Live(slots) == Desired(user, tracks) && WellOwned(tracks)
    ensures forall o | o in tracks && o != user :: SentOnce(slots, tracks[o])
    ensures forall i | 0 <= i < |slots| && slots[i].Some? ::
              var o := Owner(slots[i].value);
              o != user && o in tracks && tracks[o] == slots[i].value
  {
    forall o | o in tracks && o != user
      ensures SentOnce(slots, tracks[o])
    {
      assert tracks[o] in Live(slots);
      var i :| 0 <= i < |slots| && slots[i] == Some(tracks[o]);
      assert forall j | 0 <= j < |slots| && slots[j] == Some(tracks[o]) :: j == i;
    }
    forall i | 0 <= i < |slots| && slots[i].Some?
      ensures Owner(slots[i].value) in tracks && tracks[Owner(slots[i].value)] == slots[i].value
      ensures Owner(slots[i].value) != user
    {
      assert slots[i].value in Live(slots);
    }
  }

  // ---------- The abstract peer ----------

  datatype Signaling = Stable | HaveLocalOffer

  /** What the mutex protects, plus the tracks the last local offer described
      and the candidates already handed to the connection. */
  datatype PeerState = PeerState(
    user: string, closed: bool,
    senders: set<Track>, signaling: Signaling, offered: set<Track>, needsOffer: bool,
    remoteSet: bool, applied: seq<Candidate>, buffered: seq<Candidate>)

  function FreshPeer(user: string): PeerState {
    PeerState(user, false, {}, Stable, {}, false, false, [], [])
  }

  function Negotiated(p: PeerState, tracks: Tracks): (q: PeerState)
    ensures q.user == p.user && q.closed == p.closed
  {
    var wanted := Desired(p.user, tracks);
    if p.closed then p
    else if p.signaling != Stable then p.(senders := wanted, needsOffer := true)
    else p.(senders := wanted, needsOffer := false, offered := wanted, signaling := HaveLocalOffer)
  }

  /** An answer is accepted by an open connection that has an offer out. */
  predicate Accepts(p: PeerState) {
    !p.closed && p.signaling == HaveLocalOffer
  }

  function Answered(p: PeerState): (q: PeerState)
    ensures q.user == p.user && q.closed == p.closed && q.senders == p.senders
  {
    if !Accepts(p) then p
    else p.(signaling := Stable, remoteSet := true, applied := p.applied + p.buffered, buffered := [])
  }

  function WithCandidate(p: PeerState, c: Candidate): (q: PeerState)
    ensures q == p.(applied := q.applied, buffered := q.buffered)
  {
    if p.remoteSet then p.(applied := p.applied + [c])
    else if |p.buffered| < MAX_BUFFERED_ICE then p.(buffered := p.buffered + [c])
    else p
  }

  // ---------- The objects ----------

  /** The part of a WebRTC peer connection the server relies on. */
  class PeerConnection {
    var senders: Slots
    var signaling: Signaling
    var offered: set<Track>
    var remoteSet: bool
    var candidates: seq<Candidate>
    var closed: bool

    constructor ()
      ensures senders == [] && signaling == Stable && offered == {}
      ensures !remoteSet && candidates == [] && !closed
    {
      senders, signaling, offered := [], Stable, {};
      remoteSet, candidates, closed := false, [], false;
    }

    method RemoveTrack(i: nat)
      requires i < |senders|
      modifies this`senders
      ensures senders == old(senders)[i := None]
    {
      senders := senders[i := None];
    }

    /** Reuses some free slot, or appends one. */
    method AddTrack(t: Track)
      modifies this`senders
      ensures Live(senders) == old(Live(senders)) + {t}
      ensures (old(UniqueOwners(senders)) && forall s | s in old(Live(senders)) :: Owner(s) != Owner(t))
              ==> UniqueOwners(senders)
    {
      ghost var was := senders;
      if i :| 0 <= i < |senders| && senders[i].None? {
        senders := senders[i := Some(t)];
        assert senders[i].value == t;
        forall s | s in Live(was) ensures s in Live(senders) {
          var k :| 0 <= k < |was| && was[k] == Some(s);
          assert senders[k] == Some(s);
        }
        assert forall k | 0 <= k < |was| && was[k].Some? :: was[k].value in Live(was);
      } else {
        senders := senders + [Some(t)];
        assert senders[|was|].value == t;
        forall s | s in Live(was) ensures s in Live(senders) {
          var k :| 0 <= k < |was| && was[k] == Some(s);
          assert senders[k] == Some(s);
        }
        assert forall k | 0 <= k < |was| && was[k].Some? :: was[k].value in Live(was);
      }
    }

    method SetLocalOffer()
      modifies this`signaling, this`offered
      ensures signaling == HaveLocalOffer && offered == Live(senders)
    {
      signaling, offered := HaveLocalOffer, Live(senders);
    }

    method SetRemoteAnswer() returns (ok: bool)
      modifies this`signaling, this`remoteSet
      ensures ok == (!closed && old(signaling) == HaveLocalOffer)
      ensures ok ==> signaling == Stable && remoteSet
      ensures !ok ==> signaling == old(signaling) && remoteSet == old(remoteSet)
    {
      ok := !closed && signaling == HaveLocalOffer;
      if ok {
        signaling, remoteSet := Stable, true;
      }
    }

    method AddICECandidate(c: Candidate)
      modifies this`candidates
      ensures candidates == old(candidates) + [c]
    {
      candidates := candidates + [c];
    }
  }

  class Peer {
    const user: string
    const pc: PeerConnection
    var needsOffer: bool
    var pendingICE: seq<Candidate>

    ghost predicate Valid()
      reads this, pc
    {
      UniqueOwners(pc.senders) && NotOwn(user, pc.senders)
    }

    ghost function View(): PeerState
      reads this, pc
    {
      PeerState(user, pc.closed, Live(pc.senders), pc.signaling, pc.offered, needsOffer,
                pc.remoteSet, pc.candidates, pendingICE)
    }

    constructor (user: string)
      ensures Valid() && fresh(pc) && View() == FreshPeer(user)
    {
      this.user := user;
      pc := new PeerConnection();
      needsOffer, pendingICE := false, [];
    }

    /** The two loops of `negotiate`, for a track snapshot visited in any order. */
    method Reconcile(tracks: Tracks)
      requires Valid() && WellOwned(tracks)
      modifies pc`senders
      ensures Valid() && Live(pc.senders) == Desired(user, tracks)
    {
      var list := pc.senders;
      var sending: set<string> := {};
      for i := 0 to |list|
        invariant |pc.senders| == |list|
        invariant forall j | 0 <= j < i ::
                    pc.senders[j] == if list[j].Some? && Current(list[j].value, tracks) then list[j] else None
        invariant forall j | i <= j < |list| :: pc.senders[j] == list[j]
        invariant sending == set j | 0 <= j < i && pc.senders[j].Some? :: Owner(pc.senders[j].value)
      {
        if list[i].Some? {
          var t := list[i].value;
          if !Current(t, tracks) {
            pc.RemoveTrack(i);
          } else {
            sending := sending + {Owner(t)};
          }
        }
      }
      ghost var kept := Live(pc.senders);
      KeptTracks(pc.senders, tracks, sending);
      assert UniqueOwners(pc.senders) && user !in sending;

      var todo := tracks.Keys;
      while todo != {}
        invariant todo <= tracks.Keys
        invariant UniqueOwners(pc.senders)
        invariant Live(pc.senders) ==
                  set o | o in tracks && o != user && (o in sending || o !in todo) :: tracks[o]
      {
        var owner :| owner in todo;
        if owner != user && owner !in sending {
          pc.AddTrack(tracks[owner]);
        }
        todo := todo - {owner};
      }
      ReconciledSlots(user, pc.senders, tracks);
    }

    method Negotiate(tracks: Tracks)
      requires Valid() && WellOwned(tracks)
      modifies this`needsOffer, pc
      ensures Valid() && View() == Negotiated(old(View()), tracks)
    {
      if pc.closed {
        return;
      }
      Reconcile(tracks);
      if pc.signaling != Stable {
        needsOffer := true;
        return;
      }
      needsOffer := false;
      pc.SetLocalOffer();
    }

    /** Returns whether another negotiation is due. */
    method Answer() returns (again: bool)
      requires Valid()
      modifies this`pendingICE, pc
      ensures Valid() && View() == Answered(old(View()))
      ensures again == (Accepts(old(View())) && needsOffer)
    {
      var ok := pc.SetRemoteAnswer();
      if !ok {
        return false;
      }
      for i := 0 to |pendingICE|
        invariant pendingICE == old(pendingICE)
        invariant pc.candidates == old(pc.candidates) + pendingICE[..i]
        invariant pc.senders == old(pc.senders) && pc.offered == old(pc.offered) && pc.closed == old(pc.closed)
        invariant pc.signaling == Stable && pc.remoteSet
      {
        pc.AddICECandidate(pendingICE[i]);
      }
      pendingICE := [];
      again := needsOffer;
    }

    method Ice(c: Candidate)
      requires Valid()
      modifies this`pendingICE, pc`candidates
      ensures Valid() && View() == WithCandidate(old(View()), c)
    {
      if !pc.remoteSet {
        if |pendingICE| < MAX_BUFFERED_ICE {
          pendingICE := pendingICE + [c];
        }
        return;
      }
      pc.AddICECandidate(c);
    }
  }

  /** The snapshot still files this very track under its owner. */
  predicate Current(t: Track, tracks: Tracks) {
    Owner(t) in tracks && tracks[Owner(t)] == t
  }

  lemma KeptTracks(slots: Slots, tracks: Tracks, sending: set<string>)
    requires forall i | 0 <= i < |slots| && slots[i].Some? :: Current(slots[i].value, tracks)
    requires sending == set i | 0 <= i < |slots| && slots[i].Some? :: Owner(slots[i].value)
    ensures Live(slots) == set o | o in tracks && o in sending :: tracks[o]
  {
    forall t | t in Live(slots) ensures t in (set o | o in tracks && o in sending :: tracks[o]) {
      assert Owner(t) in tracks && Owner(t) in sending;
    }
  }
}

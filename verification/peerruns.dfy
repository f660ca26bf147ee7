/** Whole runs of one peer: the ICE buffer keeps order, and renegotiation settles. */
module PeerRuns {
  import opened Peers

  /** What can happen to a peer, one event per region of its mutex.
      `Close` needs no mutex: the connection may be closed between any two regions. */
  datatype Event = Negotiate(tracks: Tracks) | Answer | Ice(candidate: Candidate) | Close

  function Apply(p: PeerState, e: Event): PeerState {
    match e
    case Negotiate(tracks) => Negotiated(p, tracks)
    case Answer => Answered(p)
    case Ice(c) => WithCandidate(p, c)
    case Close => p.(closed := true)
  }

  function Run(p: PeerState, events: seq<Event>): PeerState {
    if events == [] then p else Apply(Run(p, events[..|events| - 1]), events[|events| - 1])
  }

  // ---------- ICE candidates ----------

  function Arrivals(events: seq<Event>): seq<Candidate> {
    if events == [] then []
    else
      var e := events[|events| - 1];
      Arrivals(events[..|events| - 1]) + if e.Ice? then [e.candidate] else []
  }

  /** The candidates of a run that arrived while no remote description was set
      (`early`) and those that arrived once it was. */
  function ArrivalsWhen(p: PeerState, events: seq<Event>, early: bool): seq<Candidate> {
    if events == [] then []
    else
      var before, e := events[..|events| - 1], events[|events| - 1];
      ArrivalsWhen(p, before, early)
      + if e.Ice? && Run(p, before).remoteSet != early then [e.candidate] else []
  }

  function FirstN<T>(s: seq<T>, n: nat): seq<T> {
    if |s| <= n then s else s[..n]
  }

  /** What the buffer and the connection hold, given the early and the late arrivals. */
  ghost predicate InOrder(p: PeerState, early: seq<Candidate>, late: seq<Candidate>) {
    && p.applied + p.buffered == FirstN(early, 50) + late
    && |p.buffered| <= 50
    && (p.remoteSet ==> p.buffered == [])
    && (!p.remoteSet ==> p.applied == [] && late == [])
  }

  lemma CandidateKeepsOrder(p: PeerState, early: seq<Candidate>, late: seq<Candidate>, c: Candidate)
    requires InOrder(p, early, late)
    ensures p.remoteSet ==> InOrder(WithCandidate(p, c), early, late + [c])
    ensures !p.remoteSet ==> InOrder(WithCandidate(p, c), early + [c], late)
  {
    var kept := FirstN(early, 50);
    if p.remoteSet {
      assert p.applied + [c] + [] == (p.applied + p.buffered) + [c];
      assert kept + (late + [c]) == (kept + late) + [c];
    } else {
      assert p.applied + p.buffered == p.buffered && kept + late == kept;
      assert FirstN(early + [c], 50) == if |early| < 50 then early + [c] else kept;
    }
  }

  /** For every run of a new peer: the candidates handed to the connection followed by
      those still buffered are the arrivals in order, less only the early ones after the
      fiftieth; the buffer is bounded and is empty once a remote description is set. */
  lemma {:induction false} IceKeepsOrder(user: string, events: seq<Event>)
    ensures var early := ArrivalsWhen(FreshPeer(user), events, true);
            var late := ArrivalsWhen(FreshPeer(user), events, false);
            && Arrivals(events) == early + late
            && InOrder(Run(FreshPeer(user), events), early, late)
  {
    if events != [] {
      var before, e := events[..|events| - 1], events[|events| - 1];
      IceKeepsOrder(user, before);
      var p := Run(FreshPeer(user), before);
      var early := ArrivalsWhen(FreshPeer(user), before, true);
      var late := ArrivalsWhen(FreshPeer(user), before, false);
      assert early + [] == early && late + [] == late;
      if e.Ice? {
        CandidateKeepsOrder(p, early, late, e.candidate);
      }
    }
  }

  // ---------- Renegotiation settles ----------

  /** The flag and the offer agree, and no owed renegotiation is left to nobody. */
  predicate Tidy(p: PeerState) {
    && (!p.needsOffer ==> p.offered == p.senders)
    && !(p.signaling == Stable && p.needsOffer)
  }

  /** Nothing owed: no offer is out and the last one described what is being sent. */
  predicate Settled(p: PeerState) {
    p.signaling == Stable && !p.needsOffer && p.offered == p.senders
  }

  /** Answers still to come before the peer settles. */
  function Owed(p: PeerState): nat {
    if p.signaling == Stable then 0 else if p.needsOffer then 2 else 1
  }

  datatype Signal = AnswerSignal | IceSignal(candidate: Candidate)

  /** One signal handled to its end while the tracks stay as they are: an accepted answer
      renegotiates when the flag was set. */
  function Handle(p: PeerState, signal: Signal, tracks: Tracks): PeerState {
    match signal
    case IceSignal(c) => WithCandidate(p, c)
    case AnswerSignal =>
      var q := Answered(p);
      if Accepts(p) && p.needsOffer then Negotiated(q, tracks) else q
  }

  function HandleAll(p: PeerState, signals: seq<Signal>, tracks: Tracks): PeerState {
    if signals == [] then p
    else Handle(HandleAll(p, signals[..|signals| - 1], tracks), signals[|signals| - 1], tracks)
  }

  function AcceptedAnswers(p: PeerState, signals: seq<Signal>, tracks: Tracks): nat {
    if signals == [] then 0
    else
      var before := signals[..|signals| - 1];
      AcceptedAnswers(p, before, tracks)
      + if signals[|signals| - 1].AnswerSignal? && Accepts(HandleAll(p, before, tracks)) then 1 else 0
  }

  /** Once the tracks have stopped changing and the queued negotiations have run, an open
      peer takes exactly `Owed` (at most two) more answers, whatever else arrives and whatever
      it was last reconciled with; when it has had them it is settled, and until then the next
      answer is accepted. It then sends and has offered exactly the others' tracks if and only
      if it did so at the outset or had its flag set. */
  lemma {:induction false} RenegotiationSettles(p: PeerState, signals: seq<Signal>, tracks: Tracks)
    requires !p.closed && Tidy(p)
    ensures var q := HandleAll(p, signals, tracks);
            && q.user == p.user && !q.closed && Tidy(q)
            && AcceptedAnswers(p, signals, tracks) + Owed(q) == Owed(p) <= 2
            && (Owed(q) == 0 <==> Settled(q))
            && (Owed(q) > 0 <==> Accepts(q))
            && (q.needsOffer ==> p.needsOffer)
            && q.senders == (if p.needsOffer && !q.needsOffer then Desired(p.user, tracks) else p.senders)
            && (Settled(q) ==>
                  (q.offered == Desired(p.user, tracks)
                   <==> p.needsOffer || p.senders == Desired(p.user, tracks)))
  {
    if signals != [] {
      RenegotiationSettles(p, signals[..|signals| - 1], tracks);
    }
  }

  /** Two answers are enough; of a reconciled peer the offer then describes every other
      member's current track. */
  lemma TwoAnswersSettle(p: PeerState, tracks: Tracks)
    requires !p.closed && Tidy(p)
    ensures var q := Handle(Handle(p, AnswerSignal, tracks), AnswerSignal, tracks);
            Settled(q) && (p.senders == Desired(p.user, tracks) ==> q.offered == Desired(p.user, tracks))
  {
    RenegotiationSettles(p, [AnswerSignal, AnswerSignal], tracks);
    var q := Handle(p, AnswerSignal, tracks);
    assert HandleAll(p, [], tracks) == p;
    assert [AnswerSignal, AnswerSignal][..1] == [AnswerSignal];
    assert HandleAll(p, [AnswerSignal], tracks) == q;
  }
}

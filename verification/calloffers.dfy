/** No renegotiation is lost: whenever a peer's mutex is free, either the last offer
    describes what the peer sends, or the flag is set and somebody will act on it. */
module CallOffers {
  import opened Peers
  import opened Rooms
  import opened Calls
  import opened CallShape
  import opened CallConvergence

  predicate Continues(t: Task, pc: PcId) {
    (t.Queued? || t.InFlight?) && t.again && t.pc == pc
  }

  /** An answer continuation is about to negotiate with this peer. */
  ghost predicate Continued(work: multiset<Task>, pc: PcId) {
    exists t | t in work :: Continues(t, pc)
  }

  ghost predicate OfferOk(work: multiset<Task>, pc: PcId, p: PeerState) {
    p.closed ||
    (&& (!p.needsOffer ==> p.offered == p.senders)
     && (p.signaling == Stable && p.needsOffer ==> Continued(work, pc)))
  }

  ghost predicate OfferInv(s: State) {
    forall pc | pc in s.links :: OfferOk(s.work, pc, s.links[pc].peer)
  }

  ghost predicate SameOffer(p: PeerState, q: PeerState) {
    && q.needsOffer == p.needsOffer && q.offered == p.offered
    && q.senders == p.senders && q.signaling == p.signaling && (p.closed ==> q.closed)
  }

  ghost predicate KeepsContinuations(s: State, t: State) {
    forall x, pc | x in s.work && Continues(x, pc) :: Continued(t.work, pc)
  }

  lemma OffersKept(s: State, t: State)
    requires OfferInv(s) && KeepsContinuations(s, t)
    requires forall pc | pc in t.links ::
               (pc in s.links && SameOffer(s.links[pc].peer, t.links[pc].peer))
               || OfferOk(t.work, pc, t.links[pc].peer)
    ensures OfferInv(t)
  {
    forall pc | pc in t.links ensures OfferOk(t.work, pc, t.links[pc].peer) {
      if pc in s.links {
        assert OfferOk(s.work, pc, s.links[pc].peer);
      }
    }
  }

  /** More work never hurts. */
  lemma MoreWorkKeepsOffers(s: State, t: State)
    requires OfferInv(s) && t.links == s.links
    requires forall x | x in s.work && (x.Queued? || x.InFlight?) :: x in t.work
    ensures OfferInv(t)
  {
    OffersKept(s, t);
  }

  lemma AnswerKeepsOffers(s: State)
    requires OfferInv(s) && s.signal.Answering?
    ensures OfferInv(Answer(s))
  {
    var Answering(chat, pc) := s.signal;
    if pc in s.links {
      var t := Answer(s);
      var p := s.links[pc].peer;
      assert OfferOk(s.work, pc, p);
      if Accepts(p) && p.needsOffer {
        assert Continues(Queued(chat, pc, true), pc) && Queued(chat, pc, true) in t.work;
      }
      hide Add, SetPeer;
      OffersKept(s, t);
    }
  }

  lemma FeedAndCloseKeepOffers(s: State, pc: PcId)
    requires OfferInv(s)
    ensures s.signal.Feeding? ==> OfferInv(Feed(s))
    ensures OfferInv(Close(s, pc))
  {
    hide WithCandidate, Done, OfferOk;
    if s.signal.Feeding? {
      OffersKept(s, Feed(s));
    }
    OffersKept(s, Close(s, pc));
  }

  lemma ConnectKeepsOffers(s: State, pc: PcId)
    requires OfferInv(s) && s.signal.Admitted?
    ensures OfferInv(Connect(s, pc))
  {
    OffersKept(s, Connect(s, pc));
  }

  lemma SnapshotKeepsOffers(s: State, chat: string, pc: PcId, again: bool)
    requires OfferInv(s)
    ensures OfferInv(Snapshot(s, chat, pc, again))
  {
    var t := Snapshot(s, chat, pc, again);
    if Queued(chat, pc, again) in s.work {
      var taken := InFlight(chat, pc, TracksOf(s.rooms, chat), Version(s, chat), again);
      assert taken in t.work;
      forall x, p | x in s.work && Continues(x, p) ensures Continued(t.work, p) {
        if x == Queued(chat, pc, again) {
          assert Continues(taken, p);
        } else {
          assert x in t.work;
        }
      }
      OffersKept(s, t);
    }
  }

  lemma ReconcileKeepsOffers(s: State, task: Task)
    requires OfferInv(s)
    ensures OfferInv(Reconcile(s, task))
  {
    if CanReconcile(s, task) {
      var t := Reconcile(s, task);
      forall pc | pc in t.links ensures OfferOk(t.work, pc, t.links[pc].peer) {
        assert OfferOk(s.work, pc, s.links[pc].peer);
        if pc != task.pc && Continued(s.work, pc) {
          var x :| x in s.work && Continues(x, pc);
          assert x in t.work;
        }
      }
    }
  }

  lemma VisitKeepsOffers(s: State, chat: string)
    requires OfferInv(s)
    ensures OfferInv(Visit(s, chat))
  {
    hide OfferInv, Visit, IsVisit;
    MoreWorkKeepsOffers(s, Visit(s, chat));
  }

  lemma RelaysKeepOffers(s: State, id: nat)
    requires OfferInv(s)
    ensures OfferInv(Start(s, id)) && OfferInv(End(s, id))
  {
    hide OfferInv, SetRooms, Registered, Unregistered, Unregisters;
    MoreWorkKeepsOffers(s, Start(s, id));
    MoreWorkKeepsOffers(s, End(s, id));
  }

  lemma LoseKeepsOffers(s: State, pc: PcId)
    requires OfferInv(s)
    ensures OfferInv(Lose(s, pc))
  {
    hide OfferInv, RemovePeerStep;
    MoreWorkKeepsOffers(s, Lose(s, pc));
  }

  lemma LoopKeepsOffers(s: State)
    requires OfferInv(s)
    ensures s.signal.Leaving? ==> OfferInv(Leave(s))
    ensures s.signal.Joining? ==> OfferInv(Join(s))
  {
    hide OfferInv, RemovePeerStep, Inserted;
    if s.signal.Leaving? {
      MoreWorkKeepsOffers(s, Leave(s));
    } else if s.signal.Joining? {
      MoreWorkKeepsOffers(s, Join(s));
    }
  }

  lemma OffersStep(s: State, step: Step)
    requires OfferInv(s)
    ensures OfferInv(Next(s, step))
  {
    hide OfferInv, RemovePeerStep, Leave, Connect, Join, Answer, Feed;
    hide Start, End, Lose, Visit, Snapshot, Reconcile, Close;
    match step
    case Continue(newPc) =>
      match s.signal {
        case Admitted(_, _) => ConnectKeepsOffers(s, newPc);
        case Answering(_, _) => AnswerKeepsOffers(s);
        case Feeding(_, _) => FeedAndCloseKeepOffers(s, 0);
        case Leaving(_, _, _, _) => LoopKeepsOffers(s);
        case Joining(_, _, _) => LoopKeepsOffers(s);
        case _ => MoreWorkKeepsOffers(s, Next(s, step));
      }
    case CloseConnection(pc) => FeedAndCloseKeepOffers(s, pc);
    case TakeSnapshot(chat, pc, again) => SnapshotKeepsOffers(s, chat, pc, again);
    case ReconcilePeer(task) => ReconcileKeepsOffers(s, task);
    case VisitRoom(chat) => VisitKeepsOffers(s, chat);
    case StartRelay(id) => RelaysKeepOffers(s, id);
    case EndRelay(id) => RelaysKeepOffers(s, id);
    case ConnectionLost(pc) => LoseKeepsOffers(s, pc);
    case _ => MoreWorkKeepsOffers(s, Next(s, step));
  }

  /** In every reachable state, whatever order the negotiations are reconciled in. */
  lemma {:induction false} NoRenegotiationIsLost(steps: seq<Step>)
    ensures OfferInv(Exec(steps))
  {
    if steps != [] {
      NoRenegotiationIsLost(steps[..|steps| - 1]);
      OffersStep(Exec(steps[..|steps| - 1]), steps[|steps| - 1]);
    }
  }
}

/** Which tracks a room has, over whole runs: those of the last relay of each user to have
    started there, while it has not ended and the room has not been deleted since. */
module CallTracks {
  import opened Peers
  import opened Rooms
  import opened Calls
  import opened CallShape
  import opened CallRelays
  import opened CallMembers

  /** The room's entry for the user is the track of this relay. */
  predicate Carries(s: State, chat: string, user: string, id: nat) {
    user in TracksOf(s.rooms, chat) && TracksOf(s.rooms, chat)[user].id == id
  }

  /** A relay of this user starts in a room that is there. */
  predicate StartsHere(s: State, step: Step, chat: string, user: string, id: nat) {
    step == StartRelay(id) && InPhase(s, id, Opened) && s.relays[id].chat == chat && s.relays[id].user == user
    && chat in s.rooms
  }

  /** A starting relay's track goes under its user, and nowhere else; without a room the relay
      is over. */
  lemma RelayAddsItsTrack(s: State, id: nat)
    requires InPhase(s, id, Opened)
    ensures var Relay(chat, user, _) := s.relays[id];
            var t := Next(s, StartRelay(id));
            && OnlyThisChat(s, t, chat) && PeersOf(t.rooms, chat) == PeersOf(s.rooms, chat)
            && (if chat in s.rooms
                then InPhase(t, id, Sending) && RenegotiateAll(chat) in t.work
                     && user in TracksOf(t.rooms, chat) && TracksOf(t.rooms, chat)[user].id == id
                     && TracksOf(t.rooms, chat)[user].streamId == "user-" + user
                     && TracksOf(t.rooms, chat) - {user} == TracksOf(s.rooms, chat) - {user}
                else InPhase(t, id, Finished) && t.rooms == s.rooms && t.work == s.work)
  {
  }

  /** An ending relay's track goes if it is still the room's, and the room is renegotiated. */
  lemma RelayTakesItsTrack(s: State, id: nat)
    requires InPhase(s, id, Sending) && RelayInv(s)
    ensures var Relay(chat, user, _) := s.relays[id];
            var t := Next(s, EndRelay(id));
            && OnlyThisChat(s, t, chat) && PeersOf(t.rooms, chat) == PeersOf(s.rooms, chat)
            && InPhase(t, id, Finished) && RenegotiateAll(chat) in t.work
            && TracksOf(t.rooms, chat) ==
               if Carries(s, chat, user, id) then TracksOf(s.rooms, chat) - {user} else TracksOf(s.rooms, chat)
  {
    var Relay(chat, user, _) := s.relays[id];
    if Carries(s, chat, user, id) {
      assert OfLiveRelay(s.relays, chat, user, TracksOf(s.rooms, chat)[user]);
    }
  }

  // ---------- Steps ----------

  lemma StartAndTracks(s: State, started: nat, chat: string, user: string, id: nat)
    ensures Carries(Start(s, started), chat, user, id) <==>
            (StartsHere(s, StartRelay(started), chat, user, id)
             || (Carries(s, chat, user, id) && !StartsHere(s, StartRelay(started), chat, user, started)))
  {
    hide Add, SetRooms;
  }

  lemma EndAndTracks(s: State, ended: nat, chat: string, user: string, id: nat)
    requires RelayInv(s)
    ensures Carries(End(s, ended), chat, user, id) <==> Carries(s, chat, user, id) && ended != id
  {
    hide Add, SetRooms;
    if Carries(s, chat, user, id) {
      assert OfLiveRelay(s.relays, chat, user, TracksOf(s.rooms, chat)[user]);
    }
  }

  lemma RemovalAndTracks(s: State, c: string, u: string, lost: PcId, chat: string, user: string, id: nat)
    ensures var t := RemovePeerStep(s, c, u, lost);
            Carries(t, chat, user, id) <==> Carries(s, chat, user, id) && chat in t.rooms
  {
    hide RemovePeerStep;
  }

  lemma InsertionAndTracks(s: State, c: string, u: string, joined: PcId, chat: string, user: string, id: nat)
    requires s.signal == Joining(c, u, joined)
    ensures Carries(Join(s), chat, user, id) <==> Carries(s, chat, user, id)
    ensures chat in s.rooms ==> chat in Join(s).rooms
  {
  }

  lemma SameTracks(s: State, t: State, chat: string, user: string, id: nat)
    requires t.rooms == s.rooms
    ensures Carries(t, chat, user, id) <==> Carries(s, chat, user, id) && chat in t.rooms
  {
  }

  lemma LoopAndTracks(s: State, newPc: PcId, chat: string, user: string, id: nat)
    ensures var t := Next(s, Continue(newPc));
            Carries(t, chat, user, id) <==> Carries(s, chat, user, id) && chat in t.rooms
  {
    hide RemovePeerStep, Answer, Feed, Connect, Check, Join, Carries;
    match s.signal
    case Leaving(c, u, lost, _) =>
      RemovalAndTracks(s, c, u, lost, chat, user, id);
      SameTracks(RemovePeerStep(s, c, u, lost), Leave(s), chat, user, id);
    case Joining(c, u, joined) =>
      InsertionAndTracks(s, c, u, joined, chat, user, id);
      CarriedByRoom(s, chat, user, id);
    case _ =>
      LoopKeepsRooms(s, newPc);
      SameTracks(s, Next(s, Continue(newPc)), chat, user, id);
  }

  lemma CarriedByRoom(s: State, chat: string, user: string, id: nat)
    ensures Carries(s, chat, user, id) ==> chat in s.rooms
  {
  }

  lemma StepAndTracks(s: State, step: Step, chat: string, user: string, id: nat)
    requires RelayInv(s)
    ensures var t := Next(s, step);
            Carries(t, chat, user, id) <==>
            (StartsHere(s, step, chat, user, id)
             || (Carries(s, chat, user, id) && chat in t.rooms && step != EndRelay(id)
                 && !exists other :: StartsHere(s, step, chat, user, other)))
  {
    hide RemovePeerStep, Start, End, RelayInv, Carries;
    CarriedByRoom(Next(s, step), chat, user, id);
    match step
    case Continue(newPc) => LoopAndTracks(s, newPc, chat, user, id);
    case ConnectionLost(lost) =>
      if lost in s.links {
        RemovalAndTracks(s, s.links[lost].chat, s.links[lost].peer.user, lost, chat, user, id);
      } else {
        SameTracks(s, s, chat, user, id);
      }
    case StartRelay(started) =>
      StartAndTracks(s, started, chat, user, id);
    case EndRelay(ended) => EndAndTracks(s, ended, chat, user, id);
    case _ =>
      OthersKeepRooms(s, step);
      SameTracks(s, Next(s, step), chat, user, id);
  }

  /** Step `j` neither deletes the room, nor ends the relay, nor starts another of the user. */
  ghost predicate LeftAlone(steps: seq<Step>, j: nat, chat: string, user: string, id: nat)
    requires j < |steps|
  {
    && chat in Exec(steps[..j + 1]).rooms && steps[j] != EndRelay(id)
    && !exists other :: StartsHere(Exec(steps[..j]), steps[j], chat, user, other)
  }

  /** Step `i` started the relay there; since then no other relay of the user has, it has not
      ended, and the room has been there. */
  ghost predicate StartedBy(steps: seq<Step>, i: nat, chat: string, user: string, id: nat) {
    && i < |steps| && StartsHere(Exec(steps[..i]), steps[i], chat, user, id)
    && forall j | i < j < |steps| :: LeftAlone(steps, j, chat, user, id)
  }

  lemma OneStepMore(before: seq<Step>, step: Step, i: nat, chat: string, user: string, id: nat)
    requires i < |before|
    ensures StartedBy(before + [step], i, chat, user, id)
       <==> StartedBy(before, i, chat, user, id) && LeftAlone(before + [step], |before|, chat, user, id)
  {
    hide StartsHere, Exec;
    var steps := before + [step];
    assert steps[..i] == before[..i];
    forall j | i < j < |before|
      ensures LeftAlone(steps, j, chat, user, id) == LeftAlone(before, j, chat, user, id)
    {
      assert steps[..j] == before[..j] && steps[..j + 1] == before[..j + 1];
    }
  }

  lemma LastStep(before: seq<Step>, step: Step, chat: string, user: string, id: nat)
    ensures StartedBy(before + [step], |before|, chat, user, id) <==> StartsHere(Exec(before), step, chat, user, id)
    ensures LeftAlone(before + [step], |before|, chat, user, id)
       <==> && chat in Exec(before + [step]).rooms && step != EndRelay(id)
            && !exists other :: StartsHere(Exec(before), step, chat, user, other)
    ensures Exec(before + [step]) == Next(Exec(before), step)
  {
    hide StartsHere, Next;
    var steps := before + [step];
    assert steps[..|before|] == before && steps[..|before| + 1] == steps;
  }

  /** After every run a room carries a user's track exactly if it is that of the last relay of
      the user to have started there, the relay has not ended, and the room has not been
      deleted since. */
  lemma {:induction false} CarriesIffStartedSince(steps: seq<Step>, chat: string, user: string, id: nat)
    ensures Carries(Exec(steps), chat, user, id) <==> exists i: nat :: StartedBy(steps, i, chat, user, id)
  {
    hide Next, StartsHere, RelayInv, Carries, LeftAlone, Exec;
    if steps == [] {
      NothingCarried(chat, user, id);
    } else {
      var before, step := steps[..|steps| - 1], steps[|steps| - 1];
      assert steps == before + [step];
      CarriesIffStartedSince(before, chat, user, id);
      TracksAlwaysLive(before);
      StepAndTracks(Exec(before), step, chat, user, id);
      LastStep(before, step, chat, user, id);
      if i: nat :| i < |before| && StartedBy(before, i, chat, user, id) {
        OneStepMore(before, step, i, chat, user, id);
      }
      if i: nat :| i < |before| && StartedBy(steps, i, chat, user, id) {
        OneStepMore(before, step, i, chat, user, id);
      }
      if StartedBy(steps, |before|, chat, user, id) {
        assert Carries(Exec(steps), chat, user, id);
      }
    }
  }

  lemma NothingCarried(chat: string, user: string, id: nat)
    ensures !Carries(Exec([]), chat, user, id)
  {
  }
}

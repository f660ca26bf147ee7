/** The room table: every function is one region of the server that runs while the
    table's mutex is held, and `RoomTable` carries them out on the table in place. */
module Rooms {
  import opened Wrappers
  import opened Peers

  const MAX_PEERS_PER_ROOM := 16

  /** The identity of a peer object (a peer and its connection are created together). */
  type PcId = nat

  datatype Room = Room(peers: map<string, PcId>, tracks: Tracks)

  type Table = map<string, Room>

  function TracksOf(rooms: Table, chat: string): Tracks {
    if chat in rooms then rooms[chat].tracks else map[]
  }

  function PeersOf(rooms: Table, chat: string): map<string, PcId> {
    if chat in rooms then rooms[chat].peers else map[]
  }

  function Find(rooms: Table, chat: string, user: string): Option<PcId> {
    if user in PeersOf(rooms, chat) then Some(PeersOf(rooms, chat)[user]) else None
  }

  predicate IsFull(rooms: Table, chat: string) {
    |PeersOf(rooms, chat)| >= MAX_PEERS_PER_ROOM
  }

  function Inserted(rooms: Table, chat: string, user: string, pc: PcId): Table {
    rooms[chat := Room(PeersOf(rooms, chat)[user := pc], TracksOf(rooms, chat))]
  }

  function Registered(rooms: Table, chat: string, user: string, track: Track): Table {
    if chat in rooms then rooms[chat := rooms[chat].(tracks := rooms[chat].tracks[user := track])] else rooms
  }

  /** A finishing relay takes its track out only if it is still the registered one. */
  predicate Unregisters(rooms: Table, chat: string, user: string, track: Track) {
    user in TracksOf(rooms, chat) && TracksOf(rooms, chat)[user] == track
  }

  function Unregistered(rooms: Table, chat: string, user: string, track: Track): Table {
    if Unregisters(rooms, chat, user, track)
    then rooms[chat := rooms[chat].(tracks := rooms[chat].tracks - {user})]
    else rooms
  }

  predicate Removes(rooms: Table, chat: string, user: string, pc: PcId) {
    Find(rooms, chat, user) == Some(pc)
  }

  /** The last peer to leave takes the room, and its tracks, with it. */
  function Removed(rooms: Table, chat: string, user: string, pc: PcId): Table {
    if !Removes(rooms, chat, user, pc) then rooms
    else
      var left := PeersOf(rooms, chat) - {user};
      if left == map[] then rooms - {chat} else rooms[chat := rooms[chat].(peers := left)]
  }

  class RoomTable {
    var rooms: Table

    constructor ()
      ensures rooms == map[]
    {
      rooms := map[];
    }

    method Peer(chat: string, user: string) returns (p: Option<PcId>)
      ensures p == Find(rooms, chat, user)
    {
      if chat in rooms && user in rooms[chat].peers {
        return Some(rooms[chat].peers[user]);
      }
      return None;
    }

    method Full(chat: string) returns (full: bool)
      ensures full == IsFull(rooms, chat)
    {
      full := chat in rooms && |rooms[chat].peers| >= MAX_PEERS_PER_ROOM;
    }

    method Join(chat: string, user: string, pc: PcId)
      modifies this
      ensures rooms == Inserted(old(rooms), chat, user, pc)
    {
      if chat !in rooms {
        rooms := rooms[chat := Room(map[], map[])];
      }
      rooms := rooms[chat := rooms[chat].(peers := rooms[chat].peers[user := pc])];
    }

    method RegisterTrack(chat: string, user: string, track: Track) returns (ok: bool)
      modifies this
      ensures ok == (chat in old(rooms)) && rooms == Registered(old(rooms), chat, user, track)
    {
      if chat !in rooms {
        return false;
      }
      rooms := rooms[chat := rooms[chat].(tracks := rooms[chat].tracks[user := track])];
      return true;
    }

    method UnregisterTrack(chat: string, user: string, track: Track)
      modifies this
      ensures rooms == Unregistered(old(rooms), chat, user, track)
    {
      if chat in rooms && user in rooms[chat].tracks && rooms[chat].tracks[user] == track {
        rooms := rooms[chat := rooms[chat].(tracks := rooms[chat].tracks - {user})];
      }
    }

    method RemovePeer(chat: string, user: string, pc: PcId) returns (removed: bool)
      modifies this
      ensures removed == Removes(old(rooms), chat, user, pc)
      ensures rooms == Removed(old(rooms), chat, user, pc)
    {
      removed := false;
      if chat in rooms {
        if user in rooms[chat].peers && rooms[chat].peers[user] == pc {
          rooms := rooms[chat := rooms[chat].(peers := rooms[chat].peers - {user})];
          removed := true;
          if |rooms[chat].peers| == 0 {
            rooms := rooms - {chat};
          }
        }
      }
    }

    method Snapshot(chat: string) returns (tracks: Tracks)
      ensures tracks == TracksOf(rooms, chat)
    {
      tracks := map[];
      if chat in rooms {
        tracks := rooms[chat].tracks;
      }
    }

    /** The peers `renegotiateAll` visits, in any order: one entry per user. */
    method PeerList(chat: string) returns (peers: seq<PcId>)
      ensures |peers| == |PeersOf(rooms, chat)|
      ensures forall pc :: pc in peers <==> exists u :: u in PeersOf(rooms, chat) && PeersOf(rooms, chat)[u] == pc
    {
      peers := [];
      if chat in rooms {
        var all, todo := rooms[chat].peers, rooms[chat].peers.Keys;
        while todo != {}
          invariant todo <= all.Keys && |peers| + |todo| == |all|
          invariant forall pc :: pc in peers <==> exists u :: u in all && u !in todo && all[u] == pc
          decreases |todo|
        {
          var user :| user in todo;
          peers, todo := peers + [all[user]], todo - {user};
        }
      }
    }
  }
}

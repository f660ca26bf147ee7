/** The chat service's calls as they are carried out on the tables and caches in place. */
module ChatServer {
  import opened Ordering
  import opened Wrappers
  import opened ChatService

  class Chat {
    var conversations: set<string>
    var chats: map<string, ChatRow>
    var groups: map<string, GroupRow>
    var members: map<string, seq<string>>
    var chatsCache: map<string, seq<View>>
    var groupsCache: map<string, seq<View>>
    var participantsCache: map<string, seq<string>>

    function View(): State
      reads this
    {
      State(Tables(conversations, chats, groups, members), chatsCache, groupsCache, participantsCache)
    }

    /** Rows are stamped at different times, and a pair of users has one chat. */
    ghost predicate Valid()
      reads this
    {
      && (forall a, b | a in chats && b in chats && chats[a].updatedAt == chats[b].updatedAt :: a == b)
      && (forall a, b | a in groups && b in groups && groups[a].updatedAt == groups[b].updatedAt :: a == b)
      && (forall a, b | a in chats && b in chats && chats[a].user1 == chats[b].user1
                        && chats[a].user2 == chats[b].user2 :: a == b)
    }

    /** No row has been stamped at `now` or later. */
    ghost predicate Before(now: int)
      reads this
    {
      && (forall id | id in chats :: chats[id].updatedAt < now)
      && (forall id | id in groups :: groups[id].updatedAt < now)
    }

    constructor ()
      ensures Valid() && View() == EMPTY
    {
      conversations, chats, groups, members := {}, map[], map[], map[];
      chatsCache, groupsCache, participantsCache := map[], map[], map[];
    }

    method GetChats(user: string) returns (resp: seq<ChatService.View>)
      requires Valid()
      modifies this`chatsCache
      ensures Valid() && (View(), resp) == ChatService.GetChats(old(View()), user)
    {
      if user in chatsCache {
        return chatsCache[user];
      }
      resp := ReadRows(ChatsOf(Tables(conversations, chats, groups, members), user));
      chatsCache := chatsCache[user := resp];
    }

    method GetGroups(user: string) returns (resp: seq<ChatService.View>)
      requires Valid()
      modifies this`groupsCache
      ensures Valid() && (View(), resp) == ChatService.GetGroups(old(View()), user)
    {
      if user in groupsCache {
        return groupsCache[user];
      }
      resp := ReadRows(GroupsOf(Tables(conversations, chats, groups, members), user));
      groupsCache := groupsCache[user := resp];
    }

    method GetParticipants(id: string) returns (users: seq<string>)
      modifies this`participantsCache
      ensures (View(), users) == ChatService.GetParticipants(old(View()), id)
    {
      if id in participantsCache {
        return participantsCache[id];
      }
      users := ReadParticipants(Tables(conversations, chats, groups, members), id);
      participantsCache := participantsCache[id := users];
    }

    method CreateChat(user: string, target: string, newId: string, now: int) returns (r: Result<string, Code>)
      requires Valid() && IsNew(View(), newId)
      requires Before(now)
      modifies this
      ensures Valid() && (View(), r) == ChatService.CreateChat(old(View()), user, target, newId, now)
    {
      var u1, u2 := user, target;
      if Less(u2, u1) {
        u1, u2 := u2, u1;
      }
      var existing := FindChat(Tables(conversations, chats, groups, members), u1, u2);
      if existing.Some? {
        return Ok(existing.value);
      }
      if u1 == u2 {
        return Err(Internal);
      }
      InsertChat(u1, u2, newId, now);
      chatsCache := chatsCache - {user, target};
      return Ok(newId);
    }

    method InsertChat(u1: string, u2: string, newId: string, now: int)
      requires Valid() && Before(now) && newId !in chats
      requires forall id | id in chats :: chats[id].user1 != u1 || chats[id].user2 != u2
      modifies this`conversations, this`chats
      ensures Valid() && conversations == old(conversations) + {newId}
      ensures chats == old(chats)[newId := ChatRow(u1, u2, None, None, now)]
    {
      conversations := conversations + {newId};
      chats := chats[newId := ChatRow(u1, u2, None, None, now)];
    }

    method CreateGroup(name: string, admin: string, isPrivate: bool, users: seq<string>, newId: string, now: int)
      returns (r: Result<string, Code>)
      requires Valid() && IsNew(View(), newId)
      requires Before(now)
      modifies this
      ensures Valid()
      ensures (View(), r) == ChatService.CreateGroup(old(View()), name, admin, isPrivate, users, newId, now)
    {
      if |name| > MAX_GROUP_NAME {
        return Err(Internal);
      }
      var aborted, inserted := InsertMembers(users, admin);
      if aborted {
        return Err(Internal);
      }
      conversations := conversations + {newId};
      groups := groups[newId := GroupRow(name, admin, isPrivate, None, None, now)];
      members := members[newId := inserted];
      groupsCache := groupsCache - ({admin} + set m | m in users);
      return Ok(newId);
    }

    method InvalidateChat(id: string, user: string)
      modifies this`chatsCache, this`groupsCache, this`participantsCache
      ensures View() == Invalidated(old(View()), id, user)
    {
      chatsCache := chatsCache - {user};
      groupsCache := groupsCache - {user};
      participantsCache := participantsCache - {id};
    }

    method DeleteChat(id: string, user: string) returns (r: Result<bool, Code>)
      requires Valid()
      modifies this
      ensures Valid() && (View(), r) == ChatService.DeleteChat(old(View()), id, user)
    {
      if id in chats && IsParty(chats[id], user) {
        chats := chats - {id};
        conversations := conversations - {id};
        InvalidateChat(id, user);
        return Ok(true);
      }
      if id in groups && groups[id].admin == user {
        groups := groups - {id};
        members := members - {id};
        conversations := conversations - {id};
        InvalidateChat(id, user);
        return Ok(true);
      }
      return Err(PermissionDenied);
    }

    /** The two UPDATE statements; at most one of them finds a row. */
    method SetLast(id: string, text: Option<string>, sender: Option<string>, now: int)
      requires Valid()
      requires Before(now)
      modifies this`chats, this`groups
      ensures Valid() && View() == old(View()).(t := ChatService.SetLast(old(View()).t, id, text, sender, now))
    {
      if id in chats {
        chats := chats[id := chats[id].(lastMessage := text, lastSender := sender, updatedAt := now)];
      }
      if id in groups {
        groups := groups[id := groups[id].(lastMessage := text, lastSender := sender, updatedAt := now)];
      }
    }

    method ClearChat(id: string, user: string, now: int) returns (r: Result<bool, Code>)
      requires Valid()
      requires Before(now)
      modifies this
      ensures Valid() && (View(), r) == ChatService.ClearChat(old(View()), id, user, now)
    {
      var allowed := id in chats && IsParty(chats[id], user);
      if !allowed {
        allowed := id in members && user in members[id];
      }
      if !allowed {
        return Err(PermissionDenied);
      }
      SetLast(id, None, None, now);
      InvalidateChat(id, user);
      return Ok(true);
    }

    method UpdateLastMessage(id: string, sender: string, text: string, now: int)
      requires Valid()
      requires Before(now)
      modifies this
      ensures Valid() && View() == ChatService.UpdateLastMessage(old(View()), id, sender, text, now)
    {
      SetLast(id, Some(text), Some(sender), now);
      var users := GetParticipants(id);
      var keys := if |users| > 0 then set u | u in users else {sender};
      chatsCache, groupsCache := chatsCache - keys, groupsCache - keys;
    }
  }

  // ---------- Reading rows ----------

  /** The loop over the rows of a query, delivered latest first. */
  method ReadRows(rows: Rows) returns (resp: seq<View>)
    requires forall a, b | a in rows && b in rows && rows[a].at == rows[b].at :: a == b
    ensures resp == LatestFirst(rows)
  {
    hide LatestFirst;
    resp := [];
    var todo := rows;
    while todo != map[]
      invariant forall id | id in todo :: id in rows && todo[id] == rows[id]
      invariant resp + LatestFirst(todo) == LatestFirst(rows)
      decreases |todo|
    {
      LatestExists(todo);
      var id :| id in todo && forall j | j in todo :: todo[j].at <= todo[id].at;
      LatestIsNext(todo, id);
      resp := resp + [todo[id].view];
      todo := todo - {id};
    }
    assert LatestFirst(map[]) == [] by { NoRows(); }
  }

  lemma NoRows()
    ensures LatestFirst(map[]) == []
  {
    assert StampsOf(map[]) == map[];
  }

  /** The chat of an ordered pair of users, of which there is at most one. */
  method FindChat(t: Tables, u1: string, u2: string) returns (existing: Option<string>)
    requires forall a, b | HasPair(t, (u1, u2), a) && HasPair(t, (u1, u2), b) :: a == b
    ensures existing == Existing(t, (u1, u2))
    ensures existing.None? ==> forall id | id in t.chats :: t.chats[id].user1 != u1 || t.chats[id].user2 != u2
  {
    if id :| id in t.chats && t.chats[id].user1 == u1 && t.chats[id].user2 == u2 {
      assert HasPair(t, (u1, u2), id);
      return Some(id);
    }
    return None;
  }

  method ReadParticipants(t: Tables, id: string) returns (users: seq<string>)
    ensures users == QueryParticipants(t, id)
  {
    if id in t.chats {
      return [t.chats[id].user1, t.chats[id].user2];
    }
    users := [];
    if id in t.members {
      for i := 0 to |t.members[id]|
        invariant users == t.members[id][..i]
      {
        users := users + [t.members[id][i]];
      }
    }
  }

  /** The inserts of a new group's members; the transaction is aborted by the first that
      fails, and the later ones fail with it. */
  method InsertMembers(users: seq<string>, admin: string) returns (aborted: bool, inserted: seq<string>)
    ensures aborted <==> !NoRepeats(Others(users, admin))
    ensures !aborted ==> inserted == [admin] + Others(users, admin) && NoRepeats(inserted)
  {
    aborted, inserted := false, [admin];
    for i := 0 to |users|
      invariant aborted <==> !NoRepeats(Others(users[..i], admin))
      invariant !aborted ==> inserted == [admin] + Others(users[..i], admin) && NoRepeats(inserted)
    {
      assert users[..i + 1][..i] == users[..i];
      if users[i] != admin {
        RepeatStays(Others(users[..i], admin), users[i]);
        RepeatStays(inserted, users[i]);
        if users[i] in inserted {
          aborted := true;
        }
        inserted := inserted + [users[i]];
      }
    }
    assert users[..|users|] == users;
  }

  lemma LatestExists(rows: Rows)
    requires rows != map[]
    ensures exists id :: id in rows && forall j | j in rows :: rows[j].at <= rows[id].at
  {
    var stamps := StampsOf(rows);
    assert rows.Keys != {} && stamps.Keys == rows.Keys;
    NewestExists(stamps);
    var id :| IsNewest(stamps, id);
    assert forall j | j in rows :: stamps[j] <= stamps[id];
  }

  lemma LatestIsNext(rows: Rows, id: string)
    requires id in rows && forall j | j in rows :: rows[j].at <= rows[id].at
    requires forall a, b | a in rows && b in rows && rows[a].at == rows[b].at :: a == b
    ensures LatestFirst(rows) == [rows[id].view] + LatestFirst(rows - {id})
    ensures |rows - {id}| < |rows|
  {
    hide LatestFirst;
    var first := LatestSplits(rows);
    assert rows[first].at == rows[id].at;
    assert (rows - {id}).Keys == rows.Keys - {id};
  }
}

/** Exactly when a user's cached chat or group list is out of date: from the first call by
    another member that changes what a cached list would show. */
module ChatStaleness {
  import opened Wrappers
  import opened ChatService
  import opened ChatCoherence

  /** Another member clears or deletes a conversation of the user's, and a list of the user's
      that is cached would now read differently. */
  ghost predicate Stales(s: State, op: Op, user: string) {
    && Disturbs(s, op, user)
    && var t := Step(s, op).t;
       || (user in s.chats && QueryChats(t, user) != QueryChats(s.t, user))
       || (user in s.groups && QueryGroups(t, user) != QueryGroups(s.t, user))
  }

  lemma DisturbingLeavesCaches(s: State, op: Op, user: string)
    requires Disturbs(s, op, user)
    ensures var s' := Step(s, op);
            && (user in s.chats <==> user in s'.chats) && (user in s.chats ==> s'.chats[user] == s.chats[user])
            && (user in s.groups <==> user in s'.groups) && (user in s.groups ==> s'.groups[user] == s.groups[user])
  {
    hide QueryParticipants, SetLast;
  }

  lemma StepStalesIff(s: State, op: Op, user: string)
    requires TablesOk(s.t) && ParticipantsOk(s) && ListsOk(s, user)
    ensures ListsOk(Step(s, op), user) <==> !Stales(s, op, user)
  {
    hide Step, Disturbs, QueryChats, QueryGroups, TablesOk, ParticipantsOk;
    if Disturbs(s, op, user) {
      DisturbingLeavesCaches(s, op, user);
    } else {
      ListsKept(s, op, user);
    }
  }

  ghost predicate FreshThroughout(ops: seq<Op>, user: string) {
    ListsOk(Run(ops), user) && (ops != [] ==> FreshThroughout(ops[..|ops| - 1], user))
  }

  ghost predicate UnstaledRun(ops: seq<Op>, user: string) {
    ops != [] ==>
      UnstaledRun(ops[..|ops| - 1], user) && !Stales(Run(ops[..|ops| - 1]), ops[|ops| - 1], user)
  }

  /** A user's cached lists are right throughout a run exactly when no call in it stales one. */
  lemma {:induction false} FreshIffUnstaled(ops: seq<Op>, user: string)
    ensures FreshThroughout(ops, user) <==> UnstaledRun(ops, user)
  {
    hide Step, Stales, TablesOk, ParticipantsOk;
    if ops != [] {
      var before := ops[..|ops| - 1];
      FreshIffUnstaled(before, user);
      ParticipantsAlwaysFresh(before);
      if FreshThroughout(before, user) {
        StepStalesIff(Run(before), ops[|ops| - 1], user);
      }
    }
  }

  // ---------- Which calls stale a list ----------

  lemma OneRowFewer(rows: Rows, id: string)
    requires id in rows
    ensures LatestFirst(rows - {id}) != LatestFirst(rows)
  {
    var ids := QueryRows(rows);
    var fewer := QueryRows(rows - {id});
    assert (rows - {id}).Keys == rows.Keys - {id};
  }

  lemma DeletedRows(s: State, id: string, caller: string, user: string)
    requires TablesOk(s.t) && Disturbs(s, Delete(id, caller), user)
    ensures var t := Step(s, Delete(id, caller)).t;
            if id in s.t.chats
            then id in ChatsOf(s.t, user) && ChatsOf(t, user) == ChatsOf(s.t, user) - {id}
                 && GroupsOf(t, user) == GroupsOf(s.t, user)
            else id in GroupsOf(s.t, user) && GroupsOf(t, user) == GroupsOf(s.t, user) - {id}
                 && ChatsOf(t, user) == ChatsOf(s.t, user)
  {
    hide ChatsOf, GroupsOf;
    var t := Step(s, Delete(id, caller)).t;
    if id in s.t.chats {
      ChatTaken(s.t, t, id, user);
      SameGroupRows(s.t, t, user);
    } else {
      GroupTaken(s.t, t, id, user);
      SameChatRows(s.t, t, user);
    }
  }

  lemma ChatTaken(t: Tables, t': Tables, id: string, user: string)
    requires id in t.chats && user in QueryParticipants(t, id) && t'.chats == t.chats - {id}
    ensures id in ChatsOf(t, user) && ChatsOf(t', user) == ChatsOf(t, user) - {id}
  {
  }

  lemma GroupTaken(t: Tables, t': Tables, id: string, user: string)
    requires id in t.groups && id !in t.chats && user in QueryParticipants(t, id)
    requires t'.groups == t.groups - {id} && t'.members == t.members - {id}
    ensures id in GroupsOf(t, user) && GroupsOf(t', user) == GroupsOf(t, user) - {id}
  {
  }

  /** Another member's deletion stales a list exactly if it is cached: the chat list for a
      chat, the group list for a group. */
  lemma DeletionStalesIffCached(s: State, id: string, caller: string, user: string)
    requires TablesOk(s.t) && Disturbs(s, Delete(id, caller), user)
    ensures Stales(s, Delete(id, caller), user) <==> if id in s.t.chats then user in s.chats else user in s.groups
  {
    hide ChatsOf, GroupsOf, LatestFirst, Step, Disturbs, TablesOk;
    DeletedRows(s, id, caller, user);
    if id in s.t.chats {
      OneRowFewer(ChatsOf(s.t, user), id);
    } else {
      OneRowFewer(GroupsOf(s.t, user), id);
    }
  }

  /** A row that gets the latest stamp of all goes to the front of the list, which therefore
      changes unless it showed the same line there already. */
  lemma RestampedList(rows: Rows, id: string, view: View, now: int)
    requires id in rows && view.id == id
    requires forall k | k in rows :: rows[k].view.id == k && rows[k].at < now
    ensures LatestFirst(rows) != []
    ensures LatestFirst(rows[id := Row(view, now)]) == LatestFirst(rows) <==> LatestFirst(rows)[0] == view
  {
    hide LatestFirst;
    var changed := rows[id := Row(view, now)];
    var first := LatestSplits(rows);
    var front := LatestSplits(changed);
    assert front == id by {
      assert changed[front].at >= changed[id].at;
    }
    assert changed - {id} == rows - {id};
    if LatestFirst(rows)[0] == view {
      assert rows[first].view.id == first == id;
    }
  }

  /** The line that shows a cleared chat or group. */
  function ClearedChat(t: Tables, id: string, user: string, now: int): View
    requires id in t.chats
  {
    ChatView(id, t.chats[id].(lastMessage := None, lastSender := None, updatedAt := now), user)
  }

  function ClearedGroup(t: Tables, id: string, now: int): View
    requires id in t.groups
  {
    GroupView(id, t.groups[id].(lastMessage := None, lastSender := None, updatedAt := now))
  }

  lemma ClearedRows(s: State, id: string, caller: string, user: string, now: int)
    requires TablesOk(s.t) && Disturbs(s, Clear(id, caller, now), user)
    ensures id in s.t.chats || id in s.t.groups
    ensures var t := Step(s, Clear(id, caller, now)).t;
            if id in s.t.chats
            then id in ChatsOf(s.t, user) && GroupsOf(t, user) == GroupsOf(s.t, user)
                 && ChatsOf(t, user) == ChatsOf(s.t, user)[id := Row(ClearedChat(s.t, id, user, now), now)]
            else id in GroupsOf(s.t, user) && ChatsOf(t, user) == ChatsOf(s.t, user)
                 && GroupsOf(t, user) == GroupsOf(s.t, user)[id := Row(ClearedGroup(s.t, id, now), now)]
  {
    hide ChatsOf, GroupsOf, ClearedChat, ClearedGroup;
    var t := Step(s, Clear(id, caller, now)).t;
    if id in s.t.chats {
      ChatCleared(s.t, t, id, user, now);
      SameGroupRows(s.t, t, user);
    } else {
      GroupCleared(s.t, t, id, user, now);
      SameChatRows(s.t, t, user);
    }
  }

  lemma ChatCleared(t: Tables, t': Tables, id: string, user: string, now: int)
    requires id in t.chats && user in QueryParticipants(t, id)
    requires t'.chats == t.chats[id := t.chats[id].(lastMessage := None, lastSender := None, updatedAt := now)]
    ensures id in ChatsOf(t, user)
    ensures ChatsOf(t', user) == ChatsOf(t, user)[id := Row(ClearedChat(t, id, user, now), now)]
  {
  }

  lemma GroupCleared(t: Tables, t': Tables, id: string, user: string, now: int)
    requires id in t.groups && id !in t.chats && user in QueryParticipants(t, id) && t'.members == t.members
    requires t'.groups == t.groups[id := t.groups[id].(lastMessage := None, lastSender := None, updatedAt := now)]
    ensures id in GroupsOf(t, user)
    ensures GroupsOf(t', user) == GroupsOf(t, user)[id := Row(ClearedGroup(t, id, now), now)]
  {
  }

  lemma LinesNameTheirRows(t: Tables, user: string)
    ensures forall k | k in ChatsOf(t, user) :: ChatsOf(t, user)[k].view.id == k
    ensures forall k | k in GroupsOf(t, user) :: GroupsOf(t, user)[k].view.id == k
  {
  }

  /** Another member's clearing, at a time later than all the user's rows, stales a list
      exactly if it is cached and did not begin with just the line the cleared conversation
      has now: empty, first, and of the same second. */
  lemma ClearingStalesIff(s: State, id: string, caller: string, user: string, now: int)
    requires TablesOk(s.t) && Disturbs(s, Clear(id, caller, now), user)
    requires forall k | k in ChatsOf(s.t, user) :: ChatsOf(s.t, user)[k].at < now
    requires forall k | k in GroupsOf(s.t, user) :: GroupsOf(s.t, user)[k].at < now
    ensures id in s.t.chats || id in s.t.groups
    ensures if id in s.t.chats
            then QueryChats(s.t, user) != []
                 && (Stales(s, Clear(id, caller, now), user)
                     <==> user in s.chats && QueryChats(s.t, user)[0] != ClearedChat(s.t, id, user, now))
            else QueryGroups(s.t, user) != []
                 && (Stales(s, Clear(id, caller, now), user)
                     <==> user in s.groups && QueryGroups(s.t, user)[0] != ClearedGroup(s.t, id, now))
  {
    ClearedRows(s, id, caller, user, now);
    LinesNameTheirRows(s.t, user);
    hide ChatsOf, GroupsOf, LatestFirst, Step, Disturbs, TablesOk;
    if id in s.t.chats {
      RestampedList(ChatsOf(s.t, user), id, ClearedChat(s.t, id, user, now), now);
    } else {
      RestampedList(GroupsOf(s.t, user), id, ClearedGroup(s.t, id, now), now);
    }
  }
}

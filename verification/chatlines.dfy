/** What a user sees: the lines of a fresh chat or group list, told by the table rows, and what
    each call does to them. */
module ChatLines {
  import opened Listings
  import opened Ordering
  import opened Wrappers
  import opened ChatService
  import opened ChatCoherence

  // ---------- Lines ----------

  predicate IsOfParties(row: ChatRow, a: string, b: string) {
    {row.user1, row.user2} == {a, b}
  }

  /** The text and sender of a row, empty if there is none, and its time in seconds. */
  predicate ShowsLast(v: View, text: Option<string>, sender: Option<string>, at: int) {
    && v.lastMessage == (match text case Some(value) => value case None => "")
    && v.lastSender == (match sender case Some(value) => value case None => "")
    && 1000 * v.updatedAt - 500 <= at < 1000 * v.updatedAt + 500
  }

  /** A chat's line names the other party. */
  predicate ShowsChat(v: View, t: Tables, user: string) {
    && v.id in t.chats && IsOfParties(t.chats[v.id], user, v.name)
    && ShowsLast(v, t.chats[v.id].lastMessage, t.chats[v.id].lastSender, t.chats[v.id].updatedAt)
  }

  /** A group's line has its own name. */
  predicate ShowsGroup(v: View, t: Tables, user: string) {
    && v.id in t.groups && v.id in t.members && user in t.members[v.id] && v.name == t.groups[v.id].name
    && ShowsLast(v, t.groups[v.id].lastMessage, t.groups[v.id].lastSender, t.groups[v.id].updatedAt)
  }

  lemma LinesAreDistinct(rows: Rows)
    requires forall k | k in rows :: rows[k].view.id == k
    ensures var views := LatestFirst(rows);
            && |views| == |rows|
            && (forall i, j | 0 <= i < j < |views| :: views[i].id != views[j].id)
            && (forall i | 0 <= i < |views| :: views[i].id in rows && views[i] == rows[views[i].id].view)
            && (forall k :: Lists(views, k) <==> k in rows)
  {
    hide LatestFirst;
    var views := LatestFirst(rows);
    var ids := QueryRows(rows);
    assert forall i | 0 <= i < |views| :: ids[i] in rows && views[i].id == ids[i];
    DistinctIfFull(ids, rows.Keys);
    forall k
      ensures Lists(views, k) <==> k in rows
    {
      if k in rows {
        assert k in ids;
        var i :| 0 <= i < |ids| && ids[i] == k;
        assert views[i].id == k;
      }
    }
  }

  /** A fresh chat list has exactly one line for each chat the user is a party to, which names
      the other party and shows the row's text, sender and time. */
  lemma ChatLinesShowRows(t: Tables, user: string)
    ensures var views := QueryChats(t, user);
            && (forall i | 0 <= i < |views| :: ShowsChat(views[i], t, user))
            && (forall i, j | 0 <= i < j < |views| :: views[i].id != views[j].id)
            && (forall id :: Lists(views, id) <==>
                               id in t.chats && (t.chats[id].user1 == user || t.chats[id].user2 == user))
  {
    var rows := ChatsOf(t, user);
    LinesAreDistinct(rows);
    hide LatestFirst, ChatsOf, ShowsChat;
    var views := QueryChats(t, user);
    forall i | 0 <= i < |views|
      ensures ShowsChat(views[i], t, user)
    {
      ChatRowShown(t, user, views[i].id);
    }
  }

  lemma ChatRowShown(t: Tables, user: string, id: string)
    requires id in ChatsOf(t, user)
    ensures ShowsChat(ChatsOf(t, user)[id].view, t, user)
  {
  }

  /** A fresh group list has exactly one line for each group the user is a member of, with the
      group's name and the row's text, sender and time. */
  lemma GroupLinesShowRows(t: Tables, user: string)
    ensures var views := QueryGroups(t, user);
            && (forall i | 0 <= i < |views| :: ShowsGroup(views[i], t, user))
            && (forall i, j | 0 <= i < j < |views| :: views[i].id != views[j].id)
            && (forall id :: Lists(views, id) <==> id in t.groups && id in t.members && user in t.members[id])
  {
    var rows := GroupsOf(t, user);
    LinesAreDistinct(rows);
    hide LatestFirst, GroupsOf, ShowsGroup;
    var views := QueryGroups(t, user);
    forall i | 0 <= i < |views|
      ensures ShowsGroup(views[i], t, user)
    {
      GroupRowShown(t, user, views[i].id);
    }
  }

  lemma GroupRowShown(t: Tables, user: string, id: string)
    requires id in GroupsOf(t, user)
    ensures ShowsGroup(GroupsOf(t, user)[id].view, t, user)
  {
  }

  // ---------- What the calls do ----------

  /** The conversation's row has this text and sender, whether it is a chat or a group. */
  predicate LastIs(t: Tables, id: string, text: Option<string>, sender: Option<string>) {
    && (id in t.chats ==> t.chats[id].lastMessage == text && t.chats[id].lastSender == sender)
    && (id in t.groups ==> t.groups[id].lastMessage == text && t.groups[id].lastSender == sender)
  }

  predicate StampIs(t: Tables, id: string, now: int) {
    (id in t.chats ==> t.chats[id].updatedAt == now) && (id in t.groups ==> t.groups[id].updatedAt == now)
  }

  /** Who, besides, is in it, is not touched. */
  ghost predicate SamePeople(t: Tables, t': Tables) {
    && t'.members == t.members && t'.conversations == t.conversations
    && t'.chats.Keys == t.chats.Keys && t'.groups.Keys == t.groups.Keys
    && (forall id | id in t.chats ::
          t'.chats[id].user1 == t.chats[id].user1 && t'.chats[id].user2 == t.chats[id].user2)
    && (forall id | id in t.groups ::
          t'.groups[id].name == t.groups[id].name && t'.groups[id].admin == t.groups[id].admin)
  }

  predicate RowsOrdered(t: Tables) {
    forall c | c in t.chats :: Less(t.chats[c].user1, t.chats[c].user2)
  }

  /** Two different users without a chat get a new one between just the two, without text, and
      their cached lists go; two with a chat are given that one, and equal users are refused,
      with nothing changed. */
  lemma CreateChatEffect(s: State, user: string, target: string, id: string, now: int)
    requires IsNew(s, id) && RowsOrdered(s.t)
    ensures var (s', r) := CreateChat(s, user, target, id, now);
            if exists c :: c in s.t.chats && IsOfParties(s.t.chats[c], user, target)
            then s' == s && r.Ok? && r.value in s.t.chats && IsOfParties(s.t.chats[r.value], user, target)
            else if user == target then s' == s && r.Err?
            else
              && r == Ok(id) && id in s'.t.chats && IsOfParties(s'.t.chats[id], user, target)
              && LastIs(s'.t, id, None, None) && StampIs(s'.t, id, now) && s'.t.chats - {id} == s.t.chats
              && user !in s'.chats && target !in s'.chats
              && s'.t.groups == s.t.groups && s'.t.members == s.t.members && RowsOrdered(s'.t)
  {
    PairIsSymmetric(user, target);
    var s', pair := CreateChat(s, user, target, id, now).0, Pair(user, target);
    forall c | c in s.t.chats
      ensures HasPair(s.t, pair, c) <==> IsOfParties(s.t.chats[c], user, target)
    {
      LessIsTotal(s.t.chats[c].user1, s.t.chats[c].user2);
      LessIsTotal(user, target);
      LessIsTotal(target, user);
    }
    if id in s'.t.chats {
      assert s'.t.chats - {id} == s.t.chats;
    }
  }

  lemma SamePartiesOrdered(t: Tables, t': Tables)
    requires RowsOrdered(t)
    requires forall c | c in t'.chats ::
               c in t.chats && t'.chats[c].user1 == t.chats[c].user1 && t'.chats[c].user2 == t.chats[c].user2
    ensures RowsOrdered(t')
  {
  }

  lemma OthersKeepParties(s: State, op: Op)
    requires RowsOrdered(s.t) && !op.Create? && !op.CreateG?
    ensures RowsOrdered(Step(s, op).t)
  {
    hide QueryChats, QueryGroups, QueryParticipants, RowsOrdered;
    SamePartiesOrdered(s.t, Step(s, op).t);
  }

  lemma NoRowsOrdered()
    ensures RowsOrdered(EMPTY.t)
  {
  }

  /** In every run the parties of a chat are stored in order. */
  lemma {:induction false} RowsAlwaysOrdered(ops: seq<Op>)
    ensures RowsOrdered(Run(ops).t)
  {
    if ops == [] {
      NoRowsOrdered();
    } else {
      var s, op := Run(ops[..|ops| - 1]), ops[|ops| - 1];
      RowsAlwaysOrdered(ops[..|ops| - 1]);
      hide CreateChat, CreateGroup, QueryChats, QueryGroups, QueryParticipants, RowsOrdered;
      match op
      case Create(user, target, newId, now) =>
        if IsNew(s, newId) {
          CreateChatEffect(s, user, target, newId, now);
        }
      case CreateG(name, admin, isPrivate, users, newId, now) =>
        if IsNew(s, newId) {
          CreateGroupEffect(s, name, admin, isPrivate, users, newId, now);
          SamePartiesOrdered(s.t, Step(s, op).t);
        }
      case _ => OthersKeepParties(s, op);
    }
  }

  /** The group of the given name has the admin and exactly the given users as members, each
      once, whose cached lists go; it is refused, with nothing changed, exactly for a name over
      a hundred characters or a user other than the admin given twice. */
  lemma CreateGroupEffect(s: State, name: string, admin: string, isPrivate: bool, users: seq<string>,
                          id: string, now: int)
    requires IsNew(s, id)
    ensures var (s', r) := CreateGroup(s, name, admin, isPrivate, users, id, now);
            && (r.Ok? <==> |name| <= 100
                           && forall i, j | 0 <= i < j < |users| :: users[i] == users[j] ==> users[i] == admin)
            && (r.Ok? ==>
                  && r.value == id && id in s'.t.groups
                  && s'.t.groups[id].name == name && s'.t.groups[id].admin == admin
                  && LastIs(s'.t, id, None, None) && StampIs(s'.t, id, now)
                  && id in s'.t.members && (forall u :: u in s'.t.members[id] <==> u == admin || u in users)
                  && NoRepeats(s'.t.members[id])
                  && s'.t.groups - {id} == s.t.groups && s'.t.members - {id} == s.t.members
                  && s'.t.chats == s.t.chats
                  && admin !in s'.groups && forall u | u in users :: u !in s'.groups)
            && (r.Err? ==> s' == s)
  {
    OthersExactly(users, admin);
    var (s', r) := CreateGroup(s, name, admin, isPrivate, users, id, now);
    if r.Ok? {
      assert s'.t.groups - {id} == s.t.groups && s'.t.members - {id} == s.t.members;
    }
  }

  lemma {:induction false} OthersExactly(users: seq<string>, admin: string)
    ensures forall u :: u in Others(users, admin) <==> u in users && u != admin
    ensures NoRepeats(Others(users, admin))
       <==> forall i, j | 0 <= i < j < |users| :: users[i] == users[j] ==> users[i] == admin
  {
    if users != [] {
      var front, last := users[..|users| - 1], users[|users| - 1];
      OthersExactly(front, admin);
      assert users == front + [last];
      var others, fewer := Others(users, admin), Others(front, admin);
      if last != admin {
        RepeatStays(fewer, last);
        if last in fewer {
          var i :| 0 <= i < |front| && front[i] == last;
          assert users[i] == users[|users| - 1];
        }
      }
      if forall i, j | 0 <= i < j < |front| :: front[i] == front[j] ==> front[i] == admin {
        if last == admin || last !in fewer {
          forall i, j | 0 <= i < j < |users| && users[i] == users[j]
            ensures users[i] == admin
          {
            if j == |users| - 1 {
              assert users[i] in front;
            } else {
              assert front[i] == front[j];
            }
          }
        }
      } else {
        var i, j :| 0 <= i < j < |front| && front[i] == front[j] && front[i] != admin;
        assert users[i] == users[j];
      }
    }
  }

  /** A party of a chat, or the admin of a group, and nobody else, deletes just that
      conversation, from the tables and so from everybody's fresh lists. */
  lemma DeleteChatEffect(s: State, id: string, user: string)
    requires TablesOk(s.t)
    ensures var (s', r) := DeleteChat(s, id, user);
            && (r.Ok? <==> || (id in s.t.chats && (s.t.chats[id].user1 == user || s.t.chats[id].user2 == user))
                           || (id in s.t.groups && s.t.groups[id].admin == user))
            && (r.Ok? ==>
                  && s'.t == Tables(s.t.conversations - {id}, s.t.chats - {id}, s.t.groups - {id}, s.t.members - {id})
                  && QueryParticipants(s'.t, id) == [] && user !in s'.chats && user !in s'.groups)
            && (r.Err? ==> s' == s)
  {
    var t := s.t;
    if id in t.chats {
      assert t.groups - {id} == t.groups && t.members - {id} == t.members;
    } else if id in t.groups {
      assert t.chats - {id} == t.chats;
    }
  }

  /** A party of a chat or a member of a group, and nobody else, empties just that row. */
  lemma ClearChatEffect(s: State, id: string, user: string, now: int)
    requires TablesOk(s.t)
    ensures var (s', r) := ClearChat(s, id, user, now);
            && (r.Ok? <==> || (id in s.t.chats && (s.t.chats[id].user1 == user || s.t.chats[id].user2 == user))
                           || (id in s.t.members && user in s.t.members[id]))
            && (r.Ok? ==>
                  && SamePeople(s.t, s'.t) && LastIs(s'.t, id, None, None) && StampIs(s'.t, id, now)
                  && SameElsewhere(s.t, s'.t, id)
                  && user !in s'.chats && user !in s'.groups)
            && (r.Err? ==> s' == s)
  {
  }

  /** Every participant's fresh list shows the text and its sender, and every participant's
      cached lists go; other conversations are not touched. */
  lemma UpdateLastMessageEffect(s: State, id: string, sender: string, text: string, now: int)
    requires TablesOk(s.t) && ParticipantsOk(s)
    ensures var s' := UpdateLastMessage(s, id, sender, text, now);
            && SamePeople(s.t, s'.t) && LastIs(s'.t, id, Some(text), Some(sender)) && StampIs(s'.t, id, now)
            && SameElsewhere(s.t, s'.t, id)
            && forall u | u in QueryParticipants(s.t, id) :: u !in s'.chats && u !in s'.groups
  {
  }

  /** The participants of a chat are its two parties, those of a group its members, and those of
      anything else nobody, whether they were cached or not. */
  lemma ParticipantsEffect(s: State, id: string)
    requires TablesOk(s.t) && ParticipantsOk(s)
    ensures var (s', users) := GetParticipants(s, id);
            && s'.t == s.t && s'.chats == s.chats && s'.groups == s.groups
            && id in s'.participants && s'.participants[id] == users
            && forall u :: u in users <==>
                             || (id in s.t.chats && (s.t.chats[id].user1 == u || s.t.chats[id].user2 == u))
                             || (id in s.t.members && u in s.t.members[id])
  {
  }

  // ---------- What a participant sees ----------

  /** Whatever the call, once a conversation's row has a text, each participant's fresh list
      shows it on the one line of the conversation. */
  lemma ParticipantsSeeLast(t: Tables, id: string, text: string, sender: string, user: string)
    requires TablesOk(t) && LastIs(t, id, Some(text), Some(sender)) && user in QueryParticipants(t, id)
    ensures var views := if id in t.chats then QueryChats(t, user) else QueryGroups(t, user);
            exists i :: 0 <= i < |views| && views[i].id == id && views[i].lastMessage == text
                        && views[i].lastSender == sender
  {
    ChatLinesShowRows(t, user);
    GroupLinesShowRows(t, user);
    hide QueryChats, QueryGroups;
    var views := if id in t.chats then QueryChats(t, user) else QueryGroups(t, user);
    assert Lists(views, id);
    var i :| 0 <= i < |views| && views[i].id == id;
  }
}

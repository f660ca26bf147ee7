# Calls, limits, chats, friends and keys

A verification model of the state machines of a messenger's back end: the voice-call
server that fans audio tracks out to the members of a room, the gateway's attempt limiter
and per-address rate limiter, the caches of the chat service, the message store and the UDP
room manager of the old back end, the friends service, and the object keys that the storage
service prints and the gateway takes apart.

Where the source changes objects in place, a class with the same fields has one method per
operation, proved against a function from the old state to the new; runs are sequences of
those functions, and the promises are proved for all runs. Operations that are not possible
in a state leave it unchanged, so every sequence is a run.

* Voice calls. `peer.dfy` is one participant: the sender list, the offer/answer machine
  (the JSEP signalling states, section 3.2 of RFC 8829) and the candidate buffer, one method
  per region that holds the peer's mutex; `peerruns.dfy` has its runs. `rooms.dfy` is the
  room table, one method per region that holds the server's mutex. `calls.dfy` puts both
  together as a step system in which goroutines meet only at the two mutexes: the signal
  loop's position inside a signal, live relays, queued negotiations and snapshots in flight
  are part of the state. `callmembers.dfy` and `calltracks.dfy` say who is in a room and whose
  tracks it has, from the joins, departures and relays of a run alone. `callshape.dfy`,
  `callrelays.dfy`, `callconvergence.dfy` and `calloffers.dfy` prove what every interleaving
  keeps; `callexact.dfy` says exactly which runs converge, and `calloverlap.dfy` is one that
  does not; `callsettle.dfy` ties the peers of the whole server back to the runs of single
  peers.
* Attempt limiter. `attempts.dfy` has the two scripts over three expiring keys and the
  long-run bound, `attemptfairness.dfy` the cooldowns, Retry-After (section 10.2.3 of RFC
  9110) and refunds, `attemptwindow.dfy` who is admitted, in numbers of requests.
* Rate limiter. `ratelimit.dfy` compares the table that evicts idle entries with the table
  that never does (the old service's, services/old/internal/protocol_stack/middleware.go:57-70);
  `ratelimittight.dfy` shows the condition is exact; `ratelimitlaws.dfy` has the limits in
  numbers of requests.
* Chats. `chatservice.dfy` has the tables and calls, `chatserver.dfy` the calls in place,
  `chatcoherence.dfy` the caches over runs and `chatstaleness.dfy` when exactly a list goes
  stale; `chatlines.dfy` says what a line of a list shows and what each call does to it.
  `lastmessage.dfy`, `repository.dfy` and `messagehistory.dfy` do the same for the old message
  store; `ordering.dfy` is what ORDER BY returns.
* UDP rooms. `udploss.dfy` is the loss accounting, `udprooms.dfy` the three maps and the
  records over runs, `udpeffects.dfy` what they mean for one user, `udprelay.dfy` the manager's
  methods, and `udpdatagrams.dfy` the goroutines that take each datagram through them.
* Friends. `friends.dfy` has the calls and their runs, `friendeffects.dfy` what each call does
  to one request and one friendship, `friendsserver.dfy` the calls in place.
* Keys. `keys.dfy`. (`wrappers.dfy`, `text.dfy` and `listings.dfy` are shared.)

Some promises turn out to need a condition, and each condition is proved exact, in both
directions.

* Fan-out convergence fails when two negotiations of one peer overlap between snapshot and
  reconcile, since `negotiate` copies the tracks under one mutex before it takes the other.
  A peer that is waiting for an answer heals, as the flag makes its next answer renegotiate;
  one that is stable when the outdated snapshot reaches it does not
  (`CallOverlap.OverlapLeavesPeerBehind`, `CallExact.ConvergesIffCovered`).
* The evicting table shows when the limits do not refill a bucket in time
  (`RateLimitTight.EvictionShows`, `RateLimitTight.InvisibleIffRefills`).
* The UDP room maps come apart when a registered user says hello into another room or from
  someone else's address (`UdpRooms.InverseIffOrderly`). A later cleaning can then shut an
  active user out, and if a datagram has just been let in, the lookup that follows meets a
  missing record and ends the process (`UdpDatagrams.CrashesIffHomeless`).
* A friendship loses the accepted request behind it when a friend sends the request again.
  The send looks for an existing friendship by selecting a column `id`
  (services/friends-service/internal/server/server.go:60), which the service's own table does
  not have (services/friends-service/db/init.sql:3-8); the lookup always fails, and the
  answer that the two are friends already is never given. The model follows the code and the
  schema (`Friends.ResendUnearns`, `Friends.EarnedIffHarmless`).
* Cached chat and group lists go stale through other members' clearings and deletions
  (`ChatStaleness.FreshIffUnstaled`).

`dafny verify dfyconfig.toml` checks everything.

## Model

Methods without a row of their own run one region without a loop and are proved equal to the
function of the run model for it.

| member | source | states |
|---|---|---|
| Peers.Peer.Reconcile | services/call-service/internal/wsfu/wsfu.go:260-285 | From a sender list with no own track and no owner twice, the two loops of `negotiate` leave the peer sending exactly the snapshot's tracks of all other users, whatever order the senders and the map are visited in, and the list again has no own track and no owner twice |
| Peers.ReconciledSlots | services/call-service/internal/wsfu/wsfu.go:260-285 | After that, each other owner's current track object sits in exactly one sender slot, and no slot holds a vanished, replaced or own track |
| Peers.Peer.Negotiate | services/call-service/internal/wsfu/wsfu.go:254-302 | A closed peer is left alone; an open one is reconciled, and then either an offer describing the new senders goes out and the flag is cleared, or, mid-exchange, the flag is set |
| Peers.Peer.Answer | services/call-service/internal/wsfu/wsfu.go:324-341 | An accepted answer returns the exchange to stable, hands the buffered candidates over in order and empties the buffer; another negotiation is due exactly if the answer was accepted with the flag set; a refused answer changes nothing |
| Peers.Peer.Ice | services/call-service/internal/wsfu/wsfu.go:354-364 | A candidate goes straight to the connection once a remote description exists, else into the buffer while it holds fewer than 50, else nowhere |
| PeerRuns.IceKeepsOrder | services/call-service/internal/wsfu/wsfu.go:324-365 | Over every run of a peer's regions, candidates applied followed by those buffered are the arrivals in order, minus only arrivals that found 50 waiting and no remote description; the buffer never exceeds 50 and is empty once a remote description exists |
| PeerRuns.RenegotiationSettles | services/call-service/internal/wsfu/wsfu.go:287-342 | Once the tracks stand still, whatever an open peer was last reconciled with: the answers still owed are at most two, each accepted answer takes one off, none is owed exactly when the peer is settled, and while one is owed the peer is waiting for it; the settled offer is of exactly the others' tracks if and only if the peer sent those at the outset or had its flag set |
| PeerRuns.TwoAnswersSettle | services/call-service/internal/wsfu/wsfu.go:287-342 | Whatever stage of the exchange an open peer is in, two answers settle it, and a reconciled peer on an offer of every other member's current track |
| Rooms.RoomTable.PeerList | services/call-service/internal/wsfu/wsfu.go:395-403 | A renegotiation visits each peer of the room once, in any order |
| CallShape.RoomsStayInShape | services/call-service/internal/wsfu/wsfu.go:119-203 | In every state that any interleaving of the signal loop, relays, close callbacks and queued negotiations can reach, every room has between 1 and 16 peers, each filed under its own user id in its own chat, also when removals land between the capacity check and the insertion |
| CallShape.LateCallbackIsHarmless | services/call-service/internal/wsfu/wsfu.go:184-189 | In any state at all, a lost-connection callback of a connection that has been replaced leaves the replacement in the room |
| CallMembers.LostPeerIsOut | services/call-service/internal/wsfu/wsfu.go:184-189 | A lost connection that is filed in its room is taken out of it and nothing else is: the other members, their tracks and every other chat stay, and the room goes exactly if nobody else was in it; the connection will be closed and the room renegotiated. One that is not filed is only closed |
| CallMembers.HangupTakesOut | services/call-service/internal/wsfu/wsfu.go:367-385 | The same for a hangup handled to its end; a hangup of somebody who is not in the room changes nothing at all |
| CallMembers.JoinTakesIn | services/call-service/internal/wsfu/wsfu.go:155-203 | A join handled to its end takes the old connection out and files the user under the new one, next to exactly the others, if there are fewer than sixteen of them, and otherwise leaves the room to them; the newcomer will be negotiated with and no other chat changes |
| CallMembers.InRoomIffJoinedSince | services/call-service/internal/wsfu/wsfu.go:119-203 | After every run, with whatever interleaving, a user is in a room under a connection if and only if the user's last join there completed with it and it has neither hung up nor been lost since |
| CallRelays.TracksAlwaysLive | services/call-service/internal/wsfu/wsfu.go:205-232 | In every reachable state every entry of every track map is the local track of a relay for that chat and user that has registered and not finished, and every snapshot files tracks under their owners |
| CallRelays.FinishingTakesOwnTrackOnly | services/call-service/internal/wsfu/wsfu.go:225-230 | In every reachable state a finishing relay takes its own track out of every room and no other relay's track out of any, also after the room was deleted and created again |
| CallTracks.RelayAddsItsTrack | services/call-service/internal/wsfu/wsfu.go:205-224 | A starting relay puts its track under its user, in place of an older one, and the room is renegotiated; where the room is gone the relay is over and nothing else changes |
| CallTracks.RelayTakesItsTrack | services/call-service/internal/wsfu/wsfu.go:225-230 | In every state of a run an ending relay takes its track out if it is still the user's there, else none, and the room is renegotiated |
| CallTracks.CarriesIffStartedSince | services/call-service/internal/wsfu/wsfu.go:205-232 | After every run a room carries a user's track if and only if it is that of the last relay of the user to have started there, this relay has not ended, and the room has not been deleted since |
| CallConvergence.SettlingKept | services/call-service/internal/wsfu/wsfu.go:246-285 | Every step keeps the convergence invariant, provided a reconcile does not use a snapshot older than the one the peer was last reconciled with |
| CallConvergence.FanOutConverges | services/call-service/internal/wsfu/wsfu.go:246-408 | In every state of every in-order run, each open peer of a room sends exactly the room's current tracks minus its own, or a negotiation that will use the current tracks is still pending for it |
| CallConvergence.OneAtATimeIsInOrder | services/call-service/internal/wsfu/wsfu.go:246-254 | Runs in which two negotiations of one peer never overlap between snapshot and reconcile (in particular, those that take both as one step) are in order |
| CallExact.ReconcileKeepsIffCovered | services/call-service/internal/wsfu/wsfu.go:254-291 | When every member is closed, up to date or due for a negotiation, a reconcile keeps it so if and only if its snapshot still tells its peer what the room's tracks do now, or more is pending for that peer (or it is closed or no longer in the room). If an answer that will renegotiate counts as pending, only a stable peer can be left behind; both readings are covered |
| CallExact.ConvergesIffCovered | services/call-service/internal/wsfu/wsfu.go:191-408 | For every run, in any order, and in both readings: the room converges throughout if and only if each reconcile in it meets that condition; so, answers owed aside, it fails exactly when a stable peer is reconciled with an outdated snapshot and nothing else is pending for it |
| CallExact.InOrderIsCovered | services/call-service/internal/wsfu/wsfu.go:246-254 | In-order runs meet it, in both readings |
| CallOverlap.OverlapLeavesPeerBehind | services/call-service/internal/wsfu/wsfu.go:246-285 | The locks alone do not give convergence: in a concrete run the relays of a and b both renegotiate with a, the later snapshot is offered and answered first, and the run ends with nothing pending, every answer given, both peers settled, and a not sending b's track |
| CallOverlap.OverlapIsOutOfOrder | services/call-service/internal/wsfu/wsfu.go:246-285 | That run is not in order, and not covered even if owed answers count |
| CallOffers.NoRenegotiationIsLost | services/call-service/internal/wsfu/wsfu.go:287-342 | In every reachable state, in any reconcile order: with the flag clear, an open peer's last offer describes its senders; stable with the flag set, the continuation of an answer is about to negotiate |
| CallSettle.LinkIsItsRun | services/call-service/internal/wsfu/wsfu.go:246-365 | In every run of the whole server the record of each connection is the run of that connection's own events, from a fresh peer |
| CallSettle.CandidatesKeepOrder | services/call-service/internal/wsfu/wsfu.go:324-365 | So the order and the bound of the candidate buffer hold for every connection in every reachable state of the server |
| CallSettle.TasksAlwaysFiled | services/call-service/internal/wsfu/wsfu.go:246-408 | In every reachable state, in any order, the connection of every pending negotiation exists and belongs to the negotiation's chat |
| CallSettle.TwoAcceptedAnswersSettle | services/call-service/internal/wsfu/wsfu.go:287-342 | After any run, in any reconcile order, that leaves nothing to negotiate in an open connection's chat, and for every continuation in which the chat's tracks stay and only answers renegotiate with the peer: each answer it accepts takes one off the at most two it owes, and it owes none exactly when it is settled; its last offer is then of exactly the others' tracks if and only if it sent those at the outset or had its flag set |
| CallSettle.InOrderSettlesOnCurrentTracks | services/call-service/internal/wsfu/wsfu.go:287-342 | After an in-order run that offer is always of exactly the others' tracks |
| Attempts.Store.Attempt | services/gateway-service/internal/router/middlewares/AttemptsMiddleware.go:114-141 | The attempt script, statement by statement on the lock, fails and strikes keys, is the atomic transition used in all runs, verdict and wait included |
| Attempts.Store.Refund | services/gateway-service/internal/router/middlewares/AttemptsMiddleware.go:143-149 | The refund script takes one off a positive live counter and otherwise does nothing |
| Attempts.AttemptBound | services/gateway-service/internal/router/middlewares/AttemptsMiddleware.go:114-141 | For every run and arrival pattern without refunds, an interval of length T admits at most maxAttempts * (floor(T / d) + 2) requests per key, d the least of window, base cooldown and maximal cooldown |
| AttemptWindow.LongRunBound | services/gateway-service/internal/router/middlewares/AttemptsMiddleware.go:114-141 | The same bound for every d that is at most the window, the base cooldown and the maximal cooldown |
| AttemptWindow.OldRequestsDoNotCount | services/gateway-service/internal/router/middlewares/AttemptsMiddleware.go:120-127 | After every run, refunds or not, a client with no lock running and fewer than maxAttempts requests, of whatever outcome, in the last window is admitted |
| AttemptWindow.WindowCountsExactly | services/gateway-service/internal/router/middlewares/AttemptsMiddleware.go:99-149 | While the first window lasts and nothing has locked, the counter is exactly the requests in flight plus the answers that were not refunded, whatever the order |
| AttemptWindow.AdmittedIffUnderLimit | services/gateway-service/internal/router/middlewares/AttemptsMiddleware.go:143-149 | So the next request is admitted if and only if these are fewer than maxAttempts, and that many failures deny it however many refunds came in between |
| Attempts.SaneAlways | services/gateway-service/internal/router/middlewares/AttemptsMiddleware.go:114-149 | In every reachable state the fails counter is between 0 and maxAttempts and all three keys carry an expiry |
| AttemptFairness.CooldownIsExact | services/gateway-service/internal/router/middlewares/AttemptsMiddleware.go:129-139 | In every reachable state the lock runs until exactly min(base * 2^(k-1), max) after the last strike, the k-th of a chain without gaps over the strikes' time to live; nothing but a strike moves it |
| AttemptWindow.CooldownsDouble | services/gateway-service/internal/router/middlewares/AttemptsMiddleware.go:132-136 | The first cooldown is the base, each further one of a chain twice the one before, and none exceeds the maximum |
| AttemptFairness.NothingMovesWhileLocked | services/gateway-service/internal/router/middlewares/AttemptsMiddleware.go:115-118 | Requests and refunds during a lock change no key and are all denied with exactly the time that is left |
| AttemptFairness.DeniedUntilUnlocked | services/gateway-service/internal/router/middlewares/AttemptsMiddleware.go:90-97 | A denied client stays denied until its wait is over, with exactly the time left, whatever arrives changes nothing, and the header overstates the wait by less than a second |
| AttemptFairness.RetryAfterIsHonest | services/gateway-service/internal/router/middlewares/AttemptsMiddleware.go:90-97 | Back at the announced Retry-After or later, it is admitted if fewer than maxAttempts requests have come since its lock ended; without refunds, and within one window or cooldown of that end, if and only if |
| AttemptFairness.FailsAreAccountedFor | services/gateway-service/internal/router/middlewares/AttemptsMiddleware.go:99-149 | With requests in flight, refunds late or not and windows expiring, the live counter is never negative and at most requests in flight plus answers that are not refunded |
| AttemptFairness.GentleClientsAreNeverLocked | services/gateway-service/internal/router/middlewares/AttemptsMiddleware.go:99-149 | A client with no 401 and at most maxAttempts requests in flight is never locked: its next request is admitted |
| RateLimit.LimiterCache.GetLimiter | services/gateway-service/internal/router/middlewares/RateLimitingMiddleware.go:25-33 | A lookup makes a full limiter for an unknown address, keeps the limiter of a known one, and stamps the entry |
| RateLimit.LimiterCache.Sweep | services/gateway-service/internal/router/middlewares/RateLimitingMiddleware.go:51-58 | A tick removes exactly the entries idle for more than a minute, in any map order |
| RateLimit.SameLater | services/gateway-service/internal/router/middlewares/RateLimitingMiddleware.go:83-83 | Two buckets with the same level answer alike for ever and stay alike after the same request (token-bucket contract) |
| RateLimitLaws.NewLimiterAllowsSpike | services/gateway-service/internal/router/middlewares/RateLimitingMiddleware.go:29-29 | Of any number of requests at once a new limiter allows the first spike and no more |
| RateLimitLaws.EmptiedAllowsAgain | services/gateway-service/internal/router/middlewares/RateLimitingMiddleware.go:83-83 | A limiter that such a burst has emptied, not asked since, allows again if and only if at least 1 / speed seconds have passed |
| RateLimitLaws.RateIsKept | services/gateway-service/internal/router/middlewares/RateLimitingMiddleware.go:25-33 | In every run of the table that never evicts, an address is allowed in any interval of t seconds at most spike + speed * t requests |
| RateLimit.AlwaysMatches | services/gateway-service/internal/router/middlewares/RateLimitingMiddleware.go:25-65 | The invariant behind the next rows: after any run the evicting table and the one that never evicts have given the same answers, and every entry and every limiter a request still holds is alike in both |
| RateLimitTight.EvictionIsInvisible | services/gateway-service/internal/router/middlewares/RateLimitingMiddleware.go:25-65 | If the limits refill the bucket within the idle minute less the delay between lookup and question, the evicting table gives every request of every run the same answer as the table that never evicts |
| RateLimitTight.EvictionShows | services/gateway-service/internal/router/middlewares/RateLimitingMiddleware.go:51-58 | For any other limits there is a run on which the two tables answer differently |
| RateLimitTight.InvisibleIffRefills | services/gateway-service/internal/router/middlewares/RateLimitingMiddleware.go:25-65 | So eviction is invisible on all runs if and only if spike <= speed * (60 - delay); with no delay that is spike <= 60 * speed |
| ChatServer.Chat.GetChats | services/chat-service/internal/server/server.go:36-72 | The cached list if there is one, else the user's chats, latest first, which are then cached |
| ChatServer.Chat.GetGroups | services/chat-service/internal/server/server.go:169-205 | The same for the groups the user is a member of |
| ChatServer.Chat.GetParticipants | services/chat-service/internal/server/server.go:261-301 | The cached participants, else the two parties of a chat, else the members of a group, else nobody; the answer is cached in every case |
| ChatServer.Chat.CreateChat | services/chat-service/internal/server/server.go:74-115 | A pair that has a chat keeps it; two equal users fail; otherwise one chat row is added under the ordered pair and both users' lists are dropped |
| ChatServer.Chat.CreateGroup | services/chat-service/internal/server/server.go:207-259 | All rows of the group and the drop of all members' lists, or, after a failed insert, no change at all |
| ChatServer.Chat.DeleteChat | services/chat-service/internal/server/server.go:117-145 | A party deletes the chat, else an admin the group, else nothing changes; only the caller's lists and the participants entry are dropped |
| ChatServer.Chat.ClearChat | services/chat-service/internal/server/server.go:147-167 | A party or member clears the last message; only the caller's lists and the participants entry are dropped |
| ChatServer.Chat.UpdateLastMessage | services/chat-service/internal/server/server.go:303-325 | Text, sender and time change, and the lists of all cached or stored participants are dropped |
| ChatServer.ReadRows | services/chat-service/internal/server/server.go:59-66 | The loop over the rows returns them latest first |
| ChatService.QueryChatsLists | services/chat-service/internal/server/server.go:45-66 | A fresh chat list has one line for each chat the user is a party to and no other, with times in descending order |
| ChatLines.ChatLinesShowRows | services/chat-service/internal/server/server.go:45-66 | A fresh chat list has exactly one line for each chat the user is a party to; the line names the other party and shows the row's text and sender (empty if none) and its time to the nearest second |
| ChatLines.GroupLinesShowRows | services/chat-service/internal/server/server.go:178-199 | A fresh group list has exactly one line for each group the user is a member of, with the group's own name and the same of its row |
| ChatLines.CreateChatEffect | services/chat-service/internal/server/server.go:74-115 | Two users with a chat are given it, in either order, and equal users are refused, with nothing changed; otherwise there is one chat more, between just the two, without text, and both cached lists are gone |
| ChatLines.CreateGroupEffect | services/chat-service/internal/server/server.go:207-259 | Fails exactly for a name over 100 characters or a user other than the admin given twice, with nothing changed; otherwise there is one group more, whose members are exactly the admin and the given users, each once, and the cached lists of all of them are gone |
| ChatLines.DeleteChatEffect | services/chat-service/internal/server/server.go:117-145 | Succeeds exactly for a party of a chat and the admin of a group, and takes just that conversation out of all four tables |
| ChatLines.ClearChatEffect | services/chat-service/internal/server/server.go:147-167 | Succeeds exactly for a party or member, and empties text and sender of just that row |
| ChatLines.UpdateLastMessageEffect | services/chat-service/internal/server/server.go:303-325 | Text, sender and time of just that row change, and no participant keeps a cached list |
| ChatLines.ParticipantsEffect | services/chat-service/internal/server/server.go:261-301 | Cached or not, the answer is exactly the two parties of a chat, the members of a group, and nobody for anything else |
| ChatLines.ParticipantsSeeLast | services/chat-service/internal/server/server.go:36-66 | Once a row has a text, the fresh list of each participant has a line of the conversation that shows it with its sender |
| ChatCoherence.ParticipantsAlwaysFresh | services/chat-service/internal/server/server.go:36-333 | In every run without exception, every cached participants list is what the tables say |
| ChatCoherence.ListsAlwaysFresh | services/chat-service/internal/server/server.go:36-333 | In every run in which no other member clears or deletes a conversation of the user's, the user's cached chat and group lists are what fresh queries would return |
| ChatStaleness.FreshIffUnstaled | services/chat-service/internal/server/server.go:36-333 | For every run: a user's cached lists are right throughout if and only if no other member clears or deletes a conversation of the user's whose list is cached and would now read differently |
| ChatStaleness.DeletionStalesIffCached | services/chat-service/internal/server/server.go:117-145 | Another member's deletion stales the user's chat list (for a chat) or group list (for a group) if and only if it is cached |
| ChatStaleness.ClearingStalesIff | services/chat-service/internal/server/server.go:147-167 | Another member's clearing, which also restamps the row, stales that list if and only if it is cached and did not already begin with just the line the cleared conversation has now |
| MessageRepository.Repository.GetMessages | services/old/internal/database/chat.go:89-123 | The cached list if there is one, else the conversation's messages oldest first with the senders' names, which are then cached |
| MessageRepository.Repository.AddMessage | services/old/internal/database/chat.go:165-216 | An unknown conversation or sender changes nothing; otherwise the message is stored, the chat's or, failing that, the group's columns take its text and sender, and the cached list goes |
| MessageRepository.Repository.CreateNewChat | services/old/internal/database/chat.go:218-256 | The target is looked up by name without regard to case; the pair's existing chat is kept; an unknown name and a chat with oneself change nothing; otherwise the new chat has the pair in order and no last message |
| MessageRepository.Repository.DeleteMessage | services/old/internal/database/chat.go:326-356 | Only the sender's own message is deleted; the columns, the returned text and the returned name are those of the newest message left, empty if none |
| MessageRepository.Repository.ClearChat | services/old/internal/database/chat.go:358-386 | A party or member removes all messages of the conversation and empties its columns; anyone else changes nothing |
| MessageRepository.Repository.DeleteChat | services/old/internal/database/chat.go:388-418 | A party deletes the chat, else an admin the group, with messages and conversation; anyone else changes nothing |
| MessageRepository.FindNewest | services/old/internal/database/chat.go:335-341 | The query for the newest remaining message |
| LastMessage.ColumnsAndCacheAlwaysRight | services/old/internal/database/chat.go:89-418 | Over every sequence of reads, additions, deletions, clearings, chat deletions, creations and cache expiries, each last-message text is that of the newest remaining message (empty if none), with its sender, and every cached list is what the ordered query returns |
| LastMessage.QueryIsOrdered | services/old/internal/database/chat.go:95-116 | A message list shows the conversation's messages, each once, in the order of their times |
| LastMessage.AddedIsNewest | services/old/internal/database/chat.go:181-207 | A message with a later time becomes the newest of its conversation and of no other |
| MessageHistory.ThereIffStoredSince | services/old/internal/database/chat.go:165-418 | After every sequence of calls a message is stored if and only if it was added by a known sender to a known conversation and since then neither has its sender deleted it nor anyone who may has cleared or deleted the conversation |
| MessageHistory.AddEffect | services/old/internal/database/chat.go:165-216 | A known sender's message to a known conversation is stored as it is, next to all others; any other is refused with nothing changed |
| MessageHistory.DeleteEffect | services/old/internal/database/chat.go:326-356 | A message is deleted exactly for its own sender, and no other message goes |
| MessageHistory.ClearEffect | services/old/internal/database/chat.go:358-386 | Exactly a party or member clears; exactly the conversation's messages go, and the conversation stays |
| MessageHistory.DeleteChatEffect | services/old/internal/database/chat.go:388-418 | Exactly a party of the chat or the admin of the group deletes; exactly the conversation and its messages go |
| MessageHistory.NewChatEffect | services/old/internal/database/chat.go:218-256 | Exactly two different known users without a chat get one, with nothing said in it |
| MessageHistory.ReadEffect | services/old/internal/database/chat.go:89-123 | In every reachable state the answer is the ordered query, cached or not |
| UdpLoss.LossesTelescope | services/old/internal/udp/rooms.go:140-160 | For every strictly increasing run of non-zero sequence numbers, the losses of all closed windows and the open one add up to last - first + 1 - received |
| UdpLoss.WindowsAnswer | services/old/internal/udp/rooms.go:147-160 | In such a run a window closes with every hundredth packet and no other; it answers DOWN if and only if at least 6 numbers were skipped in it, UP if and only if none was |
| UdpEffects.RecordIsItsRun | services/old/internal/udp/rooms.go:136-160 | In every run of the relay each record holds the counters of exactly its own packets in their order, and the time of its making or its last stamp |
| UdpEffects.RelayAnswers | services/old/internal/udp/rooms.go:147-160 | So on every record of every run: a packet that continues an increasing run of non-zero numbers is answered DOWN or UP only at each hundredth, DOWN if and only if at least 6 numbers were skipped in that hundred, UP if and only if none was |
| UdpRelay.RoomManager.AddUser | services/old/internal/udp/rooms.go:34-64 | A hello files the record, the address and the room; the user's old address is given up if it differs; new means not registered before |
| UdpRelay.RoomManager.GetParticipants | services/old/internal/udp/rooms.go:66-88 | Lets in exactly the known addresses whose user is registered, and lists each connection of the sender's room once, in any order; where the maps are inverse the sender's own is among them and no two are equal |
| UdpRelay.RoomManager.Lookup | services/old/internal/udp/rooms.go:90-99 | The lookup under the table's lock, which both UpdateActivity and AnalyzePacketLoss begin with: an unknown address, a record, or the nil record that is dereferenced next |
| UdpRelay.RoomManager.Count | services/old/internal/udp/rooms.go:136-160 | Under the record's own lock, after the table's has been released, one packet is counted on the record that was looked up, wherever it is filed by now |
| UdpRelay.CleanRooms | services/old/internal/udp/rooms.go:162-181 | The nested loops, in any map order, take the timed-out users out of their rooms and out of the other two maps, and the rooms left empty out of the table |
| UdpRooms.CleanupIsExact | services/old/internal/udp/rooms.go:162-181 | In any state at all, a cleaning leaves exactly the records that have not timed out, unchanged, and no empty room |
| UdpEffects.ActiveUsersStay | services/old/internal/udp/rooms.go:162-181 | After an orderly run, an address that is let in still is after a cleaning if and only if its record was made or stamped in the last 30 seconds |
| UdpEffects.HelloEffect | services/old/internal/udp/rooms.go:34-64 | In any numbered state the address then leads to a new record of the user in that room, seen now and with nothing counted, and is let in; no other record and no other registration changes |
| UdpEffects.HelloFreesOldAddress | services/old/internal/udp/rooms.go:41-47 | A different address that the user had in its registered room is forgotten, and nobody else's is |
| UdpEffects.ByeEffect | services/old/internal/udp/rooms.go:106-123 | The address is unknown then, its user registered nowhere and gone from the registered room, and everything of everybody else stays; a goodbye from an unknown address changes nothing |
| UdpRooms.HelloKeepsIffOrderly | services/old/internal/udp/rooms.go:41-60 | A hello keeps the three maps mutually inverse if and only if the user is unregistered or already in that room and the address is unclaimed or the user's own |
| UdpRooms.InverseIffOrderly | services/old/internal/udp/rooms.go:34-181 | For every run: the maps are inverse throughout if and only if each hello in it meets that condition when it comes |
| UdpRooms.LookupsAlwaysFind | services/old/internal/udp/rooms.go:97-99 | After every such run an address resolves to a user exactly when that user's record in its room has that address, so a lookup never meets a missing record |
| UdpRooms.HomesAlwaysFilled | services/old/internal/udp/rooms.go:34-181 | In every run, orderly or not, whoever is registered has a record in the registered room, so an address whose datagram is let in leads to a record at that moment |
| UdpRooms.DanglingIffHomeless | services/old/internal/udp/rooms.go:97-99 | A lookup meets a missing record if and only if the address is known and its user registered in no room (nor filed under the empty room name) |
| UdpRooms.StrandedIff | services/old/internal/udp/rooms.go:106-181 | One more operation turns an address that was let in into such a one if and only if another address of its user says goodbye, or a record of the user's times out in any room while none with this address does |
| UdpDatagrams.CrashesIffHomeless | services/old/internal/protocol_stack/initialize.go:169-186 | With every connection's goroutine taking a datagram through its regions one by one, the process ends in exactly the runs in which a datagram that was let in comes to a lookup when its user has lost its room and its address is still known |
| UdpDatagrams.OrderlyNeverCrashes | services/old/internal/protocol_stack/initialize.go:124-187 | No run with orderly hellos does, whatever comes in between |
| UdpDatagrams.RoomChangeCrashes | services/old/internal/protocol_stack/initialize.go:169-174 | A concrete run that does: a room change, a datagram let in, a cleaning, the first lookup |
| UdpDatagrams.RoomChangeShutsOut | services/old/internal/protocol_stack/initialize.go:169-185 | After the same room change and cleaning without a datagram in between, the active user's next datagram is turned away as anonymous, although its record is there |
| FriendsServer.Service.SendFriendRequest | services/friends-service/internal/server/server.go:50-84 | A request to oneself is refused; one that exists becomes pending again under its id, between friends too, since the lookup of the friendship always fails; otherwise a new pending one is stored |
| FriendsServer.ReadFriends | services/friends-service/internal/server/server.go:234-253 | The loop lists one entry for each row of the user: the other side |
| FriendsServer.ListsWithoutRepeats | services/friends-service/internal/server/server.go:234-253 | Over strictly ordered rows that list names every friend and names none twice |
| Friends.AlwaysProper | services/friends-service/internal/server/server.go:28-210 | In every reachable state the rows are strictly ordered pairs, and nobody has two requests to one receiver or one to oneself |
| Friends.EarnedIffHarmless | services/friends-service/internal/server/server.go:50-84 | For every run: each friendship has an accepted request behind it throughout if and only if every request is sent while the two are no friends, or the sender has no accepted request to the receiver, or the receiver has one to the sender |
| Friends.ResendUnearns | services/friends-service/internal/server/server.go:50-84 | A concrete run: a friend asks again, and the friendship is left with a pending request and no accepted one |
| Friends.FriendshipIsSymmetric | services/friends-service/internal/server/server.go:234-253 | b is a friend of a if and only if a is one of b, if and only if they differ and their ordered row is stored |
| Friends.FriendsIffAcceptedSince | services/friends-service/internal/server/server.go:28-152 | After every run two users are friends if and only if one accepted a pending request of the other and neither has ended the friendship since |
| Friends.FriendshipTakesBoth | services/friends-service/internal/server/server.go:51-152 | Behind every friendship there are a sending by one of the two and a later acceptance by the other, with no end since |
| FriendEffects.SendEffect | services/friends-service/internal/server/server.go:50-84 | A request to oneself is refused; otherwise one request between the two in that direction is pending, under the id it had or the new one, and no other request and no friendship changes; only a taken new id fails |
| FriendEffects.AcceptEffect | services/friends-service/internal/server/server.go:108-152 | Exactly the receiver of a pending request accepts it; the two are friends then, and no other friendship or request changes |
| FriendEffects.DeclineEffect | services/friends-service/internal/server/server.go:154-181 | Exactly the receiver of a pending request declines it; nobody can accept or cancel it then, and friendships stay |
| FriendEffects.CancelEffect | services/friends-service/internal/server/server.go:183-210 | Exactly the sender of a pending request cancels it; it is gone, nobody can accept it, and friendships stay |
| FriendEffects.UnfriendEffect | services/friends-service/internal/server/server.go:28-37 | In either argument order the two are no friends any more; every other friendship and all requests stay |
| Keys.SplitThenJoin | services/gateway-service/internal/router/messaging.go:46-46 | Joining the pieces of a split key gives the key back, and no piece has a slash |
| Keys.JoinThenSplit | services/gateway-service/internal/router/messaging.go:46-46 | Splitting joined slash-free pieces gives the pieces back |
| Keys.ExtIsLastSuffix | services/s3-service/internal/server.go:139-142 | The extension starts at the last dot of the last path element, and is empty if there is none |
| Keys.OwnFileKeyIff | services/gateway-service/internal/router/messaging.go:45-56 | A key is a user's own file if and only if it reads folder/user/name with a media folder, that user and a non-empty name, none of them with a slash inside |
| Keys.OwnAvatarKeyIff | services/gateway-service/internal/router/user.go:44-51 | A key is a user's own avatar if and only if it reads avatars/user/name with that non-empty user and a non-empty name, neither with a slash inside |
| Keys.KeyHasOneUse | services/gateway-service/internal/router/user.go:44-51 | No key is both a media key and an avatar key, and no key is two users' own |
| Keys.PrintedKeyIsOwners | services/s3-service/internal/server.go:123-143 | Every key handed out passes the parser of its kind for exactly its user, and no other parser; a slash in the user id is the only obstacle, and then it passes for nobody |
| Keys.UploadedFileIsSenders | services/gateway-service/internal/router/messaging.go:30-43 | With the gateway's folder an upload is refused only for its type (and never in files), and otherwise the key is the sender's own file key, no one else's and no avatar key |
| Keys.FolderOfMessage | services/gateway-service/internal/router/messaging.go:30-43 | Which folder each message type gets, and each content type where the message type says nothing |
| Keys.TypesOfFolders | services/s3-service/internal/server.go:115-134 | Images, videos and voices take only content of their kind, files any, and avatars exactly JPEG, PNG and WebP |
| Keys.RefusedUploads | services/s3-service/internal/server.go:115-134 | Without a user or into another folder every upload is refused |
| Keys.ObjectNameSlashFree | services/s3-service/internal/server.go:135-143 | The object name has no slash, and at most ten characters beyond the hexadecimal digits of the random bytes, whatever the file name |
| Keys.ObjectNameShowsExtension | services/s3-service/internal/server.go:139-142 | After the random part comes the file's own extension in lower case if it has at most ten characters, else nothing |
| Keys.KeysDoNotCollide | services/s3-service/internal/server.go:135-143 | Two uploads get one key only with the same folder, the same user and the same random bytes, whatever the file names |

## Left out

- CallConvergence.FanOutConverges: stated for runs whose reconciles come in snapshot order, which is sufficient but not necessary; `CallExact.ConvergesIffCovered` has the exact condition.
- Attempts.Store.Attempt: requires a strikes counter that is not negative, which `Attempts.SaneAlways` shows of every reachable state.
- RateLimit.SameLater: the token bucket has the documented contract of golang.org/x/time/rate (tokens accrue at the rate up to the burst, a request takes one or is refused), over real numbers; its rounding is not modelled.
- ChatStaleness.ClearingStalesIff: requires a time later than all of the user's rows, as the database supplies it; for any other time the list changes exactly as `ChatStaleness.FreshIffUnstaled` says. The sixty-second expiry is an arbitrary step of the runs.
- ChatServer.Chat.CreateChat: requires a new identifier that nobody has used or asked about, and times later than every stored one, as the database supplies them; likewise the other calls that insert or stamp rows.
- MessageRepository.Repository.AddMessage: requires an unused identifier and a time later than the last message, as the database supplies them.
- MessageRepository.Repository.CreateNewChat: when several names differ only in case, it may find any of their users, as the query does; lower-casing is that of ASCII.
- UdpRelay.RoomManager.Lookup: records are values under identities and not heap objects; a connection is known by its address, and the cleaning's unlocked read of a time stamp is one step with its deletions.
- UdpRelay.RoomManager.Count: the loss rate is a real number (the source's floating-point quotient decides the two thresholds alike for a window of 100).
- FriendsServer.Service.SendFriendRequest: identifiers are compared as strings, as the source does, and the columns hold UUIDs; two spellings of one UUID are not modelled. A new identifier that is taken fails the insert.
- Keys.PrintedKeyIsOwners: lower-casing is modelled for ASCII letters, and lengths count characters; the parsed media type and the random bytes are parameters, and failures of the random source and of signing the URL are not modelled.
- Keys.ExtIsLastSuffix: the extension is that of Go's path package.
- WebRTC itself: connection setup, codecs, SDP text, candidate gathering and its timeout, RTP and RTCP forwarding, and failures of AddTrack, RemoveTrack, CreateOffer and SetLocalDescription, which the source only logs; answers are taken to be of type answer, and a refused one to change nothing.
- The inline order of work: a goroutine that negotiates with several peers in turn is modelled as queued work that may be taken in any order, which allows more interleavings than the source has.
- Shutting the call server down, the list of peers it publishes, and the Redis channel its signals come from.
- Redis outages and the branches that then let requests pass, reading keys out of request bodies, and writing HTTP answers. A Redis key is taken to be live up to and including its expiry millisecond; cooldowns doubled beyond the range of exact doubles are integers here.
- The time of the rate limiter's ticks: a sweep may come at any time.
- SQL: tables are maps with their key constraints, every call is atomic, and connection errors, malformed identifiers and failing commits do not occur.
- Name lookups and member inserts of the old CreateNewGroup, whose members arrive resolved; the old chat and group lists; the old participant cache, and the user cache, which shows the name a user has now.
- The lists of pending friend requests, notifications over Redis, and the two-statement window inside declining and cancelling.
- The messaging service, whose deletion path scans a missing file URL into a string.
- The chunked upload loop, download URLs, generated code, configuration, push notifications, authentication, and the gateway's handlers.

# vibeconnect matching and room engine, in Dafny

A model of `chat/consumers.py` from vibeconnect, a Django Channels chat service. The service pairs guest sessions with guests and registered sessions with registered ones, in two FIFO waiting queues. It puts each pair in a two-party room with a fresh name. It fans chat lines out to the room. It also lets a session that carries a one-shot reconnect target jump the queue and pair at once with a waiting session of that user.

The model, file by file:

- `wrappers.dfy`: `Option`.
- `frames.dfy` (module `Frames`, pure): `clean`, the frame builders `pack_sys`, `pack_msg` and `pack_match`, Python's `str.strip`, `str.split("|")` and `str.split("|", 1)`, the part of `str.upper` that can produce a command word, and the parsing at the head of `receive`.
- `queues.dfy` (module `Queues`, pure): the list operations the handlers use, chiefly `list.remove`.
- `chat.dfy` (module `Chat`), imperative:
  - class `World`: the module-level `GUEST_QUEUE`, `USER_QUEUE` and `ONLINE_USERS`, the broadcast groups of the channel layer, and an outbox that logs every `(recipient, frame)` the handlers send.
  - class `Consumer`: one `ChatConsumer`. Its `partner` and `roomName` fields are updated in place, also by other consumers.
  - class `SessionStore`: the part of the HTTP session that `connect` reads and clears.
  - Every handler method ties the new state, as a value (`World.Snap()`, a `Snapshot`), to a pure transition of the old one (`Connected`, `Matched`, `Forced`, `Opened`, `Left`, `Disconnected`, `Received`). It ties the outbox to a pure function listing the frames sent.
- `discipline.dfy` (module `Discipline`): the queue discipline as a predicate on snapshots. It says waiting sessions are connected, of the queue's kind, listed once and unlinked, that links are symmetric, and that every pair is of one kind. Lemmas show which handler steps keep it, and counterexamples show the steps that break it.
- `effects.dfy` (module `Effects`): what each handler does and sends, stated on the transitions.
- `scenarios.dfy` (module `Scenarios`): one concrete sequence of steps. Guest A waits, guest B pairs with A, A says hello, B skips. The two connects are also carried out on the objects of a fresh `World`.

Behaviour kept as the code has it:

- `disconnect` clears neither side's links and leaves every group as it is. The partner is notified but keeps pointing at the closed session (`Effects.DisconnectEffect`).
- `next_match` clears the partner's links but leaves the partner subscribed to the old room (`Effects.NextClearsBoth`).
- NEXT from a session that is still waiting re-enters `match` without leaving the queue. Behind another waiting session, it is paired with the head and stays queued (`Discipline.NextWhileQueuedBreaks`). Alone in the queue, it pops itself and is paired with itself (`Discipline.NextWhileAloneSelfPairs`). The discipline lemmas for NEXT therefore require a caller that is not waiting.
- `ONLINE_USERS` is a set. The disconnect of one of two sessions of the same user takes the id offline for both (`Effects.SharedIdGoesOffline`).
- The guest flag is read from the HTTP session (chat/consumers.py:36) and the user id from authentication (chat/consumers.py:41); nothing in `chat/consumers.py` ties the two together. A session flagged guest that is also logged in, and whose force target is offline or not waiting, is queued in `USER_QUEUE`. Its `disconnect` looks only in `GUEST_QUEUE`, so it stays queued after closing (`Discipline.ForcedGuestLingers`). When its target is waiting, it is paired with that registered session, a pair of mixed kind (`Discipline.ForcedGuestMixes`). The HTTP views never create such a session: `guest_start` flushes the session before setting the guest flag (chat/views.py:21-22), and register and login flush a guest session before `login` (chat/views.py:63-64 and 84-85).
- `chat/consumers.py` does not truncate nicknames. The views cut them to 30 characters before storing them (chat/views.py:23, 60 and 67), so the model takes a nickname of any length.

## Model

| member | source | states |
|---|---|---|
| `Frames.Strip` | chat/consumers.py:10 | `str.strip()`: the result is the slice of the input left after dropping its leading and trailing whitespace runs. It has no outer whitespace, and it is empty exactly when the input is all whitespace. |
| `Frames.ReplacePipes` | chat/consumers.py:10 | `replace` of the pipe by a space: same length, every pipe becomes a space, every other character is kept, no pipe remains. |
| `Frames.Clean` | chat/consumers.py:9-10 | `clean`: the result contains no pipe, has no leading or trailing whitespace, and is never longer than the input. |
| `Frames.CleanFixedPoints` | chat/consumers.py:9-10 | `clean` leaves a text unchanged exactly when the text has no pipe and no outer whitespace. |
| `Frames.CleanIdempotent` | chat/consumers.py:9-10 | `clean(clean(s)) == clean(s)`. |
| `Frames.SplitOnce` | chat/consumers.py:74 | splitting once on the pipe: one part exactly when there is no pipe, and then it is the text; otherwise two parts, the first pipe-free, that rejoin around a pipe to the text. |
| `Frames.SplitOnceField` | chat/consumers.py:74 | Splitting `a`, a pipe, then `b` once, with `a` pipe-free, gives `[a, b]` whatever `b` holds. |
| `Frames.CleanKeepsText` | chat/consumers.py:9-10 | `clean` keeps the text: the result is a contiguous stretch of the text with pipes replaced, and every character that is neither a pipe nor whitespace is kept, at its place in that stretch. |
| `Frames.Split` | chat/static/chat.js:74 | The browser's `raw.split(...)` on the pipe, the reader the frame formats are built for: at least one field, and no field contains a pipe. `chat/consumers.py` itself only splits once. |
| `Frames.SplitCount` | chat/consumers.py:13-23 | A frame splits into one field more than it has pipes. |
| `Frames.SplitField` | chat/consumers.py:13-23 | Splitting `a`, a pipe, then `b`, with `a` pipe-free gives `a` followed by the fields of `b`. |
| `Frames.PackSys` | chat/consumers.py:13-14 | `pack_sys(m)` split on the first pipe gives `["SYS", clean(m)]`; split on every pipe gives the same two fields. |
| `Frames.PackMsg` | chat/consumers.py:17-18 | `pack_msg(n, m)` splits into exactly `["MSG", clean(n), clean(m)]`. |
| `Frames.PackMsgPipes` | chat/consumers.py:17-18 | `pack_msg(n, m)` contains exactly two pipes, whatever `n` and `m` hold. |
| `Frames.IntToString` | chat/consumers.py:22 | `str(uid)`: never empty and never contains a pipe. |
| `Frames.UserIdField` | chat/consumers.py:22 | The id field is pipe-free, is empty exactly when there is no id, and reads back as the id. |
| `Frames.IntRoundTrip` | chat/consumers.py:22 | `str(uid)` reads back as `uid`, negative ids included. |
| `Frames.PackMatch` | chat/consumers.py:21-23 | `pack_match(n, uid)` splits into exactly `["MATCH", clean(n), uid-or-""]`. |
| `Frames.Wire` | chat/consumers.py:13-23 | The text sent for a frame. Every built frame names its kind in the first field and splits back into its cleaned fields; a raw frame is sent as written. |
| `Frames.FramePipes` | chat/consumers.py:13-23 | A SYS frame carries exactly one pipe, a MSG or MATCH frame exactly two. |
| `Frames.UpperChar` | chat/consumers.py:75 | One character of `str.upper()`: one to three characters; a-z become A-Z; every other ASCII character is kept. |
| `Frames.Upper` | chat/consumers.py:75 | `str.upper()`: never shorter than the text, at most three times as long. |
| `Frames.UpperConcat` | chat/consumers.py:75 | Upper-casing a concatenation upper-cases each part. |
| `Frames.UpperOfSpelling` | chat/consumers.py:75 | Upper-casing maps every mixed-case ASCII spelling of a word to the word. |
| `Frames.CommandWord` | chat/consumers.py:74-75 | The command word, the head before the first pipe upper-cased and stripped, has no outer whitespace. |
| `Frames.Parse` | chat/consumers.py:70-83 | No text or empty text is dropped; a MSG argument is stripped. |
| `Frames.ParseFramed` | chat/consumers.py:74-100 | A head `p` without pipe, a pipe, then `t`, is MSG with `t` stripped, NEXT or INTEREST as `p` upper-cased and stripped reads, and is dropped otherwise. |
| `Frames.ParseBare` | chat/consumers.py:74-81 | A frame with no pipe reads as its command word; MSG then has empty text. |
| `Frames.ParseMsgAnyCase` | chat/consumers.py:75-77 | MSG spelt in any case is MSG. |
| `Queues.IndexOf` | chat/consumers.py:57-62 | The position `list.remove` deletes: it holds `x`, and no earlier position does. |
| `Queues.Without` | chat/consumers.py:159 | A member list after `group_discard`: nothing added, `x` gone entirely, every other member kept, no repeat introduced. |
| `Queues.RemoveFirst` | chat/consumers.py:57-62 | `list.remove` behind the `in` guard: a list without `x` is unchanged; otherwise the first occurrence of `x` is deleted and the rest kept in order. |
| `Queues.RemoveFirstFacts` | chat/consumers.py:57-62 | `remove` adds nothing and loses nothing but `x`; on a list without repeats, `x` is gone entirely and no repeats appear. |
| `Queues.DeleteAt` | chat/consumers.py:130-134 | Deleting one position shortens the list by one, removes exactly that entry from the multiset, and keeps a list without repeats so. |
| `Queues.DeleteAtOrder` | chat/consumers.py:130-134 | After deleting position `i`, the entries before `i` keep their index and the later ones move up by one. |
| `Queues.AppendFresh` | chat/consumers.py:111 | Appending a session not yet queued keeps the queue free of repeats. |
| `Queues.DropHead` | chat/consumers.py:108 | `pop(0)` keeps the queue free of repeats and removes the head entirely. |
| `Chat.GroupFrames` | chat/consumers.py:85-92 | `group_send` to a room: nothing when no group of that name exists; otherwise one copy of the event's frame per member, in member order. |
| `Chat.Notify` | chat/consumers.py:96-97 | `if self.partner: self.partner.send(...)`: exactly one frame, to the partner, when there is one; none otherwise. |
| `Chat.SubscribeJoins` | chat/consumers.py:147-148 | `group_add` (`Chat.Subscribe`): the session is a member of the room afterwards, at the tail unless it already was; no member is listed twice; every other group is untouched. |
| `Chat.RoomOpenFrames` | chat/consumers.py:150-155 | `start_room` sends two frames first, to the caller and then to the partner, then one frame per room member. |
| `Chat.MatchFrames` | chat/consumers.py:104-121 | `match` sends its first frame to the caller. With the queue empty, that is the only frame and it is the waiting notice of the caller's kind; otherwise it is MATCH naming the head. |
| `Chat.ForceFrames` | chat/consumers.py:123-137 | `force_match` sends its first frame to the caller. When it pairs nobody that is the only frame: the offline notice for an offline target, the reconnect notice when nobody waiting has the id. Otherwise it is MATCH naming the entry taken. |
| `Chat.Connected` | chat/consumers.py:27-31 | The session is connected and has no partner and no room; queues, groups and every other session's links are unchanged. |
| `Chat.Enqueued` | chat/consumers.py:110-112 | The session joins the tail of its own kind's queue; the other queue, links, groups and connected set are unchanged. |
| `Chat.Opened` | chat/consumers.py:139-148 | Each side points at the other and at the room, and both are members of the room's group; queues and connected set are unchanged. |
| `Chat.Matched` | chat/consumers.py:104-121 | Only the caller's own kind's queue changes. An empty queue becomes the caller alone, with no link changed; otherwise the head is popped and the caller is linked to it in the room. |
| `Chat.Forced` | chat/consumers.py:123-137 | `GUEST_QUEUE` and the connected set never change. With the target offline or nobody waiting with the id, the caller joins the `USER_QUEUE` tail and no link or group changes; otherwise `USER_QUEUE` loses one entry and the caller is linked to the first waiting entry with the id. |
| `Chat.Severed` | chat/consumers.py:161-166 | The caller and its partner lose their links; every other session keeps its links; no session is added or dropped. |
| `Chat.Left` | chat/consumers.py:157-166 | The `next_match` teardown unlinks the caller and leaves both queues and the connected set unchanged. |
| `Chat.Disconnected` | chat/consumers.py:56-62 | The session leaves the connected set, and nobody else does. Links and groups are unchanged. The own kind's queue loses the first occurrence of the session; the other queue is unchanged. |
| `Chat.Received` | chat/consumers.py:70-102 | Only NEXT changes state, and NEXT leaves the other kind's queue and the connected set unchanged. |
| `Chat.ReceivedFrames` | chat/consumers.py:70-102 | A dropped frame sends nothing; INTEREST sends at most the ping, to the partner; MSG without a room or with blank text sends nothing; NEXT sends at least one frame. |
| `Chat.Register` | chat/consumers.py:44-45 | A truthy user id is added to `ONLINE_USERS` and nothing else changes; any other id changes nothing. |
| `Chat.Unregister` | chat/consumers.py:64-65 | A truthy user id is removed from `ONLINE_USERS` and nothing else changes; any other id changes nothing. |
| `Chat.UnregisterUndoesRegister` | chat/consumers.py:44-65 | The presence step of `disconnect` undoes that of `connect` for an id that was not online before. |
| `Chat.Deliver` | chat/consumers.py:85-92 | Group fan-out: one copy of the frame per member, in member order. |
| `Chat.SubscribeTwice` | chat/consumers.py:147-148 | Two `group_add`s to a room no group uses leave exactly the two members, once each. |
| `Chat.Unsubscribe` | chat/consumers.py:159 | `group_discard`: other groups are unchanged; the room keeps its other members; an emptied group disappears. |
| `Chat.FirstWaiting` | chat/consumers.py:130-134 | The entry `force_match` picks has the target id and no earlier entry has it; none is picked exactly when no entry has it. |
| `Chat.FindWaiting` | chat/consumers.py:130-134 | The scan loop over `USER_QUEUE` returns exactly the entry `FirstWaiting` picks. |
| `Chat.ChosenNickname` | chat/consumers.py:37-39 | The stored nickname for the session's kind when present and non-empty, otherwise "Guest"; never empty. |
| `Chat.JoinKeepsPresence` | chat/consumers.py:44-45 | Adding a truthy id on connect keeps `ONLINE_USERS` exactly the ids of connected sessions. |
| `Chat.LeaveKeepsPresence` | chat/consumers.py:64-65 | Removing the id on disconnect keeps it exact, provided no other connected session carries the id. |
| `Chat.SessionStore.constructor` | chat/consumers.py:33-37 | The session values `connect` reads: guest flag, the two nicknames, the force target. |
| `Chat.World.Init` | chat/consumers.py:4-6 | Both queues and the presence set start empty, with no groups and nothing sent. |
| `Chat.World.Join` | chat/consumers.py:43-45 | The session becomes known, connected and unlinked, its truthy id goes online, and presence stays exact. |
| `Chat.World.Send` | chat/consumers.py:112 | `send` appends one frame to the outbox and changes no state. |
| `Chat.World.SendTo` | chat/consumers.py:96-97 | `if self.partner: send`: one frame for a present recipient, none otherwise. |
| `Chat.World.GroupSend` | chat/consumers.py:85-92 | `group_send` appends the event's frame for every current member; no state changes. |
| `Chat.World.GroupAdd` | chat/consumers.py:147 | `group_add`: a new member joins the end of the group, creating it if needed; an existing member changes nothing. |
| `Chat.World.GroupDiscard` | chat/consumers.py:159 | `group_discard`: the member leaves its group, and an emptied group disappears. |
| `Chat.World.PopHead` | chat/consumers.py:108 | The head of the queue of the given kind is returned and dropped; nothing else changes. |
| `Chat.World.Append` | chat/consumers.py:111 | The session is appended to the tail of the queue of the given kind; nothing else changes. |
| `Chat.World.RemoveUser` | chat/consumers.py:132 | `USER_QUEUE.remove(x)`; nothing else changes. |
| `Chat.World.Withdraw` | chat/consumers.py:57-62 | The session leaves the queue of its own kind if it is in it; the other queue is not looked at. |
| `Chat.World.GoOffline` | chat/consumers.py:64-65 | A truthy user id leaves `ONLINE_USERS`; nothing else changes. |
| `Chat.World.Open` | chat/consumers.py:147-155 | Both sides are subscribed to the fresh room; each gets MATCH naming the other, then the room gets the connected notice. |
| `Chat.World.LeaveGroup` | chat/consumers.py:158-159 | The caller leaves its room's group when the room name is truthy. |
| `Chat.Consumer.Accept` | chat/consumers.py:30-41 | A new session has no room and no partner, the session's kind, the chosen nickname, and the authenticated user id. |
| `Chat.Consumer.Connect` | chat/consumers.py:43-54 | The id goes online. With both a force target and a user id, the target is cleared and `force_match` runs; otherwise `match` runs. Presence stays exact. |
| `Chat.Consumer.Begin` | chat/consumers.py:47-54 | The one-shot force target is consumed only when it and the user id are both truthy; otherwise it stays and `match` runs. |
| `Chat.Consumer.Disconnect` | chat/consumers.py:56-68 | Out of the own kind's queue and the connected set, the id offline; links and groups untouched; the partner, if any, gets one notice. |
| `Chat.Consumer.Receive` | chat/consumers.py:70-102 | State and frames are those of the parsed command: only NEXT changes state; MSG, INTEREST and dropped frames send only what `ReceivedFrames` lists. |
| `Chat.Consumer.OnMsg` | chat/consumers.py:77-92 | A MSG with text from a session in a room goes to every room member; otherwise nothing is sent. |
| `Chat.Consumer.OnNext` | chat/consumers.py:94-98 | The partner gets the skip notice, then the room is torn down and the caller re-matched. |
| `Chat.Consumer.OnInterest` | chat/consumers.py:100-102 | The `PINTEREST` ping goes to the partner, if any, and to nobody else. |
| `Chat.Consumer.Match` | chat/consumers.py:104-121 | Pair with the head of the caller's own kind's queue, or join its tail with one waiting notice. |
| `Chat.Consumer.MatchIn` | chat/consumers.py:106-113 | One kind's half of `match`, with that kind's waiting notice. |
| `Chat.Consumer.ForceMatch` | chat/consumers.py:123-137 | Offline target: offline notice, then join the `USER_QUEUE` tail. First waiting entry with the id: taken out and paired. Otherwise: waiting notice, then join the tail. |
| `Chat.Consumer.WaitForUser` | chat/consumers.py:125-128 | The notice is sent and the caller joins the tail of `USER_QUEUE`. |
| `Chat.Consumer.TakeWaiting` | chat/consumers.py:130-134 | The chosen entry is removed from `USER_QUEUE`, the others keeping their order, and paired with the caller. |
| `Chat.Consumer.StartRoom` | chat/consumers.py:139-155 | Both sides are linked to each other and to the fresh room `room_<token>`, with subscriptions and frames as in `World.Open`. |
| `Chat.Consumer.Pair` | chat/consumers.py:140-145 | Each side points at the other and at the room; nobody else's links change. |
| `Chat.Consumer.LeaveRoom` | chat/consumers.py:158-166 | The caller leaves its group, and the partner's links and then its own are cleared. |
| `Chat.Consumer.Unpair` | chat/consumers.py:161-166 | The partner's links and the caller's become empty; nothing else changes. |
| `Chat.Consumer.NextMatch` | chat/consumers.py:157-167 | Teardown followed by `match` for the caller only. |
| `Discipline.NeverQueuedAndPaired` | chat/consumers.py:104-145 | Under the discipline, no session is both waiting and paired. |
| `Discipline.ConnectKeeps` | chat/consumers.py:30-45 | `connect` keeps the discipline and leaves the new session unlinked and in no queue. |
| `Discipline.LeftKeeps` | chat/consumers.py:157-166 | The `next_match` teardown keeps the discipline and unlinks the caller; queues and connected set unchanged. |
| `Discipline.MatchKeeps` | chat/consumers.py:104-121 | `match` for an unlinked, connected caller in no queue keeps the discipline. |
| `Discipline.OpenKeeps` | chat/consumers.py:139-148 | Pairing two unlinked sessions of one kind that are in no queue keeps the discipline. |
| `Discipline.ForceKeeps` | chat/consumers.py:123-137 | `force_match` for an unlinked, connected, non-guest caller in no queue keeps the discipline. |
| `Discipline.DisconnectKeeps` | chat/consumers.py:56-65 | `disconnect` keeps the discipline and leaves the session in no queue. |
| `Discipline.ReceiveKeeps` | chat/consumers.py:70-102 | `receive` keeps the discipline when a NEXT comes from a session that is not waiting. |
| `Discipline.ConnectThenMatchKeeps` | chat/consumers.py:43-54 | `connect` followed by `match`, or by `force_match` for a non-guest, keeps the discipline. |
| `Discipline.NextWhileQueuedBreaks` | chat/consumers.py:94-121 | NEXT from a session queued behind another leaves it waiting and paired at once, breaking the discipline. |
| `Discipline.NextWhileAloneSelfPairs` | chat/consumers.py:94-109 | NEXT from the only waiting session pairs it with itself. |
| `Discipline.ForcedGuestLingers` | chat/consumers.py:47-62 | A guest-flagged, logged-in session whose force target is offline or not waiting stays in `USER_QUEUE` after its disconnect. |
| `Discipline.ForcedTakesRegistered` | chat/consumers.py:130-134 | The entry `force_match` takes is a registered session with the target id, and the caller is paired with it; for a caller not flagged guest the pair is of one kind. |
| `Discipline.ForcedGuestMixes` | chat/consumers.py:123-141 | A guest-flagged, logged-in caller whose target is waiting is paired with a registered session, which breaks the rule that pairs are of one kind. |
| `Effects.OpenedLinksBoth` | chat/consumers.py:139-148 | `a.partner == b`, `b.partner == a`, both in the fresh room, whose group is exactly the two; other links, other groups, queues and connected set unchanged. |
| `Effects.RoomOpenFramesShape` | chat/consumers.py:150-155 | Each side gets MATCH with the other's nickname and id, then each member gets the connected notice. |
| `Effects.RoomOpenFramesSelf` | chat/consumers.py:150-155 | A session paired with itself gets both MATCH frames, each naming itself, then the connected notice once. |
| `Effects.BroadcastFrames` | chat/consumers.py:169-173 | `Chat.Handle`, the frame a member sends for a group event: `broadcast_message` sends the MSG frame and `broadcast_system` the SYS frame, each splitting back into the event's cleaned fields. |
| `Effects.MatchedFifo` | chat/consumers.py:104-121 | Only the own kind's queue is used. A waiting head, of the caller's kind, is paired and the rest keeps its order. Otherwise the caller joins the tail and gets exactly one waiting notice. |
| `Effects.ForcedOffline` | chat/consumers.py:125-128 | Offline target: the caller joins the `USER_QUEUE` tail, links and groups unchanged. |
| `Effects.ForcedNobodyWaiting` | chat/consumers.py:130-137 | No waiting entry with the id: the caller joins the tail, links and groups unchanged. |
| `Effects.ForcedTakesFirst` | chat/consumers.py:130-134 | The first waiting entry with the id is removed, earlier entries keep their place, later ones move up by one, and it is paired with the caller; `GUEST_QUEUE` unchanged. |
| `Effects.NextClearsBoth` | chat/consumers.py:157-167 | Both sides are unlinked, and the partner is in no queue but still subscribed. The caller leaves the old room and alone re-enters `match`. The other kind's queue is unchanged. |
| `Effects.NextFrames` | chat/consumers.py:94-98 | NEXT sends the skip notice to the partner, if any, then what `match` sends. |
| `Effects.ReceiveDrops` | chat/consumers.py:70-102 | No change and no output for: empty text, an unknown command, MSG without a room or with blank text, INTEREST without a partner. Only NEXT changes state. |
| `Effects.UnknownCommandDropped` | chat/consumers.py:74-77 | A frame whose head, upper-cased and stripped, is no command word changes nothing and sends nothing. |
| `Effects.BlankMsgDropped` | chat/consumers.py:81-83 | A MSG whose text is only whitespace sends nothing. |
| `Effects.MsgReachesRoom` | chat/consumers.py:85-92 | A MSG with text from a session in a room reaches every member, the sender included, in order, as the MSG frame with the sender's nickname. |
| `Effects.InterestToPartnerOnly` | chat/consumers.py:100-102 | INTEREST sends exactly the raw `PINTEREST` ping, to the partner only. |
| `Effects.DisconnectEffect` | chat/consumers.py:56-65 | The session leaves its queue and the connected set; every other waiting entry stays; links and groups unchanged. |
| `Effects.DisconnectNotifiesOnce` | chat/consumers.py:67-68 | The partner disconnect notice goes out once with a partner and never without one. |
| `Effects.SharedIdGoesOffline` | chat/consumers.py:64-65 | With two connected sessions of one user id, disconnecting one takes the id offline while the other is connected. |
| `Scenarios.AWaits` | chat/consumers.py:106-113 | A first guest waits in `GUEST_QUEUE` and is told "Waiting for another guest...". |
| `Scenarios.BPairs` | chat/consumers.py:106-109 | The second guest pops the first; both link to the room and get MATCH and the connected notice. |
| `Scenarios.HelloReachesBoth` | chat/consumers.py:85-92 | A's hello reaches B and A. |
| `Scenarios.BSkips` | chat/consumers.py:94-98 | B's NEXT tells A the chat ended, leaves A idle but subscribed, and re-queues B alone. |
| `Scenarios.FirstGuest` | chat/consumers.py:27-54 | On a fresh world, a guest's connect leaves it alone in `GUEST_QUEUE` with one waiting notice. |
| `Scenarios.TwoGuestsConnect` | chat/consumers.py:27-54 | A second guest's connect links both to `room_t2`, empties the queue, and sends the MATCH frames and the notice. |

## Left out

- The Channels transport is not modelled. `accept`, `channel_name`, the socket and delivery timing are left out; a `send` or `group_send` becomes an entry in the `World` outbox. Frames sent to a closed socket are logged like any other.
- Concurrency is not modelled: every handler runs as one atomic step. The `await` points inside a handler, where another consumer's handler could interleave, are not modelled.
- `uuid.uuid4().hex[:10]` is replaced by a token parameter, and every handler that can open a room requires that `room_<token>` names no existing group. This stands in for the uniqueness the UUID is relied on for.
- `Frames.UpperChar` does not model all of `str.upper()`. It covers a-z and the non-ASCII characters whose upper case is made only of ASCII letters, and keeps every other character. Those are the only characters whose case can turn a frame head into a command word.
- The `bytes_data` argument of `receive` and the `close_code` of `disconnect` are ignored by the code and are not modelled.
- Frames.Clean: takes a string only. The `(text or "")` of `clean` also maps `None` and every other falsy value to the empty text. No caller in `chat/consumers.py` passes one: nicknames are never empty (`Chat.ChosenNickname`), and message texts come out of a split.
- The stored force target is taken to be an integer user id or absent. A target of another Python type is not modelled.
- Saving the Django session after `force_match_user_id` is cleared is not modelled.
- The sessions a `World` knows never shrink. A disconnected session stays known because its partner may still point at it.
- chat/views.py, chat/models.py, chat/admin.py, chat/urls.py, chat/static/chat.js and the settings are not part of this model. They are HTTP handlers, ORM schema, routing, browser code and configuration. Only the browser's split of a frame on every pipe is modelled, as `Frames.Split`, the reader the frame formats are built for.
- Discipline.ForceKeeps: stated only for callers not flagged guest. A guest-flagged, logged-in caller whose target is offline or not waiting is queued in `USER_QUEUE` (`Discipline.ForcedGuestLingers`); one whose target is waiting is paired with a registered session (`Discipline.ForcedGuestMixes`). The HTTP views never create such a session.
- Discipline.ReceiveKeeps: stated only for a NEXT from a session that is not waiting. The source allows it from a waiting one, which breaks the discipline (`Discipline.NextWhileQueuedBreaks`).
- Chat.Consumer.Disconnect: presence is stated to stay exact only when no other connected session carries the same user id. The other case loses presence (`Effects.SharedIdGoesOffline`).

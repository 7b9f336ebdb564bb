/**
 * The matching and room engine of chat/consumers.py.
 *
 * `World` holds the module-level state (`GUEST_QUEUE`, `USER_QUEUE`,
 * `ONLINE_USERS`) together with the part of the channel layer the consumer
 * uses: broadcast groups keyed by room name, and an outbox that logs every
 * `send` and every frame a `group_send` makes a member send.  `Consumer` is
 * one `ChatConsumer`: its identity is fixed when it connects, its `partner`
 * and `roomName` links are updated in place, also by other consumers.
 * Every handler runs as one atomic step.
 */
module Chat {
  import opened Wrappers
  import opened Frames
  import opened Queues

  // Notices and constants, as the handlers send them.
  const WaitingForGuest := "Waiting for another guest..."
  const SearchingForMatch := "Searching for a match..."
  const TargetOffline := "User is offline. Reconnect works only when user is online."
  const ReconnectWaiting := "Reconnect requested... waiting for user..."
  const ConnectedNotice := "✅ Connected! Start chatting."
  const PartnerSkipped := "Partner skipped. Chat ended."
  const PartnerDisconnected := "Partner disconnected. Click Next."
  const InterestPing := RawFrame("PINTEREST|")
  const RoomPrefix := "room_"
  const DefaultNickname := "Guest"

  type Groups = map<string, seq<Consumer>>
  type Outbox = seq<(Consumer, Frame)>

  /** Python truthiness of an optional user id: present and not 0. */
  predicate Truthy(id: Option<int>) {
    id.Some? && id.value != 0
  }

  /** The room name built from one fresh token of the id supply. */
  function RoomName(token: string): string {
    RoomPrefix + token
  }

  /** The notice `match` sends a caller it leaves waiting. */
  function WaitNotice(guest: bool): string {
    if guest then WaitingForGuest else SearchingForMatch
  }

  /** Events delivered through a group, named after their handlers. */
  datatype Event = BroadcastMessage(nickname: string, message: string) | BroadcastSystem(message: string)

  /**
   * The frame a member's handler (`broadcast_message`, `broadcast_system`)
   * sends for an event.
   */
  function Handle(e: Event): Frame {
    match e
    case BroadcastMessage(n, m) => MsgFrame(n, m)
    case BroadcastSystem(m) => SysFrame(m)
  }

  /** One copy of `frame` for each member, in member order. */
  function Deliver(members: seq<Consumer>, frame: Frame): (out: Outbox)
    ensures |out| == |members|
    ensures forall k :: 0 <= k < |out| ==> out[k] == (members[k], frame)
  {
    if members == [] then [] else [(members[0], frame)] + Deliver(members[1..], frame)
  }

  /** What `group_send` of `e` to `room` puts in the outbox: nothing for a group that does not exist. */
  function GroupFrames(g: Groups, room: string, e: Event): (out: Outbox)
    ensures room !in g ==> out == []
    ensures room in g ==> |out| == |g[room]| && forall k :: 0 <= k < |out| ==> out[k] == (g[room][k], Handle(e))
  {
    if room in g then Deliver(g[room], Handle(e)) else []
  }

  /** Helper: appending to an outbox in two steps is appending their concatenation. */
  lemma Concat(o: Outbox, a: Outbox, b: Outbox)
    ensures o + a + b == o + (a + b)
  {
  }

  /** A frame for an optional recipient: nothing when there is none. */
  function Notify(to: Consumer?, frame: Frame): (out: Outbox)
    ensures |out| <= 1 && (out == [] <==> to == null)
    ensures to != null ==> out[0] == (to, frame)
  {
    if to == null then [] else [(to, frame)]
  }

  /** `group_add`: the member list grows by `s` unless `s` is already in it. */
  function Subscribe(g: Groups, room: string, s: Consumer): Groups {
    if room !in g then g[room := [s]]
    else if s in g[room] then g
    else g[room := g[room] + [s]]
  }

  /**
   * After `group_add`, `s` is a member of `room`, at the tail unless it was
   * already there; no member is listed twice; every other group is untouched.
   */
  lemma SubscribeJoins(g: Groups, room: string, s: Consumer)
    ensures var g' := Subscribe(g, room, s);
      && room in g' && s in g'[room] && g'.Keys == g.Keys + {room}
      && (forall r :: r in g && r != room ==> g'[r] == g[r])
      && (room !in g ==> g'[room] == [s])
      && (room in g && s in g[room] ==> g' == g)
      && (room in g && s !in g[room] ==> g'[room] == g[room] + [s])
      && (room in g && NoDuplicates(g[room]) ==> NoDuplicates(g'[room]))
  {
    if room in g && s !in g[room] && NoDuplicates(g[room]) {
      AppendFresh(g[room], s);
    }
  }

  /** Two `group_add`s to a room no group uses yet leave exactly the two members, once each. */
  lemma SubscribeTwice(g: Groups, room: string, a: Consumer, b: Consumer)
    requires room !in g
    ensures var g' := Subscribe(Subscribe(g, room, a), room, b);
      room in g' && g'[room] == Members(a, b)
  {
    var g1 := Subscribe(g, room, a);
    if a == b {
      assert b in g1[room];
    } else {
      assert b !in g1[room];
      assert g1[room] + [b] == [a, b];
    }
  }

  /** `group_discard`: `s` leaves the group; a group left empty is deleted. */
  function Unsubscribe(g: Groups, room: string, s: Consumer): (g': Groups)
    ensures g'.Keys <= g.Keys
    ensures forall r :: r in g && r != room ==> r in g' && g'[r] == g[r]
    ensures room in g' ==> g'[room] == Without(g[room], s) && g'[room] != []
    ensures room in g && Without(g[room], s) != [] ==> room in g'
  {
    if room !in g then g
    else
      var rest := Without(g[room], s);
      if rest == [] then g - {room} else g[room := rest]
  }

  /** The groups after a consumer with room `room` runs the discard step of `next_match`. */
  function AfterLeave(g: Groups, c: Consumer, room: Option<string>): Groups {
    if room.Some? && room.value != "" then Unsubscribe(g, room.value, c) else g
  }

  /** The members of a room just opened for `a` and `b` (one entry when they are the same consumer). */
  function Members(a: Consumer, b: Consumer): seq<Consumer> {
    if a == b then [a] else [a, b]
  }

  /**
   * What `start_room(a, b)` sends: each side a MATCH frame naming the other,
   * then the connected notice to every member of the room.
   */
  function RoomOpenFrames(a: Consumer, b: Consumer): (out: Outbox)
    ensures |out| == 2 + |Members(a, b)| && out[0].0 == a && out[1].0 == b
  {
    [(a, MatchFrame(b.nickname, b.userId)), (b, MatchFrame(a.nickname, a.userId))]
    + Deliver(Members(a, b), Handle(BroadcastSystem(ConnectedNotice)))
  }

  /** What `match` sends when the caller's queue was `q`. */
  function MatchFrames(c: Consumer, q: seq<Consumer>): (out: Outbox)
    ensures out != [] && out[0].0 == c
    ensures |out| == 1 <==> q == []
    ensures q == [] ==> out[0].1 == SysFrame(WaitNotice(c.isGuest))
    ensures q != [] ==> out[0].1 == MatchFrame(q[0].nickname, q[0].userId)
  {
    if q == [] then [(c, SysFrame(WaitNotice(c.isGuest)))] else RoomOpenFrames(c, q[0])
  }

  /**
   * The first queued consumer whose user id is `id`: the entry `force_match`
   * takes out of `USER_QUEUE`.
   */
  function FirstWaiting(q: seq<Consumer>, id: int): (r: Option<nat>)
    ensures r.Some? ==> r.value < |q| && q[r.value].userId == Some(id)
    ensures r.Some? ==> forall j :: 0 <= j < r.value ==> q[j].userId != Some(id)
    ensures r.None? ==> forall j :: 0 <= j < |q| ==> q[j].userId != Some(id)
  {
    if q == [] then None
    else if q[0].userId == Some(id) then Some(0)
    else match FirstWaiting(q[1..], id)
      case None => None
      case Some(k) => Some(k + 1)
  }

  /** The scan of `force_match` over a copy of `USER_QUEUE`. */
  method FindWaiting(q: seq<Consumer>, id: int) returns (found: Option<nat>)
    ensures found == FirstWaiting(q, id)
  {
    var k := 0;
    while k < |q|
      invariant 0 <= k <= |q|
      invariant forall j :: 0 <= j < k ==> q[j].userId != Some(id)
    {
      if q[k].userId == Some(id) {
        return Some(k);
      }
      k := k + 1;
    }
    return None;
  }

  // ---------------------------------------------------------------------------
  // The engine's state as a value, and each handler's effect on it

  /** A session's two links: its partner and the name of its room. */
  datatype Link = Link(partner: Consumer?, room: Option<string>)

  /** The links of a session in no room. */
  const Unlinked := Link(null, None)

  /**
   * The queues, the connected sessions, the links of every session that ever
   * connected, and the groups.
   */
  datatype Snapshot = Snapshot(guestQueue: seq<Consumer>, userQueue: seq<Consumer>, live: set<Consumer>,
                               links: map<Consumer, Link>, groups: Groups)

  function QueueOf(st: Snapshot, guest: bool): seq<Consumer> {
    if guest then st.guestQueue else st.userQueue
  }

  /** The snapshot with the queue of one kind replaced. */
  function WithQueue(st: Snapshot, guest: bool, q: seq<Consumer>): (st': Snapshot)
    ensures QueueOf(st', guest) == q && QueueOf(st', !guest) == QueueOf(st, !guest)
    ensures st'.live == st.live && st'.links == st.links && st'.groups == st.groups
  {
    if guest then st.(guestQueue := q) else st.(userQueue := q)
  }

  /** `connect` registers `c`: connected, in no room. */
  function Connected(st: Snapshot, c: Consumer): (st': Snapshot)
    ensures c in st'.live && st'.live - {c} == st.live - {c}
    ensures st'.links == st.links[c := Unlinked]
    ensures st'.guestQueue == st.guestQueue && st'.userQueue == st.userQueue && st'.groups == st.groups
  {
    st.(live := st.live + {c}, links := st.links[c := Unlinked])
  }

  /** `c` joins the tail of its own kind's queue. */
  function Enqueued(st: Snapshot, c: Consumer): (st': Snapshot)
    ensures QueueOf(st', c.isGuest) == QueueOf(st, c.isGuest) + [c]
    ensures QueueOf(st', !c.isGuest) == QueueOf(st, !c.isGuest)
    ensures st'.live == st.live && st'.links == st.links && st'.groups == st.groups
  {
    WithQueue(st, c.isGuest, QueueOf(st, c.isGuest) + [c])
  }

  /** `start_room(a, b)` with room name `room`: each side points at the other, both share the room and are subscribed. */
  function Opened(st: Snapshot, a: Consumer, b: Consumer, room: string): (st': Snapshot)
    ensures st'.guestQueue == st.guestQueue && st'.userQueue == st.userQueue && st'.live == st.live
    ensures a in st'.links && b in st'.links
    ensures st'.links[a] == Link(b, Some(room)) && st'.links[b] == Link(a, Some(room))
    ensures room in st'.groups && a in st'.groups[room] && b in st'.groups[room]
  {
    st.(links := st.links[a := Link(b, Some(room))][b := Link(a, Some(room))],
        groups := Subscribe(Subscribe(st.groups, room, a), room, b))
  }

  /** `match` for `c`: pair with the head of its own kind's queue, or wait at the tail. */
  function Matched(st: Snapshot, c: Consumer, room: string): (st': Snapshot)
    ensures QueueOf(st', !c.isGuest) == QueueOf(st, !c.isGuest) && st'.live == st.live
    ensures QueueOf(st, c.isGuest) == [] ==> QueueOf(st', c.isGuest) == [c] && st'.links == st.links
    ensures QueueOf(st, c.isGuest) != [] ==>
      && QueueOf(st', c.isGuest) == QueueOf(st, c.isGuest)[1..]
      && c in st'.links && st'.links[c] == Link(QueueOf(st, c.isGuest)[0], Some(room))
  {
    var q := QueueOf(st, c.isGuest);
    if q == [] then Enqueued(st, c) else Opened(WithQueue(st, c.isGuest, q[1..]), c, q[0], room)
  }

  /** `force_match(target)` for `c`, with presence set `online`: always on `USER_QUEUE`. */
  function Forced(st: Snapshot, c: Consumer, target: int, online: set<int>, room: string): (st': Snapshot)
    ensures st'.guestQueue == st.guestQueue && st'.live == st.live
    ensures target !in online || FirstWaiting(st.userQueue, target).None? ==>
      st'.userQueue == st.userQueue + [c] && st'.links == st.links && st'.groups == st.groups
    ensures target in online && FirstWaiting(st.userQueue, target).Some? ==>
      && |st'.userQueue| == |st.userQueue| - 1
      && c in st'.links && st'.links[c] == Link(st.userQueue[FirstWaiting(st.userQueue, target).value], Some(room))
  {
    var q := st.userQueue;
    if target !in online then WithQueue(st, false, q + [c])
    else match FirstWaiting(q, target)
      case None => WithQueue(st, false, q + [c])
      case Some(i) => Opened(WithQueue(st, false, q[..i] + q[i + 1..]), c, q[i], room)
  }

  /** The links after `c` cuts its room: the partner's links cleared, then its own. */
  function Severed(links: map<Consumer, Link>, c: Consumer): (r: map<Consumer, Link>)
    requires c in links
    ensures r.Keys == links.Keys && r[c] == Unlinked
    ensures links[c].partner != null && links[c].partner in links ==> r[links[c].partner] == Unlinked
    ensures forall s :: s in links && s != c && s != links[c].partner ==> r[s] == links[s]
  {
    var p := links[c].partner;
    var cut := if p != null && p in links then links[p := Unlinked] else links;
    cut[c := Unlinked]
  }

  /** The teardown half of `next_match` for `c`: leave the own group, clear the partner's links, then the own. */
  function Left(st: Snapshot, c: Consumer): (st': Snapshot)
    requires c in st.links
    ensures st'.guestQueue == st.guestQueue && st'.userQueue == st.userQueue && st'.live == st.live
    ensures c in st'.links && st'.links[c] == Unlinked
  {
    st.(links := Severed(st.links, c), groups := AfterLeave(st.groups, c, st.links[c].room))
  }

  /** `disconnect` for `c`: out of its own kind's queue and out of the connected set; links untouched. */
  function Disconnected(st: Snapshot, c: Consumer): (st': Snapshot)
    ensures c !in st'.live && st'.live + {c} >= st.live
    ensures st'.links == st.links && st'.groups == st.groups
    ensures QueueOf(st', c.isGuest) == RemoveFirst(QueueOf(st, c.isGuest), c)
    ensures QueueOf(st', !c.isGuest) == QueueOf(st, !c.isGuest)
  {
    WithQueue(st, c.isGuest, RemoveFirst(QueueOf(st, c.isGuest), c)).(live := st.live - {c})
  }

  /** The state after `receive` makes `c` run command `cmd`; only NEXT changes it. */
  function Received(st: Snapshot, c: Consumer, cmd: Command, room: string): (st': Snapshot)
    requires c in st.links
    ensures !cmd.Next? ==> st' == st
    ensures cmd.Next? ==> QueueOf(st', !c.isGuest) == QueueOf(st, !c.isGuest) && st'.live == st.live
  {
    if cmd.Next? then Matched(Left(st, c), c, room) else st
  }

  /** What `force_match(target)` sends for caller `c` when `USER_QUEUE` was `q`. */
  function ForceFrames(c: Consumer, target: int, online: set<int>, q: seq<Consumer>): (out: Outbox)
    ensures out != [] && out[0].0 == c
    ensures |out| == 1 <==> target !in online || FirstWaiting(q, target).None?
    ensures target !in online ==> out[0].1 == SysFrame(TargetOffline)
    ensures target in online && FirstWaiting(q, target).None? ==> out[0].1 == SysFrame(ReconnectWaiting)
    ensures target in online && FirstWaiting(q, target).Some? ==>
      out[0].1 == MatchFrame(q[FirstWaiting(q, target).value].nickname, q[FirstWaiting(q, target).value].userId)
  {
    if target !in online then [(c, SysFrame(TargetOffline))]
    else match FirstWaiting(q, target)
      case None => [(c, SysFrame(ReconnectWaiting))]
      case Some(i) => RoomOpenFrames(c, q[i])
  }

  /** What `receive` sends when `c` runs command `cmd`. */
  function ReceivedFrames(st: Snapshot, c: Consumer, cmd: Command): (out: Outbox)
    requires c in st.links
    ensures cmd.Ignored? ==> out == []
    ensures cmd.Interest? ==> |out| <= 1 && (out != [] ==> out[0] == (st.links[c].partner, InterestPing))
    ensures cmd.Msg? && (cmd.text == "" || st.links[c].room.None?) ==> out == []
    ensures cmd.Next? ==> out != []
  {
    var own := st.links[c];
    match cmd
    case Ignored => []
    case Msg(text) =>
      if own.room.Some? && own.room.value != "" && text != "" then
        GroupFrames(st.groups, own.room.value, BroadcastMessage(c.nickname, text))
      else []
    case Next => Notify(own.partner, SysFrame(PartnerSkipped)) + MatchFrames(c, QueueOf(st, c.isGuest))
    case Interest => Notify(own.partner, InterestPing)
  }

  /** `ONLINE_USERS` holds exactly the non-zero ids of the connected sessions. */
  ghost predicate PresenceExact(online: set<int>, live: set<Consumer>) {
    && (forall s :: s in live && Truthy(s.userId) ==> s.userId.value in online)
    && (forall u :: u in online ==> u != 0 && exists s :: s in live && s.userId == Some(u))
  }

  /** The module-level state shared by all consumers, and the channel layer. */
  class World {
    var guestQueue: seq<Consumer>
    var userQueue: seq<Consumer>
    var onlineUsers: set<int>
    var groups: Groups
    var outbox: Outbox
    /** Every consumer that has connected. */
    ghost var sessions: set<Consumer>
    /** The consumers connected and not yet disconnected. */
    ghost var live: set<Consumer>

    constructor Init()
      ensures guestQueue == [] && userQueue == [] && onlineUsers == {}
      ensures groups == map[] && outbox == [] && sessions == {} && live == {}
      ensures Valid() && PresenceExact(onlineUsers, live)
    {
      guestQueue, userQueue, onlineUsers := [], [], {};
      groups, outbox := map[], [];
      sessions, live := {}, {};
    }

    /** Closure: everything the engine can reach is a known session. */
    ghost predicate Valid()
      reads this`live, this`sessions, this`guestQueue, this`userQueue, sessions`partner
    {
      && live <= sessions
      && (forall s :: s in guestQueue ==> s in sessions)
      && (forall s :: s in userQueue ==> s in sessions)
      && (forall s {:trigger s.partner} :: s in sessions && s.partner != null ==> s.partner in sessions)
    }

    function QueueFor(guest: bool): seq<Consumer>
      reads this
    {
      if guest then guestQueue else userQueue
    }

    /** A token whose room name no existing group uses. */
    predicate FreshRoom(token: string)
      reads this
    {
      RoomName(token) !in groups
    }

    /** The state as a value: queues, connected sessions, every known session's links, groups. */
    ghost function Snap(): (st: Snapshot)
      reads this`guestQueue, this`userQueue, this`live, this`sessions, this`groups, sessions`partner, sessions`roomName
      ensures st.links.Keys == sessions
    {
      Snapshot(guestQueue, userQueue, live, Links(), groups)
    }

    /** The links of every known session. */
    ghost function Links(): (links: map<Consumer, Link>)
      reads this`sessions, sessions`partner, sessions`roomName
      ensures links.Keys == sessions
    {
      map s | s in sessions :: Link(s.partner, s.roomName)
    }

    /** The bookkeeping of `connect`: `c` is known, connected, in no room; its truthy id is online. */
    method Join(c: Consumer)
      requires Valid() && c.partner == null && c.roomName == None && c !in sessions
      modifies this`sessions, this`live, this`onlineUsers
      ensures Valid() && sessions == old(sessions) + {c}
      ensures onlineUsers == Register(old(onlineUsers), c.userId)
      ensures Snap() == Connected(old(Snap()), c)
      ensures PresenceExact(old(onlineUsers), old(live)) ==> PresenceExact(onlineUsers, live)
    {
      if PresenceExact(onlineUsers, live) {
        JoinKeepsPresence(onlineUsers, live, c);
      }
      sessions := sessions + {c};
      live := live + {c};
      onlineUsers := Register(onlineUsers, c.userId);
    }

    /** `send` of one frame. */
    method Send(to: Consumer, frame: Frame)
      modifies this`outbox
      ensures outbox == old(outbox) + [(to, frame)]
      ensures Snap() == old(Snap())
    {
      outbox := outbox + [(to, frame)];
    }

    /** `send` guarded by `if self.partner:`: nothing is sent when there is no partner. */
    method SendTo(to: Consumer?, frame: Frame)
      modifies this`outbox
      ensures outbox == old(outbox) + Notify(to, frame)
      ensures Snap() == old(Snap())
    {
      if to != null {
        outbox := outbox + [(to, frame)];
      }
    }

    /** `group_send`: each current member of the group handles the event. */
    method GroupSend(room: string, e: Event)
      modifies this`outbox
      ensures outbox == old(outbox) + GroupFrames(groups, room, e)
      ensures Snap() == old(Snap())
    {
      outbox := outbox + GroupFrames(groups, room, e);
    }

    /** `group_add`. */
    method GroupAdd(room: string, s: Consumer)
      modifies this`groups
      ensures groups == Subscribe(old(groups), room, s)
    {
      groups := Subscribe(groups, room, s);
    }

    /** `group_discard`. */
    method GroupDiscard(room: string, s: Consumer)
      modifies this`groups
      ensures groups == Unsubscribe(old(groups), room, s)
    {
      groups := Unsubscribe(groups, room, s);
    }

    /** `pop(0)` on the queue of one kind. */
    method PopHead(guest: bool) returns (head: Consumer)
      requires Valid() && QueueFor(guest) != []
      modifies this`guestQueue, this`userQueue
      ensures Valid() && head in sessions
      ensures head == old(QueueFor(guest))[0]
      ensures Snap() == WithQueue(old(Snap()), guest, old(QueueFor(guest))[1..])
    {
      if guest {
        head := guestQueue[0];
        guestQueue := guestQueue[1..];
      } else {
        head := userQueue[0];
        userQueue := userQueue[1..];
      }
    }

    /** `append` to the queue of one kind. */
    method Append(guest: bool, c: Consumer)
      requires Valid() && c in sessions
      modifies this`guestQueue, this`userQueue
      ensures Valid()
      ensures Snap() == WithQueue(old(Snap()), guest, old(QueueFor(guest)) + [c])
    {
      if guest {
        guestQueue := guestQueue + [c];
      } else {
        userQueue := userQueue + [c];
      }
    }

    /** `USER_QUEUE.remove(c)` for a `c` that is queued. */
    method RemoveUser(c: Consumer)
      requires Valid() && c in userQueue
      modifies this`userQueue
      ensures Valid()
      ensures Snap() == WithQueue(old(Snap()), false, RemoveFirst(old(userQueue), c))
    {
      userQueue := RemoveFirst(userQueue, c);
    }

    /** The queue step of `disconnect`: `c` leaves the queue of its own kind if it is in it. */
    method Withdraw(c: Consumer)
      requires Valid()
      modifies this`guestQueue, this`userQueue
      ensures Valid()
      ensures Snap() == WithQueue(old(Snap()), c.isGuest, RemoveFirst(old(QueueFor(c.isGuest)), c))
    {
      if c.isGuest {
        if c in guestQueue {
          guestQueue := RemoveFirst(guestQueue, c);
        }
      } else {
        if c in userQueue {
          userQueue := RemoveFirst(userQueue, c);
        }
      }
    }

    /** The presence step of `disconnect`: a truthy user id leaves `ONLINE_USERS`. */
    method GoOffline(id: Option<int>)
      modifies this`onlineUsers
      ensures onlineUsers == Unregister(old(onlineUsers), id)
      ensures Snap() == old(Snap())
    {
      if Truthy(id) && id.value in onlineUsers {
        onlineUsers := onlineUsers - {id.value};
      }
    }

    /**
     * The channel half of `start_room`: subscribe both sides to the fresh
     * room, send each a MATCH frame naming the other, then the connected
     * notice to the room.
     */
    method Open(room: string, a: Consumer, b: Consumer)
      requires room !in groups
      modifies this`groups, this`outbox
      ensures groups == Subscribe(Subscribe(old(groups), room, a), room, b)
      ensures outbox == old(outbox) + RoomOpenFrames(a, b)
      ensures Snap() == old(Snap()).(groups := groups)
    {
      GroupAdd(room, a);
      GroupAdd(room, b);
      SubscribeTwice(old(groups), room, a, b);
      Send(a, MatchFrame(b.nickname, b.userId));
      Send(b, MatchFrame(a.nickname, a.userId));
      GroupSend(room, BroadcastSystem(ConnectedNotice));
    }

    /** The discard step of `next_match`: `c` leaves its room's group when its room name is truthy. */
    method LeaveGroup(c: Consumer, room: Option<string>)
      modifies this`groups
      ensures Snap() == old(Snap()).(groups := AfterLeave(old(groups), c, room))
    {
      if room.Some? && room.value != "" {
        GroupDiscard(room.value, c);
      }
    }
  }

  /** The part of the HTTP session (`scope["session"]`) that `connect` reads and writes. */
  class SessionStore {
    const guest: bool
    const guestNickname: Option<string>
    const nickname: Option<string>
    var forceMatchUserId: Option<int>

    constructor (guest: bool, guestNickname: Option<string>, nickname: Option<string>, forceMatchUserId: Option<int>)
      ensures this.guest == guest && this.guestNickname == guestNickname && this.nickname == nickname
      ensures this.forceMatchUserId == forceMatchUserId
    {
      this.guest := guest;
      this.guestNickname := guestNickname;
      this.nickname := nickname;
      this.forceMatchUserId := forceMatchUserId;
    }
  }

  /** The nickname `connect` settles on: the stored one for the session's kind, or "Guest" when absent or empty. */
  function ChosenNickname(guest: bool, guestNickname: Option<string>, nickname: Option<string>): (n: string)
    ensures n != ""
    ensures var stored := if guest then guestNickname else nickname;
      n == if stored.Some? && stored.value != "" then stored.value else DefaultNickname
  {
    var stored := if guest then guestNickname else nickname;
    if stored.None? || stored.value == "" then DefaultNickname else stored.value
  }

  /** `ONLINE_USERS.add(user_id)` behind the truthiness guard. */
  function Register(online: set<int>, id: Option<int>): (r: set<int>)
    ensures online <= r && (Truthy(id) ==> id.value in r)
    ensures !Truthy(id) ==> r == online
    ensures Truthy(id) ==> r - {id.value} == online - {id.value}
  {
    if Truthy(id) then online + {id.value} else online
  }

  /** `ONLINE_USERS.remove(user_id)` behind the guard of `disconnect`. */
  function Unregister(online: set<int>, id: Option<int>): (r: set<int>)
    ensures r <= online && (Truthy(id) ==> id.value !in r)
    ensures !Truthy(id) ==> r == online
    ensures Truthy(id) ==> r + {id.value} == online + {id.value}
  {
    if Truthy(id) then online - {id.value} else online
  }

  /** `disconnect` of an id that was not yet online undoes the `connect` that put it there. */
  lemma UnregisterUndoesRegister(online: set<int>, id: Option<int>)
    requires !Truthy(id) || id.value !in online
    ensures Unregister(Register(online, id), id) == online
  {
  }

  /** `connect` keeps the presence set exact. */
  lemma JoinKeepsPresence(online: set<int>, live: set<Consumer>, c: Consumer)
    requires PresenceExact(online, live)
    ensures PresenceExact(Register(online, c.userId), live + {c})
  {
    var online', live' := Register(online, c.userId), live + {c};
    forall u | u in online' ensures u != 0 && exists s :: s in live' && s.userId == Some(u) {
      if u in online {
        var s :| s in live && s.userId == Some(u);
        assert s in live';
      } else {
        assert c in live' && c.userId == Some(u);
      }
    }
  }

  /**
   * `disconnect` keeps the presence set exact provided no other connected
   * session carries the same user id; the id is dropped for all of them.
   */
  lemma LeaveKeepsPresence(online: set<int>, live: set<Consumer>, c: Consumer)
    requires PresenceExact(online, live)
    requires Truthy(c.userId) ==> forall s :: s in live && s != c ==> s.userId != c.userId
    ensures PresenceExact(Unregister(online, c.userId), live - {c})
  {
    var online', live' := Unregister(online, c.userId), live - {c};
    forall u | u in online' ensures exists s :: s in live' && s.userId == Some(u) {
      var s :| s in live && s.userId == Some(u);
      assert s != c;
      assert s in live';
    }
  }

  /** One `ChatConsumer`. */
  class Consumer {
    const isGuest: bool
    const userId: Option<int>
    const nickname: string
    var partner: Consumer?
    var roomName: Option<string>

    /** Truthiness of `self.room_name`. */
    predicate HasRoom()
      reads this
    {
      roomName.Some? && roomName.value != ""
    }

    /**
     * The identity half of `connect` (chat/consumers.py:30-41): no room, no
     * partner, the kind and nickname from the session, the user id when
     * authenticated.
     */
    constructor Accept(store: SessionStore, authUserId: Option<int>)
      ensures isGuest == store.guest && userId == authUserId
      ensures nickname == ChosenNickname(store.guest, store.guestNickname, store.nickname)
      ensures partner == null && roomName == None
    {
      isGuest := store.guest;
      nickname := ChosenNickname(store.guest, store.guestNickname, store.nickname);
      userId := authUserId;
      roomName := None;
      partner := null;
    }

    /**
     * The rest of `connect` (chat/consumers.py:43-54): register the user id
     * as online, then either consume the one-shot force target and run
     * `force_match`, or run `match`.
     */
    method Connect(w: World, store: SessionStore, token: string)
      requires w.Valid() && w.FreshRoom(token)
      requires this !in w.sessions && partner == null && roomName == None
      modifies w, w.sessions`partner, w.sessions`roomName, this`partner, this`roomName, store`forceMatchUserId
      ensures w.Valid() && w.sessions == old(w.sessions) + {this}
      ensures w.onlineUsers == Register(old(w.onlineUsers), userId)
      ensures var st := Connected(old(w.Snap()), this);
        var force := old(store.forceMatchUserId);
        if Truthy(force) && Truthy(userId) then
          && store.forceMatchUserId == None
          && w.Snap() == Forced(st, this, force.value, w.onlineUsers, RoomName(token))
          && w.outbox == old(w.outbox) + ForceFrames(this, force.value, w.onlineUsers, old(w.userQueue))
        else
          && store.forceMatchUserId == force
          && w.Snap() == Matched(st, this, RoomName(token))
          && w.outbox == old(w.outbox) + MatchFrames(this, old(w.QueueFor(isGuest)))
      ensures PresenceExact(old(w.onlineUsers), old(w.live)) ==> PresenceExact(w.onlineUsers, w.live)
    {
      w.Join(this);
      Begin(w, store, token);
    }

    /** The tail of `connect`: consume the one-shot force target and run `force_match`, or run `match`. */
    method Begin(w: World, store: SessionStore, token: string)
      requires w.Valid() && this in w.sessions && w.FreshRoom(token)
      modifies w`guestQueue, w`userQueue, w`groups, w`outbox, w.sessions`partner, w.sessions`roomName, store`forceMatchUserId
      ensures w.Valid()
      ensures var force := old(store.forceMatchUserId);
        if Truthy(force) && Truthy(userId) then
          && store.forceMatchUserId == None
          && w.Snap() == Forced(old(w.Snap()), this, force.value, w.onlineUsers, RoomName(token))
          && w.outbox == old(w.outbox) + ForceFrames(this, force.value, w.onlineUsers, old(w.userQueue))
        else
          && store.forceMatchUserId == force
          && w.Snap() == Matched(old(w.Snap()), this, RoomName(token))
          && w.outbox == old(w.outbox) + MatchFrames(this, old(w.QueueFor(isGuest)))
    {
      var force := store.forceMatchUserId;
      if Truthy(force) && Truthy(userId) {
        store.forceMatchUserId := None;
        ForceMatch(w, force.value, token);
      } else {
        Match(w, token);
      }
    }

    /**
     * `disconnect` (chat/consumers.py:56-68): leave the own kind's queue,
     * drop the user id from the presence set, notify the partner.  The
     * partner's links, and this consumer's, are left as they are.
     */
    method Disconnect(w: World)
      requires w.Valid() && this in w.sessions
      modifies w`guestQueue, w`userQueue, w`onlineUsers, w`outbox, w`live
      ensures w.Valid()
      ensures w.Snap() == Disconnected(old(w.Snap()), this)
      ensures w.onlineUsers == Unregister(old(w.onlineUsers), userId)
      ensures w.outbox == old(w.outbox) + Notify(partner, SysFrame(PartnerDisconnected))
      ensures PresenceExact(old(w.onlineUsers), old(w.live))
        && (Truthy(userId) ==> forall s :: s in old(w.live) && s != this ==> s.userId != userId)
        ==> PresenceExact(w.onlineUsers, w.live)
    {
      if PresenceExact(w.onlineUsers, w.live) && (Truthy(userId) ==> forall s :: s in w.live && s != this ==> s.userId != userId) {
        LeaveKeepsPresence(w.onlineUsers, w.live, this);
      }
      w.Withdraw(this);
      w.GoOffline(userId);
      w.live := w.live - {this};
      w.SendTo(partner, SysFrame(PartnerDisconnected));
    }

    /**
     * `receive` (chat/consumers.py:70-102): parse the frame, then MSG
     * broadcasts to the room, NEXT tells the partner and re-matches, INTEREST
     * pings the partner; everything else is dropped.
     */
    method Receive(w: World, text: Option<string>, token: string)
      requires w.Valid() && this in w.sessions && w.FreshRoom(token)
      modifies w`guestQueue, w`userQueue, w`groups, w`outbox, w.sessions`partner, w.sessions`roomName
      ensures w.Valid()
      ensures w.Snap() == Received(old(w.Snap()), this, Parse(text), RoomName(token))
      ensures w.outbox == old(w.outbox) + ReceivedFrames(old(w.Snap()), this, Parse(text))
    {
      match Parse(text)
      case Ignored =>
      case Msg(msg) => OnMsg(w, msg);
      case Next => OnNext(w, token);
      case Interest => OnInterest(w);
    }

    /** The MSG branch of `receive`: broadcast to the own room, unless there is none or the text is blank. */
    method OnMsg(w: World, msg: string)
      requires w.Valid() && this in w.sessions
      modifies w`outbox
      ensures w.Snap() == old(w.Snap())
      ensures w.outbox == old(w.outbox) + ReceivedFrames(old(w.Snap()), this, Msg(msg))
    {
      if HasRoom() && msg != "" {
        w.GroupSend(roomName.value, BroadcastMessage(nickname, msg));
      }
    }

    /** The NEXT branch of `receive`: tell the partner, then `next_match`. */
    method OnNext(w: World, token: string)
      requires w.Valid() && this in w.sessions && w.FreshRoom(token)
      modifies w`guestQueue, w`userQueue, w`groups, w`outbox, w.sessions`partner, w.sessions`roomName
      ensures w.Valid()
      ensures w.Snap() == Matched(Left(old(w.Snap()), this), this, RoomName(token))
      ensures w.outbox == old(w.outbox) + ReceivedFrames(old(w.Snap()), this, Next)
    {
      ghost var sent := w.outbox;
      ghost var q := w.QueueFor(isGuest);
      var p := partner;
      w.SendTo(p, SysFrame(PartnerSkipped));
      NextMatch(w, token);
      Concat(sent, Notify(p, SysFrame(PartnerSkipped)), MatchFrames(this, q));
    }

    /** The INTEREST branch of `receive`: ping the partner, if any. */
    method OnInterest(w: World)
      requires w.Valid() && this in w.sessions
      modifies w`outbox
      ensures w.Snap() == old(w.Snap())
      ensures w.outbox == old(w.outbox) + ReceivedFrames(old(w.Snap()), this, Interest)
    {
      w.SendTo(partner, InterestPing);
    }

    /**
     * `match` (chat/consumers.py:104-121): only the queue of the caller's
     * kind is used; a waiting head is popped and paired with the caller,
     * otherwise the caller joins the tail and is told it is waiting.
     */
    method Match(w: World, token: string)
      requires w.Valid() && this in w.sessions && w.FreshRoom(token)
      modifies w`guestQueue, w`userQueue, w`groups, w`outbox, w.sessions`partner, w.sessions`roomName
      ensures w.Valid()
      ensures w.Snap() == Matched(old(w.Snap()), this, RoomName(token))
      ensures w.outbox == old(w.outbox) + MatchFrames(this, old(w.QueueFor(isGuest)))
    {
      if isGuest {
        MatchIn(w, true, WaitingForGuest, token);
        return;
      }
      MatchIn(w, false, SearchingForMatch, token);
    }

    /** One of the two parallel blocks of `match`: the queue of kind `guest`, and its waiting notice. */
    method MatchIn(w: World, guest: bool, notice: string, token: string)
      requires guest == isGuest && notice == WaitNotice(guest)
      requires w.Valid() && this in w.sessions && w.FreshRoom(token)
      modifies w`guestQueue, w`userQueue, w`groups, w`outbox, w.sessions`partner, w.sessions`roomName
      ensures w.Valid()
      ensures w.Snap() == Matched(old(w.Snap()), this, RoomName(token))
      ensures w.outbox == old(w.outbox) + MatchFrames(this, old(w.QueueFor(guest)))
    {
      if |w.QueueFor(guest)| > 0 {
        var peer := w.PopHead(guest);
        StartRoom(w, peer, token);
      } else {
        w.Append(guest, this);
        w.Send(this, SysFrame(notice));
      }
    }

    /**
     * `force_match` (chat/consumers.py:123-137): an offline target sends the
     * caller to the tail of `USER_QUEUE`; a queued target is taken out of the
     * queue and paired at once; otherwise the caller waits at the tail.
     */
    method ForceMatch(w: World, forceId: int, token: string)
      requires w.Valid() && this in w.sessions && w.FreshRoom(token)
      modifies w`guestQueue, w`userQueue, w`groups, w`outbox, w.sessions`partner, w.sessions`roomName
      ensures w.Valid()
      ensures w.Snap() == Forced(old(w.Snap()), this, forceId, w.onlineUsers, RoomName(token))
      ensures w.outbox == old(w.outbox) + ForceFrames(this, forceId, w.onlineUsers, old(w.userQueue))
    {
      ghost var q := w.userQueue;
      if forceId !in w.onlineUsers {
        assert ForceFrames(this, forceId, w.onlineUsers, q) == [(this, SysFrame(TargetOffline))];
        WaitForUser(w, TargetOffline);
        return;
      }
      var found := FindWaiting(w.userQueue, forceId);
      if found.Some? {
        TakeWaiting(w, found.value, token);
        return;
      }
      assert ForceFrames(this, forceId, w.onlineUsers, q) == [(this, SysFrame(ReconnectWaiting))];
      WaitForUser(w, ReconnectWaiting);
    }

    /** The two waiting exits of `force_match`: send `notice`, then join the tail of `USER_QUEUE`. */
    method WaitForUser(w: World, notice: string)
      requires w.Valid() && this in w.sessions
      modifies w`guestQueue, w`userQueue, w`outbox
      ensures w.Valid()
      ensures w.Snap() == WithQueue(old(w.Snap()), false, old(w.userQueue) + [this])
      ensures w.outbox == old(w.outbox) + [(this, SysFrame(notice))]
    {
      w.Send(this, SysFrame(notice));
      w.Append(false, this);
    }

    /** The pairing exit of `force_match`: entry `i` is removed from `USER_QUEUE` and paired with the caller. */
    method TakeWaiting(w: World, i: nat, token: string)
      requires w.Valid() && this in w.sessions && w.FreshRoom(token)
      requires i < |w.userQueue| && forall j :: 0 <= j < i ==> w.userQueue[j] != w.userQueue[i]
      modifies w`userQueue, w`groups, w`outbox, w.sessions`partner, w.sessions`roomName
      ensures w.Valid()
      ensures var q := old(w.userQueue);
        w.Snap() == Opened(WithQueue(old(w.Snap()), false, q[..i] + q[i + 1..]), this, q[i], RoomName(token))
      ensures w.outbox == old(w.outbox) + RoomOpenFrames(this, old(w.userQueue)[i])
    {
      var peer := w.userQueue[i];
      // `list.remove` takes out the first entry equal to `peer`, which is entry `i`.
      FirstIndex(w.userQueue, i);
      w.RemoveUser(peer);
      StartRoom(w, peer, token);
    }

    /**
     * `start_room` (chat/consumers.py:139-155): link both sides to each other
     * and to a fresh room, subscribe both, send each a MATCH frame naming the
     * other, then the connected notice to the room.
     */
    method StartRoom(w: World, peer: Consumer, token: string)
      requires w.Valid() && this in w.sessions && peer in w.sessions && w.FreshRoom(token)
      modifies this`partner, this`roomName, peer`partner, peer`roomName, w`groups, w`outbox
      ensures w.Valid()
      ensures w.Snap() == Opened(old(w.Snap()), this, peer, RoomName(token))
      ensures w.outbox == old(w.outbox) + RoomOpenFrames(this, peer)
    {
      var room := RoomName(token);
      Pair(w, peer, room);
      w.Open(room, this, peer);
    }

    /** The linking half of `start_room`: each side points at the other and at `room`. */
    method Pair(w: World, peer: Consumer, room: string)
      requires w.Valid() && this in w.sessions && peer in w.sessions
      modifies this`partner, this`roomName, peer`partner, peer`roomName
      ensures w.Valid()
      ensures w.Snap() == old(w.Snap()).(links := old(w.Links())[this := Link(peer, Some(room))][peer := Link(this, Some(room))])
    {
      partner := peer;
      peer.partner := this;
      roomName := Some(room);
      peer.roomName := Some(room);
    }

    /**
     * The teardown half of `next_match` (chat/consumers.py:158-166): leave the
     * own group, clear the partner's links, then the own links.  The partner
     * stays subscribed to the room.
     */
    method LeaveRoom(w: World)
      requires w.Valid() && this in w.sessions
      modifies w`groups, w.sessions`partner, w.sessions`roomName
      ensures w.Valid()
      ensures w.Snap() == Left(old(w.Snap()), this)
    {
      w.LeaveGroup(this, roomName);
      Unpair(w);
    }

    /** The link half of the teardown: the partner's links, then the own, are cleared. */
    method Unpair(w: World)
      requires w.Valid() && this in w.sessions
      modifies w.sessions`partner, w.sessions`roomName
      ensures w.Valid()
      ensures w.Snap() == old(w.Snap()).(links := Severed(old(w.Links()), this))
    {
      var p := partner;
      if p != null {
        p.partner := null;
        p.roomName := None;
      }
      partner := null;
      roomName := None;
    }

    /**
     * `next_match` (chat/consumers.py:157-167): tear the room down, then run
     * `match` again for this consumer only.
     */
    method NextMatch(w: World, token: string)
      requires w.Valid() && this in w.sessions && w.FreshRoom(token)
      modifies w`guestQueue, w`userQueue, w`groups, w`outbox, w.sessions`partner, w.sessions`roomName
      ensures w.Valid()
      ensures w.Snap() == Matched(Left(old(w.Snap()), this), this, RoomName(token))
      ensures w.outbox == old(w.outbox) + MatchFrames(this, old(w.QueueFor(isGuest)))
    {
      LeaveRoom(w);
      Match(w, token);
    }
  }
}

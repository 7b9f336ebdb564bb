/**
 * What each handler of chat/consumers.py does to the state and what it
 * sends, stated on the pure transitions of the `Chat` module.
 */
module Effects {
  import opened Wrappers
  import opened Frames
  import opened Queues
  import opened Chat
  import opened Discipline

  // ---------------------------------------------------------------------------
  // start_room

  /**
   * `start_room(a, b)` on a fresh room: each side points at the other and at
   * the room, the room holds exactly the two of them, and nobody else's links,
   * no queue and no connected set change.
   */
  lemma OpenedLinksBoth(st: Snapshot, a: Consumer, b: Consumer, room: string)
    requires room !in st.groups
    ensures var st' := Opened(st, a, b, room);
      && st'.links[b] == Link(a, Some(room))
      && st'.links[a] == Link(b, Some(room))
      && room in st'.groups && st'.groups[room] == Members(a, b)
      && (forall x :: x in st.links && x != a && x != b ==> st'.links[x] == st.links[x])
      && (forall r :: r in st.groups ==> r in st'.groups && st'.groups[r] == st.groups[r])
      && st'.guestQueue == st.guestQueue && st'.userQueue == st.userQueue && st'.live == st.live
  {
    SubscribeTwice(st.groups, room, a, b);
  }

  /** What `start_room(a, b)` sends: MATCH to each side naming the other, then the notice to both members. */
  lemma RoomOpenFramesShape(a: Consumer, b: Consumer)
    requires a != b
    ensures RoomOpenFrames(a, b) == [
      (a, MatchFrame(b.nickname, b.userId)), (b, MatchFrame(a.nickname, a.userId)),
      (a, SysFrame(ConnectedNotice)), (b, SysFrame(ConnectedNotice))]
  {
    var d := Deliver([a, b], SysFrame(ConnectedNotice));
    assert d == [(a, SysFrame(ConnectedNotice)), (b, SysFrame(ConnectedNotice))];
  }

  /** A session paired with itself gets both MATCH frames, each naming itself, and the notice once. */
  lemma RoomOpenFramesSelf(a: Consumer)
    ensures RoomOpenFrames(a, a) == [
      (a, MatchFrame(a.nickname, a.userId)), (a, MatchFrame(a.nickname, a.userId)),
      (a, SysFrame(ConnectedNotice))]
  {
    var d := Deliver([a], SysFrame(ConnectedNotice));
    assert d == [(a, SysFrame(ConnectedNotice))];
  }

  // ---------------------------------------------------------------------------
  // broadcast_message, broadcast_system

  /** The frame a member sends for a group event splits back into the event's cleaned fields. */
  lemma BroadcastFrames(e: Event)
    ensures e.BroadcastMessage? ==> Split(Wire(Handle(e))) == ["MSG", Clean(e.nickname), Clean(e.message)]
    ensures e.BroadcastSystem? ==> Split(Wire(Handle(e))) == ["SYS", Clean(e.message)]
  {
  }

  // ---------------------------------------------------------------------------
  // match

  /**
   * `match` serves the queue of the caller's kind only, first come first
   * served: a waiting head is paired with the caller and the rest keeps its
   * order; with nobody waiting the caller joins the tail.  The queue of the
   * other kind is untouched.
   */
  lemma MatchedFifo(st: Snapshot, c: Consumer, room: string)
    requires Disciplined(st)
    ensures var q := QueueOf(st, c.isGuest); var st' := Matched(st, c, room);
      && QueueOf(st', !c.isGuest) == QueueOf(st, !c.isGuest)
      && (q == [] ==>
            && QueueOf(st', c.isGuest) == [c] && st'.links == st.links && st'.groups == st.groups
            && MatchFrames(c, q) == [(c, SysFrame(WaitNotice(c.isGuest)))])
      && (q != [] ==>
            && QueueOf(st', c.isGuest) == q[1..]
            && MatchFrames(c, q) == RoomOpenFrames(c, q[0])
            && q[0].isGuest == c.isGuest
            && st'.links[c].partner == q[0] && st'.links[q[0]].partner == c)
  {
    var q := QueueOf(st, c.isGuest);
    if q != [] {
      assert q[0] in q;
    }
  }

  // ---------------------------------------------------------------------------
  // force_match

  /** `force_match` for a target that is not online: the caller waits at the tail of `USER_QUEUE`. */
  lemma ForcedOffline(st: Snapshot, c: Consumer, target: int, online: set<int>, room: string)
    requires target !in online
    ensures var st' := Forced(st, c, target, online, room);
      st'.userQueue == st.userQueue + [c] && st'.guestQueue == st.guestQueue
      && st'.links == st.links && st'.groups == st.groups
  {
  }

  /** `force_match` for an online target with no waiting session: the caller waits at the tail of `USER_QUEUE`. */
  lemma ForcedNobodyWaiting(st: Snapshot, c: Consumer, target: int, online: set<int>, room: string)
    requires forall j :: 0 <= j < |st.userQueue| ==> st.userQueue[j].userId != Some(target)
    ensures var st' := Forced(st, c, target, online, room);
      st'.userQueue == st.userQueue + [c] && st'.guestQueue == st.guestQueue
      && st'.links == st.links && st'.groups == st.groups
  {
    assert FirstWaiting(st.userQueue, target).None?;
  }

  /**
   * `force_match` for an online target that waits in `USER_QUEUE`: the first
   * entry with the target id is taken out, the entries before it keep their
   * place and those after it move up by one, and it is paired with the
   * caller; `GUEST_QUEUE` is untouched.
   */
  lemma ForcedTakesFirst(st: Snapshot, c: Consumer, target: int, online: set<int>, room: string, i: nat)
    requires target in online && i < |st.userQueue| && st.userQueue[i].userId == Some(target)
    requires forall j :: 0 <= j < i ==> st.userQueue[j].userId != Some(target)
    ensures var q := st.userQueue; var st' := Forced(st, c, target, online, room);
      && st'.guestQueue == st.guestQueue
      && |st'.userQueue| == |q| - 1
      && (forall j :: 0 <= j < i ==> st'.userQueue[j] == q[j])
      && (forall j :: i < j < |q| ==> st'.userQueue[j - 1] == q[j])
      && st'.links[c].partner == q[i] && st'.links[q[i]].partner == c
  {
    var q := st.userQueue;
    assert FirstWaiting(q, target) == Some(i);
    DeleteAtOrder(q, i);
  }

  // ---------------------------------------------------------------------------
  // next_match and NEXT

  /**
   * NEXT from a paired session that is not waiting: the partner's links are
   * cleared and it is left out of both queues, though it stays subscribed to
   * the old room; the caller leaves the old room and alone goes back to
   * `match` on its own queue.
   */
  lemma NextClearsBoth(st: Snapshot, c: Consumer, room: string)
    requires Disciplined(st) && c in st.links && c in st.live && !Waiting(st, c)
    requires st.links[c].partner != null && st.links[c].partner != c
    requires room !in st.groups
    ensures var p := st.links[c].partner; var st' := Received(st, c, Next, room);
      && p in st'.links && st'.links[p] == Unlinked
      && !Waiting(st', p)
      && QueueOf(st', !c.isGuest) == QueueOf(st, !c.isGuest)
      && (QueueOf(st, c.isGuest) == [] ==> QueueOf(st', c.isGuest) == [c] && st'.links[c] == Unlinked)
      && (QueueOf(st, c.isGuest) != [] ==> st'.links[c].partner == QueueOf(st, c.isGuest)[0])
      && var oldRoom := st.links[c].room.value;
        && (oldRoom in st.groups && p in st.groups[oldRoom] ==> oldRoom in st'.groups && p in st'.groups[oldRoom])
        && (oldRoom in st.groups && oldRoom != "" && oldRoom in st'.groups ==> c !in st'.groups[oldRoom])
  {
    var p := st.links[c].partner;
    assert p in st.links && st.links[p].partner == c;
    NeverQueuedAndPaired(st, p);
    var st1 := Left(st, c);
    LeftKeeps(st, c);
    var q := QueueOf(st1, c.isGuest);
    if q != [] {
      assert q[0] in q && q[0] != p;
    }
    var r := st.links[c].room;
    if r.Some? && r.value in st.groups && p in st.groups[r.value] {
      var s := st.groups[r.value];
      var k :| 0 <= k < |s| && s[k] == p;
      assert r.value != room;
      if r.value != "" {
        assert Without(s, c) != [] by { assert s[k] != c; }
      }
    }
  }

  /** What NEXT sends: the notice to the partner, if any, then what `match` sends for the caller. */
  lemma NextFrames(st: Snapshot, c: Consumer)
    requires c in st.links
    ensures var p := st.links[c].partner;
      ReceivedFrames(st, c, Next) ==
        (if p == null then [] else [(p, SysFrame(PartnerSkipped))]) + MatchFrames(c, QueueOf(st, c.isGuest))
  {
  }

  // ---------------------------------------------------------------------------
  // receive

  /** Frames with no text, an unknown command word, or a command that needs what the session lacks change nothing and send nothing. */
  lemma ReceiveDrops(st: Snapshot, c: Consumer, text: Option<string>, room: string)
    requires c in st.links
    ensures var cmd := Parse(text);
      && (text.None? || text == Some("") ==> Received(st, c, cmd, room) == st && ReceivedFrames(st, c, cmd) == [])
      && (cmd.Ignored? ==> Received(st, c, cmd, room) == st && ReceivedFrames(st, c, cmd) == [])
      && (cmd.Msg? && (st.links[c].room.None? || st.links[c].room == Some("")) ==> ReceivedFrames(st, c, cmd) == [])
      && (cmd.Msg? && cmd.text == "" ==> ReceivedFrames(st, c, cmd) == [])
      && (cmd.Interest? && st.links[c].partner == null ==> ReceivedFrames(st, c, cmd) == [])
      && (!cmd.Next? ==> Received(st, c, cmd, room) == st)
  {
  }

  /**
   * An unknown command word is dropped: a frame `p|t` whose head, upper-cased
   * and stripped, is none of MSG, NEXT and INTEREST.
   */
  lemma UnknownCommandDropped(st: Snapshot, c: Consumer, p: string, t: string, room: string)
    requires c in st.links && Pipe !in p
    requires var w := Strip(Upper(p)); w != "MSG" && w != "NEXT" && w != "INTEREST"
    ensures var text := Some(p + [Pipe] + t);
      Received(st, c, Parse(text), room) == st && ReceivedFrames(st, c, Parse(text)) == []
  {
    ParseFramed(p, t);
  }

  /** A MSG whose text is only whitespace is dropped. */
  lemma BlankMsgDropped(st: Snapshot, c: Consumer, p: string, t: string)
    requires c in st.links && SpellsInAnyCase(p, "MSG")
    requires forall k :: 0 <= k < |t| ==> IsSpace(t[k])
    ensures ReceivedFrames(st, c, Parse(Some(p + [Pipe] + t))) == []
  {
    ParseMsgAnyCase(p, t);
  }

  /**
   * A MSG with text from a session in a room reaches every member of the
   * room, in subscription order, as a MSG frame with the sender's nickname.
   */
  lemma MsgReachesRoom(st: Snapshot, c: Consumer, msg: string)
    requires c in st.links && st.links[c].room.Some? && st.links[c].room.value != "" && msg != ""
    requires st.links[c].room.value in st.groups
    ensures var members := st.groups[st.links[c].room.value]; var out := ReceivedFrames(st, c, Msg(msg));
      |out| == |members| && forall k :: 0 <= k < |out| ==> out[k] == (members[k], MsgFrame(c.nickname, msg))
  {
  }

  /** INTEREST sends `PINTEREST|` to the partner and to nobody else. */
  lemma InterestToPartnerOnly(st: Snapshot, c: Consumer)
    requires c in st.links && st.links[c].partner != null
    ensures ReceivedFrames(st, c, Interest) == [(st.links[c].partner, InterestPing)]
    ensures Wire(InterestPing) == "PINTEREST|"
  {
  }

  // ---------------------------------------------------------------------------
  // disconnect

  /**
   * `disconnect` takes the session out of the queue of its kind, keeping
   * every other entry, and out of the connected set; links and groups are
   * untouched, also the partner's.
   */
  lemma DisconnectEffect(st: Snapshot, c: Consumer)
    requires Disciplined(st)
    ensures var st' := Disconnected(st, c);
      && !Waiting(st', c) && c !in st'.live && st'.live == st.live - {c}
      && st'.links == st.links && st'.groups == st.groups
      && QueueOf(st', !c.isGuest) == QueueOf(st, !c.isGuest)
      && (forall x :: x in QueueOf(st, c.isGuest) && x != c ==> x in QueueOf(st', c.isGuest))
  {
    DisconnectKeeps(st, c);
    RemoveFirstFacts(QueueOf(st, c.isGuest), c);
  }

  /** The partner is told once, and nobody is told anything when there is no partner. */
  lemma DisconnectNotifiesOnce(p: Consumer?)
    ensures |Notify(p, SysFrame(PartnerDisconnected))| == if p == null then 0 else 1
    ensures forall e :: e in Notify(p, SysFrame(PartnerDisconnected)) ==> e == (p, SysFrame(PartnerDisconnected))
  {
  }

  // ---------------------------------------------------------------------------
  // ONLINE_USERS

  /**
   * Two connected sessions of the same user: when one disconnects, the id
   * leaves `ONLINE_USERS` although the other is still connected.
   */
  lemma SharedIdGoesOffline(online: set<int>, live: set<Consumer>, c: Consumer, d: Consumer)
    requires PresenceExact(online, live) && c in live && d in live && c != d
    requires Truthy(c.userId) && d.userId == c.userId
    ensures !PresenceExact(Unregister(online, c.userId), live - {c})
  {
    assert d in live - {c};
  }
}

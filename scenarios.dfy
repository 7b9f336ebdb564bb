/**
 * One sequence of steps of the engine: guest A connects to an empty engine
 * and waits, guest B connects and is paired with A, A says hello, B sends
 * NEXT.  The commands are given as `receive` parses them.
 */
module Scenarios {
  import opened Wrappers
  import opened Frames
  import opened Queues
  import opened Chat

  const Empty := Snapshot([], [], {}, map[], map[])

  /** After A connects. */
  function AfterA(a: Consumer, r1: string): Snapshot {
    Matched(Connected(Empty, a), a, r1)
  }

  /** After B connects. */
  function AfterB(a: Consumer, b: Consumer, r1: string, r2: string): Snapshot {
    Matched(Connected(AfterA(a, r1), b), b, r2)
  }

  /** A waits in `GUEST_QUEUE` and is told so. */
  lemma AWaits(a: Consumer, r1: string)
    requires a.isGuest
    ensures AfterA(a, r1).guestQueue == [a] && AfterA(a, r1).links[a] == Unlinked
    ensures AfterA(a, r1).groups == map[]
    ensures MatchFrames(a, Connected(Empty, a).guestQueue) == [(a, SysFrame(WaitingForGuest))]
  {
    assert Connected(Empty, a).guestQueue == [];
  }

  /** B pops A and both are linked to room `r2`; each gets MATCH naming the other, then both the connected notice. */
  lemma BPairs(a: Consumer, b: Consumer, r1: string, r2: string)
    requires a != b && a.isGuest && b.isGuest
    ensures var st2 := AfterB(a, b, r1, r2);
      && st2.guestQueue == [] && st2.links[a] == Link(b, Some(r2)) && st2.links[b] == Link(a, Some(r2))
      && r2 in st2.groups && st2.groups[r2] == [b, a]
    ensures MatchFrames(b, Connected(AfterA(a, r1), b).guestQueue) == [
      (b, MatchFrame(a.nickname, a.userId)), (a, MatchFrame(b.nickname, b.userId)),
      (b, SysFrame(ConnectedNotice)), (a, SysFrame(ConnectedNotice))]
  {
    AWaits(a, r1);
    var st1 := AfterA(a, r1);
    assert Connected(st1, b).guestQueue == [a];
    SubscribeTwice(st1.groups, r2, b, a);
    var c := Deliver([b, a], Handle(BroadcastSystem(ConnectedNotice)));
    assert c == [(b, SysFrame(ConnectedNotice)), (a, SysFrame(ConnectedNotice))];
  }

  /** A's hello reaches B and A, in subscription order. */
  lemma HelloReachesBoth(a: Consumer, b: Consumer, r1: string, r2: string)
    requires a != b && a.isGuest && b.isGuest && r2 != ""
    ensures ReceivedFrames(AfterB(a, b, r1, r2), a, Msg("hello")) == [
      (b, MsgFrame(a.nickname, "hello")), (a, MsgFrame(a.nickname, "hello"))]
  {
    BPairs(a, b, r1, r2);
    var g := Deliver([b, a], Handle(BroadcastMessage(a.nickname, "hello")));
    assert g == [(b, MsgFrame(a.nickname, "hello")), (a, MsgFrame(a.nickname, "hello"))];
  }

  /**
   * B's NEXT tells A the chat ended and leaves A idle, in no queue and still
   * subscribed to the old room; B alone is re-queued and told it waits.
   */
  lemma BSkips(a: Consumer, b: Consumer, r1: string, r2: string, r3: string)
    requires a != b && a.isGuest && b.isGuest && r2 != ""
    ensures ReceivedFrames(AfterB(a, b, r1, r2), b, Next) == [
      (a, SysFrame(PartnerSkipped)), (b, SysFrame(WaitingForGuest))]
    ensures var st3 := Received(AfterB(a, b, r1, r2), b, Next, r3);
      && st3.links[a] == Unlinked && st3.links[b] == Unlinked
      && st3.guestQueue == [b] && st3.userQueue == []
      && r2 in st3.groups && st3.groups[r2] == [a]
  {
    BPairs(a, b, r1, r2);
    var st2 := AfterB(a, b, r1, r2);
    assert Left(st2, b).guestQueue == [];
    assert Without([b, a], b) == [a] by {
      assert Without([a], b) == [a];
    }
  }

  /** Guest A connects to a fresh world and waits. */
  method FirstGuest() returns (w: World, a: Consumer)
    ensures fresh(w) && fresh(a)
    ensures w.Valid() && w.sessions == {a} && a.isGuest
    ensures w.guestQueue == [a] && w.groups == map[]
    ensures w.outbox == [(a, SysFrame(WaitingForGuest))]
  {
    w := new World.Init();
    var sa := new SessionStore(true, Some("A"), None, None);
    a := new Consumer.Accept(sa, None);
    a.Connect(w, sa, "t1");
  }

  /** Guest B connects next and is paired with A in room `room_t2`. */
  method TwoGuestsConnect() returns (w: World, a: Consumer, b: Consumer)
    ensures w.guestQueue == [] && a.partner == b && b.partner == a
    ensures a.roomName == b.roomName == Some(RoomName("t2"))
    ensures w.outbox == [(a, SysFrame(WaitingForGuest))] + RoomOpenFrames(b, a)
  {
    w, a := FirstGuest();
    var sb := new SessionStore(true, Some("B"), None, None);
    b := new Consumer.Accept(sb, None);
    b.Connect(w, sb, "t2");
  }
}

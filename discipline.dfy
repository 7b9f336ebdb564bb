/**
 * The queue discipline of chat/consumers.py, stated on the state as a value.
 *
 * A session is either waiting in the queue of its kind or paired, never
 * both; waiting sessions are connected, of the queue's kind, listed once and
 * in no room; links are symmetric and both sides name the same room.  The
 * lemmas show which handler steps keep this, under which conditions, and
 * exhibit the steps that break it.
 */
module Discipline {
  import opened Wrappers
  import opened Frames
  import opened Queues
  import opened Chat

  /** `c` is in one of the two queues. */
  predicate Waiting(st: Snapshot, c: Consumer) {
    c in st.guestQueue || c in st.userQueue
  }

  /** `c` has a partner. */
  predicate Paired(st: Snapshot, c: Consumer) {
    c in st.links && st.links[c].partner != null
  }

  /** Every entry of queue `q` is of kind `guest`, connected and in no room, and no entry repeats. */
  ghost predicate QueueSound(st: Snapshot, q: seq<Consumer>, guest: bool) {
    && NoDuplicates(q)
    && forall c :: c in q ==> c.isGuest == guest && c in st.live && c in st.links && st.links[c] == Unlinked
  }

  /** A session has a room exactly when it has a partner, and the partner points back and names the same room. */
  ghost predicate LinksSymmetric(st: Snapshot) {
    forall c :: c in st.links ==>
      && (st.links[c].partner == null <==> st.links[c].room.None?)
      && var p := st.links[c].partner;
        p != null ==> p in st.links && st.links[p].partner == c && st.links[p].room == st.links[c].room
  }

  /** Guests are paired only with guests, registered sessions only with registered ones. */
  ghost predicate PairsOfOneKind(st: Snapshot) {
    forall c :: c in st.links && st.links[c].partner != null ==> st.links[c].partner.isGuest == c.isGuest
  }

  ghost predicate Disciplined(st: Snapshot) {
    && QueueSound(st, st.guestQueue, true)
    && QueueSound(st, st.userQueue, false)
    && LinksSymmetric(st)
    && PairsOfOneKind(st)
  }

  /** The invariant rules out a session that is both waiting and paired. */
  lemma NeverQueuedAndPaired(st: Snapshot, c: Consumer)
    requires Disciplined(st)
    ensures !(Waiting(st, c) && Paired(st, c))
  {
    if c in st.guestQueue { assert st.links[c] == Unlinked; }
    if c in st.userQueue { assert st.links[c] == Unlinked; }
  }

  // ---------------------------------------------------------------------------
  // Steps that keep the discipline

  /** `connect` of a new session keeps the discipline and leaves the session idle. */
  lemma ConnectKeeps(st: Snapshot, c: Consumer)
    requires Disciplined(st) && c !in st.links
    ensures var st' := Connected(st, c);
      Disciplined(st') && !Waiting(st', c) && st'.links[c] == Unlinked
  {
    var st' := Connected(st, c);
    forall x | x in st'.links
      ensures var p := st'.links[x].partner; p != null ==> p in st'.links && st'.links[p].partner == x && st'.links[p].room == st'.links[x].room
    {
      if x != c {
        var p := st.links[x].partner;
        if p != null {
          assert p in st.links && p != c;
        }
      }
    }
  }

  /** Taking `c` and whoever it points at out of their room keeps the discipline. */
  lemma LeftKeeps(st: Snapshot, c: Consumer)
    requires Disciplined(st) && c in st.links
    ensures var st' := Left(st, c);
      Disciplined(st') && st'.links[c] == Unlinked
      && st'.guestQueue == st.guestQueue && st'.userQueue == st.userQueue && st'.live == st.live
  {
    var st' := Left(st, c);
    var p := st.links[c].partner;
    forall x | x in st'.links
      ensures var q := st'.links[x].partner; q != null ==> q in st'.links && st'.links[q].partner == x && st'.links[q].room == st'.links[x].room
    {
      var q := st.links[x].partner;
      if x != c && x != p && q != null {
        assert q != c && q != p;
      }
    }
    forall x | x in st.guestQueue ensures st'.links[x] == Unlinked {
      assert st.links[x] == Unlinked;
    }
    forall x | x in st.userQueue ensures st'.links[x] == Unlinked {
      assert st.links[x] == Unlinked;
    }
  }

  /**
   * `match` for an idle, connected caller that is in no queue keeps the
   * discipline: the head it pairs with leaves the queue, or the caller joins
   * the tail once.
   */
  lemma MatchKeeps(st: Snapshot, c: Consumer, room: string)
    requires Disciplined(st) && c in st.live && c in st.links && st.links[c] == Unlinked && !Waiting(st, c)
    ensures Disciplined(Matched(st, c, room))
  {
    var q := QueueOf(st, c.isGuest);
    if q == [] {
      var st' := Enqueued(st, c);
      AppendFresh(q, c);
      assert QueueSound(st', q + [c], c.isGuest);
    } else {
      DropHead(q);
      OpenKeeps(WithQueue(st, c.isGuest, q[1..]), c, q[0], room);
    }
  }

  /**
   * The disciplined state minus the head `b` of a queue, with `a` idle and in
   * no queue: pairing the two restores the discipline.
   */
  lemma OpenKeeps(st: Snapshot, a: Consumer, b: Consumer, room: string)
    requires QueueSound(st, st.guestQueue, true) && QueueSound(st, st.userQueue, false) && LinksSymmetric(st)
    requires PairsOfOneKind(st) && a.isGuest == b.isGuest
    requires a in st.links && b in st.links && st.links[a] == Unlinked && st.links[b] == Unlinked
    requires !Waiting(st, a) && !Waiting(st, b)
    ensures Disciplined(Opened(st, a, b, room))
  {
    var st' := Opened(st, a, b, room);
    forall x | x in st'.links
      ensures && (st'.links[x].partner == null <==> st'.links[x].room.None?)
              && var p := st'.links[x].partner; p != null ==> p in st'.links && st'.links[p].partner == x && st'.links[p].room == st'.links[x].room
    {
      if x != a && x != b {
        var p := st.links[x].partner;
        if p != null {
          assert p != a && p != b;
        }
      }
    }
  }

  /**
   * `force_match` for an idle, connected caller that is not flagged guest
   * and is in no queue keeps the discipline.
   */
  lemma ForceKeeps(st: Snapshot, c: Consumer, target: int, online: set<int>, room: string)
    requires Disciplined(st) && c in st.live && c in st.links && st.links[c] == Unlinked && !Waiting(st, c)
    requires !c.isGuest
    ensures Disciplined(Forced(st, c, target, online, room))
  {
    var q := st.userQueue;
    if target !in online || FirstWaiting(q, target).None? {
      AppendFresh(q, c);
      assert QueueSound(WithQueue(st, false, q + [c]), q + [c], false);
    } else {
      var i := FirstWaiting(q, target).value;
      var rest := q[..i] + q[i + 1..];
      DeleteAt(q, i);
      var st1 := WithQueue(st, false, rest);
      assert QueueSound(st1, rest, false);
      OpenKeeps(st1, c, q[i], room);
    }
  }

  /** `disconnect` keeps the discipline and leaves the session in no queue. */
  lemma DisconnectKeeps(st: Snapshot, c: Consumer)
    requires Disciplined(st)
    ensures var st' := Disconnected(st, c);
      Disciplined(st') && !Waiting(st', c)
  {
    var q := QueueOf(st, c.isGuest);
    RemoveFirstFacts(q, c);
    var st' := Disconnected(st, c);
    assert c !in QueueOf(st, !c.isGuest);
  }

  /** `receive` keeps the discipline, provided a NEXT comes from a session that is not waiting. */
  lemma ReceiveKeeps(st: Snapshot, c: Consumer, cmd: Command, room: string)
    requires Disciplined(st) && c in st.live && c in st.links
    requires cmd.Next? ==> !Waiting(st, c)
    ensures Disciplined(Received(st, c, cmd, room))
  {
    if cmd.Next? {
      LeftKeeps(st, c);
      MatchKeeps(Left(st, c), c, room);
    }
  }

  /** `connect` followed by `match`, or by `force_match` for a session not flagged guest, keeps the discipline. */
  lemma ConnectThenMatchKeeps(st: Snapshot, c: Consumer, target: int, online: set<int>, room: string)
    requires Disciplined(st) && c !in st.links
    ensures Disciplined(Matched(Connected(st, c), c, room))
    ensures !c.isGuest ==> Disciplined(Forced(Connected(st, c), c, target, online, room))
  {
    ConnectKeeps(st, c);
    MatchKeeps(Connected(st, c), c, room);
    if !c.isGuest {
      ForceKeeps(Connected(st, c), c, target, online, room);
    }
  }

  // ---------------------------------------------------------------------------
  // Steps that break it

  /**
   * NEXT from a session that is still waiting behind another one: it is
   * paired with the head and stays in the queue, waiting and paired at once.
   */
  lemma NextWhileQueuedBreaks(st: Snapshot, c: Consumer, d: Consumer, room: string)
    requires Disciplined(st) && c != d && st.guestQueue == [d, c]
    ensures var st' := Received(st, c, Next, room);
      Waiting(st', c) && Paired(st', c) && !Disciplined(st')
  {
    assert c in st.guestQueue && st.links[c] == Unlinked;
    var st' := Received(st, c, Next, room);
    assert Left(st, c).guestQueue == [d, c];
    assert st'.guestQueue == [c];
  }

  /** NEXT from the only waiting session: it pops itself and is paired with itself. */
  lemma NextWhileAloneSelfPairs(st: Snapshot, c: Consumer, room: string)
    requires Disciplined(st) && st.guestQueue == [c]
    ensures var st' := Received(st, c, Next, room);
      st'.links[c] == Link(c, Some(room)) && st'.guestQueue == []
  {
    assert c in st.guestQueue && st.links[c] == Unlinked;
    assert Left(st, c).guestQueue == [c];
  }

  /**
   * A guest session that is also logged in and whose force target is offline
   * or not waiting waits in `USER_QUEUE`; its `disconnect` only looks in
   * `GUEST_QUEUE`, so the closed session is left waiting there.
   */
  lemma ForcedGuestLingers(st: Snapshot, c: Consumer, target: int, online: set<int>, room: string)
    requires c.isGuest && (target !in online || FirstWaiting(st.userQueue, target).None?)
    ensures var st' := Disconnected(Forced(st, c, target, online, room), c);
      c in st'.userQueue && c !in st'.live
  {
    var st1 := Forced(st, c, target, online, room);
    assert st1.userQueue == st.userQueue + [c];
  }

  /**
   * The session `force_match` takes out of `USER_QUEUE` is a registered one
   * carrying the target id, and the caller is paired with it.  For a caller
   * not flagged guest this keeps pairs of one kind.
   */
  lemma ForcedTakesRegistered(st: Snapshot, c: Consumer, target: int, online: set<int>, room: string)
    requires Disciplined(st) && target in online && FirstWaiting(st.userQueue, target).Some?
    ensures var p := st.userQueue[FirstWaiting(st.userQueue, target).value];
      && !p.isGuest && p.userId == Some(target)
      && var st' := Forced(st, c, target, online, room);
        c in st'.links && st'.links[c].partner == p && (!c.isGuest ==> p.isGuest == c.isGuest)
  {
    var i := FirstWaiting(st.userQueue, target).value;
    assert st.userQueue[i] in st.userQueue;
  }

  /**
   * A guest-flagged, logged-in caller whose target is waiting is paired
   * with a registered session: `force_match` mixes the two kinds.
   */
  lemma ForcedGuestMixes(st: Snapshot, c: Consumer, target: int, online: set<int>, room: string)
    requires Disciplined(st) && c.isGuest && target in online && FirstWaiting(st.userQueue, target).Some?
    ensures var st' := Forced(st, c, target, online, room);
      c in st'.links && st'.links[c].partner != null && st'.links[c].partner.isGuest != c.isGuest
      && !PairsOfOneKind(st')
  {
    ForcedTakesRegistered(st, c, target, online, room);
  }
}


/**
 * What a match offers its two members, field by field: how long they have, who
 * is accepted for by the server, what each is told, and when the call starts.
 */
module MatchOffers {
  import opened Wrappers
  import opened Protocol
  import opened Greedy
  import opened MatchModel
  import opened MatchInvariant
  import opened MatchSteps
  import opened MatchEffects
  import opened MatchRooms
  import opened Signaling

  /* ---------------------------------------------------------------- */
  /* The offer                                                         */
  /* ---------------------------------------------------------------- */

  /** The member plays instantly: it chose to, and previews are not forced on everybody. */
  predicate Instantly(session: Session, env: Env) {
    session.mode == Instant && !env.previewOnly
  }

  function OfferTo(s: SocketId, r: RoomId, room: Room, instant: bool, now: nat): Item {
    Sent(s, MatchFound(r, room.expiresAt, now, if instant then Instant else Preview), now)
  }

  /**
   * The room a match makes: open for the accept timeout from now, accepted by
   * the server for members who play instantly, and started at once if both do.
   */
  predicate FreshOffer(st: State, room: Room, env: Env)
    requires room.a in st.sessions && room.b in st.sessions
  {
    var a, b := Instantly(st.sessions[room.a], env), Instantly(st.sessions[room.b], env);
    && room.createdAt == env.now && room.expiresAt == env.now + st.cfg.matchAcceptTimeoutMs
    && room.acceptedA == a && room.acceptedB == b
    && room.active == (a && b) && room.activeSince == (if a && b then Some(env.now) else None)
    && !room.connectedA && !room.connectedB && room.connectedSince == None
  }

  /** Both members hear of it, with its deadline and the server's clock; a member that has yet to accept hears that the other one did. */
  ghost predicate OfferTold(st: State, out: seq<Item>, r: RoomId, room: Room, env: Env)
    requires room.a in st.sessions && room.b in st.sessions
  {
    var a, b := Instantly(st.sessions[room.a], env), Instantly(st.sessions[room.b], env);
    && OfferTo(room.a, r, room, a, env.now) in out && OfferTo(room.b, r, room, b, env.now) in out
    && (a && !b ==> Sent(room.b, PartnerAccepted(r), env.now) in out)
    && (b && !a ==> Sent(room.a, PartnerAccepted(r), env.now) in out)
  }

  ghost predicate Offers(st: State, st': State, r: RoomId, env: Env) {
    && r in st'.rooms && st'.rooms[r].a in st.sessions && st'.rooms[r].b in st.sessions
    && FreshOffer(st, st'.rooms[r], env) && OfferTold(st, st'.out, r, st'.rooms[r], env)
  }

  ghost predicate SameModes(st: State, st': State) {
    && st'.cfg == st.cfg && st'.sessions.Keys == st.sessions.Keys
    && (forall s :: s in st.sessions ==> st'.sessions[s].mode == st.sessions[s].mode)
  }

  lemma NewRoomIsFresh(st: State, a: SocketId, b: SocketId, env: Env)
    requires a in st.sessions && b in st.sessions
    ensures var st' := CreateRoom(st, a, b, env);
      && st.nextRoom in st'.rooms && st'.rooms[st.nextRoom].a == a && st'.rooms[st.nextRoom].b == b
      && FreshOffer(st, st'.rooms[st.nextRoom], env)
      && st'.out == st.out + FoundNews(st, a, b, NewRoom(st, a, b, env), env)
      && st'.rooms == st.rooms[st.nextRoom := st'.rooms[st.nextRoom]]
  {
    var room := NewRoom(st, a, b, env);
    var stored := StoreRoom(st, a, b, room, FoundNews(st, a, b, room, env));
    assert stored.rooms == st.rooms[st.nextRoom := room];
    if room.acceptedA && room.acceptedB {
      assert CreateRoom(st, a, b, env) == ActivateRoom(stored, st.nextRoom, room, env.now);
    } else {
      assert CreateRoom(st, a, b, env) == stored;
    }
  }

  lemma NewsTellOffer(st: State, a: SocketId, b: SocketId, room: Room, env: Env)
    requires a in st.sessions && b in st.sessions && room.a == a && room.b == b && FreshOffer(st, room, env)
    requires room.expiresAt == NewRoom(st, a, b, env).expiresAt
    ensures OfferTold(st, FoundNews(st, a, b, NewRoom(st, a, b, env), env), st.nextRoom, room, env)
  {
  }

  lemma CreateRoomOffers(st: State, a: SocketId, b: SocketId, env: Env)
    requires a in st.sessions && b in st.sessions
    ensures var st' := CreateRoom(st, a, b, env);
      Offers(st, st', st.nextRoom, env) && st'.nextRoom == st.nextRoom + 1 && st.out <= st'.out && SameModes(st, st')
      && (forall q :: q in st'.rooms && q != st.nextRoom ==> q in st.rooms && st'.rooms[q] == st.rooms[q])
  {
    var st' := CreateRoom(st, a, b, env);
    var news := FoundNews(st, a, b, NewRoom(st, a, b, env), env);
    NewRoomIsFresh(st, a, b, env);
    NewsTellOffer(st, a, b, st'.rooms[st.nextRoom], env);
    assert forall x :: x in news ==> x in st'.out;
    CreateRoomKeepsModes(st, a, b, env);
  }

  lemma CreateRoomKeepsModes(st: State, a: SocketId, b: SocketId, env: Env)
    requires a in st.sessions && b in st.sessions
    ensures SameModes(st, CreateRoom(st, a, b, env)) && CreateRoom(st, a, b, env).nextRoom == st.nextRoom + 1
  {
    var room := NewRoom(st, a, b, env);
    var stored := StoreRoom(st, a, b, room, FoundNews(st, a, b, room, env));
    assert SameModes(st, stored);
    ActivatedKeepsModes(stored, st.nextRoom, room, env.now);
  }

  lemma ActivatedKeepsModes(st: State, r: RoomId, room: Room, now: nat)
    ensures SameModes(st, ActivateRoom(st, r, room, now)) && ActivateRoom(st, r, room, now).nextRoom == st.nextRoom
  {
  }

  /** Offers made stay made. */
  lemma StillOffers(st: State, before: State, after: State, r: RoomId, env: Env)
    requires Offers(st, before, r, env) && r in after.rooms && after.rooms[r] == before.rooms[r] && before.out <= after.out
    ensures Offers(st, after, r, env)
  {
    assert forall x :: x in before.out ==> x in after.out;
  }

  lemma OffersAlike(st: State, other: State, st': State, r: RoomId, env: Env)
    requires SameModes(st, other) && Offers(other, st', r, env)
    ensures Offers(st, st', r, env)
  {
  }

  ghost predicate AllOffer(st: State, st': State, env: Env) {
    && st.nextRoom <= st'.nextRoom && st.out <= st'.out && SameModes(st, st')
    && (forall q :: q in st.rooms ==> q < st.nextRoom)
    && (forall q :: q in st'.rooms && q >= st.nextRoom ==> Offers(st, st', q, env) && q < st'.nextRoom)
    && (forall q :: q in st'.rooms && q < st.nextRoom ==> q in st.rooms && st'.rooms[q] == st.rooms[q])
  }

  lemma OneMoreOffers(st: State, before: State, a: SocketId, b: SocketId, env: Env)
    requires AllOffer(st, before, env) && a in before.sessions && b in before.sessions
    ensures AllOffer(st, CreateRoom(before, a, b, env), env)
  {
    var after := CreateRoom(before, a, b, env);
    CreateRoomOffers(before, a, b, env);
    OffersAlike(st, before, after, before.nextRoom, env);
    forall q | q in after.rooms && q >= st.nextRoom ensures Offers(st, after, q, env) && q < after.nextRoom {
      if q != before.nextRoom {
        StillOffers(st, before, after, q, env);
      }
    }
  }

  lemma {:induction false} CreateRoomsOffer(st: State, waiting: seq<Waiter>, pairs: seq<Pairing>, env: Env)
    requires Numbered(st.rooms, st.nextRoom)
    ensures AllOffer(st, CreateRooms(st, waiting, pairs, env), env)
  {
    if pairs != [] {
      var n := |pairs| - 1;
      CreateRoomsOffer(st, waiting, pairs[..n], env);
      var before, p := CreateRooms(st, waiting, pairs[..n], env), pairs[n];
      if p.i < |waiting| && p.j < |waiting| && waiting[p.i].socket in before.sessions && waiting[p.j].socket in before.sessions {
        OneMoreOffers(st, before, waiting[p.i].socket, waiting[p.j].socket, env);
      }
    }
  }

  /** Every room a pass makes is such an offer, and told. */
  lemma PassOffers(st: State, mode: PassMode, env: Env)
    requires Inv(st)
    ensures AllOffer(st, MatchPass(st, mode, env), env)
  {
    if NoScan(st, mode, env) {
      SkippedPass(st, mode, env);
    } else {
      PassIsScan(st, mode, env);
      ScannedIsLoaded(st, mode);
      var from := ScanFrom(st, mode);
      var bd := MakeBoard(from, Loads(st), ScanFocus(st, mode), env);
      var woken := from.(wakeAt := Scan(bd, 0, {}, from.wakeAt).wake);
      CreateRoomsOffer(woken, Loads(st), Scan(bd, 0, {}, from.wakeAt).pairs, env);
      ScanOffers(st, woken, MatchPass(st, mode, env), env);
    }
  }

  lemma ScanOffers(st: State, woken: State, st': State, env: Env)
    requires AllOffer(woken, st', env) && SameModes(st, woken) && woken.rooms == st.rooms && woken.nextRoom == st.nextRoom && woken.out == st.out
    ensures AllOffer(st, st', env)
  {
    forall q | q in st'.rooms && q >= st.nextRoom ensures Offers(st, st', q, env) {
      OffersAlike(st, woken, st', q, env);
    }
  }

  /** In every run, every room an event brings is such an offer to the sessions its pass began with. */
  lemma EveryRoomIsOffered(cfg: Config, run: seq<(Event, Env)>, ev: Event, env: Env, r: RoomId)
    requires var st := Run(Init(cfg), run); PassStart(st, ev, env).Some? && r in Step(st, ev, env).rooms && r !in st.rooms
    ensures var st := Run(Init(cfg), run);
      var start := PassStart(st, ev, env).value; Offers(start.st, Step(st, ev, env), r, start.env)
  {
    var st := Run(Init(cfg), run);
    var start := PassStart(st, ev, env).value;
    EveryRunIsConsistent(cfg, run);
    StartOnlyEnds(st, ev, env);
    StepIsPass(st, ev, env);
    PassOffers(start.st, start.mode, start.env);
  }

  /**
   * A member's browser counts down from its own clock: told at `at`, it shows
   * the whole accept timeout, whatever the difference between the two clocks.
   */
  lemma OfferCountsDownLocally(c: ClientState, room: Room, r: RoomId, instant: bool, at: nat)
    requires !Terminal(c) && room.createdAt <= room.expiresAt
    ensures var c' := Receive(c, MatchFound(r, room.expiresAt, room.createdAt, if instant then Instant else Preview), at);
      && c'.roomId == Some(r) && c'.status == (if instant then StartingCall else Offered)
      && c'.expiresAt == Some(at + (room.expiresAt - room.createdAt))
      && c'.matchMode == Some(if instant then Instant else Preview)
      && !c'.partnerAccepted && c'.messages == [] && c'.initiator == None && c'.lastEndReason == None
  {
  }

  /* ---------------------------------------------------------------- */
  /* Accepting                                                         */
  /* ---------------------------------------------------------------- */

  /** What an accept in time makes of a pending room. */
  predicate AfterAccept(room: Room, room': Room, s: SocketId, now: nat) {
    && room' == room.(acceptedA := room.acceptedA || s == room.a, acceptedB := room.acceptedB || s == room.b,
                      active := room'.active, activeSince := room'.activeSince)
    && room'.active == (room'.acceptedA && room'.acceptedB)
    && room'.activeSince == if room'.active then Some(now) else None
  }

  /** The other member of the room. */
  function OtherMember(room: Room, s: SocketId): SocketId {
    if s == room.a then room.b else room.a
  }

  /** The accept counted: the other member hears of it, or the call starts now, with one task for the two in their order. */
  predicate AcceptCounts(st: State, st': State, s: SocketId, r: RoomId, now: nat)
    requires r in st.rooms
  {
    var room := st.rooms[r];
    && r in st'.rooms && AfterAccept(room, st'.rooms[r], s, now) && st'.rooms == st.rooms[r := st'.rooms[r]]
    && if st'.rooms[r].active then st'.calls == st.calls + [CallTask(r, now, room.a, room.b)] && st'.out == st.out
       else st'.calls == st.calls && st'.sessions == st.sessions && st'.out == st.out + [Sent(OtherMember(room, s), PartnerAccepted(r), now)]
  }

  lemma AcceptInTimeCounts(st: State, s: SocketId, r: RoomId, env: Env)
    requires MemberOf(st, s, r) && RoomShape(st.rooms[r]) && !st.rooms[r].active
    requires env.now <= st.rooms[r].expiresAt + st.cfg.matchAcceptGraceMs && !(if s == st.rooms[r].a then st.rooms[r].acceptedA else st.rooms[r].acceptedB)
    ensures AcceptCounts(st, AcceptStep(st, s, r, env), s, r, env.now)
  {
  }

  /**
   * A member's accept of its pending room: too late, it is told so and nothing
   * else happens; a repeated one changes nothing; any other counts.
   */
  lemma AcceptEffect(st: State, s: SocketId, r: RoomId, env: Env)
    requires Inv(st) && s in st.sessions && st.sessions[s].roomId == Some(r) && r in st.rooms && !st.rooms[r].active
    requires s == st.rooms[r].a || s == st.rooms[r].b
    ensures var room, st' := st.rooms[r], Step(st, Accept(s, r), env);
      if env.now > room.expiresAt + st.cfg.matchAcceptGraceMs then st' == st.(out := st.out + [Sent(s, ServerError(NotInRoom), env.now)])
      else if (if s == room.a then room.acceptedA else room.acceptedB) then st' == st
      else AcceptCounts(st, st', s, r, env.now)
  {
    var room := st.rooms[r];
    assert RoomOk(st.sessions, r, room);
    if env.now <= room.expiresAt + st.cfg.matchAcceptGraceMs && !(if s == room.a then room.acceptedA else room.acceptedB) {
      AcceptInTimeCounts(st, s, r, env);
    }
  }
}

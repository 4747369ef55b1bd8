/**
 * What a browser shows, field by field: how each thing it hears or does moves
 * each part of its view, and whose messages its chat holds.
 */
module ClientView {
  import opened Wrappers
  import opened Compatibility
  import opened Protocol
  import opened Signaling

  /** The event takes the client out of the room it shows, or puts it into another. */
  predicate LeavesRoom(c: ClientState, e: ServerEvent) {
    match e
    case QueueWaiting(_) => true
    case MatchFound(_, _, _, _) => true
    case MatchEnded(room, _) => Some(room) == c.roomId
    case HelloRefused(_) => true
    case SessionReplaced => true
    case ServerError(code) => code == Banned
    case _ => false
  }

  /** In the call of this room. */
  predicate InCallOf(c: ClientState, room: RoomId) {
    c.roomId == Some(room) && c.status == InCall
  }

  /** The call:start of its room reaches a client that waits for it. */
  predicate Starts(c: ClientState, e: ServerEvent) {
    e.CallStart? && Some(e.room) == c.roomId && (c.status == Offered || c.status == StartingCall)
  }

  /** Where the client is: searching, in an offer, in a call, idle or out. */
  predicate StatusAfter(c: ClientState, e: ServerEvent, at: nat, c': ClientState) {
    c'.status ==
      match e
      case HelloAccepted(_) => if c.status == Connecting || c.status == Failed || c.status == IdleOut then Searching else c.status
      case HelloRefused(error) => if error == Banned then BannedOut else Failed
      case QueueWaiting(_) => Searching
      case MatchFound(_, _, _, mode) => if mode == Instant then StartingCall else Offered
      case MatchEnded(room, reason) =>
        if Some(room) != c.roomId then c.status else if reason == AcceptTimeout then IdleOut else Searching
      case SessionReplaced => ReplacedOut
      case ServerError(code) => if code == Banned then BannedOut else c.status
      case _ => if Starts(c, e) then InCall else c.status
  }

  /** The room it shows, how it was matched, and the role it has. */
  predicate RoomAfter(c: ClientState, e: ServerEvent, at: nat, c': ClientState) {
    && c'.roomId == (if e.MatchFound? then Some(e.room) else if LeavesRoom(c, e) then None else c.roomId)
    && c'.matchMode == (if e.MatchFound? then Some(e.mode) else if LeavesRoom(c, e) then None else c.matchMode)
    && c'.initiator == (if LeavesRoom(c, e) then None else if Starts(c, e) then Some(e.initiator) else c.initiator)
  }

  /** What it knows of its partner, and how long the offer lasts. */
  predicate OfferAfter(c: ClientState, e: ServerEvent, at: nat, c': ClientState) {
    && c'.partnerAccepted == (!LeavesRoom(c, e) && (c.partnerAccepted || Starts(c, e) || (e.PartnerAccepted? && Some(e.room) == c.roomId)))
    && c'.expiresAt == (if e.MatchFound? then Some(at + (e.expiresAt - e.serverNow))
                        else if LeavesRoom(c, e) || Starts(c, e) then None else c.expiresAt)
    && c'.isFriend == (!LeavesRoom(c, e) && (c.isFriend || (e.FriendsNew? && Some(e.room) == c.roomId)))
  }

  /** Its coins: the last balance told. */
  predicate CoinsAfter(c: ClientState, e: ServerEvent, at: nat, c': ClientState) {
    && c'.coins == (if e.CoinsUpdate? then Some(e.balance) else c.coins)
    && c'.coinBump == c.coinBump + (if e.CoinsUpdate? && e.delta > 0 then 1 else 0)
  }

  /** Its search, filter and notices, and why the last match ended. */
  predicate RestAfter(c: ClientState, e: ServerEvent, at: nat, c': ClientState) {
    && c'.relaxStep == (if e.QueueWaiting? then e.step else c.relaxStep)
    && c'.genderFilter == (if e.HelloAccepted? || e.PreferencesSaved? then Some(e.filter)
                           else if e == ServerError(PremiumRequired) then Some(AllGenders) else c.genderFilter)
    && c'.notice == (if e.ServerError? && e.code != Banned && e.code != PremiumRequired then Some(e.code) else c.notice)
    && c'.lastEndReason == (if e.MatchFound? then None
                            else if e.MatchEnded? && Some(e.room) == c.roomId then Some(e.reason) else c.lastEndReason)
    && c'.error == (if e.HelloAccepted? then None else if e.HelloRefused? && e.error != Banned then Some(e.error) else c.error)
  }

  /** Its chat: emptied with the room, else longer by what came for the call it is in. */
  predicate ChatAfter(c: ClientState, e: ServerEvent, at: nat, c': ClientState) {
    && c'.messages ==
         (if LeavesRoom(c, e) then []
          else if e.ChatMessage? && InCallOf(c, e.room) then c.messages + [ChatEntry(Stored(e.id), Theirs, e.text, e.ts, NoDelivery)]
          else if e.FriendsNew? && Some(e.room) == c.roomId && !c.isFriend then
            c.messages + [ChatEntry(FriendsLine(e.room), Notice, "friends", at, NoDelivery)]
          else c.messages)
  }

  predicate TypingAfter(c: ClientState, e: ServerEvent, at: nat, c': ClientState) {
    && c'.partnerTyping ==
         (if LeavesRoom(c, e) || (e.ChatMessage? && InCallOf(c, e.room)) then false
          else if e.ChatTyping? && InCallOf(c, e.room) then e.typing else c.partnerTyping)
  }

  /** The whole view after one thing it hears. */
  predicate ViewAfter(c: ClientState, e: ServerEvent, at: nat, c': ClientState) {
    && StatusAfter(c, e, at, c')
    && RoomAfter(c, e, at, c')
    && OfferAfter(c, e, at, c')
    && CoinsAfter(c, e, at, c')
    && RestAfter(c, e, at, c')
    && ChatAfter(c, e, at, c')
    && TypingAfter(c, e, at, c')
  }

  predicate AboutSession(e: ServerEvent) {
    e.HelloAccepted? || e.HelloRefused? || e.PreferencesSaved? || e.ServerError? || e.SessionReplaced?
  }

  predicate AboutMatch(e: ServerEvent) {
    e.QueueWaiting? || e.PartnerAccepted? || e.MatchEnded?
  }

  predicate AboutCall(e: ServerEvent) {
    e.MatchFound? || e.CallStart?
  }

  predicate AboutChat(e: ServerEvent) {
    e.ChatMessage? || e.ChatTyping? || e.FriendsNew?
  }

  lemma HearsOfSession(c: ClientState, e: ServerEvent, at: nat)
    requires !Terminal(c) && AboutSession(e)
    ensures ViewAfter(c, e, at, Receive(c, e, at))
  {
  }

  lemma HearsOfMatch(c: ClientState, e: ServerEvent, at: nat)
    requires !Terminal(c) && AboutMatch(e)
    ensures ViewAfter(c, e, at, Receive(c, e, at))
  {
  }

  lemma HearsOfCall(c: ClientState, e: ServerEvent, at: nat)
    requires !Terminal(c) && AboutCall(e)
    ensures ViewAfter(c, e, at, Receive(c, e, at))
  {
  }

  lemma HearsOfChat(c: ClientState, e: ServerEvent, at: nat)
    requires !Terminal(c) && AboutChat(e)
    ensures ViewAfter(c, e, at, Receive(c, e, at))
  {
  }

  lemma HearsOfOthers(c: ClientState, e: ServerEvent, at: nat)
    requires !Terminal(c) && !AboutSession(e) && !AboutMatch(e) && !AboutCall(e) && !AboutChat(e)
    ensures ViewAfter(c, e, at, Receive(c, e, at))
  {
  }

  /** Each part of the view moves by what concerns it, and by nothing else. */
  lemma HearsFieldByField(c: ClientState, e: ServerEvent, at: nat)
    requires !Terminal(c)
    ensures ViewAfter(c, e, at, Receive(c, e, at))
  {
    if AboutSession(e) {
      HearsOfSession(c, e, at);
    } else if AboutMatch(e) {
      HearsOfMatch(c, e, at);
    } else if AboutCall(e) {
      HearsOfCall(c, e, at);
    } else if AboutChat(e) {
      HearsOfChat(c, e, at);
    } else {
      HearsOfOthers(c, e, at);
    }
  }

  /** A banned or replaced browser hears nothing more. */
  lemma TerminalIsDeaf(c: ClientState, e: ServerEvent, at: nat, act: ClientAct)
    requires Terminal(c)
    ensures Receive(c, e, at) == c && Do(c, act) == c
  {
  }

  /** What the answer to a message makes of it. */
  function Settled(m: ChatEntry, act: ClientAct): ChatEntry
    requires act.ChatAnswered?
  {
    if m.id != Temp(act.temp) then m
    else if act.ok then ChatEntry(Stored(act.id), m.author, m.text, act.ts, Delivered)
    else ChatEntry(m.id, m.author, m.text, m.ts, Undelivered)
  }

  /** What one's own acts change, and nothing else. */
  lemma ActEffect(c: ClientState, act: ClientAct)
    requires !Terminal(c)
    ensures var c' := Do(c, act);
      match act
      case PressAccept => c' == (if c.status == Offered then c.(status := StartingCall) else c)
      case TypeChat(room, temp, text, ts) =>
        c' == (if InCallOf(c, room) then c.(messages := c.messages + [ChatEntry(Temp(temp), Mine, text, ts, PendingDelivery)]) else c)
      case ChatAnswered(_, _, _, _) =>
        && c' == c.(messages := c'.messages) && |c'.messages| == |c.messages|
        && forall i :: 0 <= i < |c.messages| ==> c'.messages[i] == Settled(c.messages[i], act)
      case TypingTimedOut => c' == c.(partnerTyping := false)
      case DismissNotice => c' == c.(notice := None)
  {
  }

  /* ---------------------------------------------------------------- */
  /* Whose messages the chat holds                                     */
  /* ---------------------------------------------------------------- */

  /** The partner's message came for this room, or one's own was typed in it. */
  ghost predicate Belongs(trace: seq<Item>, s: SocketId, room: RoomId, m: ChatEntry) {
    match m.author
    case Theirs => exists x :: x in trace && FromPartner(x, s, room, m)
    case Mine => exists x :: x in trace && Typed(x, s, room, m.text)
    case Notice => m.id == FriendsLine(room)
  }

  predicate FromPartner(x: Item, s: SocketId, room: RoomId, m: ChatEntry) {
    x.Sent? && x.to == s && x.event.ChatMessage? && x.event.room == room && x.event.text == m.text
  }

  predicate Typed(x: Item, s: SocketId, room: RoomId, text: string) {
    x.Acted? && x.to == s && x.act.TypeChat? && x.act.room == room && x.act.text == text
  }

  ghost predicate ChatOfRoom(trace: seq<Item>, s: SocketId) {
    var c := Client(trace, s);
    (c.roomId == None ==> c.messages == [])
    && forall m :: m in c.messages ==> c.roomId.Some? && Belongs(trace, s, c.roomId.value, m)
  }

  lemma StillBelongs(trace: seq<Item>, item: Item, s: SocketId, room: RoomId, m: ChatEntry)
    requires Belongs(trace, s, room, m)
    ensures Belongs(trace + [item], s, room, m)
  {
    assert forall x :: x in trace ==> x in trace + [item];
  }

  lemma HeardStaysInRoom(trace: seq<Item>, s: SocketId, e: ServerEvent, at: nat)
    requires ChatOfRoom(trace, s)
    ensures ChatOfRoom(trace + [Sent(s, e, at)], s)
  {
    var item := Sent(s, e, at);
    var c, c' := Client(trace, s), Client(trace + [item], s);
    ClientHears(trace, s, e, at);
    if Terminal(c) {
      TerminalIsDeaf(c, e, at, PressAccept);
    } else {
      HearsFieldByField(c, e, at);
    }
    forall m | m in c'.messages ensures c'.roomId.Some? && Belongs(trace + [item], s, c'.roomId.value, m) {
      if m in c.messages {
        StillBelongs(trace, item, s, c.roomId.value, m);
      } else {
        assert item in trace + [item] && (m.author == Theirs ==> FromPartner(item, s, e.room, m));
      }
    }
  }

  lemma DoneStaysInRoom(trace: seq<Item>, s: SocketId, act: ClientAct)
    requires ChatOfRoom(trace, s)
    ensures ChatOfRoom(trace + [Acted(s, act)], s)
  {
    var item := Acted(s, act);
    var c, c' := Client(trace, s), Client(trace + [item], s);
    ClientSnoc(trace, item, s);
    if Terminal(c) {
      TerminalIsDeaf(c, SessionReplaced, 0, act);
    } else {
      ActEffect(c, act);
    }
    forall m | m in c'.messages ensures c'.roomId.Some? && Belongs(trace + [item], s, c'.roomId.value, m) {
      if m in c.messages {
        StillBelongs(trace, item, s, c.roomId.value, m);
      } else if act.TypeChat? {
        assert item in trace + [item] && Typed(item, s, act.room, m.text);
      } else {
        var i :| 0 <= i < |c'.messages| && c'.messages[i] == m;
        assert c.messages[i] in c.messages;
        StillBelongs(trace, item, s, c.roomId.value, c.messages[i]);
        SettledBelongs(trace + [item], s, c.roomId.value, c.messages[i], act);
      }
    }
  }

  lemma SettledBelongs(trace: seq<Item>, s: SocketId, room: RoomId, m: ChatEntry, act: ClientAct)
    requires Belongs(trace, s, room, m) && act.ChatAnswered?
    ensures Belongs(trace, s, room, Settled(m, act))
  {
    if m.author == Theirs {
      var x :| x in trace && FromPartner(x, s, room, m);
      assert FromPartner(x, s, room, Settled(m, act));
    }
  }

  /**
   * Whatever a browser hears and its user does: outside a room it shows no
   * messages, and in one only those that came for that room or were typed in it.
   */
  lemma {:induction false} ChatIsOfItsRoom(trace: seq<Item>, s: SocketId)
    ensures ChatOfRoom(trace, s)
  {
    if trace != [] {
      var first, item := trace[..|trace| - 1], trace[|trace| - 1];
      assert trace == first + [item];
      ChatIsOfItsRoom(first, s);
      if item.to != s {
        ClientSnoc(first, item, s);
        forall m | m in Client(trace, s).messages ensures Belongs(trace, s, Client(trace, s).roomId.value, m) {
          StillBelongs(first, item, s, Client(first, s).roomId.value, m);
        }
      } else if item.Sent? {
        HeardStaysInRoom(first, s, item.event, item.at);
      } else {
        DoneStaysInRoom(first, s, item.act);
      }
    }
  }
}

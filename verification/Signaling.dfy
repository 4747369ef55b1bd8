/**
 * The browser side: the pure reducer of useSignaling.ts and the map from a
 * server event to the reducer events its socket handler dispatches. Payload
 * the reducer only stores (partner profile, ICE servers, call media) is left out.
 */
module Signaling {
  import opened Wrappers
  import opened Compatibility
  import opened Protocol

  datatype Status =
    | Connecting | Searching | IdleOut | Offered | StartingCall | InCall
    | BannedOut | ReplacedOut | Failed

  datatype ChatId = Temp(n: nat) | Stored(id: nat) | FriendsLine(room: RoomId)
  datatype Author = Mine | Theirs | Notice
  datatype Delivery = NoDelivery | PendingDelivery | Delivered | Undelivered
  datatype ChatEntry = ChatEntry(id: ChatId, author: Author, text: string, ts: nat, delivery: Delivery)

  datatype ClientState = ClientState(
    status: Status,
    reconnecting: bool,
    roomId: Option<RoomId>,
    isFriend: bool,
    initiator: Option<bool>,
    partnerAccepted: bool,
    expiresAt: Option<int>,
    coins: Option<int>,
    coinBump: nat,
    matchMode: Option<MatchMode>,
    messages: seq<ChatEntry>,
    partnerTyping: bool,
    lastEndReason: Option<EndReason>,
    error: Option<ErrorCode>,
    notice: Option<ErrorCode>,
    genderFilter: Option<GenderFilter>,
    relaxStep: nat,
    busyRetryAt: Option<nat>)

  const INITIAL := ClientState(Connecting, false, None, false, None, false, None, None, 0, None, [], false,
                               None, None, None, None, 0, None)

  datatype ClientEvent =
    | OnConnected
    | OnConnectFailed
    | OnRetryScheduled(retryAt: nat, busy: bool)
    | OnHelloOk(filter: GenderFilter)
    | OnHelloFailed(error: ErrorCode)
    | OnQueueWaiting(step: nat)
    | OnMatchFound(room: RoomId, expiresAt: nat, serverNow: nat, receivedAt: nat, mode: MatchMode)
    | OnLocalAccept
    | OnPartnerAccepted(room: RoomId)
    | OnCallStart(room: RoomId, initiator: bool)
    | OnMatchEnded(room: RoomId, reason: EndReason)
    | OnChatReceived(room: RoomId, id: nat, text: string, ts: nat)
    | OnChatLocal(room: RoomId, temp: nat, text: string, ts: nat)
    | OnChatAck(temp: nat, ok: bool, id: nat, ts: nat)
    | OnPartnerTyping(room: RoomId, typing: bool)
    | OnPartnerTypingExpired
    | OnCoins(balance: int, delta: int)
    | OnFriendsNew(room: RoomId, ts: nat)
    | OnSessionReplaced
    | OnServerError(code: ErrorCode)
    | OnPreferencesSaved(filter: GenderFilter)
    | OnNoticeCleared

  /** A banned or replaced client stays put; only a remount starts over. */
  predicate Terminal(c: ClientState) {
    c.status == BannedOut || c.status == ReplacedOut
  }

  /** Converts a server deadline into the local clock using the server time at emit. */
  function ToLocalDeadline(expiresAt: int, serverNow: int, receivedAt: int): int {
    receivedAt + (expiresAt - serverNow)
  }

  function ClearRoom(c: ClientState): ClientState {
    c.(roomId := None, isFriend := false, initiator := None, partnerAccepted := false, expiresAt := None,
       matchMode := None, messages := [], partnerTyping := false)
  }

  function AckOne(m: ChatEntry, e: ClientEvent): ChatEntry
    requires e.OnChatAck?
  {
    if m.id != Temp(e.temp) then m
    else if e.ok then m.(id := Stored(e.id), ts := e.ts, delivery := Delivered)
    else m.(delivery := Undelivered)
  }

  function Reduce(c: ClientState, e: ClientEvent): ClientState {
    if Terminal(c) then c else
    match e
    case OnConnected => c.(busyRetryAt := None)
    case OnConnectFailed => if c.status != Connecting then c else c.(error := Some(Internal))
    case OnRetryScheduled(retryAt, busy) =>
      if c.status != Connecting then c else c.(busyRetryAt := if busy then Some(retryAt) else None)
    case OnHelloOk(filter) =>
      var busy := c.status != Connecting && c.status != Failed && c.status != IdleOut;
      c.(status := if busy then c.status else Searching, reconnecting := false, busyRetryAt := None, error := None,
         genderFilter := Some(filter))
    case OnHelloFailed(error) =>
      if error == Banned then ClearRoom(c).(status := BannedOut, reconnecting := false)
      else ClearRoom(c).(status := Failed, reconnecting := false, busyRetryAt := None, error := Some(error))
    case OnQueueWaiting(step) => ClearRoom(c).(status := Searching, relaxStep := step)
    case OnMatchFound(room, expiresAt, serverNow, receivedAt, mode) =>
      ClearRoom(c).(status := Offered, roomId := Some(room),
                    expiresAt := Some(ToLocalDeadline(expiresAt, serverNow, receivedAt)),
                    matchMode := Some(mode), lastEndReason := None)
    case OnLocalAccept => if c.status != Offered then c else c.(status := StartingCall)
    case OnPartnerAccepted(room) => if Some(room) != c.roomId then c else c.(partnerAccepted := true)
    case OnCallStart(room, initiator) =>
      if Some(room) != c.roomId || (c.status != Offered && c.status != StartingCall) then c
      else c.(status := InCall, initiator := Some(initiator), partnerAccepted := true, expiresAt := None)
    case OnMatchEnded(room, reason) =>
      if Some(room) != c.roomId then c
      else ClearRoom(c).(status := if reason == AcceptTimeout then IdleOut else Searching, lastEndReason := Some(reason))
    case OnChatReceived(room, id, text, ts) =>
      if Some(room) != c.roomId || c.status != InCall then c
      else c.(partnerTyping := false, messages := c.messages + [ChatEntry(Stored(id), Theirs, text, ts, NoDelivery)])
    case OnChatLocal(room, temp, text, ts) =>
      if Some(room) != c.roomId || c.status != InCall then c
      else c.(messages := c.messages + [ChatEntry(Temp(temp), Mine, text, ts, PendingDelivery)])
    case OnChatAck(_, _, _, _) =>
      c.(messages := seq(|c.messages|, i requires 0 <= i < |c.messages| => AckOne(c.messages[i], e)))
    case OnPartnerTyping(room, typing) =>
      if Some(room) != c.roomId || c.status != InCall then c else c.(partnerTyping := typing)
    case OnPartnerTypingExpired => c.(partnerTyping := false)
    case OnCoins(balance, delta) =>
      c.(coins := Some(balance), coinBump := if delta > 0 then c.coinBump + 1 else c.coinBump)
    case OnFriendsNew(room, ts) =>
      if Some(room) != c.roomId || c.isFriend then c
      else c.(isFriend := true, messages := c.messages + [ChatEntry(FriendsLine(room), Notice, "friends", ts, NoDelivery)])
    case OnSessionReplaced => ClearRoom(c).(status := ReplacedOut, reconnecting := false)
    case OnServerError(code) =>
      if code == Banned then ClearRoom(c).(status := BannedOut, reconnecting := false)
      else if code == PremiumRequired then c.(genderFilter := Some(AllGenders))
      else c.(notice := Some(code))
    case OnPreferencesSaved(filter) => c.(genderFilter := Some(filter))
    case OnNoticeCleared => c.(notice := None)
  }

  /**
   * What a client does on one server event; `at` is its local clock. An
   * instant-mode match is also accepted locally at once.
   */
  function Receive(c: ClientState, e: ServerEvent, at: nat): ClientState {
    match e
    case HelloAccepted(filter) => Reduce(c, OnHelloOk(filter))
    case HelloRefused(error) => Reduce(c, OnHelloFailed(error))
    case PreferencesSaved(filter) => Reduce(c, OnPreferencesSaved(filter))
    case QueueWaiting(step) => Reduce(c, OnQueueWaiting(step))
    case MatchFound(room, expiresAt, serverNow, mode) =>
      var found := Reduce(c, OnMatchFound(room, expiresAt, serverNow, at, mode));
      if mode == Instant then Reduce(found, OnLocalAccept) else found
    case PartnerAccepted(room) => Reduce(c, OnPartnerAccepted(room))
    case CallStart(room, initiator) => Reduce(c, OnCallStart(room, initiator))
    case MatchEnded(room, reason) => Reduce(c, OnMatchEnded(room, reason))
    case ServerError(code) => Reduce(c, OnServerError(code))
    case SessionReplaced => Reduce(c, OnSessionReplaced)
    case CoinsUpdate(balance, delta) => Reduce(c, OnCoins(balance, delta))
    case FriendsNew(room) => Reduce(c, OnFriendsNew(room, at))
    case ChatMessage(room, id, text, ts) => Reduce(c, OnChatReceived(room, id, text, ts))
    case ChatTyping(room, typing) => Reduce(c, OnPartnerTyping(room, typing))
    case SessionRestricted | ServerShutdown | WalletUpdate => c
  }

  /** One's own actions, which the server does not send. */
  function Do(c: ClientState, act: ClientAct): ClientState {
    match act
    case PressAccept => Reduce(c, OnLocalAccept)
    case TypeChat(room, temp, text, ts) => Reduce(c, OnChatLocal(room, temp, text, ts))
    case ChatAnswered(temp, ok, id, ts) => Reduce(c, OnChatAck(temp, ok, id, ts))
    case TypingTimedOut => Reduce(c, OnPartnerTypingExpired)
    case DismissNotice => Reduce(c, OnNoticeCleared)
  }

  function Hear(c: ClientState, item: Item, s: SocketId): ClientState {
    if item.to != s then c
    else
      match item
      case Sent(_, e, at) => Receive(c, e, at)
      case Acted(_, act) => Do(c, act)
  }

  /** The client behind socket `s`: the reducer folded over everything that socket saw. */
  function Client(trace: seq<Item>, s: SocketId): ClientState {
    if trace == [] then INITIAL else Hear(Client(trace[..|trace| - 1], s), trace[|trace| - 1], s)
  }

  lemma ClientSnoc(trace: seq<Item>, item: Item, s: SocketId)
    ensures Client(trace + [item], s) == Hear(Client(trace, s), item, s)
  {
    assert (trace + [item])[..|trace|] == trace;
  }

  lemma {:induction false} ClientOfOthers(trace: seq<Item>, news: seq<Item>, s: SocketId)
    requires forall x :: x in news ==> x.to != s
    ensures Client(trace + news, s) == Client(trace, s)
  {
    if news == [] {
      assert trace + news == trace;
    } else {
      var n := |news| - 1;
      assert trace + news == (trace + news[..n]) + [news[n]];
      ClientOfOthers(trace, news[..n], s);
      ClientSnoc(trace + news[..n], news[n], s);
    }
  }

  /* ---------------------------------------------------------------- */
  /* What the events that matter do to a client that is not done        */
  /* ---------------------------------------------------------------- */

  lemma ClientHears(trace: seq<Item>, s: SocketId, e: ServerEvent, at: nat)
    ensures Client(trace + [Sent(s, e, at)], s) == Receive(Client(trace, s), e, at)
  {
    ClientSnoc(trace, Sent(s, e, at), s);
  }

  lemma HearsFound(c: ClientState, room: RoomId, expiresAt: nat, serverNow: nat, mode: MatchMode, at: nat)
    requires !Terminal(c)
    ensures var c' := Receive(c, MatchFound(room, expiresAt, serverNow, mode), at);
      c'.roomId == Some(room) && c'.status == (if mode == Instant then StartingCall else Offered)
  {
  }

  lemma HearsEnded(c: ClientState, room: RoomId, reason: EndReason, at: nat)
    requires !Terminal(c)
    ensures var c' := Receive(c, MatchEnded(room, reason), at);
      if c.roomId == Some(room) then c'.roomId == None && c'.status == (if reason == AcceptTimeout then IdleOut else Searching)
      else c' == c
  {
  }

  lemma HearsWaiting(c: ClientState, step: nat, at: nat)
    requires !Terminal(c)
    ensures var c' := Receive(c, QueueWaiting(step), at); c'.roomId == None && c'.status == Searching
  {
  }

  lemma HearsStart(c: ClientState, room: RoomId, initiator: bool, at: nat)
    requires c.roomId == Some(room) && (c.status == Offered || c.status == StartingCall || c.status == InCall)
    ensures var c' := Receive(c, CallStart(room, initiator), at);
      c'.roomId == c.roomId && c'.status == InCall && (c.status != InCall ==> c'.initiator == Some(initiator))
  {
  }

  lemma HearsRefusal(c: ClientState, error: ErrorCode, at: nat)
    requires !Terminal(c)
    ensures var c' := Receive(c, HelloRefused(error), at);
      c'.roomId == None && c'.status == (if error == Banned then BannedOut else Failed)
  {
  }

  lemma HearsAcceptance(c: ClientState, filter: GenderFilter, at: nat)
    requires !Terminal(c)
    ensures var c' := Receive(c, HelloAccepted(filter), at);
      c'.roomId == c.roomId && c'.status == (if c.status == Connecting || c.status == Failed || c.status == IdleOut then Searching else c.status)
  {
  }
}

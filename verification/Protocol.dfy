/** What the server and its clients say to each other about matching. */
module Protocol {
  import opened Compatibility

  type SocketId = nat
  type RoomId = nat

  datatype MatchMode = Preview | Instant

  datatype EndReason =
    | Declined | PartnerDeclined
    | TimedOut | AcceptTimeout
    | Skipped | PartnerSkipped
    | PartnerLeft | PartnerUnavailable
    | Reported | Restricted
    | ConnectionFailed

  datatype ErrorCode =
    | InvalidPayload | RateLimited | NotInRoom | BadState | Banned
    | MatchingClosed | PremiumRequired | Internal | AckTimeout

  datatype ServerEvent =
    | HelloAccepted(filter: GenderFilter)
    | HelloRefused(error: ErrorCode)
    | PreferencesSaved(filter: GenderFilter)
    | QueueWaiting(step: nat)
    | MatchFound(room: RoomId, expiresAt: nat, serverNow: nat, mode: MatchMode)
    | PartnerAccepted(room: RoomId)
    | CallStart(room: RoomId, initiator: bool)
    | MatchEnded(room: RoomId, reason: EndReason)
    | ServerError(code: ErrorCode)
    | SessionReplaced
    | SessionRestricted
    | ServerShutdown
    | WalletUpdate
    | CoinsUpdate(balance: int, delta: int)
    | FriendsNew(room: RoomId)
    | ChatMessage(room: RoomId, id: nat, text: string, ts: nat)
    | ChatTyping(room: RoomId, typing: bool)

  /** What a user does on their own side of a connection. */
  datatype ClientAct =
    | PressAccept
    | TypeChat(room: RoomId, temp: nat, text: string, ts: nat)
    | ChatAnswered(temp: nat, ok: bool, id: nat, ts: nat)
    | TypingTimedOut
    | DismissNotice

  /** The trace of a run: what the server sent to each socket and what its user did, in order. */
  datatype Item =
    | Sent(to: SocketId, event: ServerEvent, at: nat)
    | Acted(to: SocketId, act: ClientAct)
}

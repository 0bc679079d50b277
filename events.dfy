/** What the server sends, as data: every `socket.emit` and `io.to(...).emit`
    of the core becomes one `Outbound` value in the order it is sent. */
module Events {
  import opened Common
  import opened ServerGame

  /** One socket (`socket.emit`, `io.to(socketId)`) or everyone in a room
      (`io.to(roomCode)`). */
  datatype Target = ToSocket(socketId: string) | ToRoom(roomCode: string)

  datatype Payload =
    | Error(message: string)
    | BidError(message: string)
    | BidSubmitted(player: Role)
    | BidTie(hostBid: int, guestBid: int, hostTokens: int, guestTokens: int)
    | BidComplete(winner: Option<Role>, hostBid: int, guestBid: int, hostTokens: int, guestTokens: int, currentPhase: Phase)
    | RoundStarted(roundNumber: int, hostTokens: int, guestTokens: int)
    | TruthGuessResult(report: GuessReport)
    | RoomCreated(roomCode: string, isHost: bool, playerName: string)
    | RoomJoined(roomCode: string, isHost: bool, hostName: string, playerName: string)
    | PlayerJoined(playerName: string, isReady: bool)
    | GameStart(gameState: Game)
    | CardsArrangedNotice(arranged: bool)
    | BothPlayersArranged
    | HostDisconnected
    | GuestDisconnected
    | RoomExpired

  datatype Outbound = Emit(to: Target, payload: Payload)
}

/** The client's mirror of the game (src/store/gameStore.ts): one store whose
    actions merge new values into it. Each action is a reducer on `StoreState`
    and a method of `ClientStore` that performs the merge field by field. The
    server reports tokens and winners as host and guest; the store turns them
    into "player" (this client) and "opponent". */
module GameStore {
  import opened Common
  import ServerGame

  datatype Turn = PlayerTurn | OpponentTurn
  datatype GameResult = Ongoing | Won | Lost
  datatype GameStatus = Win | Lose
  datatype RevealedCard = RevealedCard(position: int, value: int)
  datatype BidPair = BidPair(player: Option<int>, opponent: Option<int>)
  /** The last truth guess result the client shows. */
  datatype GuessView = GuessView(correct: bool, actualArrangement: Option<string>)

  /** `gameBoardState`. `gameStatus` is absent until the game is won or lost. */
  datatype Board = Board(
    playerTokens: int,
    opponentTokens: int,
    currentBid: BidPair,
    roundNumber: int,
    timeRemaining: int,
    currentPhase: Phase,
    currentTurn: Option<Turn>,
    selectedAction: Option<ActionKind>,
    actionInProgress: bool,
    revealedCards: seq<RevealedCard>,
    gameResult: GameResult,
    arrangedCards: seq<Card>,
    truthGuessResult: Option<GuessView>,
    gameStatus: Option<GameStatus>)

  datatype StoreState = StoreState(
    isConnected: bool,
    socketId: Option<string>,
    playerName: string,
    isHost: bool,
    inRoom: bool,
    roomCode: string,
    opponentName: Option<string>,
    opponentReady: bool,
    isPlayerReady: bool,
    gameStarted: bool,
    cardsArranged: bool,
    opponentCardsArranged: bool,
    board: Board,
    hostBidSubmitted: bool,
    guestBidSubmitted: bool,
    lastBidAmount: Option<int>,
    lastWinner: Option<Role>)

  /** What the client asks of the server when the selection screen or the guess
      panel acts. */
  datatype Request =
    | CardsArrangedRequest(roomCode: string, arranged: bool)
    | SaveArrangedCardsRequest(roomCode: string, cards: seq<Card>)
    | TruthGuessRequest(roomCode: string, guess: string)

  /** The seat this client holds. */
  function OwnRole(isHost: bool): (r: Role)
    ensures r == Host <==> isHost
  {
    if isHost then Host else Guest
  }

  /** The server's value for this client's seat and for the other seat. */
  function Mine(isHost: bool, hostValue: int, guestValue: int): int
  {
    if isHost then hostValue else guestValue
  }

  function Theirs(isHost: bool, hostValue: int, guestValue: int): int
  {
    if isHost then guestValue else hostValue
  }

  const InitialBoard := Board(10, 10, BidPair(None, None), 1, 30, Bidding, None, None, false, [], Ongoing, [], None, None)

  /** The store as created. */
  function InitialStore(): (s: StoreState)
    ensures !s.isConnected && s.socketId == None && !s.inRoom && !s.isHost
    ensures s.board.playerTokens == ServerGame.StartingTokens == s.board.opponentTokens
    ensures s.board.roundNumber == 1 && s.board.currentPhase == Bidding && s.board.revealedCards == []
    ensures !s.hostBidSubmitted && !s.guestBidSubmitted && s.lastBidAmount == None && s.lastWinner == None
  {
    StoreState(false, None, "", false, false, "", None, false, false, false, false, false,
               InitialBoard, false, false, None, None)
  }

  /** `resetRoom`: leaves the room; the connection, the name, the board and the
      bidding flags are kept. */
  function ResetRoom(s: StoreState): (r: StoreState)
    ensures !r.inRoom && r.roomCode == "" && !r.isHost && r.opponentName == None
    ensures !r.opponentReady && !r.isPlayerReady && !r.gameStarted && !r.cardsArranged && !r.opponentCardsArranged
    ensures r.isConnected == s.isConnected && r.socketId == s.socketId && r.playerName == s.playerName
    ensures r.board == s.board
    ensures r.hostBidSubmitted == s.hostBidSubmitted && r.guestBidSubmitted == s.guestBidSubmitted
    ensures r.lastBidAmount == s.lastBidAmount && r.lastWinner == s.lastWinner
  {
    StoreState(s.isConnected, s.socketId, s.playerName, false, false, "", None, false, false, false, false, false,
               s.board, s.hostBidSubmitted, s.guestBidSubmitted, s.lastBidAmount, s.lastWinner)
  }

  /** `initializeGameBoard`: a new game on the board. The arranged cards are
      kept; so are the bid display, the timer, the last guess result and the
      game status, which the merge does not mention. */
  function InitializeBoard(s: StoreState): (r: StoreState)
    ensures r.board.playerTokens == 10 && r.board.opponentTokens == 10
    ensures r.board.roundNumber == 1 && r.board.currentPhase == Bidding
    ensures r.board.currentTurn == None && r.board.selectedAction == None && !r.board.actionInProgress
    ensures r.board.revealedCards == [] && r.board.gameResult == Ongoing
    ensures r.board.arrangedCards == s.board.arrangedCards
    ensures r.board.currentBid == s.board.currentBid && r.board.timeRemaining == s.board.timeRemaining
    ensures r.board.truthGuessResult == s.board.truthGuessResult && r.board.gameStatus == s.board.gameStatus
    ensures r.(board := s.board) == s
  {
    s.(board := s.board.(playerTokens := 10, opponentTokens := 10, roundNumber := 1, currentPhase := Bidding,
                         currentTurn := None, selectedAction := None, actionInProgress := false,
                         revealedCards := [], gameResult := Ongoing, arrangedCards := s.board.arrangedCards))
  }

  /** `submitBid`: remembers the amount and marks exactly this client's seat as
      having bid. */
  function SubmitBid(s: StoreState, amount: int): (r: StoreState)
    ensures r.lastBidAmount == Some(amount)
    ensures r.hostBidSubmitted != r.guestBidSubmitted
    ensures r.hostBidSubmitted <==> s.isHost
    ensures r.(lastBidAmount := s.lastBidAmount, hostBidSubmitted := s.hostBidSubmitted,
               guestBidSubmitted := s.guestBidSubmitted) == s
  {
    s.(lastBidAmount := Some(amount), hostBidSubmitted := s.isHost, guestBidSubmitted := !s.isHost)
  }

  /** `addRevealedCard`. */
  function AddRevealedCard(s: StoreState, position: int, value: int): (r: StoreState)
    ensures |r.board.revealedCards| == |s.board.revealedCards| + 1
    ensures r.board.revealedCards[..|s.board.revealedCards|] == s.board.revealedCards
    ensures r.board.revealedCards[|s.board.revealedCards|] == RevealedCard(position, value)
    ensures r.(board := s.board) == s && r.board.(revealedCards := s.board.revealedCards) == s.board
  {
    s.(board := s.board.(revealedCards := s.board.revealedCards + [RevealedCard(position, value)]))
  }

  /** `bid_tie` as the store applies it: the tokens of both seats, seen from this
      client; the bids are cleared for the re-bid and the phase is kept. */
  function HandleBidTie(s: StoreState, hostTokens: int, guestTokens: int): (r: StoreState)
    ensures r.board.playerTokens == Mine(s.isHost, hostTokens, guestTokens)
    ensures r.board.opponentTokens == Theirs(s.isHost, hostTokens, guestTokens)
    ensures r.board.currentBid == BidPair(None, None) && r.board.currentPhase == s.board.currentPhase
    ensures !r.hostBidSubmitted && !r.guestBidSubmitted && r.lastBidAmount == None
    ensures r.lastWinner == s.lastWinner && r.isHost == s.isHost
    ensures r.board.(playerTokens := s.board.playerTokens, opponentTokens := s.board.opponentTokens,
                     currentBid := s.board.currentBid) == s.board
    ensures r.(board := s.board, hostBidSubmitted := s.hostBidSubmitted, guestBidSubmitted := s.guestBidSubmitted,
               lastBidAmount := s.lastBidAmount) == s
  {
    s.(board := s.board.(playerTokens := if s.isHost then hostTokens else guestTokens,
                         opponentTokens := if s.isHost then guestTokens else hostTokens,
                         currentBid := BidPair(None, None)),
       hostBidSubmitted := false, guestBidSubmitted := false, lastBidAmount := None)
  }

  /** `bid_complete` as the store applies it: the tokens seen from this client,
      the server's phase, whose turn it is and who won the bid. */
  function HandleBidComplete(s: StoreState, winner: Option<Role>, hostTokens: int, guestTokens: int, phase: Phase)
    : (r: StoreState)
    ensures r.board.playerTokens == Mine(s.isHost, hostTokens, guestTokens)
    ensures r.board.opponentTokens == Theirs(s.isHost, hostTokens, guestTokens)
    ensures r.board.currentPhase == phase
    ensures r.board.currentTurn == Some(PlayerTurn) <==> winner == Some(OwnRole(s.isHost))
    ensures r.board.currentTurn.Some?
    ensures r.lastWinner == winner && r.isHost == s.isHost
    ensures !r.hostBidSubmitted && !r.guestBidSubmitted && r.lastBidAmount == None
    ensures r.board.(playerTokens := s.board.playerTokens, opponentTokens := s.board.opponentTokens,
                     currentPhase := s.board.currentPhase, currentTurn := s.board.currentTurn) == s.board
    ensures r.(board := s.board, hostBidSubmitted := s.hostBidSubmitted, guestBidSubmitted := s.guestBidSubmitted,
               lastBidAmount := s.lastBidAmount, lastWinner := s.lastWinner) == s
  {
    var turn := if winner == Some(OwnRole(s.isHost)) then PlayerTurn else OpponentTurn;
    s.(board := s.board.(playerTokens := Mine(s.isHost, hostTokens, guestTokens),
                         opponentTokens := Theirs(s.isHost, hostTokens, guestTokens),
                         currentPhase := phase,
                         currentTurn := Some(turn)),
       hostBidSubmitted := false, guestBidSubmitted := false, lastBidAmount := None, lastWinner := winner)
  }

  /** `round_started` as the store applies it: the server's round number, the
      tokens seen from this client, the bidding phase, and no action, guess
      result, bids or bid winner. */
  function HandleNewRound(s: StoreState, roundNumber: int, hostTokens: int, guestTokens: int): (r: StoreState)
    ensures r.board.roundNumber == roundNumber && r.board.currentPhase == Bidding
    ensures r.board.playerTokens == Mine(s.isHost, hostTokens, guestTokens)
    ensures r.board.opponentTokens == Theirs(s.isHost, hostTokens, guestTokens)
    ensures r.board.selectedAction == None && r.board.truthGuessResult == None
    ensures r.board.currentBid == BidPair(None, None)
    ensures !r.hostBidSubmitted && !r.guestBidSubmitted && r.lastBidAmount == None && r.lastWinner == None
    ensures r.board.currentTurn == s.board.currentTurn && r.board.arrangedCards == s.board.arrangedCards
    ensures r.board.revealedCards == s.board.revealedCards && r.board.gameStatus == s.board.gameStatus
    ensures r.isHost == s.isHost
    ensures r.board.(roundNumber := s.board.roundNumber, playerTokens := s.board.playerTokens,
                     opponentTokens := s.board.opponentTokens, currentPhase := s.board.currentPhase,
                     currentBid := s.board.currentBid, selectedAction := s.board.selectedAction,
                     truthGuessResult := s.board.truthGuessResult) == s.board
    ensures r.(board := s.board, hostBidSubmitted := s.hostBidSubmitted, guestBidSubmitted := s.guestBidSubmitted,
               lastBidAmount := s.lastBidAmount, lastWinner := s.lastWinner) == s
  {
    s.(board := s.board.(roundNumber := roundNumber,
                         playerTokens := if s.isHost then hostTokens else guestTokens,
                         opponentTokens := if s.isHost then guestTokens else hostTokens,
                         currentPhase := Bidding, currentBid := BidPair(None, None),
                         selectedAction := None, truthGuessResult := None),
       hostBidSubmitted := false, guestBidSubmitted := false, lastBidAmount := None, lastWinner := None)
  }

  /** `handleGameWin`: the game is won and the guess result shows no
      arrangement, whatever was there before. */
  function HandleGameWin(s: StoreState): (r: StoreState)
    ensures r.board.gameStatus == Some(Win)
    ensures r.board.truthGuessResult == Some(GuessView(true, None))
    ensures r.board.(gameStatus := s.board.gameStatus, truthGuessResult := s.board.truthGuessResult) == s.board
    ensures r.(board := s.board) == s
  {
    s.(board := s.board.(gameStatus := Some(Win), truthGuessResult := Some(GuessView(true, None))))
  }

  /** `handleGameLose`: the game is lost and the guess result is wrong; the
      arrangement shown before, if any, stays. */
  function HandleGameLose(s: StoreState): (r: StoreState)
    ensures r.board.gameStatus == Some(Lose)
    ensures r.board.truthGuessResult.Some? && !r.board.truthGuessResult.value.correct
    ensures r.board.truthGuessResult.value.actualArrangement ==
            (if s.board.truthGuessResult.Some? then s.board.truthGuessResult.value.actualArrangement else None)
    ensures r.board.(gameStatus := s.board.gameStatus, truthGuessResult := s.board.truthGuessResult) == s.board
    ensures r.(board := s.board) == s
  {
    var kept := if s.board.truthGuessResult.Some? then s.board.truthGuessResult.value.actualArrangement else None;
    s.(board := s.board.(gameStatus := Some(Lose), truthGuessResult := Some(GuessView(false, kept))))
  }

  // ------------------------------------------------- agreement with the server

  /** Both clients of a room apply the same `bid_complete` payload. When it comes
      from a non-tied resolution, the two boards show the same token counts
      from opposite sides, exactly one client gets the turn, and it is the
      client whose bid was higher. */
  lemma BidCompleteAgrees(g: ServerGame.Game, role: Role, bid: int, hostView: StoreState, guestView: StoreState)
    requires ServerGame.Inv(g) && ServerGame.ValidateBid(g, role, bid)
    requires hostView.isHost && !guestView.isHost
    requires ServerGame.SubmitBid(g, role, bid).result.Some?
    requires !ServerGame.SubmitBid(g, role, bid).result.value.isTie
    ensures var res := ServerGame.SubmitBid(g, role, bid).result.value;
            var h := HandleBidComplete(hostView, res.bidWinner, res.hostTokens, res.guestTokens, res.phase);
            var v := HandleBidComplete(guestView, res.bidWinner, res.hostTokens, res.guestTokens, res.phase);
            && h.board.playerTokens == v.board.opponentTokens == ServerGame.SubmitBid(g, role, bid).next.host.tokens
            && h.board.opponentTokens == v.board.playerTokens == ServerGame.SubmitBid(g, role, bid).next.guest.tokens
            && (h.board.currentTurn == Some(PlayerTurn) <==> v.board.currentTurn == Some(OpponentTurn))
            && (h.board.currentTurn == Some(PlayerTurn) <==> res.hostBid > res.guestBid)
            && h.board.currentPhase == v.board.currentPhase == Action
  {
  }

  /** A `round_started` payload from the server's new round leaves both clients
      on the server's round number, in bidding, with nothing submitted. */
  lemma NewRoundAgrees(g: ServerGame.Game, view: StoreState)
    ensures var r := ServerGame.NewRound(g);
            var v := HandleNewRound(view, r.1.roundNumber, r.1.hostTokens, r.1.guestTokens);
            && v.board.roundNumber == r.0.roundNumber == g.roundNumber + 1
            && v.board.playerTokens == r.0.Player(OwnRole(view.isHost)).tokens
            && v.board.opponentTokens == r.0.Player(Other(OwnRole(view.isHost))).tokens
            && v.board.currentPhase == r.0.phase
  {
  }

  // ------------------------------------------------------------- the store

  /** `setArrangedCards`. */
  function SetArrangedCards(s: StoreState, cards: seq<Card>): (r: StoreState)
    ensures r.board.arrangedCards == cards
    ensures r.(board := s.board) == s && r.board.(arrangedCards := s.board.arrangedCards) == s.board
  {
    s.(board := s.board.(arrangedCards := cards))
  }

  /** `setCardsArranged`. */
  function SetCardsArranged(s: StoreState, arranged: bool): (r: StoreState)
    ensures r.cardsArranged == arranged && r.(cardsArranged := s.cardsArranged) == s
  {
    s.(cardsArranged := arranged)
  }

  /** `setTruthGuessResult`; an absent result clears the one shown. */
  function SetTruthGuessResult(s: StoreState, result: Option<GuessView>): (r: StoreState)
    ensures r.board.truthGuessResult == result
    ensures r.(board := s.board) == s && r.board.(truthGuessResult := s.board.truthGuessResult) == s.board
  {
    s.(board := s.board.(truthGuessResult := result))
  }

  /** The store object. `set` replaces the current state with the merge its
      reducer computes, so every action reassigns `state` once. */
  class ClientStore {
    var state: StoreState

    constructor ()
      ensures state == InitialStore()
    {
      state := InitialStore();
    }

    method ResetRoomAction()
      modifies this
      ensures state == ResetRoom(old(state))
    {
      state := ResetRoom(state);
    }

    method InitializeGameBoardAction()
      modifies this
      ensures state == InitializeBoard(old(state))
    {
      state := InitializeBoard(state);
    }

    method SubmitBidAction(amount: int)
      modifies this
      ensures state == SubmitBid(old(state), amount)
    {
      state := SubmitBid(state, amount);
    }

    method AddRevealedCardAction(position: int, value: int)
      modifies this
      ensures state == AddRevealedCard(old(state), position, value)
    {
      state := AddRevealedCard(state, position, value);
    }

    method SetArrangedCardsAction(cards: seq<Card>)
      modifies this
      ensures state == SetArrangedCards(old(state), cards)
    {
      state := SetArrangedCards(state, cards);
    }

    method SetCardsArrangedAction(arranged: bool)
      modifies this
      ensures state == SetCardsArranged(old(state), arranged)
    {
      state := SetCardsArranged(state, arranged);
    }

    method SetTruthGuessResultAction(result: Option<GuessView>)
      modifies this
      ensures state == SetTruthGuessResult(old(state), result)
    {
      state := SetTruthGuessResult(state, result);
    }

    method HandleBidTieAction(hostTokens: int, guestTokens: int)
      modifies this
      ensures state == HandleBidTie(old(state), hostTokens, guestTokens)
    {
      state := HandleBidTie(state, hostTokens, guestTokens);
    }

    method HandleBidCompleteAction(winner: Option<Role>, hostTokens: int, guestTokens: int, phase: Phase)
      modifies this
      ensures state == HandleBidComplete(old(state), winner, hostTokens, guestTokens, phase)
    {
      state := HandleBidComplete(state, winner, hostTokens, guestTokens, phase);
    }

    method HandleNewRoundAction(roundNumber: int, hostTokens: int, guestTokens: int)
      modifies this
      ensures state == HandleNewRound(old(state), roundNumber, hostTokens, guestTokens)
    {
      state := HandleNewRound(state, roundNumber, hostTokens, guestTokens);
    }

    method HandleGameWinAction()
      modifies this
      ensures state == HandleGameWin(old(state))
    {
      state := HandleGameWin(state);
    }

    method HandleGameLoseAction()
      modifies this
      ensures state == HandleGameLose(old(state))
    {
      state := HandleGameLose(state);
    }
  }
}

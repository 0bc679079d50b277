# Question-or-truth card game — a Dafny model

This project models the rules of a two-player online card game. Each player
picks eight cards from a 52-card grid and arranges them so that cards of the
same suit ascend. Each round, both players bid tokens. The higher bidder wins
the turn and chooses an action. With the "truth" action the winner tries to
guess the opponent's whole arrangement as a string of eight card symbols. A
correct guess wins the game; a wrong one starts a new round.

The model covers the following parts of the repository:

- the Node server:
  - room codes, game state and bid resolution (`server/utils.js`);
  - the game-event handlers (`server/socket-handlers.js`);
  - the room registry, with creation, joining, disconnection, start, the
    arrangement flag and the periodic expiry sweep (`server/index.js`);
- the client:
  - the store reducers (`src/store/gameStore.ts`);
  - the card grid (`src/components/game/CardMatrix.tsx`);
  - card selection and arrangement checking
    (`src/components/CardSelectionScreen.tsx`);
  - the truth-guess input (`src/components/game/TruthGuess.tsx`).

The source mutates these objects in place, and so does the model:

- `ServerGame.GameState` holds a room's game state;
- `Registry.Rooms` holds the rooms map;
- `GameStore.ClientStore` holds the client store;
- `CardSelection.SelectionScreen` and `TruthGuess.TruthGuessPanel` hold the
  two components' local state.

Each method is proved against a pure function of the old state, and the
properties the game relies on are proved as lemmas about those functions.
Random draws, clocks, socket identities and map iteration order become
parameters. Outgoing socket messages become a returned list of `Events.Outbound`
values.

Behaviours of the code worth knowing, which the model keeps:

- The room-code alphabet has 32 symbols, `A`–`Z` and `2`–`9` without `I`, `O`,
  `0` and `1` (`server/utils.js:3`).
- The round that starts 3 seconds after a wrong guess uses the game-state
  object captured when the guess was handled. It does not look the room up
  again (`server/socket-handlers.js:271-278`). So after a `start-game` in
  between, the deferred round advances the discarded state
  (`SocketHandlers.FireScheduledRound`).
- A socket that is not the room's host is treated as the guest by every game
  handler (`server/socket-handlers.js:18`, `Registry.RoleOf`). This includes a
  stranger.
- `start_new_round` has no phase or player guard
  (`server/socket-handlers.js:81-104`). `startNewRound` does not reset
  `selectedAction`, `winner` or `gameOver` (`server/utils.js:98-111`).
- The truth-guess comparison is exact and case-sensitive
  (`server/socket-handlers.js:238`). Only the client upper-cases the guess.
- When the host guesses while no guest is in the room, the handler reads
  `room.guest.id` after it has already sent the guesser its result. That
  throws, so this game's state is not updated (`OnTruthGuess`'s `threw`);
  the exception's fate beyond the handler is listed under "## Left out".
- `handleGameWin` sets `truthGuessResult` without an `actualArrangement`
  (`src/store/gameStore.ts:346-357`). The winner's store therefore does not
  keep the arrangement the server revealed.

## Model

| member | source | states |
|---|---|---|
| RoomCodes.CodeOfWellFormed | server/utils.js:2-11 | every draw of five alphabet indices spells a five-character code over the 32-symbol alphabet |
| RoomCodes.GenerateRoomCode | server/utils.js:2-11 | the loop builds exactly the code the five draws pick, and that code is well formed |
| RoomCodes.AlphabetShape | server/utils.js:3 | the alphabet has 32 distinct symbols and contains none of I, O, 0, 1 |
| RoomCodes.EveryCodeReachable | server/utils.js:5-8 | every well-formed five-character code is produced by some draw |
| ServerGame.InitialGame | server/utils.js:14-38 | a new game is in bidding, round 1, not started, both players at 10 tokens with no bid, no arrangement, not ready; no winner; it satisfies the game invariant |
| ServerGame.ValidateBid | server/utils.js:113-132 | a bid is accepted iff it is between 0 and the bidder's tokens, the phase is bidding, and the bidder has no stored bid |
| ServerGame.SubmitBid | server/utils.js:41-96 | the bid is stored. If the other player has not bid, the result is null and nothing else changes. Otherwise each player pays their bid and both receive 2 bonus tokens. On a tie both bids are cleared and the phase stays bidding; otherwise the strictly higher bidder wins the turn, the phase becomes action and the bids stay stored |
| ServerGame.ValidBidKeepsInv | server/utils.js:41-96 | a bid that passes `validateBid` keeps the game invariant (no negative tokens, consistent winner and phase), and after a resolved round both players hold at least the 2 bonus tokens |
| ServerGame.ResolutionOrderIndependent | server/utils.js:41-96 | host-then-guest and guest-then-host submission of the same two bids give the same state and the same result, and the second bid stays valid in either order |
| ServerGame.ExampleRound | server/utils.js:53-76 | from a fresh game, bids 3 and 5 leave the host at 9 and the guest at 7 tokens, with the guest winning the turn and the phase becoming action |
| ServerGame.NewRound | server/utils.js:98-111 | the round number increases by one, the phase returns to bidding, the bid winner, tie flag and both bids are cleared, everything else including tokens is kept, and the result reports the new round and tokens |
| ServerGame.SelectAction | server/socket-handlers.js:124-131 | the action is recorded iff the phase is action and the caller won the bid; otherwise the error is "Not your turn" and the state is unchanged |
| ServerGame.SaveArrangedCards | server/socket-handlers.js:158-163 | the caller's arrangement is replaced and nothing else changes |
| ServerGame.SetCardsArranged | server/index.js:319-325 | the caller's arranged flag is set and nothing else changes |
| ServerGame.AdjudicateGuess | server/socket-handlers.js:201-238 | invalid action iff not (action phase, caller won the bid, action truth); opponent cards missing iff allowed and the arrangement is empty; otherwise the verdict is exact equality with the encoded arrangement |
| ServerGame.ApplyVerdict | server/socket-handlers.js:259-269 | a correct guess sets the winner and game over and nothing else; a wrong one resets the phase to bidding and clears the bid winner, the action and both bids, changing nothing else; the invariant is kept |
| ServerGame.GuesserReport | server/socket-handlers.js:242-247 | the guesser learns the verdict, and the arrangement is shown iff the guess was correct |
| ServerGame.OpponentReport | server/socket-handlers.js:250-256 | the opponent learns the verdict and never the arrangement |
| ServerGame.RevealOnlyRepeatsGuess | server/socket-handlers.js:238-256 | whatever the guesser is shown equals what they typed, and the opponent is shown nothing |
| ServerGame.ExactComparison | server/socket-handlers.js:238 | changing any one character of a correct guess, or lower-casing a letter in it, makes it wrong |
| ServerGame.WrongGuessThenNewRound | server/socket-handlers.js:262-278 | after a wrong guess and the deferred round, the game is in bidding one round later with no bids, no bid winner and no chosen action, the tokens are unchanged, and the invariant holds |
| ServerGame.NewRoundAfterGameOver | server/socket-handlers.js:81-98 | because `start_new_round` has no guard, a new round after a correct guess reopens bidding while the game stays over with the guesser as winner |
| ServerGame.GameState.constructor | server/utils.js:14-38 | the new object's state is the initial game |
| ServerGame.GameState.HandleBidSubmission | server/utils.js:41-96 | updates the fields in place to `SubmitBid`'s next state and returns its result |
| ServerGame.GameState.ResolveStoredBids | server/utils.js:49-93 | with both bids stored, the in-place resolution equals `Resolve` of the old state |
| ServerGame.GameState.ChargeBids | server/utils.js:53-55 | each player's tokens drop by their own bid |
| ServerGame.GameState.DecideAndPay | server/utils.js:58-76 | sets the tie flag or the winner and the phase, and pays both players the 2-token bonus, as `Decide` then `PayBonus` |
| ServerGame.GameState.ClearBidsOnTie | server/utils.js:79-82 | on a tie both stored bids are cleared |
| ServerGame.GameState.StartNewRound | server/utils.js:98-111 | the in-place update and the returned info equal `NewRound` of the old state |
| ServerGame.GameState.SelectActionFor | server/socket-handlers.js:124-131 | the in-place update and the error equal `SelectAction` |
| ServerGame.GameState.SaveArrangedCardsFor | server/socket-handlers.js:163 | the in-place update equals `SaveArrangedCards` |
| ServerGame.GameState.SetCardsArrangedFor | server/index.js:319-325 | the in-place update equals `SetCardsArranged` |
| ServerGame.GameState.ApplyGuessVerdict | server/socket-handlers.js:259-269 | the in-place update equals `ApplyVerdict` |
| ArrangementCode.NatToString | server/socket-handlers.js:229 | a non-negative integer is written as at least one decimal digit, one digit exactly below 10, with no leading zero from 1 up |
| ArrangementCode.IntToString | server/socket-handlers.js:229 | a negative value is written with a leading minus sign |
| ArrangementCode.ValueSymbol | server/socket-handlers.js:223-230 | each face value from 1 to 13 becomes one character, and 2 to 9 become their digit |
| ArrangementCode.SymbolRoundTrip | server/socket-handlers.js:223-230 | each face value from 1 to 13 is read back from its symbol |
| ArrangementCode.Encode | server/socket-handlers.js:223-230 | the opponent's arrangement as text: each card's value symbol, in arrangement order, joined with no separator |
| ArrangementCode.EncodeInRange | server/socket-handlers.js:223-230 | for face values 1 to 13 the encoding has one symbol per card, each the symbol of that card's value |
| ArrangementCode.EncodeInjective | server/socket-handlers.js:223-230 | two in-range arrangements with the same encoding have the same values in the same order |
| ArrangementCode.EncodeIgnoresSuits | server/socket-handlers.js:223-230 | the encoding depends only on the sequence of values, not on suits or ids |
| ArrangementCode.ExampleArrangement | server/socket-handlers.js:223-230 | values 1, 10, 11, 12, 13, 2, 3, 4 encode as "ATJQK234" |
| Registry.RoleOf | server/socket-handlers.js:18 | the caller is host iff its socket id is the host's, otherwise guest |
| Registry.FreeCode | server/index.js:167-178 | the do-while's choice: the first of the five drawn codes not already a room, or none when all five are taken |
| Registry.FreeCodeFree | server/index.js:167-178 | code generation fails iff all five candidate codes are taken; a code it returns is free and well formed |
| Registry.FreeCodeFirst | server/index.js:167-178 | the code chosen is the first free candidate |
| Registry.JoinRefusal | server/index.js:121-141 | "Room not found" iff no such room; "Room is full" iff it has a guest; "Name already taken in this room" iff the host's name matches ignoring case; no refusal iff none of these |
| Registry.Survivors | server/index.js:359-382 | exactly the rooms neither older than two hours nor idle for thirty minutes remain, unchanged |
| Registry.SweepStepsRooms | server/index.js:364-381 | after visiting a prefix of the rooms, a visited room remains iff it is not stale, unvisited rooms are kept, and no room is altered |
| Registry.SweepKeepsLiveRooms | server/index.js:359-382 | a full sweep over all rooms leaves exactly the live rooms |
| Registry.SweepStepsNotices | server/index.js:368-375 | every notice is "room-expired", at most two per visited room, the host and guest of every stale visited room are notified, and nothing is sent when no room is stale |
| Registry.SweepMonotone | server/index.js:365-368 | a later sweep removes at least as much, and sweeping twice equals sweeping once at the later time |
| Registry.Rooms.constructor | server/index.js:92 | the registry starts empty |
| Registry.Rooms.CreateRoom | server/index.js:161-208 | a blank name is refused with no change; when no free code is found the creation fails with no change; otherwise the first free code maps to a new room with this host, no guest and a fresh game, and the creator is told the code |
| Registry.Rooms.JoinRoom | server/index.js:211-260 | blank name or code, or a refusal for the upper-cased code, sends that error and changes nothing; otherwise the guest is set, activity is stamped, and both players are notified |
| Registry.Rooms.Disconnect | server/index.js:95-118 | a host disconnect deletes the room and tells the guest; a guest disconnect clears the guest and tells the host; anyone else changes nothing |
| Registry.Rooms.StartGame | server/index.js:286-304 | only the host of an existing room replaces its game with a fresh one and notifies the room |
| Registry.Rooms.CardsArranged | server/index.js:307-343 | the caller's arranged flag is set and relayed to the other player; the room hears "both-players-arranged" iff both flags are set; strangers change nothing; every other room's game is unchanged |
| Registry.Rooms.ExpireIfStale | server/index.js:365-380 | one sweep step: a stale room is deleted and its players notified, a live one is kept |
| Registry.Rooms.Sweep | server/index.js:359-382 | the in-place sweep equals the step-by-step reference and leaves exactly the surviving rooms |
| SocketHandlers.BidEvents | server/socket-handlers.js:45-73 | "bid_submitted" always goes first; a second event is sent iff the round resolved, "bid_tie" or "bid_complete" with the result's numbers |
| SocketHandlers.BidEventsNameHigherBidder | server/socket-handlers.js:45-73 | a "bid_complete" names the player whose bid was strictly higher |
| SocketHandlers.OnSubmitBid | server/socket-handlers.js:5-78 | unknown room: nothing; a bid failing `validateBid` gets "bid_error" and changes nothing; otherwise the game advances by `SubmitBid`, the bid events are sent and activity is stamped; every other room's game is unchanged |
| SocketHandlers.OnStartNewRound | server/socket-handlers.js:81-104 | for an existing room the game advances by `NewRound` and the room hears "round_started" with its numbers; every other room's game is unchanged |
| SocketHandlers.OnSelectAction | server/socket-handlers.js:108-141 | the action is recorded as `SelectAction` says, or the caller gets "Not your turn"; every other room's game is unchanged |
| SocketHandlers.OnSaveArrangedCards | server/socket-handlers.js:146-172 | the caller's arrangement is saved as `SaveArrangedCards` says and activity is stamped; every other room's game is unchanged |
| SocketHandlers.OnTruthGuess | server/socket-handlers.js:177-284 | guard and missing-cards errors change nothing; a judged guess sends the two reports, applies the verdict and schedules a new round iff it was wrong; the host guessing with no guest throws after the first report; every other room's game is unchanged |
| SocketHandlers.FireScheduledRound | server/socket-handlers.js:271-278 | the deferred round advances the captured game by `NewRound` and announces it to the room |
| GameStore.OwnRole | src/store/gameStore.ts:310-322 | the client's role is host iff its `isHost` flag is set |
| GameStore.InitialStore | src/store/gameStore.ts:99-137 | disconnected, not in a room, 10 tokens each, round 1, bidding, nothing revealed, no bids and no winner |
| GameStore.ResetRoom | src/store/gameStore.ts:181-191 | room fields are cleared while the connection, name, board and bid bookkeeping are kept |
| GameStore.InitializeBoard | src/store/gameStore.ts:209-223 | tokens, round, phase, turn, action, reveals and result are reset; the arrangement and the other board fields are kept |
| GameStore.SubmitBid | src/store/gameStore.ts:233-237 | the last bid is recorded and exactly the own side's submitted flag is set |
| GameStore.AddRevealedCard | src/store/gameStore.ts:267-272 | the revealed list grows by exactly the new card at its end |
| GameStore.SetArrangedCards | src/store/gameStore.ts:281-286 | only the board's arrangement changes |
| GameStore.SetCardsArranged | src/store/gameStore.ts:167-169 | only the own arranged flag changes |
| GameStore.SetTruthGuessResult | src/store/gameStore.ts:372-377 | only the guess result changes |
| GameStore.HandleBidTie | src/store/gameStore.ts:295-308 | tokens are taken from the own and the other side's numbers, bids, submitted flags and the last bid amount are cleared; every other board and store field, including the phase, is kept |
| GameStore.HandleBidComplete | src/store/gameStore.ts:310-322 | tokens mapped to own and opponent, phase set, the turn is the player's iff the winner is this client, the winner recorded, submitted flags and last bid amount cleared; every other board and store field is kept |
| GameStore.HandleNewRound | src/store/gameStore.ts:324-342 | round and tokens taken from the event, bidding phase, action, guess result, bids, submitted flags and winner cleared; every other board field (turn, timer, action in progress, result, reveals, arrangement, status) and every other store field is kept |
| GameStore.HandleGameWin | src/store/gameStore.ts:346-357 | status is win and the guess result is correct with no arrangement; nothing else changes |
| GameStore.HandleGameLose | src/store/gameStore.ts:359-370 | status is lose and the guess result is wrong, keeping any arrangement already known; nothing else changes |
| GameStore.BidCompleteAgrees | src/store/gameStore.ts:310-322 | after a resolved non-tie bid, the host's store shows the host's tokens as its own and the guest's as the opponent's, and the guest's store the reverse; the host's store has the turn iff the host bid more, and then the guest's store shows the opponent's turn; both are in the action phase |
| GameStore.NewRoundAgrees | src/store/gameStore.ts:324-342 | a store fed the server's round info shows the server's new round number, its own and the opponent's tokens as the server holds them, and the server's phase |
| GameStore.ClientStore.constructor | src/store/gameStore.ts:99-137 | the store starts in the initial state |
| GameStore.ClientStore.ResetRoomAction | src/store/gameStore.ts:181-191 | the store becomes `ResetRoom` of the old state |
| GameStore.ClientStore.InitializeGameBoardAction | src/store/gameStore.ts:209-223 | the store becomes `InitializeBoard` of the old state |
| GameStore.ClientStore.SubmitBidAction | src/store/gameStore.ts:233-237 | the store becomes `SubmitBid` of the old state |
| GameStore.ClientStore.AddRevealedCardAction | src/store/gameStore.ts:267-272 | the store becomes `AddRevealedCard` of the old state |
| GameStore.ClientStore.SetArrangedCardsAction | src/store/gameStore.ts:281-286 | the store becomes `SetArrangedCards` of the old state |
| GameStore.ClientStore.SetCardsArrangedAction | src/store/gameStore.ts:167-169 | the store becomes `SetCardsArranged` of the old state |
| GameStore.ClientStore.SetTruthGuessResultAction | src/store/gameStore.ts:372-377 | the store becomes `SetTruthGuessResult` of the old state |
| GameStore.ClientStore.HandleBidTieAction | src/store/gameStore.ts:295-308 | the store becomes `HandleBidTie` of the old state |
| GameStore.ClientStore.HandleBidCompleteAction | src/store/gameStore.ts:310-322 | the store becomes `HandleBidComplete` of the old state |
| GameStore.ClientStore.HandleNewRoundAction | src/store/gameStore.ts:324-342 | the store becomes `HandleNewRound` of the old state |
| GameStore.ClientStore.HandleGameWinAction | src/store/gameStore.ts:346-357 | the store becomes `HandleGameWin` of the old state |
| GameStore.ClientStore.HandleGameLoseAction | src/store/gameStore.ts:359-370 | the store becomes `HandleGameLose` of the old state |
| CardMatrix.ParseInt | src/components/game/CardMatrix.tsx:17-23 | no number iff the text does not start with a digit; otherwise a non-negative value |
| CardMatrix.DigitsRoundTrip | src/components/game/CardMatrix.tsx:17-23 | reading back the decimal digits of n gives n |
| CardMatrix.ParseIntRoundTrip | src/components/game/CardMatrix.tsx:17-23 | `parseInt` inverts `toString` on non-negative integers |
| CardMatrix.GetValue | src/components/game/CardMatrix.tsx:17-23 | A, J, Q and K are 1, 11, 12 and 13; any other rank is its parsed number |
| CardMatrix.RankValues | src/components/game/CardMatrix.tsx:10-23 | the thirteen ranks have the values 1 to 13 in order, each value once |
| CardMatrix.SymbolsMatchRanks | src/components/game/CardMatrix.tsx:11 | the server's symbol for each rank's value is the rank, with 10 written T |
| CardMatrix.IsCardSelected | src/components/game/CardMatrix.tsx:13-15 | true iff some selected card has this suit and this rank |
| CardMatrix.MakeCard | src/components/game/CardMatrix.tsx:47-52 | a grid card's id is its suit followed by its rank, and its value is `getValue` of the rank, between 1 and 13 |
| CardMatrix.Deck | src/components/game/CardMatrix.tsx:10-52 | the grid holds 52 cards, suit by suit and rank by rank |
| CardMatrix.CardIdInjective | src/components/game/CardMatrix.tsx:47-52 | two grid cards with the same id have the same suit and rank |
| CardMatrix.DeckIdsDistinct | src/components/game/CardMatrix.tsx:10-52 | the 52 grid cards have 52 different ids |
| CardSelection.Without | src/components/CardSelectionScreen.tsx:26 | removes exactly the cards with the given id and keeps all others |
| CardSelection.WithoutSnoc | src/components/CardSelectionScreen.tsx:26 | the filter keeps the remaining cards in their order: filtering a selection with a card added at the end filters the selection, then keeps that card iff its id differs |
| CardSelection.WithoutSplice | src/components/CardSelectionScreen.tsx:26 | with distinct ids, removing the id of the card at position k leaves exactly the cards before it followed by the cards after it |
| CardSelection.WithoutAbsent | src/components/CardSelectionScreen.tsx:26 | removing an id that is not there changes nothing |
| CardSelection.WithoutDistinct | src/components/CardSelectionScreen.tsx:26 | removal keeps ids distinct |
| CardSelection.WithoutRemovesOne | src/components/CardSelectionScreen.tsx:26 | with distinct ids, removing a present id shortens the selection by exactly one |
| CardSelection.Toggle | src/components/CardSelectionScreen.tsx:24-32 | afterwards the card is selected iff it was not selected and fewer than 8 were; a new card is appended at the end; a full selection is returned unchanged; a selected card is filtered out; other cards are kept and none added; at most 8 stay selected |
| CardSelection.ToggleDeselectKeepsOrder | src/components/CardSelectionScreen.tsx:24-26 | deselecting the card at position k of a selection with distinct ids leaves the other cards in the order they were picked |
| CardSelection.ToggleKeepsDistinct | src/components/CardSelectionScreen.tsx:24-32 | toggling keeps ids distinct, and deselecting shortens the selection by one |
| CardSelection.ToggleTwice | src/components/CardSelectionScreen.tsx:24-32 | selecting and then deselecting a card restores the selection |
| CardSelection.SuitCards | src/components/CardSelectionScreen.tsx:45-49 | the group of a suit holds exactly the cards of that suit |
| CardSelection.StepsAscendIff | src/components/CardSelectionScreen.tsx:53-60 | the neighbour check passes iff the group's values strictly increase everywhere |
| CardSelection.SuitsAscendingIff | src/components/CardSelectionScreen.tsx:43-62 | an arrangement is valid iff within each suit every earlier card has a smaller value than every later one |
| CardSelection.InterleavingIrrelevant | src/components/CardSelectionScreen.tsx:43-62 | validity depends only on each suit's own order, not on how suits interleave |
| CardSelection.SingleCardSuitsAccepted | src/components/CardSelectionScreen.tsx:53 | an arrangement with at most one card per suit is valid |
| CardSelection.StepsAscendAll | src/components/CardSelectionScreen.tsx:52-61 | an arrangement is valid iff every suit group passes the neighbour check |
| CardSelection.GroupBySuit | src/components/CardSelectionScreen.tsx:45-49 | the built map holds, for every suit present, exactly that suit's cards in order |
| CardSelection.CheckSuit | src/components/CardSelectionScreen.tsx:53-60 | the loop accepts iff each value is below the next |
| CardSelection.ValidateRostrumArrangement | src/components/CardSelectionScreen.tsx:43-62 | accepts iff the arrangement's suits ascend |
| CardSelection.SelectionScreen.constructor | src/components/CardSelectionScreen.tsx:24-41 | nothing selected, nothing on the rostrum, selection not complete |
| CardSelection.SelectionScreen.HandleCardSelect | src/components/CardSelectionScreen.tsx:24-32 | the selection becomes its toggle, and a warning is raised iff a ninth card was refused |
| CardSelection.SelectionScreen.HandleSelectionComplete | src/components/CardSelectionScreen.tsx:34-41 | completes iff exactly 8 cards are selected, and then the rostrum is the selection |
| CardSelection.SelectionScreen.HandleConfirmArrangement | src/components/CardSelectionScreen.tsx:64-77 | an invalid arrangement sends nothing and leaves the store alone; a valid one is stored, the arranged flag is set, and the two requests are sent in order |
| TruthGuess.ValidIsSymbol | src/components/game/TruthGuess.tsx:6 | each valid input character reads back as a face value 1 to 13 whose symbol is that character |
| TruthGuess.SymbolIsValid | src/components/game/TruthGuess.tsx:6 | only valid input characters read back as a face value |
| TruthGuess.ValueSymbolValid | src/components/game/TruthGuess.tsx:6 | the server's symbol for every face value is a valid input character |
| TruthGuess.ValidCardsAreSymbols | src/components/game/TruthGuess.tsx:6 | the valid characters are exactly the server's card symbols |
| TruthGuess.AcceptedIsUpper | src/components/game/TruthGuess.tsx:40-46 | an accepted guess is already upper case |
| TruthGuess.ValidSurvivesCase | src/components/game/TruthGuess.tsx:40-46 | valid characters survive lower-casing and upper-casing |
| TruthGuess.EncodedArrangementAccepted | src/components/game/TruthGuess.tsx:40-46 | the server's text for an 8-card arrangement is accepted, also when typed in lower case |
| TruthGuess.TypedArrangementWins | src/components/game/TruthGuess.tsx:40-53 | a winner typing the opponent's arrangement in either case sends an 8-symbol guess the server judges correct |
| TruthGuess.Visible | src/components/game/TruthGuess.tsx:28-38 | the panel is shown iff the selected action is truth and the store's last bid winner is this client's own seat |
| TruthGuess.VisibleToWinnerOnly | src/components/game/TruthGuess.tsx:28-38 | two stores that agree on the bid winner never both show the panel, and a new round hides it |
| TruthGuess.TruthGuessPanel.constructor | src/components/game/TruthGuess.tsx:9 | the guess starts empty |
| TruthGuess.TruthGuessPanel.HandleInputChange | src/components/game/TruthGuess.tsx:40-46 | an accepted upper-cased input replaces the guess, otherwise the guess stays; the guess stays acceptable |
| TruthGuess.TruthGuessPanel.HandleSubmitGuess | src/components/game/TruthGuess.tsx:48-53 | a request is sent iff the guess has 8 characters, under the store's room code |

## Left out

- Transport: the Socket.IO server, `socket.join`, CORS, static file serving and logging are not modelled. Emitted messages are returned as values, and socket ids are parameters.
- Timers and clocks: `Date.now()` is a parameter. The 15-minute `setInterval` is the explicit `Sweep` step. The 3-second `setTimeout` becomes a `ScheduledRound` value that `FireScheduledRound` runs.
- Random numbers: `Math.random` draws are a parameter, as indices into the alphabet.
- Registry.Rooms.CreateRoom: the source draws a sixth code before it throws. The model takes that draw as a parameter but, like the source, never checks it against the rooms or stores it.
- SocketHandlers.OnTruthGuess: after the `TypeError` when the host guesses without a guest, the model leaves the registry and every room intact and reports `threw`. What happens to the uncaught exception outside the handler is not modelled: `server/socket-handlers.js` has no `try`/`catch` there, and what the socket library does with an exception thrown by a listener is outside this model.
- Registry.Rooms.Sweep: `Map` iteration order is taken as a parameter listing each room once. The result does not depend on it.
- Registry.Rooms.Disconnect: the `{ isHost, isGuest }` value that `cleanupDisconnectedPlayer` returns is not used by its caller and is not modelled.
- The `player-ready` relay (server/index.js:263-283) is outside this model.
- Bids and card values are integers. The model does not cover non-numeric, fractional or `NaN` bids, payloads with missing fields, or `arrangedCards` that are not an array.
- CardMatrix.ParseInt: leading whitespace, a sign and the radix prefix that `parseInt` also accepts are not modelled. Ranks never contain them.
- Common.Upper: `toUpperCase`/`toLowerCase` are modelled on ASCII letters only. Other characters pass through unchanged.
- CardSelection.SelectionScreen.HandleConfirmArrangement: assumes a connected socket. When disconnected, the client service reconnects instead of emitting (src/services/socketService.ts:185-193), and that path is not modelled.
- Rendering, toasts, drag and drop on the rostrum, and the store setters outside this core (player name, room info, connection flags, timers) are not modelled.

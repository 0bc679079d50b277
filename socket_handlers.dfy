/** The game event handlers of server/socket-handlers.js: each looks the room up
    by the code exactly as sent, decides the caller's role once, applies one
    rule of `ServerGame` to the room's game object and records the activity
    time. An unknown room is ignored. What the handler sends is returned. */
module SocketHandlers {
  import opened Common
  import opened ServerGame
  import opened Events
  import opened Registry

  /** The `round_started` announcement. */
  function RoundStartedEvent(code: string, info: RoundInfo): Outbound
  {
    Emit(ToRoom(code), RoundStarted(info.roundNumber, info.hostTokens, info.guestTokens))
  }

  /** What the room hears once a bid is stored: who bid, and, when both bids are
      in, the tie or the outcome. */
  function BidEvents(code: string, role: Role, result: Option<Resolution>): (es: seq<Outbound>)
    ensures |es| >= 1 && es[0] == Emit(ToRoom(code), BidSubmitted(role))
    ensures |es| == 1 <==> result.None?
    ensures result.Some? && result.value.isTie ==>
      es == [es[0], Emit(ToRoom(code), BidTie(result.value.hostBid, result.value.guestBid,
                                             result.value.hostTokens, result.value.guestTokens))]
    ensures result.Some? && !result.value.isTie ==>
      es == [es[0], Emit(ToRoom(code), BidComplete(result.value.bidWinner, result.value.hostBid, result.value.guestBid,
                                                  result.value.hostTokens, result.value.guestTokens, result.value.phase))]
  {
    [Emit(ToRoom(code), BidSubmitted(role))]
      + match result
        case None => []
        case Some(r) =>
          if r.isTie then [Emit(ToRoom(code), BidTie(r.hostBid, r.guestBid, r.hostTokens, r.guestTokens))]
          else [Emit(ToRoom(code), BidComplete(r.bidWinner, r.hostBid, r.guestBid, r.hostTokens, r.guestTokens, r.phase))]
  }

  /** In a room whose game keeps the invariant, a valid bid's announcement
      carries the bid winner exactly when it is not a tie, and the winner is the
      higher bidder. */
  lemma BidEventsNameHigherBidder(g: Game, code: string, role: Role, bid: int)
    requires Inv(g) && ValidateBid(g, role, bid)
    ensures var s := SubmitBid(g, role, bid);
            var es := BidEvents(code, role, s.result);
            forall e :: e in es && e.payload.BidComplete? ==>
              e.payload.winner.Some? && e.payload.hostBid != e.payload.guestBid
              && (e.payload.winner == Some(Host) <==> e.payload.hostBid > e.payload.guestBid)
  {
  }

  /** The timer the server arms after a wrong truth guess: it holds the game
      object itself, not the room code's current entry. */
  datatype ScheduledRound = ScheduledRound(game: GameState, code: string)

  /** `submit_bid`. */
  method OnSubmitBid(reg: Rooms, socketId: string, code: string, bid: int, now: int) returns (events: seq<Outbound>)
    requires reg.Valid()
    modifies reg, reg.GameOf(code)
    ensures reg.Valid()
    ensures forall c :: c in old(reg.rooms) && c != code ==>
      old(reg.rooms)[c].game.Value() == old(reg.rooms[c].game.Value())
    ensures code !in old(reg.rooms) ==> reg.rooms == old(reg.rooms) && events == []
    ensures code in old(reg.rooms) ==>
      var room := old(reg.rooms)[code];
      var role := RoleOf(room, socketId);
      var before := old(room.game.Value());
      if !ValidateBid(before, role, bid) then
        // refused: the caller alone hears of it and nothing changes
        && events == [Emit(ToSocket(socketId), BidError("Invalid bid"))]
        && room.game.Value() == before && reg.rooms == old(reg.rooms)
      else
        var s := SubmitBid(before, role, bid);
        && room.game.Value() == s.next
        && events == BidEvents(code, role, s.result)
        && reg.rooms == old(reg.rooms)[code := room.(lastActivity := now)]
  {
    if code !in reg.rooms {
      return [];
    }
    var room := reg.rooms[code];
    var role := RoleOf(room, socketId);
    var game := room.game;
    if !ValidateBid(game.Value(), role, bid) {
      return [Emit(ToSocket(socketId), BidError("Invalid bid"))];
    }
    var result := game.HandleBidSubmission(role, bid);
    events := BidEvents(code, role, result);
    reg.rooms := reg.rooms[code := room.(lastActivity := now)];
  }

  /** `start_new_round`: any socket may start the next round at any time. */
  method OnStartNewRound(reg: Rooms, code: string, now: int) returns (events: seq<Outbound>)
    requires reg.Valid()
    modifies reg, reg.GameOf(code)
    ensures reg.Valid()
    ensures forall c :: c in old(reg.rooms) && c != code ==>
      old(reg.rooms)[c].game.Value() == old(reg.rooms[c].game.Value())
    ensures code !in old(reg.rooms) ==> reg.rooms == old(reg.rooms) && events == []
    ensures code in old(reg.rooms) ==>
      var room := old(reg.rooms)[code];
      var r := NewRound(old(room.game.Value()));
      && room.game.Value() == r.0
      && events == [RoundStartedEvent(code, r.1)]
      && reg.rooms == old(reg.rooms)[code := room.(lastActivity := now)]
  {
    if code !in reg.rooms {
      return [];
    }
    var room := reg.rooms[code];
    var info := room.game.StartNewRound();
    events := [RoundStartedEvent(code, info)];
    reg.rooms := reg.rooms[code := room.(lastActivity := now)];
  }

  /** `select-action`. */
  method OnSelectAction(reg: Rooms, socketId: string, code: string, action: ActionKind, now: int)
    returns (events: seq<Outbound>)
    requires reg.Valid()
    modifies reg, reg.GameOf(code)
    ensures reg.Valid()
    ensures forall c :: c in old(reg.rooms) && c != code ==>
      old(reg.rooms)[c].game.Value() == old(reg.rooms[c].game.Value())
    ensures code !in old(reg.rooms) ==> reg.rooms == old(reg.rooms) && events == []
    ensures code in old(reg.rooms) ==>
      var room := old(reg.rooms)[code];
      var s := SelectAction(old(room.game.Value()), RoleOf(room, socketId), action);
      && room.game.Value() == s.next
      && (s.error.Some? ==> events == [Emit(ToSocket(socketId), Error(s.error.value))] && reg.rooms == old(reg.rooms))
      && (s.error.None? ==> events == [] && reg.rooms == old(reg.rooms)[code := room.(lastActivity := now)])
  {
    if code !in reg.rooms {
      return [];
    }
    var room := reg.rooms[code];
    var error := room.game.SelectActionFor(RoleOf(room, socketId), action);
    if error.Some? {
      return [Emit(ToSocket(socketId), Error(error.value))];
    }
    events := [];
    reg.rooms := reg.rooms[code := room.(lastActivity := now)];
  }

  /** `save-arranged-cards`. */
  method OnSaveArrangedCards(reg: Rooms, socketId: string, code: string, cards: seq<Card>, now: int)
    requires reg.Valid()
    modifies reg, reg.GameOf(code)
    ensures reg.Valid()
    ensures forall c :: c in old(reg.rooms) && c != code ==>
      old(reg.rooms)[c].game.Value() == old(reg.rooms[c].game.Value())
    ensures code !in old(reg.rooms) ==> reg.rooms == old(reg.rooms)
    ensures code in old(reg.rooms) ==>
      var room := old(reg.rooms)[code];
      && room.game.Value() == SaveArrangedCards(old(room.game.Value()), RoleOf(room, socketId), cards)
      && reg.rooms == old(reg.rooms)[code := room.(lastActivity := now)]
  {
    if code !in reg.rooms {
      return;
    }
    var room := reg.rooms[code];
    room.game.SaveArrangedCardsFor(RoleOf(room, socketId), cards);
    reg.rooms := reg.rooms[code := room.(lastActivity := now)];
  }

  /** `submit_truth_guess`. A refused guess sends one error and changes nothing.
      A judged guess tells the guesser, then the opponent, then updates the game;
      a wrong guess also arms the deferred round. When the host guesses in a
      room without a guest, reading the guest's socket id fails (`threw`): the
      guesser has been told, and the game state is not updated. */
  method OnTruthGuess(reg: Rooms, socketId: string, code: string, guess: string, now: int)
    returns (events: seq<Outbound>, scheduled: Option<ScheduledRound>, threw: bool)
    requires reg.Valid()
    modifies reg, reg.GameOf(code)
    ensures reg.Valid()
    ensures forall c :: c in old(reg.rooms) && c != code ==>
      old(reg.rooms)[c].game.Value() == old(reg.rooms[c].game.Value())
    ensures code !in old(reg.rooms) ==> reg.rooms == old(reg.rooms) && events == [] && scheduled == None && !threw
    ensures code in old(reg.rooms) ==>
      var room := old(reg.rooms)[code];
      var role := RoleOf(room, socketId);
      var before := old(room.game.Value());
      var o := AdjudicateGuess(before, role, guess);
      match o
      case InvalidAction =>
        && events == [Emit(ToSocket(socketId), Error("Invalid action"))]
        && room.game.Value() == before && reg.rooms == old(reg.rooms) && scheduled == None && !threw
      case OpponentCardsMissing =>
        && events == [Emit(ToSocket(socketId), Error("Opponent cards not found"))]
        && room.game.Value() == before && reg.rooms == old(reg.rooms) && scheduled == None && !threw
      case Judged(correct, actual) =>
        var toGuesser := Emit(ToSocket(socketId), TruthGuessResult(GuesserReport(correct, actual)));
        if role == Host && room.guest.None? then
          && threw && events == [toGuesser] && scheduled == None
          && room.game.Value() == before && reg.rooms == old(reg.rooms)
        else
          var opponent := if role == Host then room.guest.value.id else room.host.id;
          && !threw
          && events == [toGuesser, Emit(ToSocket(opponent), TruthGuessResult(OpponentReport(correct)))]
          && room.game.Value() == ApplyVerdict(before, role, correct)
          && (scheduled.Some? <==> !correct)
          && (scheduled.Some? ==> scheduled.value == ScheduledRound(room.game, code))
          && reg.rooms == old(reg.rooms)[code := room.(lastActivity := now)]
  {
    scheduled, threw := None, false;
    if code !in reg.rooms {
      return [], None, false;
    }
    var room := reg.rooms[code];
    var role := RoleOf(room, socketId);
    var game := room.game;
    var outcome := AdjudicateGuess(game.Value(), role, guess);
    if outcome == InvalidAction {
      return [Emit(ToSocket(socketId), Error("Invalid action"))], None, false;
    }
    if outcome == OpponentCardsMissing {
      return [Emit(ToSocket(socketId), Error("Opponent cards not found"))], None, false;
    }
    var isCorrect := outcome.correct;
    events := [Emit(ToSocket(socketId), TruthGuessResult(GuesserReport(isCorrect, outcome.actual)))];
    if role == Host && room.guest.None? {
      return events, None, true;
    }
    var opponentSocket := if role == Host then room.guest.value.id else room.host.id;
    events := events + [Emit(ToSocket(opponentSocket), TruthGuessResult(OpponentReport(isCorrect)))];
    game.ApplyGuessVerdict(role, isCorrect);
    if !isCorrect {
      scheduled := Some(ScheduledRound(game, code));
    }
    reg.rooms := reg.rooms[code := room.(lastActivity := now)];
  }

  /** The deferred round three seconds after a wrong guess: it advances the game
      object it captured, whether or not the room still holds that object, and
      announces the round under the captured code. */
  method FireScheduledRound(task: ScheduledRound) returns (events: seq<Outbound>)
    modifies task.game
    ensures var r := NewRound(old(task.game.Value()));
            task.game.Value() == r.0 && events == [RoundStartedEvent(task.code, r.1)]
  {
    var info := task.game.StartNewRound();
    events := [RoundStartedEvent(task.code, info)];
  }
}

/** The authoritative state of one game and the rules that change it: the
    initial state, bid validation, bid resolution and the new round
    (server/utils.js), and the action choice, the saved arrangements and the
    truth guess (server/socket-handlers.js).

    `Game` is the state as a value and the functions over it are the
    specification; `GameState` is the object the server mutates in place, and
    each of its methods is proved against the matching function. */
module ServerGame {
  import opened Common
  import ArrangementCode

  const StartingTokens := 10
  /** Tokens both players receive whenever a pair of bids is resolved. */
  const RoundBonus := 2

  datatype PlayerState = PlayerState(
    ready: bool,
    cardsArranged: bool,
    tokens: int,
    currentBid: Option<int>,
    arrangedCards: seq<Card>)

  /** `selectedAction`, `winner` and `gameOver` are absent from the initial
      object; absent is modelled as None and false. */
  datatype Game = Game(
    started: bool,
    phase: Phase,
    roundNumber: int,
    host: PlayerState,
    guest: PlayerState,
    bidWinner: Option<Role>,
    isTie: bool,
    selectedAction: Option<ActionKind>,
    winner: Option<Role>,
    gameOver: bool)
  {
    function Player(r: Role): PlayerState
    {
      if r == Host then host else guest
    }

    function WithPlayer(r: Role, p: PlayerState): (g: Game)
      ensures g.Player(r) == p && g.Player(Other(r)) == Player(Other(r))
    {
      if r == Host then this.(host := p) else this.(guest := p)
    }
  }

  /** What survives every bid: everything except tokens, bids, phase, winner of
      the bid and the tie flag. */
  predicate SameOutsideBidding(g: Game, h: Game)
  {
    && h.started == g.started && h.roundNumber == g.roundNumber
    && h.selectedAction == g.selectedAction && h.winner == g.winner && h.gameOver == g.gameOver
    && h.host.ready == g.host.ready && h.guest.ready == g.guest.ready
    && h.host.cardsArranged == g.host.cardsArranged && h.guest.cardsArranged == g.guest.cardsArranged
    && h.host.arrangedCards == g.host.arrangedCards && h.guest.arrangedCards == g.guest.arrangedCards
  }

  predicate BidAffordable(p: PlayerState)
  {
    p.currentBid.Some? ==> 0 <= p.currentBid.value <= p.tokens
  }

  /** What every state the server reaches satisfies: tokens never go negative,
      a bid winner exists exactly in the action phase, the action phase holds the
      two bids that led to it, and in the bidding phase at most one bid is stored
      and it is covered by its player's tokens. */
  ghost predicate Inv(g: Game)
  {
    && g.roundNumber >= 1
    && g.host.tokens >= 0 && g.guest.tokens >= 0
    && (g.bidWinner.Some? <==> g.phase == Action)
    && (g.phase == Action ==> g.host.currentBid.Some? && g.guest.currentBid.Some?)
    && (g.phase == Bidding ==> !(g.host.currentBid.Some? && g.guest.currentBid.Some?))
    && (g.phase == Bidding ==> BidAffordable(g.host) && BidAffordable(g.guest))
  }

  function FreshPlayer(): PlayerState
  {
    PlayerState(false, false, StartingTokens, None, [])
  }

  /** `generateGameState`. */
  function InitialGame(): (g: Game)
    ensures g.phase == Bidding && g.roundNumber == 1 && !g.started
    ensures g.bidWinner == None && !g.isTie
    ensures forall r :: g.Player(r).tokens == 10 && g.Player(r).currentBid == None
    ensures forall r :: g.Player(r).arrangedCards == [] && !g.Player(r).ready && !g.Player(r).cardsArranged
    ensures g.selectedAction == None && g.winner == None && !g.gameOver
    ensures Inv(g)
  {
    Game(false, Bidding, 1, FreshPlayer(), FreshPlayer(), None, false, None, None, false)
  }

  // ---------------------------------------------------------------- bidding

  /** `validateBid`: an amount between 0 and the player's tokens, in the bidding
      phase, from a player with no bid stored this round. It reads the state and
      changes nothing. */
  predicate ValidateBid(g: Game, role: Role, bid: int)
  {
    && 0 <= bid <= g.Player(role).tokens
    && g.phase == Bidding
    && g.Player(role).currentBid.None?
  }

  /** The summary `handleBidSubmission` returns once both bids are in. */
  datatype Resolution = Resolution(
    hostBid: int,
    guestBid: int,
    hostTokens: int,
    guestTokens: int,
    isTie: bool,
    bidWinner: Option<Role>,
    phase: Phase)

  datatype Submission = Submission(next: Game, result: Option<Resolution>)

  /** `handleBidSubmission`: store the bid; when the opponent's bid is already
      stored, charge both bids, add the round bonus to both players and decide
      the round. */
  function SubmitBid(g: Game, role: Role, bid: int): (s: Submission)
    // The opponent has not bid: only the caller's bid is stored.
    ensures s.result.None? <==> g.Player(Other(role)).currentBid.None?
    ensures s.result.None? ==> s.next == g.WithPlayer(role, g.Player(role).(currentBid := Some(bid)))
    // Both bids are in: the round is resolved from the two stored amounts.
    ensures s.result.Some? ==>
      var hb := if role == Host then bid else g.host.currentBid.value;
      var gb := if role == Guest then bid else g.guest.currentBid.value;
      var r := s.result.value;
      && r.hostBid == hb && r.guestBid == gb
      && s.next.host.tokens == g.host.tokens - hb + RoundBonus == r.hostTokens
      && s.next.guest.tokens == g.guest.tokens - gb + RoundBonus == r.guestTokens
      && r.isTie == s.next.isTie == (hb == gb)
      && r.bidWinner == s.next.bidWinner && r.phase == s.next.phase
      && SameOutsideBidding(g, s.next)
      // a tie clears both bids and leaves phase and bid winner alone
      && (hb == gb ==>
            && s.next.host.currentBid == None && s.next.guest.currentBid == None
            && s.next.phase == g.phase && s.next.bidWinner == g.bidWinner)
      // otherwise the strictly higher bidder wins, the game moves to the action
      // phase and both bids stay stored
      && (hb != gb ==>
            && s.next.bidWinner.Some?
            && (s.next.bidWinner == Some(Host) ==> hb > gb)
            && (s.next.bidWinner == Some(Guest) ==> gb > hb)
            && s.next.phase == Action
            && s.next.host.currentBid == Some(hb) && s.next.guest.currentBid == Some(gb))
  {
    var recorded := Record(g, role, bid);
    if recorded.host.currentBid.None? || recorded.guest.currentBid.None? then
      Submission(recorded, None)
    else
      Resolve(recorded)
  }

  /** The first step of `handleBidSubmission`: store the caller's bid. */
  function Record(g: Game, role: Role, bid: int): Game
  {
    g.WithPlayer(role, g.Player(role).(currentBid := Some(bid)))
  }

  /** The rest of `handleBidSubmission` once both bids are stored: charge the
      bids, decide tie or winner, pay the round bonus and clear the bids of a
      tie. */
  function Resolve(recorded: Game): Submission
    requires recorded.host.currentBid.Some? && recorded.guest.currentBid.Some?
  {
    var hb, gb := recorded.host.currentBid.value, recorded.guest.currentBid.value;
    var next := ClearTiedBids(PayBonus(Decide(Charge(recorded, hb, gb), hb, gb)));
    Submission(next, Some(Resolution(hb, gb, next.host.tokens, next.guest.tokens, next.isTie, next.bidWinner, next.phase)))
  }

  function Charge(g: Game, hb: int, gb: int): Game
  {
    g.(host := g.host.(tokens := g.host.tokens - hb), guest := g.guest.(tokens := g.guest.tokens - gb))
  }

  function Decide(g: Game, hb: int, gb: int): Game
  {
    if hb == gb then g.(isTie := true)
    else g.(bidWinner := Some(if hb > gb then Host else Guest), isTie := false, phase := Action)
  }

  function PayBonus(g: Game): Game
  {
    g.(host := g.host.(tokens := g.host.tokens + RoundBonus), guest := g.guest.(tokens := g.guest.tokens + RoundBonus))
  }

  function ClearTiedBids(g: Game): Game
  {
    if g.isTie then g.(host := g.host.(currentBid := None), guest := g.guest.(currentBid := None)) else g
  }

  /** A validated bid keeps the invariant, and after a resolution each player
      holds at least the round bonus. */
  lemma ValidBidKeepsInv(g: Game, role: Role, bid: int)
    requires Inv(g) && ValidateBid(g, role, bid)
    ensures Inv(SubmitBid(g, role, bid).next)
    ensures SubmitBid(g, role, bid).result.Some? ==>
      SubmitBid(g, role, bid).next.host.tokens >= RoundBonus && SubmitBid(g, role, bid).next.guest.tokens >= RoundBonus
  {
  }

  /** Resolution depends only on the two stored amounts: host-then-guest and
      guest-then-host give the same state and the same summary, and the second
      bid is accepted in either order. */
  lemma ResolutionOrderIndependent(g: Game, hb: int, gb: int)
    requires g.host.currentBid.None? && g.guest.currentBid.None?
    ensures var hostFirst := SubmitBid(SubmitBid(g, Host, hb).next, Guest, gb);
            var guestFirst := SubmitBid(SubmitBid(g, Guest, gb).next, Host, hb);
            hostFirst == guestFirst && hostFirst.result.Some?
    ensures ValidateBid(g, Host, hb) && ValidateBid(g, Guest, gb) ==>
      ValidateBid(SubmitBid(g, Host, hb).next, Guest, gb) && ValidateBid(SubmitBid(g, Guest, gb).next, Host, hb)
  {
  }

  /** The round's worked example: from the initial state the host bids 3 and the
      guest 5; the guest wins with 10 - 5 + 2 = 7 tokens against the host's
      10 - 3 + 2 = 9, and the game moves to the action phase. */
  lemma ExampleRound()
    ensures var r := SubmitBid(SubmitBid(InitialGame(), Host, 3).next, Guest, 5);
            r.result == Some(Resolution(3, 5, 9, 7, false, Some(Guest), Action))
  {
  }

  datatype RoundInfo = RoundInfo(roundNumber: int, hostTokens: int, guestTokens: int)

  /** `startNewRound`: the next round begins in the bidding phase with no bids,
      no bid winner and no tie. */
  function NewRound(g: Game): (r: (Game, RoundInfo))
    ensures r.0.roundNumber == g.roundNumber + 1
    ensures r.0.phase == Bidding && r.0.bidWinner == None && !r.0.isTie
    // tokens, arrangements and readiness carry over; only the bids are cleared
    ensures forall p :: r.0.Player(p) == g.Player(p).(currentBid := None)
    // the action choice and the end-of-game flags are not reset
    ensures r.0.selectedAction == g.selectedAction && r.0.winner == g.winner
    ensures r.0.gameOver == g.gameOver && r.0.started == g.started
    ensures r.1 == RoundInfo(r.0.roundNumber, r.0.host.tokens, r.0.guest.tokens)
    ensures Inv(g) ==> Inv(r.0)
  {
    var next := g.(roundNumber := g.roundNumber + 1, phase := Bidding, bidWinner := None, isTie := false,
                   host := g.host.(currentBid := None), guest := g.guest.(currentBid := None));
    (next, RoundInfo(next.roundNumber, next.host.tokens, next.guest.tokens))
  }

  // ---------------------------------------------------------------- actions

  /** A rule's new state and, when it refused, the message sent to the caller. */
  datatype Step = Step(next: Game, error: Option<string>)

  /** The `select-action` guard and update: only the bid winner, and only in the
      action phase; an accepted choice replaces any earlier one. */
  function SelectAction(g: Game, role: Role, action: ActionKind): (s: Step)
    ensures s.error.None? <==> g.phase == Action && g.bidWinner == Some(role)
    ensures s.error.Some? ==> s.error == Some("Not your turn") && s.next == g
    ensures s.error.None? ==> s.next == g.(selectedAction := Some(action))
  {
    if g.phase != Action || g.bidWinner != Some(role) then Step(g, Some("Not your turn"))
    else Step(g.(selectedAction := Some(action)), None)
  }

  /** `save-arranged-cards`: the caller's arrangement is replaced, with no check
      on its length and no protection against a later overwrite. */
  function SaveArrangedCards(g: Game, role: Role, cards: seq<Card>): (h: Game)
    ensures h.Player(role).arrangedCards == cards
    ensures h.Player(role) == g.Player(role).(arrangedCards := cards)
    ensures h.Player(Other(role)) == g.Player(Other(role))
    ensures h.(host := g.host, guest := g.guest) == g
  {
    g.WithPlayer(role, g.Player(role).(arrangedCards := cards))
  }

  /** `cards-arranged`: the caller's progress flag. */
  function SetCardsArranged(g: Game, role: Role, arranged: bool): (h: Game)
    ensures h.Player(role) == g.Player(role).(cardsArranged := arranged)
    ensures h.Player(Other(role)) == g.Player(Other(role))
    ensures h.(host := g.host, guest := g.guest) == g
  {
    g.WithPlayer(role, g.Player(role).(cardsArranged := arranged))
  }

  // ------------------------------------------------------------- truth guess

  datatype GuessOutcome =
    | InvalidAction
    | OpponentCardsMissing
    | Judged(correct: bool, actual: string)

  /** May `role` make a truth guess now? */
  predicate MayGuess(g: Game, role: Role)
  {
    g.phase == Action && g.bidWinner == Some(role) && g.selectedAction == Some(Truth)
  }

  /** The checks and the comparison of `submit_truth_guess`: the guard, the
      opponent's arrangement, its text form and the exact, case-sensitive
      comparison. */
  function AdjudicateGuess(g: Game, role: Role, guess: string): (o: GuessOutcome)
    ensures o == InvalidAction <==> !MayGuess(g, role)
    ensures o == OpponentCardsMissing <==> MayGuess(g, role) && g.Player(Other(role)).arrangedCards == []
    ensures o.Judged? ==>
      && o.actual == ArrangementCode.Encode(g.Player(Other(role)).arrangedCards)
      && (o.correct <==> guess == o.actual)
  {
    if !MayGuess(g, role) then InvalidAction
    else
      var opponentCards := g.Player(Other(role)).arrangedCards;
      if |opponentCards| == 0 then OpponentCardsMissing
      else
        var actual := ArrangementCode.Encode(opponentCards);
        Judged(guess == actual, actual)
  }

  /** The state update after a judged guess: a correct guess ends the game with
      the guesser as winner; a wrong one sends the game back to bidding with no
      bids, no bid winner and no action. */
  function ApplyVerdict(g: Game, role: Role, correct: bool): (h: Game)
    ensures correct ==> h == g.(winner := Some(role), gameOver := true)
    ensures !correct ==> h.phase == Bidding && h.bidWinner == None && h.selectedAction == None
    ensures !correct ==> forall p :: h.Player(p) == g.Player(p).(currentBid := None)
    ensures !correct ==> h.(phase := g.phase, bidWinner := g.bidWinner, selectedAction := g.selectedAction,
                            host := g.host, guest := g.guest) == g
    ensures Inv(g) ==> Inv(h)
  {
    if correct then g.(winner := Some(role), gameOver := true)
    else g.(phase := Bidding, bidWinner := None, selectedAction := None,
            host := g.host.(currentBid := None), guest := g.guest.(currentBid := None))
  }

  /** The `truth_guess_result` payload. */
  datatype GuessReport = GuessReport(correct: bool, isGuesser: bool, actualArrangement: Option<string>)

  /** What the guesser is told: the arrangement is included only for a correct
      guess. */
  function GuesserReport(correct: bool, actual: string): (r: GuessReport)
    ensures r.isGuesser && r.correct == correct
    ensures r.actualArrangement.Some? <==> correct
    ensures r.actualArrangement.Some? ==> r.actualArrangement.value == actual
  {
    GuessReport(correct, true, if correct then Some(actual) else None)
  }

  /** What the opponent is told: never the arrangement. */
  function OpponentReport(correct: bool): (r: GuessReport)
    ensures !r.isGuesser && r.correct == correct && r.actualArrangement == None
  {
    GuessReport(correct, false, None)
  }

  /** Disclosure is asymmetric, and the arrangement the guesser is shown is the
      string the guesser sent: it is revealed only to someone who already had it. */
  lemma RevealOnlyRepeatsGuess(g: Game, role: Role, guess: string)
    requires AdjudicateGuess(g, role, guess).Judged?
    ensures var o := AdjudicateGuess(g, role, guess);
            && OpponentReport(o.correct).actualArrangement == None
            && (GuesserReport(o.correct, o.actual).actualArrangement.Some? <==> o.correct)
            && (o.correct ==> GuesserReport(o.correct, o.actual).actualArrangement == Some(guess))
  {
  }

  /** A guess that differs from a correct guess in a single position is judged
      wrong, and so is the lower-case spelling of a correct guess that holds a
      letter: the server compares exactly. */
  lemma ExactComparison(g: Game, role: Role, guess: string, i: int, c: char)
    requires AdjudicateGuess(g, role, guess) == Judged(true, guess)
    requires 0 <= i < |guess| && c != guess[i]
    ensures AdjudicateGuess(g, role, guess[i := c]) == Judged(false, guess)
    ensures 'A' <= guess[i] <= 'Z' ==> AdjudicateGuess(g, role, Lower(guess)) == Judged(false, guess)
  {
    assert guess[i := c][i] != guess[i];
    assert 'A' <= guess[i] <= 'Z' ==> Lower(guess)[i] != guess[i];
  }

  /** After a wrong guess, the deferred new round starts the next round in the
      bidding phase with no bids and no choice of action. */
  lemma WrongGuessThenNewRound(g: Game, role: Role)
    requires Inv(g) && MayGuess(g, role)
    ensures var h := NewRound(ApplyVerdict(g, role, false)).0;
            && h.roundNumber == g.roundNumber + 1 && h.phase == Bidding
            && h.bidWinner == None && h.selectedAction == None
            && h.host.currentBid == None && h.guest.currentBid == None
            && h.host.tokens == g.host.tokens && h.guest.tokens == g.guest.tokens
            && Inv(h)
  {
  }

  /** `start_new_round` has no guard: after a correct guess it reopens bidding
      while the game stays over and the winner stays recorded. */
  lemma NewRoundAfterGameOver(g: Game, role: Role)
    requires Inv(g) && MayGuess(g, role)
    ensures var h := NewRound(ApplyVerdict(g, role, true)).0;
            h.phase == Bidding && h.gameOver && h.winner == Some(role)
  {
  }

  // ------------------------------------------------------ the mutable object

  /** The game state object of a room, updated in place by the handlers. */
  class GameState {
    var started: bool
    var currentPhase: Phase
    var roundNumber: int
    var host: PlayerState
    var guest: PlayerState
    var bidWinner: Option<Role>
    var isTie: bool
    var selectedAction: Option<ActionKind>
    var winner: Option<Role>
    var gameOver: bool

    function Value(): Game
      reads this
    {
      Game(started, currentPhase, roundNumber, host, guest, bidWinner, isTie, selectedAction, winner, gameOver)
    }

    /** `generateGameState()`: a new object in the initial state. */
    constructor ()
      ensures Value() == InitialGame()
    {
      started := false;
      currentPhase := Bidding;
      roundNumber := 1;
      host := FreshPlayer();
      guest := FreshPlayer();
      bidWinner := None;
      isTie := false;
      selectedAction := None;
      winner := None;
      gameOver := false;
    }

    /** `handleBidSubmission`, step by step on the object. */
    method HandleBidSubmission(role: Role, bidAmount: int) returns (result: Option<Resolution>)
      modifies this
      ensures Value() == SubmitBid(old(Value()), role, bidAmount).next
      ensures result == SubmitBid(old(Value()), role, bidAmount).result
    {
      if role == Host {
        host := host.(currentBid := Some(bidAmount));
      } else {
        guest := guest.(currentBid := Some(bidAmount));
      }
      assert Value() == Record(old(Value()), role, bidAmount);
      if host.currentBid.Some? && guest.currentBid.Some? {
        result := ResolveStoredBids();
      } else {
        result := None;
      }
    }

    /** The part of `handleBidSubmission` that runs once both bids are stored. */
    method ResolveStoredBids() returns (result: Option<Resolution>)
      requires host.currentBid.Some? && guest.currentBid.Some?
      modifies this
      ensures Submission(Value(), result) == Resolve(old(Value()))
    {
      var hostBid := host.currentBid.value;
      var guestBid := guest.currentBid.value;
      ChargeBids(hostBid, guestBid);
      DecideAndPay(hostBid, guestBid);
      ClearBidsOnTie();
      result := Some(Resolution(hostBid, guestBid, host.tokens, guest.tokens, isTie, bidWinner, currentPhase));
    }

    /** Both players pay their bids. */
    method ChargeBids(hostBid: int, guestBid: int)
      modifies this
      ensures Value() == Charge(old(Value()), hostBid, guestBid)
    {
      host := host.(tokens := host.tokens - hostBid);
      guest := guest.(tokens := guest.tokens - guestBid);
    }

    /** Tie or winner, then the round bonus for both players. */
    method DecideAndPay(hostBid: int, guestBid: int)
      modifies this
      ensures Value() == PayBonus(Decide(old(Value()), hostBid, guestBid))
    {
      if hostBid == guestBid {
        isTie := true;
        host := host.(tokens := host.tokens + RoundBonus);
        guest := guest.(tokens := guest.tokens + RoundBonus);
      } else {
        bidWinner := Some(if hostBid > guestBid then Host else Guest);
        isTie := false;
        host := host.(tokens := host.tokens + RoundBonus);
        guest := guest.(tokens := guest.tokens + RoundBonus);
        if !isTie {
          currentPhase := Action;
        }
      }
    }

    /** A tie clears both stored bids. */
    method ClearBidsOnTie()
      modifies this
      ensures Value() == ClearTiedBids(old(Value()))
    {
      if isTie {
        host := host.(currentBid := None);
        guest := guest.(currentBid := None);
      }
    }

    /** `startNewRound`. */
    method StartNewRound() returns (info: RoundInfo)
      modifies this
      ensures (Value(), info) == NewRound(old(Value()))
    {
      roundNumber := roundNumber + 1;
      currentPhase := Bidding;
      bidWinner := None;
      isTie := false;
      host := host.(currentBid := None);
      guest := guest.(currentBid := None);
      info := RoundInfo(roundNumber, host.tokens, guest.tokens);
    }

    /** The guard and assignment of `select-action`. */
    method SelectActionFor(role: Role, action: ActionKind) returns (error: Option<string>)
      modifies this`selectedAction
      ensures Step(Value(), error) == SelectAction(old(Value()), role, action)
    {
      if currentPhase != Action || bidWinner != Some(role) {
        return Some("Not your turn");
      }
      selectedAction := Some(action);
      error := None;
    }

    /** The assignment of `save-arranged-cards`. */
    method SaveArrangedCardsFor(role: Role, cards: seq<Card>)
      modifies this`host, this`guest
      ensures Value() == SaveArrangedCards(old(Value()), role, cards)
    {
      if role == Host {
        host := host.(arrangedCards := cards);
      } else {
        guest := guest.(arrangedCards := cards);
      }
    }

    /** The assignment of `cards-arranged`. */
    method SetCardsArrangedFor(role: Role, arranged: bool)
      modifies this`host, this`guest
      ensures Value() == SetCardsArranged(old(Value()), role, arranged)
    {
      if role == Host {
        host := host.(cardsArranged := arranged);
      } else {
        guest := guest.(cardsArranged := arranged);
      }
    }

    /** The state update of `submit_truth_guess` once the guess is judged. */
    method ApplyGuessVerdict(role: Role, correct: bool)
      modifies this
      ensures Value() == ApplyVerdict(old(Value()), role, correct)
    {
      if correct {
        winner := Some(role);
        gameOver := true;
      } else {
        currentPhase := Bidding;
        bidWinner := None;
        selectedAction := None;
        host := host.(currentBid := None);
        guest := guest.(currentBid := None);
      }
    }
  }
}

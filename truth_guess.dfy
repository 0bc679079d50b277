/** The truth-guess panel (src/components/game/TruthGuess.tsx): shown only to
    the bid winner who chose Truth, it keeps an upper-case guess of at most
    eight card symbols and sends it once it is eight long. */
module TruthGuess {
  import opened Common
  import ArrangementCode
  import ServerGame
  import GameStore

  const GuessLength := 8

  /** The symbols the input admits: the server's symbols for Ace to King. */
  const ValidCards: seq<char> := ['A', '2', '3', '4', '5', '6', '7', '8', '9', 'T', 'J', 'Q', 'K']

  /** What the input keeps: at most eight characters, each a card symbol. */
  predicate Accepts(value: string)
  {
    |value| <= GuessLength && forall i :: 0 <= i < |value| ==> value[i] in ValidCards
  }

  /** The panel is rendered when this client chose Truth and won the bid. */
  predicate Visible(s: GameStore.StoreState)
  {
    s.board.selectedAction == Some(Truth) && s.lastWinner == Some(GameStore.OwnRole(s.isHost))
  }

  /** A valid character is the symbol of the face value it reads back as. */
  lemma ValidIsSymbol(c: char)
    requires c in ValidCards
    ensures ArrangementCode.SymbolValue(c).Some?
    ensures 1 <= ArrangementCode.SymbolValue(c).value <= 13
    ensures ArrangementCode.ValueSymbol(ArrangementCode.SymbolValue(c).value) == [c]
  {
    if '2' <= c <= '9' {
      assert ArrangementCode.DigitChar(c as int - '0' as int) == c;
    }
  }

  /** Only valid characters read back as a face value. */
  lemma SymbolIsValid(c: char)
    requires ArrangementCode.SymbolValue(c).Some?
    ensures c in ValidCards
  {
    if '2' <= c <= '9' {
      assert c == ValidCards[c as int - '1' as int];
    }
  }

  /** Every face value's symbol is valid. */
  lemma ValueSymbolValid(v: int)
    requires 1 <= v <= 13
    ensures ArrangementCode.ValueSymbol(v)[0] in ValidCards
  {
    if 2 <= v <= 9 {
      assert ArrangementCode.ValueSymbol(v)[0] == ValidCards[v - 1];
    }
  }

  /** The input admits exactly the one-character symbols the server writes for
      the face values. */
  lemma ValidCardsAreSymbols()
    ensures forall c :: c in ValidCards <==> ArrangementCode.SymbolValue(c).Some?
    ensures forall v :: 1 <= v <= 13 ==> ArrangementCode.ValueSymbol(v)[0] in ValidCards
  {
    forall c ensures c in ValidCards <==> ArrangementCode.SymbolValue(c).Some? {
      if c in ValidCards {
        ValidIsSymbol(c);
      }
      if ArrangementCode.SymbolValue(c).Some? {
        SymbolIsValid(c);
      }
    }
    forall v | 1 <= v <= 13 ensures ArrangementCode.ValueSymbol(v)[0] in ValidCards {
      ValueSymbolValid(v);
    }
  }

  /** An accepted guess is already upper case, so a lower-case letter never
      reaches the server's exact comparison. */
  lemma AcceptedIsUpper(value: string)
    requires Accepts(value)
    ensures Upper(value) == value
  {
    forall i | 0 <= i < |value| ensures Upper(value)[i] == value[i] {
      assert value[i] in ValidCards;
    }
  }

  /** Valid characters survive a round through lower case and back. */
  lemma ValidSurvivesCase(v: string)
    requires forall i :: 0 <= i < |v| ==> v[i] in ValidCards
    ensures Upper(Lower(v)) == v
  {
    var l := Lower(v);
    forall i | 0 <= i < |v| ensures Upper(l)[i] == v[i] {
      assert v[i] in ValidCards;
      assert l[i] == LowerChar(v[i]);
    }
  }

  /** The server's text for an eight-card arrangement is accepted as typed, and
      also when typed in lower case. */
  lemma EncodedArrangementAccepted(cards: seq<Card>)
    requires |cards| == GuessLength && ArrangementCode.InRange(cards)
    ensures Accepts(ArrangementCode.Encode(cards))
    ensures Upper(Lower(ArrangementCode.Encode(cards))) == ArrangementCode.Encode(cards)
  {
    var e := ArrangementCode.Encode(cards);
    ArrangementCode.EncodeInRange(cards);
    forall i | 0 <= i < |e| ensures e[i] in ValidCards {
      assert e[i] == ArrangementCode.ValueSymbol(cards[i].value)[0];
      ValueSymbolValid(cards[i].value);
    }
    ValidSurvivesCase(e);
  }

  /** The winner who types the opponent's arrangement, in either case, ends up
      with a guess the panel keeps and the server judges correct. */
  lemma TypedArrangementWins(g: ServerGame.Game, role: Role, input: string)
    requires ServerGame.MayGuess(g, role)
    requires var opponent := g.Player(Other(role)).arrangedCards;
      |opponent| == GuessLength && ArrangementCode.InRange(opponent)
      && (input == ArrangementCode.Encode(opponent) || input == Lower(ArrangementCode.Encode(opponent)))
    ensures Accepts(Upper(input)) && |Upper(input)| == GuessLength
    ensures ServerGame.AdjudicateGuess(g, role, Upper(input)).Judged?
    ensures ServerGame.AdjudicateGuess(g, role, Upper(input)).correct
  {
    var opponent := g.Player(Other(role)).arrangedCards;
    EncodedArrangementAccepted(opponent);
    ArrangementCode.EncodeInRange(opponent);
    AcceptedIsUpper(ArrangementCode.Encode(opponent));
  }

  /** A new round hides the panel, and only one of two clients that agree on
      the bid winner can see it. */
  lemma VisibleToWinnerOnly(hostView: GameStore.StoreState, guestView: GameStore.StoreState,
                            roundNumber: int, hostTokens: int, guestTokens: int)
    requires hostView.isHost && !guestView.isHost && hostView.lastWinner == guestView.lastWinner
    ensures !(Visible(hostView) && Visible(guestView))
    ensures !Visible(GameStore.HandleNewRound(hostView, roundNumber, hostTokens, guestTokens))
    ensures !Visible(GameStore.HandleNewRound(guestView, roundNumber, hostTokens, guestTokens))
  {
  }

  /** The panel's own state: the guess typed so far. */
  class TruthGuessPanel {
    var guess: string

    constructor ()
      ensures guess == "" && Accepts(guess)
    {
      guess := "";
    }

    /** `handleInputChange`: the input, upper-cased, replaces the guess when it
        is accepted; otherwise the guess stays as it was. */
    method HandleInputChange(input: string)
      modifies this
      ensures Accepts(Upper(input)) ==> guess == Upper(input)
      ensures !Accepts(Upper(input)) ==> guess == old(guess)
      ensures Accepts(old(guess)) ==> Accepts(guess)
    {
      var value := Upper(input);
      if |value| <= GuessLength && forall i :: 0 <= i < |value| ==> value[i] in ValidCards {
        guess := value;
      }
    }

    /** `handleSubmitGuess`: a full guess is sent under the store's room code;
        a shorter one is not sent. */
    method HandleSubmitGuess(store: GameStore.ClientStore) returns (sent: Option<GameStore.Request>)
      ensures sent.Some? <==> |guess| == GuessLength
      ensures sent.Some? ==> sent.value == GameStore.TruthGuessRequest(store.state.roomCode, guess)
    {
      if |guess| == GuessLength {
        return Some(GameStore.TruthGuessRequest(store.state.roomCode, guess));
      }
      return None;
    }
  }
}

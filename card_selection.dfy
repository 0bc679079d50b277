/** The card selection screen (src/components/CardSelectionScreen.tsx): a
    player picks eight cards from the grid, arranges them, and the arrangement
    is accepted only when the cards of each suit come in strictly ascending
    value. An accepted arrangement is stored and sent to the server. */
module CardSelection {
  import opened Common
  import GameStore

  const HandSize := 8

  predicate HasId(cards: seq<Card>, id: string)
  {
    exists i :: 0 <= i < |cards| && cards[i].id == id
  }

  predicate DistinctIds(cards: seq<Card>)
  {
    forall i, j :: 0 <= i < j < |cards| ==> cards[i].id != cards[j].id
  }

  /** `cards.filter(c => c.id !== id)`. */
  function Without(cards: seq<Card>, id: string): (r: seq<Card>)
    ensures forall c :: c in r <==> c in cards && c.id != id
    ensures |r| <= |cards|
  {
    if cards == [] then []
    else if cards[0].id == id then Without(cards[1..], id)
    else [cards[0]] + Without(cards[1..], id)
  }

  /** Filtering out an id that is not there changes nothing. */
  lemma {:induction false} WithoutAbsent(cards: seq<Card>, id: string)
    requires !HasId(cards, id)
    ensures Without(cards, id) == cards
  {
    if cards != [] {
      assert cards[0].id != id;
      assert !HasId(cards[1..], id) by {
        forall k | 0 <= k < |cards[1..]| ensures cards[1..][k].id != id {
          assert cards[1..][k] == cards[k + 1];
        }
      }
      WithoutAbsent(cards[1..], id);
      assert cards == [cards[0]] + cards[1..];
    }
  }

  /** The tail of a selection with distinct ids has distinct ids. */
  lemma TailDistinct(cards: seq<Card>)
    requires cards != [] && DistinctIds(cards)
    ensures DistinctIds(cards[1..])
    ensures !HasId(cards[1..], cards[0].id)
  {
    var tail := cards[1..];
    forall i, j | 0 <= i < j < |tail| ensures tail[i].id != tail[j].id {
      assert tail[i] == cards[i + 1] && tail[j] == cards[j + 1];
    }
    forall k | 0 <= k < |tail| ensures tail[k].id != cards[0].id {
      assert tail[k] == cards[k + 1];
    }
  }

  /** Filtering keeps the ids distinct. */
  lemma {:induction false} WithoutDistinct(cards: seq<Card>, id: string)
    requires DistinctIds(cards)
    ensures DistinctIds(Without(cards, id))
  {
    if cards != [] {
      TailDistinct(cards);
      WithoutDistinct(cards[1..], id);
      if cards[0].id != id {
        var rest := Without(cards[1..], id);
        forall k | 0 <= k < |rest| ensures rest[k].id != cards[0].id {
          assert rest[k] in cards[1..];
        }
        var r := [cards[0]] + rest;
        forall i, j | 0 <= i < j < |r| ensures r[i].id != r[j].id {
          assert r[j] == rest[j - 1];
          if i > 0 {
            assert r[i] == rest[i - 1];
          }
        }
      }
    }
  }

  /** With distinct ids, filtering out a present id removes exactly one card. */
  lemma {:induction false} WithoutRemovesOne(cards: seq<Card>, id: string)
    requires DistinctIds(cards) && HasId(cards, id)
    ensures |Without(cards, id)| == |cards| - 1
  {
    TailDistinct(cards);
    if cards[0].id == id {
      WithoutAbsent(cards[1..], id);
    } else {
      var k :| 0 <= k < |cards| && cards[k].id == id;
      assert cards[1..][k - 1] == cards[k];
      WithoutRemovesOne(cards[1..], id);
    }
  }

  /** Filtering is taken card by card from the front, so the cards it keeps
      stay in their order: filtering a selection with one more card at the end
      filters the selection and then keeps or drops that card. */
  lemma {:induction false} WithoutSnoc(cards: seq<Card>, c: Card, id: string)
    ensures Without(cards + [c], id) == Without(cards, id) + (if c.id == id then [] else [c])
  {
    if cards == [] {
      assert [c][1..] == [];
    } else {
      assert (cards + [c])[1..] == cards[1..] + [c];
      WithoutSnoc(cards[1..], c, id);
    }
  }

  /** With distinct ids, filtering out the id of the card at position k splices
      that card out and leaves the cards before and after it in place. */
  lemma {:induction false} WithoutSplice(cards: seq<Card>, id: string, k: nat)
    requires DistinctIds(cards) && k < |cards| && cards[k].id == id
    ensures Without(cards, id) == cards[..k] + cards[k + 1..]
  {
    TailDistinct(cards);
    if k == 0 {
      WithoutAbsent(cards[1..], id);
    } else {
      assert cards[1..][k - 1] == cards[k];
      WithoutSplice(cards[1..], id, k - 1);
      assert cards[1..][..k - 1] == cards[1..k] && cards[1..][k..] == cards[k + 1..];
      assert cards[..k] == [cards[0]] + cards[1..k];
    }
  }

  /** `handleCardSelect` on the selection: a selected card is deselected; a new
      card is added while fewer than eight are selected; otherwise nothing
      changes. */
  function Toggle(selected: seq<Card>, card: Card): (r: seq<Card>)
    ensures HasId(r, card.id) <==> !HasId(selected, card.id) && |selected| < HandSize
    ensures forall c :: c in selected && c.id != card.id ==> c in r
    ensures forall c :: c in r && c.id != card.id ==> c in selected
    ensures |selected| <= HandSize ==> |r| <= HandSize
    ensures !HasId(selected, card.id) && |selected| < HandSize ==> r == selected + [card]
    ensures !HasId(selected, card.id) && |selected| >= HandSize ==> r == selected
    ensures HasId(selected, card.id) ==> r == Without(selected, card.id)
  {
    if HasId(selected, card.id) then
      var r := Without(selected, card.id);
      assert forall k :: 0 <= k < |r| ==> r[k] in r;
      r
    else if |selected| < HandSize then
      assert (selected + [card])[|selected|].id == card.id;
      selected + [card]
    else selected
  }

  /** A selection never holds the same card twice, and deselecting a card
      shortens it by exactly one. */
  lemma ToggleKeepsDistinct(selected: seq<Card>, card: Card)
    requires DistinctIds(selected)
    ensures DistinctIds(Toggle(selected, card))
    ensures HasId(selected, card.id) ==> |Toggle(selected, card)| == |selected| - 1
  {
    if HasId(selected, card.id) {
      WithoutDistinct(selected, card.id);
      WithoutRemovesOne(selected, card.id);
    }
  }

  /** Deselecting a card from a selection with distinct ids leaves the other
      cards in the order they were picked. */
  lemma ToggleDeselectKeepsOrder(selected: seq<Card>, card: Card, k: nat)
    requires DistinctIds(selected) && k < |selected| && selected[k].id == card.id
    ensures Toggle(selected, card) == selected[..k] + selected[k + 1..]
  {
    WithoutSplice(selected, card.id, k);
  }

  /** Selecting the same card twice leaves the selection as it was. */
  lemma ToggleTwice(selected: seq<Card>, card: Card)
    requires !HasId(selected, card.id) && |selected| < HandSize
    ensures Toggle(Toggle(selected, card), card) == selected
  {
    var added := selected + [card];
    assert added[|selected|].id == card.id;
    WithoutLast(selected, card);
  }

  lemma {:induction false} WithoutLast(cards: seq<Card>, card: Card)
    requires !HasId(cards, card.id)
    ensures Without(cards + [card], card.id) == cards
  {
    if cards == [] {
      assert [card][1..] == [];
    } else {
      assert (cards + [card])[1..] == cards[1..] + [card];
      assert !HasId(cards[1..], card.id) by {
        forall k | 0 <= k < |cards[1..]| ensures cards[1..][k].id != card.id {
          assert cards[1..][k] == cards[k + 1];
        }
      }
      WithoutLast(cards[1..], card);
      assert cards == [cards[0]] + cards[1..];
    }
  }

  // ----------------------------------------------------- the arrangement rule

  /** The cards of one suit, in arrangement order. */
  function SuitCards(cards: seq<Card>, suit: string): (r: seq<Card>)
    ensures forall c :: c in r <==> c in cards && c.suit == suit
    ensures |r| <= |cards|
  {
    if cards == [] then []
    else
      var last := cards[|cards| - 1];
      var earlier := SuitCards(cards[..|cards| - 1], suit);
      assert cards == cards[..|cards| - 1] + [last];
      if last.suit == suit then earlier + [last] else earlier
  }

  /** What the loop of `validateRostrumArrangement` checks of one suit: each
      card's value is below the next one's. */
  predicate StepsAscend(cs: seq<Card>)
  {
    forall i :: 0 <= i < |cs| - 1 ==> cs[i].value < cs[i + 1].value
  }

  /** Every earlier card is worth less than every later card. */
  predicate StrictlyIncreasing(cs: seq<Card>)
  {
    forall i, j :: 0 <= i < j < |cs| ==> cs[i].value < cs[j].value
  }

  /** The arrangement rule: two cards of the same suit are in ascending order of
      value; equal values in one suit are refused. */
  predicate SuitsAscending(cards: seq<Card>)
  {
    forall i, j :: 0 <= i < j < |cards| && cards[i].suit == cards[j].suit ==> cards[i].value < cards[j].value
  }

  /** Comparing neighbours is enough: the steps ascend exactly when the whole
      sequence does. */
  lemma {:induction false} StepsAscendIff(cs: seq<Card>)
    ensures StepsAscend(cs) <==> StrictlyIncreasing(cs)
    decreases |cs|
  {
    if |cs| >= 2 {
      var init := cs[..|cs| - 1];
      StepsAscendIff(init);
      if StepsAscend(cs) {
        assert StepsAscend(init);
        forall i, j | 0 <= i < j < |cs| ensures cs[i].value < cs[j].value {
          if j < |cs| - 1 {
            assert init[i] == cs[i] && init[j] == cs[j];
          } else if i < j - 1 {
            assert init[i] == cs[i] && init[j - 1] == cs[j - 1];
          }
        }
      }
    }
  }

  /** How each suit's cards grow when one card is appended. */
  lemma SuitCardsSnoc(pre: seq<Card>, c: Card)
    ensures SuitCards(pre + [c], c.suit) == SuitCards(pre, c.suit) + [c]
    ensures forall s :: s != c.suit ==> SuitCards(pre + [c], s) == SuitCards(pre, s)
  {
    assert (pre + [c])[..|pre|] == pre;
  }

  lemma IncreasingSnoc(g: seq<Card>, c: Card)
    ensures StrictlyIncreasing(g + [c]) <==> StrictlyIncreasing(g) && forall x :: x in g ==> x.value < c.value
  {
    var h := g + [c];
    if StrictlyIncreasing(h) {
      forall i, j | 0 <= i < j < |g| ensures g[i].value < g[j].value {
        assert h[i] == g[i] && h[j] == g[j];
      }
      forall x | x in g ensures x.value < c.value {
        var k :| 0 <= k < |g| && g[k] == x;
        assert h[k] == x && h[|g|] == c;
      }
    }
  }

  lemma SuitsAscendingSnoc(pre: seq<Card>, c: Card)
    ensures SuitsAscending(pre + [c]) <==>
      SuitsAscending(pre) && forall x :: x in pre && x.suit == c.suit ==> x.value < c.value
  {
    var cards := pre + [c];
    if SuitsAscending(cards) {
      forall i, j | 0 <= i < j < |pre| && pre[i].suit == pre[j].suit ensures pre[i].value < pre[j].value {
        assert cards[i] == pre[i] && cards[j] == pre[j];
      }
      forall x | x in pre && x.suit == c.suit ensures x.value < c.value {
        var k :| 0 <= k < |pre| && pre[k] == x;
        assert cards[k] == x && cards[|pre|] == c;
      }
    } else {
      var i, j :| 0 <= i < j < |cards| && cards[i].suit == cards[j].suit && cards[i].value >= cards[j].value;
      if j < |pre| {
        assert pre[i] == cards[i] && pre[j] == cards[j];
      } else {
        assert cards[i] in pre;
      }
    }
  }

  /** Each suit's cards strictly increase. */
  ghost predicate EverySuitIncreases(cards: seq<Card>)
  {
    forall s :: StrictlyIncreasing(SuitCards(cards, s))
  }

  lemma {:induction false} AscendingSuitsIncrease(cards: seq<Card>)
    requires SuitsAscending(cards)
    ensures EverySuitIncreases(cards)
    decreases |cards|
  {
    if cards != [] {
      var pre, c := cards[..|cards| - 1], cards[|cards| - 1];
      assert cards == pre + [c];
      SuitsAscendingSnoc(pre, c);
      AscendingSuitsIncrease(pre);
      SuitCardsSnoc(pre, c);
      var g := SuitCards(pre, c.suit);
      IncreasingSnoc(g, c);
      forall s ensures StrictlyIncreasing(SuitCards(cards, s)) {
        assert StrictlyIncreasing(SuitCards(pre, s));
        if s == c.suit {
          assert forall x :: x in g ==> x.value < c.value;
          assert StrictlyIncreasing(g + [c]);
        }
      }
    }
  }

  lemma {:induction false} IncreasingSuitsAscend(cards: seq<Card>)
    requires EverySuitIncreases(cards)
    ensures SuitsAscending(cards)
    decreases |cards|
  {
    if cards != [] {
      var pre, c := cards[..|cards| - 1], cards[|cards| - 1];
      assert cards == pre + [c];
      SuitCardsSnoc(pre, c);
      var g := SuitCards(pre, c.suit);
      IncreasingSnoc(g, c);
      assert StrictlyIncreasing(SuitCards(cards, c.suit));
      forall s ensures StrictlyIncreasing(SuitCards(pre, s)) {
        assert StrictlyIncreasing(SuitCards(cards, s));
      }
      IncreasingSuitsAscend(pre);
      SuitsAscendingSnoc(pre, c);
    }
  }

  /** The rule, suit by suit: an arrangement is accepted exactly when each
      suit's cards strictly increase. */
  lemma SuitsAscendingIff(cards: seq<Card>)
    ensures SuitsAscending(cards) <==> EverySuitIncreases(cards)
  {
    if SuitsAscending(cards) {
      AscendingSuitsIncrease(cards);
    }
    if EverySuitIncreases(cards) {
      IncreasingSuitsAscend(cards);
    }
  }

  /** Only the order within each suit matters: two arrangements that agree suit
      by suit are accepted or refused together, however the suits interleave. */
  lemma InterleavingIrrelevant(a: seq<Card>, b: seq<Card>)
    requires forall s :: SuitCards(a, s) == SuitCards(b, s)
    ensures SuitsAscending(a) <==> SuitsAscending(b)
  {
    SuitsAscendingIff(a);
    SuitsAscendingIff(b);
    if EverySuitIncreases(a) {
      forall s ensures StrictlyIncreasing(SuitCards(b, s)) {
        assert StrictlyIncreasing(SuitCards(a, s));
        assert SuitCards(a, s) == SuitCards(b, s);
      }
    }
    if EverySuitIncreases(b) {
      forall s ensures StrictlyIncreasing(SuitCards(a, s)) {
        assert StrictlyIncreasing(SuitCards(b, s));
        assert SuitCards(a, s) == SuitCards(b, s);
      }
    }
  }

  /** An arrangement with at most one card of each suit is always accepted. */
  lemma SingleCardSuitsAccepted(cards: seq<Card>)
    requires forall s :: |SuitCards(cards, s)| <= 1
    ensures SuitsAscending(cards)
  {
    SuitsAscendingIff(cards);
    forall s ensures StrictlyIncreasing(SuitCards(cards, s)) {
      assert |SuitCards(cards, s)| <= 1;
    }
  }

  /** What the check accepts: each suit's neighbours ascend. */
  ghost predicate EverySuitStepsAscend(cards: seq<Card>)
  {
    forall s :: StepsAscend(SuitCards(cards, s))
  }

  /** Checking neighbours suit by suit decides the arrangement rule. */
  lemma StepsAscendAll(cards: seq<Card>)
    ensures SuitsAscending(cards) <==> EverySuitStepsAscend(cards)
  {
    SuitsAscendingIff(cards);
    if EverySuitIncreases(cards) {
      forall s ensures StepsAscend(SuitCards(cards, s)) {
        assert StrictlyIncreasing(SuitCards(cards, s));
        StepsAscendIff(SuitCards(cards, s));
      }
    }
    if EverySuitStepsAscend(cards) {
      forall s ensures StrictlyIncreasing(SuitCards(cards, s)) {
        assert StepsAscend(SuitCards(cards, s));
        StepsAscendIff(SuitCards(cards, s));
      }
    }
  }

  /** The `reduce` of `validateRostrumArrangement`: each suit that occurs maps
      to its cards in arrangement order. */
  method GroupBySuit(cards: seq<Card>) returns (suitGroups: map<string, seq<Card>>)
    ensures forall s :: s in suitGroups ==> suitGroups[s] == SuitCards(cards, s)
    ensures forall s :: s !in suitGroups ==> SuitCards(cards, s) == []
  {
    suitGroups := map[];
    for i := 0 to |cards|
      invariant forall s :: s in suitGroups ==> suitGroups[s] == SuitCards(cards[..i], s)
      invariant forall s :: s !in suitGroups ==> SuitCards(cards[..i], s) == []
    {
      var card := cards[i];
      assert cards[..i + 1] == cards[..i] + [card];
      SuitCardsSnoc(cards[..i], card);
      if card.suit !in suitGroups {
        suitGroups := suitGroups[card.suit := []];
      }
      suitGroups := suitGroups[card.suit := suitGroups[card.suit] + [card]];
    }
    assert cards[..|cards|] == cards;
  }

  /** The test `every` applies to one suit's cards. */
  method CheckSuit(suitCards: seq<Card>) returns (ok: bool)
    ensures ok <==> StepsAscend(suitCards)
  {
    if |suitCards| <= 1 {
      return true;
    }
    for i := 0 to |suitCards| - 1
      invariant forall m :: 0 <= m < i ==> suitCards[m].value < suitCards[m + 1].value
    {
      var current := suitCards[i].value;
      var next := suitCards[i + 1].value;
      if current >= next {
        return false;
      }
    }
    return true;
  }

  /** `validateRostrumArrangement`: groups the cards by suit, then checks the
      groups one by one, in whatever order the keys come. */
  method ValidateRostrumArrangement(cards: seq<Card>) returns (ok: bool)
    ensures ok <==> SuitsAscending(cards)
  {
    var suitGroups := GroupBySuit(cards);
    StepsAscendAll(cards);
    var pending := suitGroups.Keys;
    while pending != {}
      invariant pending <= suitGroups.Keys
      invariant forall s :: s in suitGroups.Keys - pending ==> StepsAscend(suitGroups[s])
      decreases |pending|
    {
      var suit :| suit in pending;
      var suitOk := CheckSuit(suitGroups[suit]);
      if !suitOk {
        assert !StepsAscend(SuitCards(cards, suit));
        assert !EverySuitStepsAscend(cards);
        return false;
      }
      pending := pending - {suit};
    }
    assert EverySuitStepsAscend(cards) by {
      forall s ensures StepsAscend(SuitCards(cards, s)) {
        if s in suitGroups {
          assert s in suitGroups.Keys - pending;
        }
      }
    }
    return true;
  }

  // ------------------------------------------------------------- the screen

  /** The screen's own state. */
  class SelectionScreen {
    var selectedCards: seq<Card>
    var rostrumCards: seq<Card>
    var isSelectionComplete: bool

    constructor ()
      ensures selectedCards == [] && rostrumCards == [] && !isSelectionComplete
    {
      selectedCards, rostrumCards, isSelectionComplete := [], [], false;
    }

    /** `handleCardSelect`; `warned` is the "only 8 cards" warning. */
    method HandleCardSelect(card: Card) returns (warned: bool)
      modifies this`selectedCards
      ensures selectedCards == Toggle(old(selectedCards), card)
      ensures warned <==> !HasId(old(selectedCards), card.id) && |old(selectedCards)| >= HandSize
    {
      warned := false;
      if HasId(selectedCards, card.id) {
        selectedCards := Without(selectedCards, card.id);
      } else if |selectedCards| < HandSize {
        selectedCards := selectedCards + [card];
      } else {
        warned := true;
      }
    }

    /** `handleSelectionComplete`: only a full hand moves on to arranging. */
    method HandleSelectionComplete() returns (complete: bool)
      modifies this`isSelectionComplete, this`rostrumCards
      ensures complete <==> |selectedCards| == HandSize
      ensures complete ==> isSelectionComplete && rostrumCards == selectedCards
      ensures !complete ==> isSelectionComplete == old(isSelectionComplete) && rostrumCards == old(rostrumCards)
    {
      complete := |selectedCards| == HandSize;
      if complete {
        isSelectionComplete := true;
        rostrumCards := selectedCards;
      }
    }

    /** `handleConfirmArrangement`: a refused arrangement is neither stored nor
        sent; an accepted one is stored, announced as arranged and sent to the
        server under the store's room code. */
    method HandleConfirmArrangement(store: GameStore.ClientStore) returns (sent: seq<GameStore.Request>)
      modifies store
      ensures !SuitsAscending(rostrumCards) ==> sent == [] && store.state == old(store.state)
      ensures SuitsAscending(rostrumCards) ==>
        && store.state == GameStore.SetCardsArranged(GameStore.SetArrangedCards(old(store.state), rostrumCards), true)
        && sent == [GameStore.CardsArrangedRequest(old(store.state.roomCode), true),
                    GameStore.SaveArrangedCardsRequest(old(store.state.roomCode), rostrumCards)]
    {
      var ok := ValidateRostrumArrangement(rostrumCards);
      if !ok {
        return [];
      }
      var roomCode := store.state.roomCode;
      store.SetArrangedCardsAction(rostrumCards);
      sent := [GameStore.CardsArrangedRequest(roomCode, true)];
      store.SetCardsArrangedAction(true);
      sent := sent + [GameStore.SaveArrangedCardsRequest(roomCode, rostrumCards)];
    }
  }
}

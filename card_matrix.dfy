/** The card grid the players pick from (src/components/game/CardMatrix.tsx):
    four suits by thirteen ranks, each card named by its suit and rank, with a
    face value from Ace = 1 to King = 13. */
module CardMatrix {
  import opened Common
  import ArrangementCode

  const Suits: seq<string> := ["♠", "♥", "♦", "♣"]
  const Ranks: seq<string> := ["A", "2", "3", "4", "5", "6", "7", "8", "9", "10", "J", "Q", "K"]

  predicate IsDigit(c: char)
  {
    '0' <= c <= '9'
  }

  /** The value of a run of decimal digits. */
  function DigitsValue(s: string): (n: nat)
    requires forall i :: 0 <= i < |s| ==> IsDigit(s[i])
    decreases |s|
  {
    if s == [] then 0
    else
      assert IsDigit(s[|s| - 1]);
      10 * DigitsValue(s[..|s| - 1]) + (s[|s| - 1] as int - '0' as int)
  }

  /** The length of the leading run of digits. */
  function DigitRun(s: string): (k: nat)
    ensures k <= |s| && forall i :: 0 <= i < k ==> IsDigit(s[i])
    ensures k < |s| ==> !IsDigit(s[k])
  {
    if s == [] || !IsDigit(s[0]) then 0 else 1 + DigitRun(s[1..])
  }

  /** `parseInt(s)` on a string with no leading blanks or sign: the value of the
      leading digits, or None (`NaN`) when the string does not start with one. */
  function ParseInt(s: string): (r: Option<int>)
    ensures r.None? <==> s == [] || !IsDigit(s[0])
    ensures r.Some? ==> r.value >= 0
  {
    var k := DigitRun(s);
    if k == 0 then None else Some(DigitsValue(s[..k]))
  }

  /** Digits read back give the number they were written from. */
  lemma {:induction false} DigitsRoundTrip(n: nat)
    ensures DigitsValue(ArrangementCode.NatToString(n)) == n
    decreases n
  {
    var s := ArrangementCode.NatToString(n);
    if n >= 10 {
      DigitsRoundTrip(n / 10);
      assert s[..|s| - 1] == ArrangementCode.NatToString(n / 10);
    }
  }

  /** `parseInt` inverts `toString` on non-negative integers. */
  lemma ParseIntRoundTrip(n: nat)
    ensures ParseInt(ArrangementCode.NatToString(n)) == Some(n)
  {
    var s := ArrangementCode.NatToString(n);
    assert DigitRun(s) == |s| by { DigitRunAll(s); }
    assert s[..|s|] == s;
    DigitsRoundTrip(n);
  }

  lemma {:induction false} DigitRunAll(s: string)
    requires forall i :: 0 <= i < |s| ==> IsDigit(s[i])
    ensures DigitRun(s) == |s|
  {
    if s != [] {
      DigitRunAll(s[1..]);
    }
  }

  /** `getValue`: the face value of a rank. */
  function GetValue(rank: string): (v: Option<int>)
    ensures rank == "A" ==> v == Some(1)
    ensures rank == "J" ==> v == Some(11)
    ensures rank == "Q" ==> v == Some(12)
    ensures rank == "K" ==> v == Some(13)
    ensures rank !in {"A", "J", "Q", "K"} ==> v == ParseInt(rank)
  {
    if rank == "A" then Some(1)
    else if rank == "J" then Some(11)
    else if rank == "Q" then Some(12)
    else if rank == "K" then Some(13)
    else ParseInt(rank)
  }

  /** The thirteen ranks have the values 1 to 13 in order: each value once, and
      the numeric ranks their own number. */
  lemma RankValues()
    ensures forall i :: 0 <= i < |Ranks| ==> GetValue(Ranks[i]) == Some(i + 1)
    ensures forall i, j :: 0 <= i < j < |Ranks| ==> GetValue(Ranks[i]) != GetValue(Ranks[j])
  {
    forall i | 1 <= i < 10
      ensures GetValue(Ranks[i]) == Some(i + 1)
    {
      assert Ranks[i] == ArrangementCode.NatToString(i + 1);
      ParseIntRoundTrip(i + 1);
    }
  }

  /** The server's symbol for each rank's value is the rank itself, except that
      10 is written T. */
  lemma SymbolsMatchRanks()
    ensures forall i :: 0 <= i < |Ranks| ==>
      ArrangementCode.ValueSymbol(i + 1) == (if Ranks[i] == "10" then "T" else Ranks[i])
  {
    forall i | 1 <= i < 9
      ensures ArrangementCode.ValueSymbol(i + 1) == Ranks[i]
    {
      assert ArrangementCode.ValueSymbol(i + 1) == [ArrangementCode.DigitChar(i + 1)];
    }
  }

  /** `isCardSelected`: some selected card has this suit and this rank. */
  function IsCardSelected(selected: seq<Card>, suit: string, rank: string): (b: bool)
    ensures b <==> exists i :: 0 <= i < |selected| && selected[i].suit == suit && selected[i].rank == rank
  {
    if selected == [] then false
    else (selected[0].suit == suit && selected[0].rank == rank) || IsCardSelected(selected[1..], suit, rank)
  }

  /** The card the grid offers at one suit and rank; its id is the suit
      followed by the rank. */
  function MakeCard(suit: string, rank: string): (c: Card)
    requires rank in Ranks
    ensures c.id == suit + rank && c.suit == suit && c.rank == rank
    ensures 1 <= c.value <= 13 && GetValue(rank) == Some(c.value)
  {
    RankValues();
    Card(suit + rank, suit, rank, GetValue(rank).value)
  }

  /** All 52 cards of the grid, suit by suit. */
  function Deck(): (d: seq<Card>)
    ensures |d| == |Suits| * |Ranks|
    ensures forall i :: 0 <= i < |d| ==> d[i] == MakeCard(Suits[i / |Ranks|], Ranks[i % |Ranks|])
  {
    seq(|Suits| * |Ranks|, i requires 0 <= i < |Suits| * |Ranks| => MakeCard(Suits[i / |Ranks|], Ranks[i % |Ranks|]))
  }

  /** A card id names its suit and its rank: a suit is one character, so two
      grid cards with the same id have the same suit and the same rank. */
  lemma CardIdInjective(a: nat, b: nat, c: nat, d: nat)
    requires a < |Suits| && c < |Suits| && b < |Ranks| && d < |Ranks|
    requires MakeCard(Suits[a], Ranks[b]).id == MakeCard(Suits[c], Ranks[d]).id
    ensures a == c && b == d
  {
    var x, y := Suits[a] + Ranks[b], Suits[c] + Ranks[d];
    assert |Suits[a]| == 1 && |Suits[c]| == 1;
    assert x[0] == Suits[a][0] && y[0] == Suits[c][0];
    assert Suits[a] == Suits[c];
    assert x[1..] == Ranks[b] && y[1..] == Ranks[d];
    RankValues();
  }

  /** The 52 cards of the grid have 52 different ids. */
  lemma DeckIdsDistinct()
    ensures forall i, j :: 0 <= i < j < |Deck()| ==> Deck()[i].id != Deck()[j].id
  {
    var d := Deck();
    assert |Ranks| == 13 && |d| == 52;
    forall i, j | 0 <= i < j < |d|
      ensures d[i].id != d[j].id
    {
      var si, ri, sj, rj := i / 13, i % 13, j / 13, j % 13;
      assert 0 <= si < 4 && 0 <= ri < 13 && i == 13 * si + ri;
      assert 0 <= sj < 4 && 0 <= rj < 13 && j == 13 * sj + rj;
      if d[i].id == d[j].id {
        CardIdInjective(si, ri, sj, rj);
        assert false;
      }
    }
  }
}

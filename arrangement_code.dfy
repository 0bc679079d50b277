/** The text form the server gives a player's arranged cards before it compares
    a truth guess with them: one symbol per card value, in card order, suits
    ignored (server/socket-handlers.js:223-230). */
module ArrangementCode {
  import opened Common

  function DigitChar(d: int): (c: char)
    requires 0 <= d <= 9
    ensures '0' <= c <= '9' && c as int - '0' as int == d
  {
    (d + '0' as int) as char
  }

  /** `Number.prototype.toString()` of a non-negative integer: its decimal digits
      with no leading zero. */
  function NatToString(n: nat): (s: string)
    ensures |s| >= 1 && forall i :: 0 <= i < |s| ==> '0' <= s[i] <= '9'
    ensures (|s| == 1) == (n < 10)
    ensures n >= 1 ==> s[0] != '0'
    decreases n
  {
    if n < 10 then [DigitChar(n)] else NatToString(n / 10) + [DigitChar(n % 10)]
  }

  /** `Number.prototype.toString()` of an integer. */
  function IntToString(n: int): (s: string)
    ensures n >= 0 ==> s == NatToString(n)
    ensures n < 0 ==> |s| >= 2 && s[0] == '-'
  {
    if n < 0 then "-" + NatToString(-n) else NatToString(n)
  }

  /** The symbol the server writes for one card value: A, T, J, Q, K for 1, 10,
      11, 12, 13 and the decimal form of any other value. */
  function ValueSymbol(v: int): (s: string)
    ensures 1 <= v <= 13 ==> |s| == 1
    ensures 2 <= v <= 9 ==> s == [DigitChar(v)]
  {
    if v == 1 then "A"
    else if v == 10 then "T"
    else if v == 11 then "J"
    else if v == 12 then "Q"
    else if v == 13 then "K"
    else IntToString(v)
  }

  /** The arrangement as the server spells it: the symbols of the card values
      joined in card order. */
  function Encode(cards: seq<Card>): string
  {
    if cards == [] then "" else ValueSymbol(cards[0].value) + Encode(cards[1..])
  }

  /** Every card carries a face value, Ace to King. */
  predicate InRange(cards: seq<Card>)
  {
    forall i :: 0 <= i < |cards| ==> 1 <= cards[i].value <= 13
  }

  function Values(cards: seq<Card>): (vs: seq<int>)
    ensures |vs| == |cards| && forall i :: 0 <= i < |cards| ==> vs[i] == cards[i].value
  {
    seq(|cards|, i requires 0 <= i < |cards| => cards[i].value)
  }

  /** Reads a symbol back as a face value; the inverse of ValueSymbol on 1..13. */
  function SymbolValue(c: char): Option<int>
  {
    match c
    case 'A' => Some(1)
    case 'T' => Some(10)
    case 'J' => Some(11)
    case 'Q' => Some(12)
    case 'K' => Some(13)
    case _ => if '2' <= c <= '9' then Some(c as int - '0' as int) else None
  }

  /** Each face value has its own one-character symbol. */
  lemma SymbolRoundTrip(v: int)
    requires 1 <= v <= 13
    ensures |ValueSymbol(v)| == 1 && SymbolValue(ValueSymbol(v)[0]) == Some(v)
  {
  }

  /** On face values the encoding spends exactly one character per card, and the
      character at position i is the symbol of card i. */
  lemma {:induction false} EncodeInRange(cards: seq<Card>)
    requires InRange(cards)
    ensures |Encode(cards)| == |cards|
    ensures forall i :: 0 <= i < |cards| ==> Encode(cards)[i] == ValueSymbol(cards[i].value)[0]
  {
    if cards != [] {
      EncodeInRange(cards[1..]);
      var head := ValueSymbol(cards[0].value);
      assert |head| == 1;
      forall i | 0 <= i < |cards|
        ensures Encode(cards)[i] == ValueSymbol(cards[i].value)[0]
      {
        if i > 0 {
          assert Encode(cards)[i] == Encode(cards[1..])[i - 1];
        }
      }
    }
  }

  /** On face values the encoding is injective: two arrangements with the same
      text have the same values in the same order, so a guess string names one
      value sequence. */
  lemma EncodeInjective(a: seq<Card>, b: seq<Card>)
    requires InRange(a) && InRange(b)
    requires Encode(a) == Encode(b)
    ensures Values(a) == Values(b)
  {
    EncodeInRange(a);
    EncodeInRange(b);
    forall i | 0 <= i < |a|
      ensures a[i].value == b[i].value
    {
      SymbolRoundTrip(a[i].value);
      SymbolRoundTrip(b[i].value);
    }
  }

  /** Cards of the same values in the same order encode alike, whatever their
      suits. */
  lemma {:induction false} EncodeIgnoresSuits(a: seq<Card>, b: seq<Card>)
    requires Values(a) == Values(b)
    ensures Encode(a) == Encode(b)
  {
    assert |a| == |Values(a)| == |Values(b)| == |b|;
    if a != [] {
      assert a[0].value == Values(a)[0] == Values(b)[0] == b[0].value;
      assert Values(a[1..]) == Values(b[1..]) by {
        forall i | 0 <= i < |a| - 1
          ensures Values(a[1..])[i] == Values(b[1..])[i]
        {
          assert Values(a)[i + 1] == Values(b)[i + 1];
        }
      }
      EncodeIgnoresSuits(a[1..], b[1..]);
    }
  }

  /** The worked example: Ace, 10, Jack, Queen, King, 2, 3, 4 reads "ATJQK234". */
  lemma ExampleArrangement(cards: seq<Card>)
    requires Values(cards) == [1, 10, 11, 12, 13, 2, 3, 4]
    ensures Encode(cards) == "ATJQK234"
  {
    assert |cards| == 8;
    assert InRange(cards) by {
      forall i | 0 <= i < |cards| ensures 1 <= cards[i].value <= 13 {
        assert cards[i].value == Values(cards)[i];
      }
    }
    EncodeInRange(cards);
    var e := Encode(cards);
    forall i | 0 <= i < 8 ensures e[i] == "ATJQK234"[i] {
      assert cards[i].value == Values(cards)[i];
    }
  }
}

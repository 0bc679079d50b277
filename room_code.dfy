/** Room codes (server/utils.js:2-11): five characters drawn from an alphabet
    without the look-alike characters I, O, 0 and 1. The random numbers are an
    input: a draw is the five indices `Math.floor(Math.random() * 32)` yields. */
module RoomCodes {

  const Alphabet := "ABCDEFGHJKLMNPQRSTUVWXYZ23456789"
  const CodeLength := 5

  /** Five indices into the alphabet, one per character of a code. */
  predicate ValidDraw(draw: seq<int>)
  {
    |draw| == CodeLength && forall i :: 0 <= i < |draw| ==> 0 <= draw[i] < |Alphabet|
  }

  /** The code a draw spells. */
  function CodeOf(draw: seq<int>): string
    requires ValidDraw(draw)
  {
    seq(CodeLength, i requires 0 <= i < CodeLength => Alphabet[draw[i]])
  }

  /** A well-formed room code: five alphabet characters. */
  predicate WellFormed(code: string)
  {
    |code| == CodeLength && forall i :: 0 <= i < |code| ==> code[i] in Alphabet
  }

  /** Every draw spells a well-formed code. */
  lemma CodeOfWellFormed(draw: seq<int>)
    requires ValidDraw(draw)
    ensures WellFormed(CodeOf(draw))
  {
    var code := CodeOf(draw);
    forall i | 0 <= i < |code| ensures code[i] in Alphabet {
      assert code[i] == Alphabet[draw[i]];
    }
  }

  /** `generateRoomCode`: appends one alphabet character per draw index. */
  method GenerateRoomCode(draw: seq<int>) returns (code: string)
    requires ValidDraw(draw)
    ensures code == CodeOf(draw)
    ensures WellFormed(code)
  {
    code := "";
    for i := 0 to CodeLength
      invariant |code| == i
      invariant forall k :: 0 <= k < i ==> code[k] == Alphabet[draw[k]]
    {
      code := code + [Alphabet[draw[i]]];
    }
  }

  /** The position of a character in the alphabet, -1 for a character the
      alphabet leaves out. */
  function IndexOf(c: char): (k: int)
    ensures -1 <= k < |Alphabet|
  {
    if 'A' <= c <= 'H' then c as int - 'A' as int
    else if 'J' <= c <= 'N' then c as int - 'A' as int - 1
    else if 'P' <= c <= 'Z' then c as int - 'A' as int - 2
    else if '2' <= c <= '9' then 24 + c as int - '2' as int
    else -1
  }

  /** IndexOf finds each alphabet character at its own position. */
  lemma IndexOfAlphabet()
    ensures forall i :: 0 <= i < |Alphabet| ==> IndexOf(Alphabet[i]) == i
  {
    forall i | 0 <= i < 8 ensures IndexOf(Alphabet[i]) == i {
      assert Alphabet[i] as int == 'A' as int + i;
    }
    forall i | 8 <= i < 13 ensures IndexOf(Alphabet[i]) == i {
      assert Alphabet[i] as int == 'A' as int + i + 1;
    }
    forall i | 13 <= i < 24 ensures IndexOf(Alphabet[i]) == i {
      assert Alphabet[i] as int == 'A' as int + i + 2;
    }
    forall i | 24 <= i < 32 ensures IndexOf(Alphabet[i]) == i {
      assert Alphabet[i] as int == '2' as int + i - 24;
    }
  }

  /** The alphabet has 32 distinct symbols and none of I, O, 0, 1. */
  lemma AlphabetShape()
    ensures |Alphabet| == 32
    ensures 'I' !in Alphabet && 'O' !in Alphabet && '0' !in Alphabet && '1' !in Alphabet
    ensures forall i, j :: 0 <= i < j < |Alphabet| ==> Alphabet[i] != Alphabet[j]
  {
    IndexOfAlphabet();
  }

  /** Every well-formed code is spelled by some draw, so the generator can reach
      all 32^5 codes. */
  lemma EveryCodeReachable(code: string)
    requires WellFormed(code)
    ensures exists draw :: ValidDraw(draw) && CodeOf(draw) == code
  {
    IndexOfAlphabet();
    var draw := seq(CodeLength, i requires 0 <= i < CodeLength => IndexOf(code[i]));
    forall i | 0 <= i < CodeLength
      ensures 0 <= draw[i] < |Alphabet| && Alphabet[draw[i]] == code[i]
    {
      var k :| 0 <= k < |Alphabet| && Alphabet[k] == code[i];
    }
    assert ValidDraw(draw);
    assert CodeOf(draw) == code;
  }
}

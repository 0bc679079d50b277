/** Values shared by the server model and the client model of the
    question-or-truth card game. */
module Common {

  datatype Option<+T> = None | Some(value: T)

  /** The two seats of a room: the player who created it and the one who joined. */
  datatype Role = Host | Guest

  /** The seat across the table. */
  function Other(r: Role): (o: Role)
    ensures o != r
  {
    if r == Host then Guest else Host
  }

  /** The server's `currentPhase`. */
  datatype Phase = Bidding | Action

  /** What the bid winner chose in the action phase. The server stores whatever
      string the client sent, so anything other than the two known actions is kept
      by name. */
  datatype ActionKind = Question | Truth | OtherAction(name: string)

  /** A playing card as the client builds it and the server stores it. */
  datatype Card = Card(id: string, suit: string, rank: string, value: int)

  /** `String.prototype.toUpperCase` restricted to the ASCII letters. */
  function UpperChar(c: char): (u: char)
    ensures 'a' <= c <= 'z' ==> 'A' <= u <= 'Z' && u as int == c as int - 32
    ensures !('a' <= c <= 'z') ==> u == c
  {
    if 'a' <= c <= 'z' then (c as int - 32) as char else c
  }

  /** `String.prototype.toLowerCase` restricted to the ASCII letters. */
  function LowerChar(c: char): (l: char)
    ensures 'A' <= c <= 'Z' ==> 'a' <= l <= 'z' && l as int == c as int + 32
    ensures !('A' <= c <= 'Z') ==> l == c
  {
    if 'A' <= c <= 'Z' then (c as int + 32) as char else c
  }

  function Upper(s: string): (u: string)
    ensures |u| == |s|
    ensures forall i :: 0 <= i < |s| ==> u[i] == UpperChar(s[i])
  {
    seq(|s|, i requires 0 <= i < |s| => UpperChar(s[i]))
  }

  function Lower(s: string): (l: string)
    ensures |l| == |s|
    ensures forall i :: 0 <= i < |s| ==> l[i] == LowerChar(s[i])
  {
    seq(|s|, i requires 0 <= i < |s| => LowerChar(s[i]))
  }

  /** The characters `String.prototype.trim` strips: ECMAScript WhiteSpace and
      LineTerminator. */
  predicate IsJsWhitespace(c: char)
  {
    || c == '\t' || c == '\n' || c == '\U{000B}' || c == '\U{000C}' || c == '\r'
    || c == ' ' || c == '\U{00A0}' || c == '\U{1680}'
    || ('\U{2000}' <= c <= '\U{200A}')
    || c == '\U{2028}' || c == '\U{2029}' || c == '\U{202F}' || c == '\U{205F}'
    || c == '\U{3000}' || c == '\U{FEFF}'
  }

  /** `!s.trim()`: the string is empty once leading and trailing whitespace is cut. */
  predicate IsBlank(s: string)
  {
    forall i :: 0 <= i < |s| ==> IsJsWhitespace(s[i])
  }
}

/** Splitting, trimming and decimal numbers, as far as paths and ticket numbers need them. */
module Texts {
  import opened Values

  /** The text up to the first occurrence of one of the stop characters. */
  function UpTo(text: string, stops: string): (r: string)
    ensures |r| <= |text| && r == text[..|r|]
    ensures forall c | c in r :: c !in stops
    ensures |r| < |text| ==> text[|r|] in stops
  {
    if text == [] || text[0] in stops then [] else [text[0]] + UpTo(text[1..], stops)
  }

  lemma {:induction false} UpToClean(front: string, back: string, stops: string)
    requires forall c | c in front :: c !in stops
    requires back == [] || back[0] in stops
    ensures UpTo(front + back, stops) == front
  {
    if front == [] {
      assert front + back == back;
    } else {
      assert front[0] in front && (front + back)[0] == front[0] && (front + back)[1..] == front[1..] + back;
      UpToClean(front[1..], back, stops);
    }
  }

  predicate IsSpace(c: char) {
    c == ' ' || 9 <= c as int <= 13
  }

  function TrimLeft(text: string): string {
    if text != [] && IsSpace(text[0]) then TrimLeft(text[1..]) else text
  }

  function TrimRight(text: string): string {
    if text != [] && IsSpace(text[|text| - 1]) then TrimRight(text[..|text| - 1]) else text
  }

  function Trim(text: string): string {
    TrimRight(TrimLeft(text))
  }

  // ---------------------------------------------------------------------------
  // Decimal numbers
  // ---------------------------------------------------------------------------

  predicate IsDigit(c: char) {
    '0' <= c <= '9'
  }

  function DigitOf(c: char): nat
    requires IsDigit(c)
  {
    c as int - '0' as int
  }

  function DigitText(n: nat): (c: char)
    requires n < 10
    ensures IsDigit(c) && DigitOf(c) == n
  {
    ('0' as int + n) as char
  }

  /** Digits, with single underscores allowed between them. */
  function ParseNat(text: string): Option<nat> {
    if text == [] || !IsDigit(text[|text| - 1]) then None
    else
      var front, last := text[..|text| - 1], DigitOf(text[|text| - 1]);
      if front == [] then Some(last)
      else
        match ParseNat(if front[|front| - 1] == '_' then front[..|front| - 1] else front)
        case Some(n) => Some(10 * n + last)
        case None => None
  }

  /** `int(text)` for ASCII text. */
  function ParseInt(text: string): Option<int> {
    var t := Trim(text);
    if t == [] then None
    else
      var sign := t[0] == '-' || t[0] == '+';
      match ParseNat(if sign then t[1..] else t)
      case None => None
      case Some(n) =>
        var value: int := n;
        Some(if t[0] == '-' then -value else value)
  }

  function NatText(n: nat): (r: string)
    ensures r != [] && forall c | c in r :: IsDigit(c)
  {
    if n < 10 then [DigitText(n)] else NatText(n / 10) + [DigitText(n % 10)]
  }

  function IntText(i: int): string {
    if i < 0 then "-" + NatText(-i) else NatText(i)
  }

  lemma {:induction false} ParseNatText(n: nat)
    ensures ParseNat(NatText(n)) == Some(n)
  {
    if n >= 10 {
      var front, text := NatText(n / 10), NatText(n);
      ParseNatText(n / 10);
      assert text[..|text| - 1] == front;
      assert front[|front| - 1] in front;
    }
  }

  lemma TrimsNothing(text: string)
    requires text != [] && !IsSpace(text[0]) && !IsSpace(text[|text| - 1])
    ensures Trim(text) == text
  {
  }

  lemma IntTextShape(i: int)
    ensures var t := IntText(i);
            && t != [] && !IsSpace(t[0]) && !IsSpace(t[|t| - 1])
            && t[0] != '+' && (t[0] == '-' <==> i < 0)
            && (if i < 0 then t[1..] == NatText(-i) else t == NatText(i))
  {
    hide NatText;
    var digits := NatText(if i < 0 then -i else i);
    assert digits[0] in digits && digits[|digits| - 1] in digits;
    if i < 0 {
      assert ("-" + digits)[1..] == digits;
    }
  }

  lemma ParseIntText(i: int)
    ensures ParseInt(IntText(i)) == Some(i)
  {
    IntTextShape(i);
    hide NatText, ParseNat, Trim, IntText;
    TrimsNothing(IntText(i));
    ParseNatText(if i < 0 then -i else i);
  }
}

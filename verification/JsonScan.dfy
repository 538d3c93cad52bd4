/**
 The scanner that cuts the first JSON object out of an agent's reply, and the round trip:
 whatever object a serializer wrote into the reply is handed to the parser, to the character.
 */
module JsonScan {
  import opened Values

  // ---------------------------------------------------------------------------
  // The scanner
  // ---------------------------------------------------------------------------

  /** Nesting depth, inside a string, after a backslash. */
  datatype Scan = Scan(depth: int, inString: bool, escaped: bool)

  const START := Scan(0, false, false)

  function Step(s: Scan, c: char): Scan {
    if s.inString then
      if s.escaped then s.(escaped := false)
      else if c == '\\' then s.(escaped := true)
      else if c == '\"' then s.(inString := false)
      else s
    else if c == '\"' then s.(inString := true)
    else if c == '{' then s.(depth := s.depth + 1)
    else if c == '}' then s.(depth := s.depth - 1)
    else s
  }

  /** The character that the scanner stops at: a closing brace, outside strings, back at depth 0. */
  predicate Closes(s: Scan, c: char) {
    !s.inString && c == '}' && s.depth == 1
  }

  function Run(s: Scan, text: string): Scan
    decreases |text|
  {
    if text == [] then s else Run(Step(s, text[0]), text[1..])
  }

  /** No proper prefix of the text makes the scanner stop. */
  predicate Silent(s: Scan, text: string)
    decreases |text|
  {
    text == [] || (!Closes(s, text[0]) && Silent(Step(s, text[0]), text[1..]))
  }

  /** How far a scan from the given state gets: the length up to and including the closing brace. */
  function ObjectLength(s: Scan, text: string): (r: Option<nat>)
    ensures r.Some? ==> 1 <= r.value <= |text|
    decreases |text|
  {
    if text == [] then None
    else if Closes(s, text[0]) then Some(1)
    else
      match ObjectLength(Step(s, text[0]), text[1..])
      case Some(n) => Some(n + 1)
      case None => None
  }

  predicate FenceAt(text: string, i: int) {
    0 <= i && i + 3 <= |text| && text[i] == '`' && text[i + 1] == '`' && text[i + 2] == '`'
  }

  /** Markdown fences, with or without the language tag, are dropped, leftmost first. */
  function StripFences(text: string): string
    decreases |text|
  {
    if FenceAt(text, 0) && "json" <= text[3..] then StripFences(text[7..])
    else if FenceAt(text, 0) then StripFences(text[3..])
    else if text == [] then []
    else [text[0]] + StripFences(text[1..])
  }

  function FindBrace(text: string): (r: Option<nat>)
    ensures r.Some? ==> r.value < |text|
  {
    if text == [] then None
    else if text[0] == '{' then Some(0)
    else match FindBrace(text[1..])
      case Some(n) => Some(n + 1)
      case None => None
  }

  /** The text handed to the parser, if any. */
  function Extract(text: string): Option<string> {
    var stripped := StripFences(text);
    match FindBrace(stripped)
    case None => None
    case Some(start) =>
      match ObjectLength(START, stripped[start..])
      case None => None
      case Some(n) => Some(stripped[start..start + n])
  }

  lemma {:induction false} FindBraceIs(text: string)
    ensures FindBrace(text).None? <==> '{' !in text
    ensures FindBrace(text).Some? ==>
              && FindBrace(text).value < |text| && text[FindBrace(text).value] == '{'
              && '{' !in text[..FindBrace(text).value]
  {
    if text != [] && text[0] != '{' {
      FindBraceIs(text[1..]);
      if FindBrace(text[1..]).Some? {
        var n := FindBrace(text[1..]).value;
        assert text[..n + 1] == [text[0]] + text[1..][..n];
      }
      assert text == [text[0]] + text[1..];
    }
  }

  /** The scan as the source runs it: one pass over the text with three variables. */
  method ExtractJson(text: string) returns (r: Option<string>)
    ensures r == Extract(text)
  {
    hide StripFences, FindBrace;
    var stripped := StripFences(text);
    var start := FindBrace(stripped);
    FindBraceIs(stripped);
    if start.None? {
      return None;
    }
    var depth, inString, escaped := 0, false, false;
    ghost var tail := stripped[start.value..];
    for i := start.value to |stripped|
      invariant ObjectLength(START, tail) ==
                match ObjectLength(Scan(depth, inString, escaped), stripped[i..])
                case Some(n) => Some(n + (i - start.value))
                case None => None
    {
      var c := stripped[i];
      assert stripped[i..][1..] == stripped[i + 1..];
      if inString {
        if escaped {
          escaped := false;
        } else if c == '\\' {
          escaped := true;
        } else if c == '\"' {
          inString := false;
        }
        continue;
      }
      if c == '\"' {
        inString := true;
      } else if c == '{' {
        depth := depth + 1;
      } else if c == '}' {
        depth := depth - 1;
        if depth == 0 {
          return Some(stripped[start.value..i + 1]);
        }
      }
    }
    return None;
  }

  // ---------------------------------------------------------------------------
  // Scanning concatenations
  // ---------------------------------------------------------------------------

  lemma {:induction false} RunConcat(s: Scan, a: string, b: string)
    ensures Run(s, a + b) == Run(Run(s, a), b)
    ensures Silent(s, a + b) <==> Silent(s, a) && Silent(Run(s, a), b)
    decreases |a|
  {
    if a == [] {
      assert a + b == b;
    } else {
      assert (a + b)[0] == a[0] && (a + b)[1..] == a[1..] + b;
      RunConcat(Step(s, a[0]), a[1..], b);
    }
  }

  lemma {:induction false} LengthAfterSilence(s: Scan, a: string, b: string)
    requires Silent(s, a)
    ensures ObjectLength(s, a + b) ==
            match ObjectLength(Run(s, a), b)
            case Some(n) => Some(n + |a|)
            case None => None
    decreases |a|
  {
    if a == [] {
      assert a + b == b;
    } else {
      assert (a + b)[0] == a[0] && (a + b)[1..] == a[1..] + b;
      LengthAfterSilence(Step(s, a[0]), a[1..], b);
    }
  }

  /** A text that leaves any scan inside an object just as it was, without ending it. */
  ghost predicate Neutral(text: string) {
    forall depth | depth >= 1 ::
      Silent(Scan(depth, false, false), text) && Run(Scan(depth, false, false), text) == Scan(depth, false, false)
  }

  lemma NeutralConcat(a: string, b: string)
    requires Neutral(a) && Neutral(b)
    ensures Neutral(a + b)
  {
    forall depth | depth >= 1
      ensures Silent(Scan(depth, false, false), a + b)
              && Run(Scan(depth, false, false), a + b) == Scan(depth, false, false)
    {
      RunConcat(Scan(depth, false, false), a, b);
    }
  }

  predicate Plain(text: string) {
    forall c | c in text :: c != '\"' && c != '{' && c != '}'
  }

  lemma {:induction false} PlainIsNeutral(text: string)
    requires Plain(text)
    ensures Neutral(text)
  {
    if text != [] {
      assert forall c | c in text[1..] :: c in text;
      assert text[0] in text;
      PlainIsNeutral(text[1..]);
    }
  }

  // ---------------------------------------------------------------------------
  // Serialized values
  // ---------------------------------------------------------------------------

  /** A literal is a number, true, false or null, as its text. */
  datatype Json =
    | Literal(text: string)
    | Text(chars: string)
    | Array(items: seq<Json>)
    | Object(members: seq<Member>)

  datatype Member = Member(key: string, value: Json)

  /**
   How a serializer writes: the separators, the line break and indentation at each nesting
   level, and the escape sequence of each character inside a string.
   */
  datatype Style = Style(item: string, colon: string, newline: nat -> string, escape: char -> string)

  function Quote(st: Style, chars: string): string {
    "\"" + Escaped(st, chars) + "\""
  }

  function Escaped(st: Style, chars: string): string {
    if chars == [] then [] else st.escape(chars[0]) + Escaped(st, chars[1..])
  }

  function Write(st: Style, level: nat, j: Json): string
    decreases j, 1
  {
    match j
    case Literal(text) => text
    case Text(chars) => Quote(st, chars)
    case Array(items) => "[" + WriteItems(st, level + 1, items) + Break(st, level, items != []) + "]"
    case Object(members) => "{" + WriteBody(st, level, members) + "}"
  }

  function WriteBody(st: Style, level: nat, members: seq<Member>): string
    decreases members, 1
  {
    WriteMembers(st, level + 1, members) + Break(st, level, members != [])
  }

  function Break(st: Style, level: nat, needed: bool): string {
    if needed then st.newline(level) else ""
  }

  function WriteItems(st: Style, level: nat, items: seq<Json>): string
    decreases items, 0
  {
    if items == [] then ""
    else
      st.newline(level) + Write(st, level, items[0]) + (if |items| > 1 then st.item else "")
      + WriteItems(st, level, items[1..])
  }

  function WriteMembers(st: Style, level: nat, members: seq<Member>): string
    decreases members, 0
  {
    if members == [] then ""
    else
      st.newline(level) + Quote(st, members[0].key) + st.colon + Write(st, level, members[0].value)
      + (if |members| > 1 then st.item else "") + WriteMembers(st, level, members[1..])
  }

  /** A text that leaves a scan inside a string just as it was. */
  ghost predicate InString(text: string) {
    forall depth ::
      Silent(Scan(depth, true, false), text) && Run(Scan(depth, true, false), text) == Scan(depth, true, false)
  }

  /** Separators hold no quotes and no braces, and an escape sequence never ends its string. */
  ghost predicate Sound(st: Style) {
    && Plain(st.item) && Plain(st.colon)
    && (forall n :: Plain(st.newline(n)))
    && (forall c :: InString(st.escape(c)))
  }

  predicate PlainLiterals(j: Json) {
    match j
    case Literal(text) => Plain(text)
    case Text(_) => true
    case Array(items) => forall i | 0 <= i < |items| :: PlainLiterals(items[i])
    case Object(members) => forall i | 0 <= i < |members| :: PlainLiterals(members[i].value)
  }

  lemma {:induction false} EscapedInString(st: Style, chars: string)
    requires Sound(st)
    ensures InString(Escaped(st, chars))
  {
    if chars != [] {
      EscapedInString(st, chars[1..]);
      var a, b := st.escape(chars[0]), Escaped(st, chars[1..]);
      forall depth
        ensures Silent(Scan(depth, true, false), a + b)
                && Run(Scan(depth, true, false), a + b) == Scan(depth, true, false)
      {
        RunConcat(Scan(depth, true, false), a, b);
      }
    }
  }

  lemma QuoteIsNeutral(st: Style, chars: string)
    requires Sound(st)
    ensures Neutral(Quote(st, chars))
  {
    EscapedInString(st, chars);
    var e := Escaped(st, chars);
    forall depth | depth >= 1
      ensures Silent(Scan(depth, false, false), Quote(st, chars))
      ensures Run(Scan(depth, false, false), Quote(st, chars)) == Scan(depth, false, false)
    {
      var s := Scan(depth, false, false);
      RunConcat(s, "\"" + e, "\"");
      RunConcat(s, "\"", e);
      assert Run(s, "\"") == Scan(depth, true, false);
    }
  }

  lemma BracesAreNeutral(body: string)
    requires Neutral(body)
    ensures Neutral("{" + body + "}")
  {
    forall depth | depth >= 1
      ensures Silent(Scan(depth, false, false), "{" + body + "}")
      ensures Run(Scan(depth, false, false), "{" + body + "}") == Scan(depth, false, false)
    {
      var s := Scan(depth, false, false);
      RunConcat(s, "{" + body, "}");
      RunConcat(s, "{", body);
      assert Run(s, "{") == Scan(depth + 1, false, false);
    }
  }

  lemma {:induction false} WriteIsNeutral(st: Style, level: nat, j: Json)
    requires Sound(st) && PlainLiterals(j)
    ensures Neutral(Write(st, level, j))
    decreases j, 1
  {
    match j
    case Literal(text) => PlainIsNeutral(text);
    case Text(chars) => QuoteIsNeutral(st, chars);
    case Array(items) =>
      var body, last := WriteItems(st, level + 1, items), Break(st, level, items != []);
      ItemsAreNeutral(st, level + 1, items);
      PlainIsNeutral("[");
      PlainIsNeutral(last);
      PlainIsNeutral("]");
      NeutralConcat("[", body);
      NeutralConcat("[" + body, last);
      NeutralConcat("[" + body + last, "]");
    case Object(members) =>
      BodyIsNeutral(st, level, members);
      BracesAreNeutral(WriteBody(st, level, members));
  }

  lemma {:induction false} BodyIsNeutral(st: Style, level: nat, members: seq<Member>)
    requires Sound(st) && forall i | 0 <= i < |members| :: PlainLiterals(members[i].value)
    ensures Neutral(WriteBody(st, level, members))
    decreases members, 1
  {
    MembersAreNeutral(st, level + 1, members);
    PlainIsNeutral(Break(st, level, members != []));
    NeutralConcat(WriteMembers(st, level + 1, members), Break(st, level, members != []));
  }

  lemma {:induction false} ItemsAreNeutral(st: Style, level: nat, items: seq<Json>)
    requires Sound(st) && forall i | 0 <= i < |items| :: PlainLiterals(items[i])
    ensures Neutral(WriteItems(st, level, items))
    decreases items, 0
  {
    if items == [] {
      PlainIsNeutral("");
    } else {
      var a, b, c := st.newline(level), Write(st, level, items[0]), if |items| > 1 then st.item else "";
      PlainIsNeutral(a);
      WriteIsNeutral(st, level, items[0]);
      PlainIsNeutral(c);
      ItemsAreNeutral(st, level, items[1..]);
      NeutralConcat(a, b);
      NeutralConcat(a + b, c);
      NeutralConcat(a + b + c, WriteItems(st, level, items[1..]));
    }
  }

  lemma {:induction false} MembersAreNeutral(st: Style, level: nat, members: seq<Member>)
    requires Sound(st) && forall i | 0 <= i < |members| :: PlainLiterals(members[i].value)
    ensures Neutral(WriteMembers(st, level, members))
    decreases members, 0
  {
    if members == [] {
      PlainIsNeutral("");
    } else {
      var a, k, v := st.newline(level), Quote(st, members[0].key), Write(st, level, members[0].value);
      var c := if |members| > 1 then st.item else "";
      PlainIsNeutral(a);
      QuoteIsNeutral(st, members[0].key);
      PlainIsNeutral(st.colon);
      WriteIsNeutral(st, level, members[0].value);
      PlainIsNeutral(c);
      MembersAreNeutral(st, level, members[1..]);
      NeutralConcat(a, k);
      NeutralConcat(a + k, st.colon);
      NeutralConcat(a + k + st.colon, v);
      NeutralConcat(a + k + st.colon + v, c);
      NeutralConcat(a + k + st.colon + v + c, WriteMembers(st, level, members[1..]));
    }
  }

  /** From its first brace, a written object is exactly what the scanner cuts out. */
  lemma ObjectIsCutOut(st: Style, level: nat, j: Json, rest: string)
    requires Sound(st) && PlainLiterals(j) && j.Object?
    ensures ObjectLength(START, Write(st, level, j) + rest) == Some(|Write(st, level, j)|)
  {
    var body := WriteBody(st, level, j.members);
    BodyIsNeutral(st, level, j.members);
    var inside := Scan(1, false, false);
    assert Silent(inside, body) && Run(inside, body) == inside;
    var front := "{" + body;
    assert front[0] == '{' && front[1..] == body;
    assert Step(START, '{') == inside;
    assert Silent(START, front) && Run(START, front) == inside;
    assert Write(st, level, j) + rest == front + ("}" + rest);
    LengthAfterSilence(START, front, "}" + rest);
  }

  // ---------------------------------------------------------------------------
  // Fences
  // ---------------------------------------------------------------------------

  predicate NoFence(text: string) {
    forall i | 0 <= i < |text| :: !FenceAt(text, i)
  }

  predicate EndsClean(text: string) {
    text == [] || text[|text| - 1] != '`'
  }

  lemma TailHasNoFence(text: string)
    requires NoFence(text) && text != []
    ensures NoFence(text[1..])
  {
    forall i | 0 <= i < |text[1..]|
      ensures !FenceAt(text[1..], i)
    {
      assert !FenceAt(text, i + 1);
    }
  }

  lemma NoFenceInFront(a: string, b: string)
    requires NoFence(a) && EndsClean(a) && a != []
    ensures !FenceAt(a + b, 0)
  {
    assert !FenceAt(a, 0);
    assert (a + b)[|a| - 1] == a[|a| - 1];
  }

  lemma StripKeepsFirst(text: string)
    requires text != [] && !FenceAt(text, 0)
    ensures StripFences(text) == [text[0]] + StripFences(text[1..])
  {
  }

  lemma {:induction false} StripKeepsFront(a: string, b: string)
    requires NoFence(a) && EndsClean(a)
    ensures StripFences(a + b) == a + StripFences(b)
    decreases |a|
  {
    if a == [] {
      assert a + b == b;
    } else {
      NoFenceInFront(a, b);
      TailHasNoFence(a);
      hide NoFence, FenceAt, StripFences;
      StripKeepsFront(a[1..], b);
      StripKeepsFirst(a + b);
      assert (a + b)[0] == a[0] && (a + b)[1..] == a[1..] + b;
      assert [a[0]] + (a[1..] + StripFences(b)) == a + StripFences(b);
    }
  }

  lemma StripHeadIsNoFence(text: string)
    requires !FenceAt(text, 0)
    ensures !FenceAt(StripFences(text), 0)
  {
    if |text| >= 2 && text[0] == '`' {
      var u := text[1..];
      assert StripFences(text) == ['`'] + StripFences(u);
      assert !FenceAt(u, 0);
      assert StripFences(u) == [u[0]] + StripFences(u[1..]);
      if |u| >= 2 && u[0] == '`' {
        var v := u[1..];
        assert v[0] == text[2] && !FenceAt(v, 0);
        assert StripFences(v) == [v[0]] + StripFences(v[1..]);
      }
    }
  }

  /** Stripping leaves no fence behind, not even one put together from the remains. */
  lemma {:induction false} StripLeavesNoFence(text: string)
    ensures NoFence(StripFences(text))
    decreases |text|
  {
    if FenceAt(text, 0) && "json" <= text[3..] {
      StripLeavesNoFence(text[7..]);
    } else if FenceAt(text, 0) {
      StripLeavesNoFence(text[3..]);
    } else if text != [] {
      StripLeavesNoFence(text[1..]);
      StripHeadIsNoFence(text);
      var out, tail := StripFences(text), StripFences(text[1..]);
      assert out == [text[0]] + tail;
      forall i | 0 <= i < |out|
        ensures !FenceAt(out, i)
      {
        assert i > 0 ==> !FenceAt(tail, i - 1);
      }
    }
  }

  // ---------------------------------------------------------------------------
  // The round trip
  // ---------------------------------------------------------------------------

  /** A fence, tagged or not, lies in front of an object or behind it, never across its first brace. */
  lemma FenceStaysInFront(front: string, b: string)
    requires '{' !in front && b != [] && b[0] == '{'
    ensures FenceAt(front + b, 0) <==> FenceAt(front, 0)
    ensures FenceAt(front, 0) ==> ("json" <= (front + b)[3..] <==> "json" <= front[3..])
  {
    var text := front + b;
    assert text[|front|] == '{';
    if FenceAt(front, 0) {
      var tail := text[3..];
      assert tail == front[3..] + b;
      if "json" <= tail {
        assert tail[0] == 'j' && tail[1] == 's' && tail[2] == 'o' && tail[3] == 'n';
        assert |front| >= 7;
        assert front[3..][..4] == tail[..4];
      }
    }
  }

  /** How far stripping goes at once: over a fence, a tagged fence, or a single character that it keeps. */
  function StripLength(text: string): (n: nat)
    requires text != []
    ensures 1 <= n <= |text|
  {
    if !FenceAt(text, 0) then 1 else if "json" <= text[3..] then 7 else 3
  }

  lemma LengthStaysInFront(front: string, b: string)
    requires '{' !in front && front != [] && b != [] && b[0] == '{'
    ensures StripLength(front + b) == StripLength(front) && (front + b)[0] == front[0]
  {
    FenceStaysInFront(front, b);
  }

  lemma StripOnce(text: string)
    requires text != []
    ensures var n := StripLength(text);
            StripFences(text) == (if n == 1 then [text[0]] else []) + StripFences(text[n..])
  {
  }

  /** Stripping works on what comes before an object and on the object with its rest separately. */
  lemma {:induction false} StripSplits(front: string, b: string)
    requires '{' !in front && b != [] && b[0] == '{'
    ensures StripFences(front + b) == StripFences(front) + StripFences(b) && '{' !in StripFences(front)
    decreases |front|
  {
    if front == [] {
      assert front + b == b;
    } else {
      LengthStaysInFront(front, b);
      StripOnce(front);
      StripOnce(front + b);
      hide StripFences, StripLength;
      var n := StripLength(front);
      assert (front + b)[n..] == front[n..] + b;
      assert forall c | c in front[n..] :: c in front;
      StripSplits(front[n..], b);
      var head := if n == 1 then [front[0]] else [];
      assert StripFences(front + b) == head + (StripFences(front[n..]) + StripFences(b));
      assert front[0] in front;
    }
  }

  /** What the scanner finds in front of a text that begins with a brace. */
  lemma {:induction false} FindsFirstBrace(front: string, text: string)
    requires '{' !in front && text != [] && text[0] == '{'
    ensures FindBrace(front + text) == Some(|front|)
  {
    if front == [] {
      assert front + text == text;
    } else {
      assert front[0] in front && (front + text)[0] == front[0];
      assert (front + text)[1..] == front[1..] + text;
      FindsFirstBrace(front[1..], text);
    }
  }

  lemma PartHasNoFence(text: string, start: nat, n: nat)
    requires NoFence(text) && start + n <= |text|
    ensures NoFence(text[start..start + n])
  {
    var part := text[start..start + n];
    forall i | 0 <= i < |part|
      ensures !FenceAt(part, i)
    {
      assert !FenceAt(text, start + i);
    }
  }

  lemma WrittenObjectShape(st: Style, j: Json)
    requires j.Object?
    ensures var obj := Write(st, 0, j); obj != [] && obj[0] == '{' && EndsClean(obj)
  {
  }

  lemma ExtractsFromFirstBrace(text: string, front: string, tail: string, n: nat)
    requires StripFences(text) == front + tail && '{' !in front && tail != [] && tail[0] == '{'
    requires n <= |tail| && ObjectLength(START, tail) == Some(n)
    ensures Extract(text) == Some(tail[..n])
  {
    hide StripFences, FindBrace, ObjectLength;
    FindsFirstBrace(front, tail);
    assert (front + tail)[|front|..] == tail;
    assert (front + tail)[|front|..|front| + n] == tail[..n];
  }

  lemma ObjectIsExtracted(st: Style, j: Json, front: string, rest: string)
    requires Sound(st) && PlainLiterals(j) && j.Object?
    requires '{' !in front && NoFence(Write(st, 0, j))
    ensures Extract(front + Write(st, 0, j) + rest) == Some(Write(st, 0, j))
  {
    WrittenObjectShape(st, j);
    hide StripFences, NoFence, EndsClean, Write, ObjectLength, Sound, PlainLiterals, Extract;
    var obj := Write(st, 0, j);
    assert front + obj + rest == front + (obj + rest);
    StripSplits(front, obj + rest);
    StripKeepsFront(obj, rest);
    ObjectIsCutOut(st, 0, j, StripFences(rest));
    var tail := obj + StripFences(rest);
    ExtractsFromFirstBrace(front + obj + rest, StripFences(front), tail, |obj|);
    assert tail[..|obj|] == obj;
  }

  /**
   The round trip. Whatever comes before it without an opening brace, prose, quotes, fences and
   earlier code blocks included, and whatever follows it, an object written by any serializer
   reaches the parser exactly as it was written, if and only if its own text holds no fence.
   */
  lemma ObjectIsExtractedIff(st: Style, j: Json, front: string, rest: string)
    requires Sound(st) && PlainLiterals(j) && j.Object? && '{' !in front
    ensures Extract(front + Write(st, 0, j) + rest) == Some(Write(st, 0, j)) <==> NoFence(Write(st, 0, j))
  {
    if NoFence(Write(st, 0, j)) {
      ObjectIsExtracted(st, j, front, rest);
    } else if Extract(front + Write(st, 0, j) + rest) == Some(Write(st, 0, j)) {
      ExtractedHasNoFence(front + Write(st, 0, j) + rest);
    }
  }

  /** Nothing that is handed to the parser holds a fence. */
  lemma ExtractedHasNoFence(text: string)
    requires Extract(text).Some?
    ensures NoFence(Extract(text).value)
  {
    var stripped := StripFences(text);
    StripLeavesNoFence(text);
    var start := FindBrace(stripped).value;
    PartHasNoFence(stripped, start, ObjectLength(START, stripped[start..]).value);
  }

  // ---------------------------------------------------------------------------
  // The serializer of the standard library
  // ---------------------------------------------------------------------------

  const HEX := "0123456789abcdef"

  /** The escape sequences of `json.dumps`, with everything outside ASCII left as it is. */
  function StandardEscape(c: char): string {
    if c == '\"' then "\\\""
    else if c == '\\' then "\\\\"
    else if c == '\n' then "\\n"
    else if c == '\r' then "\\r"
    else if c == '\t' then "\\t"
    else if c as int == 8 then "\\b"
    else if c as int == 12 then "\\f"
    else if c as int < 32 then "\\u00" + [HEX[c as int / 16], HEX[c as int % 16]]
    else [c]
  }

  function Blanks(n: nat): string {
    if n == 0 then "" else " " + Blanks(n - 1)
  }

  /** One line, or one item a line with the given indentation. */
  function StandardStyle(indent: Option<nat>): Style {
    match indent
    case None => Style(", ", ": ", (_: nat) => "", StandardEscape)
    case Some(k) => Style(",", ": ", (level: nat) => "\n" + Blanks(level * k), StandardEscape)
  }

  lemma {:induction false} BlanksArePlain(n: nat)
    ensures Plain(Blanks(n))
  {
    if n > 0 {
      BlanksArePlain(n - 1);
    }
  }

  /** Characters that mean nothing inside a string. */
  predicate Harmless(text: string) {
    forall c | c in text :: c != '\"' && c != '\\'
  }

  lemma {:induction false} HarmlessInString(text: string)
    requires Harmless(text)
    ensures InString(text)
  {
    if text != [] {
      assert text[0] in text && forall c | c in text[1..] :: c in text;
      HarmlessInString(text[1..]);
    }
  }

  lemma EscapePairInString(c: char, more: string)
    requires Harmless(more)
    ensures InString(['\\', c] + more)
  {
    HarmlessInString(more);
    forall depth
      ensures Silent(Scan(depth, true, false), ['\\', c] + more)
      ensures Run(Scan(depth, true, false), ['\\', c] + more) == Scan(depth, true, false)
    {
      var s, pair := Scan(depth, true, false), ['\\', c];
      RunConcat(s, pair, more);
      assert pair[1..] == [c] && [c][1..] == [];
      var mid := Step(s, '\\');
      assert Run(s, pair) == Run(mid, [c]) && Silent(s, pair) == Silent(mid, [c]);
      assert Run(mid, [c]) == Run(Step(mid, c), []);
    }
  }

  lemma StandardEscapeInString(c: char)
    ensures InString(StandardEscape(c))
  {
    var e := StandardEscape(c);
    if e == [c] {
      HarmlessInString(e);
    } else {
      assert e == ['\\', e[1]] + e[2..];
      assert Harmless(e[2..]);
      EscapePairInString(e[1], e[2..]);
    }
  }

  /** The standard serializer, on one line or indented, is one of those the round trip is about. */
  lemma StandardStyleIsSound(indent: Option<nat>)
    ensures Sound(StandardStyle(indent))
  {
    var st := StandardStyle(indent);
    forall c
      ensures InString(st.escape(c))
    {
      StandardEscapeInString(c);
    }
    forall n: nat
      ensures Plain(st.newline(n))
    {
      match indent
      case None =>
      case Some(k) => BlanksArePlain(n * k);
    }
  }
}

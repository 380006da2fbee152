/** Trigger lists in the config file: written as a TOML string or array of strings, and read
    by a decoder that follows TOML v1.0.0, sections "String" (basic strings) and "Array". */
module Toml {
  import opened Wrappers

  /** A text as the writer sees it: code points, and bytes that are not valid UTF-8. */
  datatype Unit = Rune(c: char) | BadByte
  type Text = seq<Unit>

  const REPLACEMENT: char := '\U{FFFD}'

  function Point(u: Unit): char { if u.Rune? then u.c else REPLACEMENT }

  /** What the text becomes once it has been through valid UTF-8. */
  function Points(s: Text): string { if s == [] then "" else [Point(s[0])] + Points(s[1..]) }

  // ---- writing --------------------------------------------------------------------------------

  predicate Control(c: char) { c < '\U{20}' || c == '\U{7F}' }

  function HexDigit(n: nat): (c: char)
    requires n < 16
  {
    if n < 10 then '0' + n as char else 'A' + (n - 10) as char
  }

  function Hex4(n: nat): string
    requires n < 0x1_0000
  {
    [HexDigit(n / 0x1000), HexDigit(n / 0x100 % 0x10), HexDigit(n / 0x10 % 0x10), HexDigit(n % 0x10)]
  }

  function Escaped(c: char): string {
    if c == '"' then "\\\""
    else if c == '\\' then "\\\\"
    else if c == '\U{08}' then "\\b"
    else if c == '\t' then "\\t"
    else if c == '\n' then "\\n"
    else if c == '\U{0C}' then "\\f"
    else if c == '\r' then "\\r"
    else if Control(c) then "\\u" + Hex4(c as nat)
    else [c]
  }

  function Body(s: Text): string { if s == [] then "" else Escaped(Point(s[0])) + Body(s[1..]) }

  function Quoted(s: Text): string { "\"" + Body(s) + "\"" }

  method EscapeRune(c: char) returns (r: string)
    ensures r == Escaped(c)
  {
    match c
    case '"' => r := "\\\"";
    case '\\' => r := "\\\\";
    case '\U{08}' => r := "\\b";
    case '\t' => r := "\\t";
    case '\n' => r := "\\n";
    case '\U{0C}' => r := "\\f";
    case '\r' => r := "\\r";
    case _ =>
      if c < '\U{20}' || c == '\U{7F}' {
        r := "\\u" + Hex4(c as nat);
      } else {
        r := [c];
      }
  }

  method QuoteToml(s: Text) returns (r: string)
    ensures r == Quoted(s)
  {
    var body := "";
    assert s[0..] == s;
    for i := 0 to |s|
      invariant Body(s) == body + Body(s[i..])
    {
      assert s[i..][1..] == s[i + 1..];
      var e := EscapeRune(Point(s[i]));
      Regroup3(body, e, Body(s[i + 1..]));
      body := body + e;
    }
    r := "\"" + body + "\"";
  }

  const JOY := "joy:"

  predicate IsJoy(s: Text) { |s| >= 4 && forall i :: 0 <= i < 4 ==> s[i] == Rune(JOY[i]) }

  /** A lone keyboard chord is written as a string, everything else as an array. */
  predicate Scalar(k: seq<Text>) { |k| == 1 && !IsJoy(k[0]) }

  function Joined(k: seq<Text>): string {
    if k == [] then "" else if |k| == 1 then Quoted(k[0]) else Quoted(k[0]) + ", " + Joined(k[1..])
  }

  function Marshalled(k: seq<Text>): string {
    if Scalar(k) then Quoted(k[0]) else "[" + Joined(k) + "]"
  }

  // ---- reading --------------------------------------------------------------------------------

  /** A character that may stand for itself in a basic string. */
  predicate Unescaped(c: char) {
    c == '\t' || c == ' ' || c == '!' || '#' <= c <= '[' || ']' <= c <= '~' || c >= '\U{80}'
  }

  function HexValue(c: char): Option<nat> {
    if '0' <= c <= '9' then Some(c as nat - '0' as nat)
    else if 'A' <= c <= 'F' then Some(c as nat - 'A' as nat + 10)
    else if 'a' <= c <= 'f' then Some(c as nat - 'a' as nat + 10)
    else None
  }

  function HexNumber(s: string): Option<nat> {
    if s == "" then Some(0)
    else
      match (HexNumber(s[..|s| - 1]), HexValue(s[|s| - 1]))
      case (Some(high), Some(low)) => Some(high * 16 + low)
      case _ => None
  }

  /** A code point that is not a surrogate. */
  function Scalar32(n: nat): Option<char> {
    if n < 0xD800 || 0xE000 <= n < 0x11_0000 then Some(n as char) else None
  }

  /** The character behind a backslash, and how long its escape is. */
  function ReadEscape(s: string): (r: Option<(char, nat)>)
    ensures r.Some? ==> 0 < r.value.1 <= |s|
  {
    if s == "" then None
    else
      match s[0]
      case 'b' => Some(('\U{08}', 1))
      case 't' => Some(('\t', 1))
      case 'n' => Some(('\n', 1))
      case 'f' => Some(('\U{0C}', 1))
      case 'r' => Some(('\r', 1))
      case '"' => Some(('"', 1))
      case '\\' => Some(('\\', 1))
      case 'u' => ReadHex(s, 4)
      case 'U' => ReadHex(s, 8)
      case _ => None
  }

  function ReadHex(s: string, digits: nat): (r: Option<(char, nat)>)
    ensures r.Some? ==> 0 < r.value.1 <= |s|
  {
    if |s| < digits + 1 then None
    else
      match HexNumber(s[1..digits + 1])
      case None => None
      case Some(n) => match Scalar32(n) case None => None case Some(c) => Some((c, digits + 1))
  }

  /** The rest of a basic string, behind its opening quote: its value and what follows it. */
  function ReadBody(s: string): (r: Option<(string, string)>)
    ensures r.Some? ==> |r.value.1| < |s|
  {
    if s == "" then None
    else if s[0] == '"' then Some(("", s[1..]))
    else if s[0] == '\\' then
      match ReadEscape(s[1..])
      case None => None
      case Some(e) =>
        match ReadBody(s[1 + e.1..]) case None => None case Some(t) => Some(([e.0] + t.0, t.1))
    else if Unescaped(s[0]) then
      match ReadBody(s[1..]) case None => None case Some(t) => Some(([s[0]] + t.0, t.1))
    else None
  }

  /** White space between array elements. */
  function SkipSpace(s: string): (r: string)
    ensures |r| <= |s|
  {
    if s != "" && (s[0] == ' ' || s[0] == '\t' || s[0] == '\n' || s[0] == '\r') then SkipSpace(s[1..]) else s
  }

  /** The elements up to the closing bracket; a comma may follow the last one. */
  function ReadElements(s: string): Option<(seq<string>, string)>
    decreases |s|
  {
    var t := SkipSpace(s);
    if t == "" then None
    else if t[0] == ']' then Some(([], t[1..]))
    else if t[0] != '"' then None
    else
      match ReadBody(t[1..])
      case None => None
      case Some(e) =>
        var u := SkipSpace(e.1);
        if u == "" then None
        else if u[0] == ']' then Some(([e.0], u[1..]))
        else if u[0] != ',' then None
        else match ReadElements(u[1..]) case None => None case Some(more) => Some(([e.0] + more.0, more.1))
  }

  datatype Value = Str(s: string) | Arr(elements: seq<Value>) | OtherValue

  function Strs(list: seq<string>): seq<Value> { if list == [] then [] else [Str(list[0])] + Strs(list[1..]) }

  /** A whole value: a basic string or an array of them. */
  function ReadValue(s: string): Option<Value> {
    if s == "" then None
    else if s[0] == '"' then
      match ReadBody(s[1..]) case None => None case Some(t) => if t.1 == "" then Some(Str(t.0)) else None
    else if s[0] == '[' then
      match ReadElements(s[1..]) case None => None case Some(t) => if t.1 == "" then Some(Arr(Strs(t.0))) else None
    else None
  }

  /** A string or an array of strings, and nothing else. */
  function Unmarshalled(v: Value): Option<seq<string>> {
    match v
    case Str(s) => Some([s])
    case Arr(elements) => if forall e <- elements :: e.Str? then Some(Plain(elements)) else None
    case OtherValue => None
  }

  function Plain(elements: seq<Value>): seq<string>
    requires forall e <- elements :: e.Str?
  {
    if elements == [] then [] else [elements[0].s] + Plain(elements[1..])
  }

  method UnmarshalToml(v: Value) returns (k: Option<seq<string>>)
    ensures k == Unmarshalled(v)
  {
    match v
    case Str(s) => return Some([s]);
    case OtherValue => return None;
    case Arr(elements) =>
      var out: seq<string> := [];
      assert elements[0..] == elements;
      for i := 0 to |elements|
        invariant forall e <- elements[..i] :: e.Str?
        invariant (forall e <- elements :: e.Str?) ==> Plain(elements) == out + Plain(elements[i..])
      {
        if !elements[i].Str? {
          assert elements[i] in elements;
          return None;
        }
        assert elements[i..][1..] == elements[i + 1..];
        assert elements[..i + 1] == elements[..i] + [elements[i]];
        out := out + [elements[i].s];
      }
      assert elements[..|elements|] == elements && elements[|elements|..] == [];
      assert forall e <- elements :: e.Str?;
      assert out + [] == out;
      k := Some(out);
  }

  method MarshalToml(k: seq<Text>) returns (r: string)
    ensures r == Marshalled(k)
  {
    if |k| == 1 && !IsJoy(k[0]) {
      r := QuoteToml(k[0]);
      return;
    }
    r := "";
    assert k[0..] == k;
    for i := 0 to |k|
      invariant Joined(k) == r + (if 0 < i < |k| then ", " else "") + Joined(k[i..])
    {
      var part := QuoteToml(k[i]);
      assert k[i..][1..] == k[i + 1..];
      ghost var was := r;
      if i > 0 {
        r := r + ", ";
      }
      r := r + part;
      JoinStep(was, i > 0, k[i..], r);
    }
    r := "[" + r + "]";
  }

  lemma Regroup3(a: string, b: string, c: string)
    ensures a + (b + c) == a + b + c
  {
  }

  lemma Regroup2(a: string, b: string, c: string, d: string)
    ensures a + b + c + d == a + (b + (c + d))
  {
  }

  lemma Regroup(a: string, b: string, c: string, d: string)
    ensures a + (b + c + d) == a + b + c + d
  {
  }

  lemma JoinStep(was: string, comma: bool, k: seq<Text>, r: string)
    requires k != [] && r == (if comma then was + ", " else was) + Quoted(k[0])
    ensures was + (if comma then ", " else "") + Joined(k) == r + (if |k| > 1 then ", " else "") + Joined(k[1..])
  {
    var head, q := if comma then was + ", " else was, Quoted(k[0]);
    assert was + (if comma then ", " else "") == head;
    if |k| > 1 {
      Regroup(head, q, ", ", Joined(k[1..]));
    } else {
      assert r + "" + Joined(k[1..]) == r;
    }
  }

  // ---- round trip -----------------------------------------------------------------------------

  lemma HexRoundTrip(n: nat)
    requires n < 0x80
    ensures HexNumber(Hex4(n)) == Some(n)
  {
    var h := Hex4(n);
    DigitRoundTrip(n / 0x10 % 0x10);
    DigitRoundTrip(n % 0x10);
    DigitRoundTrip(0);
    assert n / 0x1000 == 0 && n / 0x100 % 0x10 == 0;
    assert h[..3][..2][..1] == [h[0]] && h[..3][..2] == [h[0], h[1]] && h[..3] == [h[0], h[1], h[2]];
    assert HexNumber(h[..3][..2][..1][..0]) == Some(0);
    assert HexNumber([h[0]]) == Some(0);
    assert HexNumber([h[0], h[1]]) == Some(0);
    assert HexNumber([h[0], h[1], h[2]]) == Some(n / 0x10 % 0x10);
  }

  lemma DigitRoundTrip(n: nat)
    requires n < 16
    ensures HexValue(HexDigit(n)) == Some(n)
  {
  }

  function Prepend(c: char, r: Option<(string, string)>): Option<(string, string)> {
    match r case None => None case Some(t) => Some(([c] + t.0, t.1))
  }

  lemma PlainRoundTrip(c: char, rest: string)
    requires c != '"' && c != '\\' && Unescaped(c)
    ensures ReadBody([c] + rest) == Prepend(c, ReadBody(rest))
  {
    assert ([c] + rest)[1..] == rest;
  }

  lemma ShortRoundTrip(k: char, c: char, rest: string)
    requires ReadEscape([k] + rest) == Some((c, 1))
    ensures ReadBody(['\\', k] + rest) == Prepend(c, ReadBody(rest))
  {
    var s := ['\\', k] + rest;
    assert s[1..] == [k] + rest && s[2..] == rest;
  }

  lemma HexEscapeRoundTrip(c: char, rest: string)
    requires c < '\U{80}'
    ensures ReadBody("\\u" + Hex4(c as nat) + rest) == Prepend(c, ReadBody(rest))
  {
    HexRoundTrip(c as nat);
    var h := Hex4(c as nat);
    var s, t := "\\u" + h + rest, "u" + h + rest;
    assert |h| == 4;
    assert s[1..] == t;
    assert t[1..5] == h && t[0] == 'u';
    assert s[6..] == rest;
    assert ReadHex(t, 4) == Some((c, 5)) && ReadEscape(t) == Some((c, 5));
    assert s[1 + 5..] == rest;
  }

  /** An escaped character is read back, whatever follows. */
  lemma EscapeRoundTrip(c: char, rest: string)
    ensures ReadBody(Escaped(c) + rest) == Prepend(c, ReadBody(rest))
  {
    var e := Escaped(c);
    if |e| == 1 {
      PlainRoundTrip(c, rest);
    } else if |e| == 2 {
      assert e == ['\\', e[1]];
      ShortRoundTrip(e[1], c, rest);
    } else {
      HexEscapeRoundTrip(c, rest);
    }
  }

  lemma {:induction false} BodyRoundTrip(s: Text, rest: string)
    ensures ReadBody(Body(s) + "\"" + rest) == Some((Points(s), rest))
  {
    if s == [] {
      assert (Body(s) + "\"" + rest)[1..] == rest;
    } else {
      BodyRoundTrip(s[1..], rest);
      EscapeRoundTrip(Point(s[0]), Body(s[1..]) + "\"" + rest);
      Regroup(Escaped(Point(s[0])), Body(s[1..]), "\"", rest);
    }
  }

  /** A quoted text is read back as its code points. */
  lemma QuoteRoundTrip(s: Text, rest: string)
    ensures (Quoted(s) + rest)[0] == '"'
    ensures ReadBody((Quoted(s) + rest)[1..]) == Some((Points(s), rest))
  {
    BodyRoundTrip(s, rest);
    DropQuote(Body(s), rest);
  }

  lemma DropQuote(body: string, rest: string)
    ensures ("\"" + body + "\"" + rest)[1..] == body + "\"" + rest
  {
  }

  function PointsAll(k: seq<Text>): seq<string> { if k == [] then [] else [Points(k[0])] + PointsAll(k[1..]) }

  lemma {:induction false} ElementsRoundTrip(k: seq<Text>)
    ensures ReadElements(Joined(k) + "]") == Some((PointsAll(k), ""))
  {
    var s := Joined(k) + "]";
    if k == [] {
      assert s == "]" && SkipSpace(s) == s;
    } else if |k| == 1 {
      LastElement(k[0]);
      assert s == Quoted(k[0]) + "]";
      assert PointsAll(k) == [Points(k[0])];
    } else {
      var more := Joined(k[1..]) + "]";
      ElementsRoundTrip(k[1..]);
      Regroup2(Quoted(k[0]), ", ", Joined(k[1..]), "]");
      NextElement(k[0], more);
    }
  }

  lemma LastElement(a: Text)
    ensures ReadElements(Quoted(a) + "]") == Some(([Points(a)], ""))
  {
    var s := Quoted(a) + "]";
    QuoteRoundTrip(a, "]");
    assert SkipSpace(s) == s && SkipSpace("]") == "]" && "]"[1..] == "";
  }

  lemma NextElement(a: Text, more: string)
    ensures ReadElements(Quoted(a) + (", " + more))
         == match ReadElements(more) case None => None case Some(t) => Some(([Points(a)] + t.0, t.1))
  {
    var tail := ", " + more;
    var s := Quoted(a) + tail;
    QuoteRoundTrip(a, tail);
    assert SkipSpace(s) == s && SkipSpace(tail) == tail;
    assert tail[1..] == " " + more;
    SpaceBeforeElements(more);
  }

  lemma SpaceBeforeElements(s: string)
    ensures ReadElements(" " + s) == ReadElements(s)
  {
    assert (" " + s)[1..] == s;
    assert SkipSpace(" " + s) == SkipSpace(s);
  }

  lemma {:induction false} StrsArePlain(list: seq<string>)
    ensures (forall e <- Strs(list) :: e.Str?) && Plain(Strs(list)) == list
  {
    if list != [] { StrsArePlain(list[1..]); }
  }

  lemma ScalarRoundTrip(a: Text)
    ensures ReadValue(Quoted(a)) == Some(Str(Points(a)))
  {
    QuoteRoundTrip(a, "");
    assert Quoted(a) + "" == Quoted(a);
  }

  lemma ArrayRoundTrip(k: seq<Text>)
    ensures ReadValue("[" + Joined(k) + "]") == Some(Arr(Strs(PointsAll(k))))
  {
    ElementsRoundTrip(k);
    assert ("[" + Joined(k) + "]")[1..] == Joined(k) + "]";
  }

  /** Every list is read back from what was written, each text as its code points. */
  lemma RoundTrip(k: seq<Text>)
    ensures ReadValue(Marshalled(k)).Some?
    ensures Unmarshalled(ReadValue(Marshalled(k)).value) == Some(PointsAll(k))
    ensures ReadValue(Marshalled(k)).value.Str? <==> Scalar(k)
  {
    if Scalar(k) {
      ScalarRoundTrip(k[0]);
      assert PointsAll(k) == [Points(k[0])];
    } else {
      ArrayRoundTrip(k);
      StrsArePlain(PointsAll(k));
    }
  }

  /** A text in front of which the four characters of a joystick trigger stand. */
  ghost predicate StartsJoy(s: Text) {
    |s| >= 4 && s[0] == Rune('j') && s[1] == Rune('o') && s[2] == Rune('y') && s[3] == Rune(':')
  }

  /** A list is written as a string exactly if it is one entry that is no joystick trigger. */
  lemma WrittenForm(k: seq<Text>)
    ensures Marshalled(k)[0] == '"' <==> |k| == 1 && !StartsJoy(k[0])
    ensures Marshalled(k)[0] == '"' || Marshalled(k)[0] == '['
  {
    assert JOY[0] == 'j' && JOY[1] == 'o' && JOY[2] == 'y' && JOY[3] == ':';
  }

  /** Only a quote, a backslash and control characters are escaped. */
  lemma PlainStays(c: char)
    ensures Escaped(c) == [c] <==> c >= ' ' && c != '"' && c != '\\' && c != '\U{7F}'
  {
  }

  predicate WellFormed(s: Text) { forall u <- s :: u.Rune? }

  function Runes(s: string): Text { if s == "" then [] else [Rune(s[0])] + Runes(s[1..]) }

  /** A text comes back unchanged exactly if all of it was valid UTF-8. */
  lemma {:induction false} UnchangedIffValid(s: Text)
    ensures Runes(Points(s)) == s <==> WellFormed(s)
  {
    if s != [] {
      UnchangedIffValid(s[1..]);
      assert Points(s)[1..] == Points(s[1..]);
      assert s == [s[0]] + s[1..];
    }
  }

  /** No character that TOML forbids in a basic string, nor a raw line break or tab, is
      ever written. */
  lemma {:induction false} NoControlWritten(s: Text)
    ensures forall c <- Body(s) :: !Control(c)
  {
    if s != [] {
      NoControlWritten(s[1..]);
      assert forall c <- Escaped(Point(s[0])) :: !Control(c);
    }
  }
}

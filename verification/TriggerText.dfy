/** The persisted text of a trigger: a keyboard chord such as "Ctrl+Alt+F1", or a joystick
    binding such as "joy:stick:btn3+throttle:hat1.up". */
module TriggerText {
  import opened Wrappers

  datatype Result<+T> = Ok(value: T) | Err(error: Error)
  datatype Error = Empty | UnknownKey | ModifierOnly | DuplicateModifier | BadDevice | BadInput | BadModifier

  datatype Mod = Ctrl | Alt | Shift | Super
  datatype Chord = Chord(mods: set<Mod>, key: string)
  datatype JoyButton = JoyButton(device: string, button: nat)
  datatype Trigger = Key(chord: Chord) | Joy(main: JoyButton, modifier: Option<JoyButton>)

  const MAX_BUTTON := 127
  const HAT_BASE := 128
  const HAT_COUNT := 4
  const HAT_DIRS := 8

  // ---- text helpers ---------------------------------------------------------------------------

  /** The parts between separators; a text without one is a single part. */
  function Split(s: string, sep: char): (parts: seq<string>)
    ensures parts != []
  {
    if s == "" then [""]
    else
      var rest := Split(s[1..], sep);
      if s[0] == sep then [""] + rest else [[s[0]] + rest[0]] + rest[1..]
  }

  /** What is before and after the first separator. */
  function Cut(s: string, sep: char): Option<(string, string)> {
    if s == "" then None
    else if s[0] == sep then Some(("", s[1..]))
    else
      match Cut(s[1..], sep)
      case None => None
      case Some(pair) => Some(([s[0]] + pair.0, pair.1))
  }

  predicate HasPrefix(s: string, p: string) { |p| <= |s| && s[..|p|] == p }

  lemma {:induction false} SplitAfter(a: string, b: string, sep: char)
    requires sep !in a
    ensures Split(a + [sep] + b, sep) == [a] + Split(b, sep)
  {
    var s := a + [sep] + b;
    if a == "" {
      assert s[1..] == b;
    } else {
      assert s[1..] == a[1..] + [sep] + b;
      SplitAfter(a[1..], b, sep);
      assert [a[0]] + a[1..] == a;
    }
  }

  lemma {:induction false} SplitWhole(a: string, sep: char)
    requires sep !in a
    ensures Split(a, sep) == [a]
  {
    if a != "" {
      SplitWhole(a[1..], sep);
      assert [a[0]] + a[1..] == a;
    }
  }

  lemma {:induction false} CutAfter(a: string, b: string, sep: char)
    requires sep !in a
    ensures Cut(a + [sep] + b, sep) == Some((a, b))
  {
    var s := a + [sep] + b;
    if a == "" {
      assert s[1..] == b;
    } else {
      assert s[1..] == a[1..] + [sep] + b;
      CutAfter(a[1..], b, sep);
      assert [a[0]] + a[1..] == a;
    }
  }

  // ---- numbers --------------------------------------------------------------------------------

  predicate Digit(c: char) { '0' <= c <= '9' }

  function Decimal(n: nat): (s: string)
    ensures s != "" && forall c <- s :: Digit(c)
  {
    if n < 10 then ['0' + n as char] else Decimal(n / 10) + ['0' + (n % 10) as char]
  }

  function DigitValue(c: char): nat
    requires Digit(c)
  {
    c as int - '0' as int
  }

  function Value(s: string): nat
    requires forall c <- s :: Digit(c)
  {
    if s == "" then 0 else Value(s[..|s| - 1]) * 10 + DigitValue(s[|s| - 1])
  }

  /** Digits with an optional sign. */
  function Atoi(s: string): Option<int> {
    var digits := if s != "" && (s[0] == '-' || s[0] == '+') then s[1..] else s;
    if digits == "" || exists c <- digits :: !Digit(c) then None
    else
      var v: int := Value(digits);
      if s[0] == '-' then Some(-v) else Some(v)
  }

  lemma {:induction false} ValueOfDecimal(n: nat)
    ensures Value(Decimal(n)) == n
  {
    if n < 10 {
      assert Decimal(n)[..0] == "";
    } else {
      ValueOfDecimal(n / 10);
      assert Decimal(n)[..|Decimal(n)| - 1] == Decimal(n / 10);
    }
  }

  lemma AtoiOfDecimal(n: nat)
    ensures Atoi(Decimal(n)) == Some(n)
  {
    assert Digit(Decimal(n)[0]);
    ValueOfDecimal(n);
  }

  // ---- keyboard chords ------------------------------------------------------------------------

  const MODS := [Ctrl, Alt, Shift, Super]

  function ModName(m: Mod): string {
    match m case Ctrl => "Ctrl" case Alt => "Alt" case Shift => "Shift" case Super => "Super"
  }

  function ModOf(s: string): Option<Mod> {
    if s == "Ctrl" then Some(Ctrl) else if s == "Alt" then Some(Alt)
    else if s == "Shift" then Some(Shift) else if s == "Super" then Some(Super) else None
  }

  const NAMED := {
    "Space", "Escape", "Enter", "Tab", "Backspace", "Delete", "Insert", "Home", "End", "PageUp", "PageDown",
    "ArrowUp", "ArrowDown", "ArrowLeft", "ArrowRight", "Minus", "Equal", "BracketLeft", "BracketRight",
    "Semicolon", "Quote", "Backquote", "Backslash", "Comma", "Period", "Slash", "NumpadAdd",
    "NumpadSubtract", "NumpadMultiply", "NumpadDivide", "NumpadDecimal", "NumpadEnter"
  }

  /** The canonical key names. */
  predicate ValidKey(k: string) {
    || k in NAMED
    || (|k| == 1 && ('A' <= k[0] <= 'Z' || Digit(k[0])))
    || (|k| == 7 && k[..6] == "Numpad" && Digit(k[6]))
    || (exists i :: 1 <= i <= 24 && k == "F" + Decimal(i))
  }

  predicate KeyChar(c: char) { 'A' <= c <= 'Z' || 'a' <= c <= 'z' || Digit(c) }

  /** What the grammar needs of a key name. */
  lemma KeyShape(k: string)
    requires ValidKey(k)
    ensures k != "" && k[0] != 'j' && ModOf(k).None? && forall c <- k :: KeyChar(c)
  {
  }

  predicate ValidChord(c: Chord) { ValidKey(c.key) }

  function NamesFrom(order: seq<Mod>, mods: set<Mod>): string {
    if order == [] then ""
    else (if order[0] in mods then ModName(order[0]) + "+" else "") + NamesFrom(order[1..], mods)
  }

  /** Modifiers in their canonical order, then the key; nothing for an unset chord. */
  function ChordText(c: Chord): string {
    if c.key == "" then "" else NamesFrom(MODS, c.mods) + c.key
  }

  /** The chord named by the parts, after the modifiers already read. */
  function ChordOf(parts: seq<string>, mods: set<Mod>): Result<Chord> {
    if parts == [] then Err(ModifierOnly)
    else
      match ModOf(parts[0])
      case Some(m) => if m in mods then Err(DuplicateModifier) else ChordOf(parts[1..], mods + {m})
      case None => if |parts| > 1 || !ValidKey(parts[0]) then Err(UnknownKey) else Ok(Chord(mods, parts[0]))
  }

  /** White space as Unicode defines it. */
  predicate Space(c: char) {
    || '\U{0009}' <= c <= '\U{000d}' || c == ' ' || c == '\U{0085}' || c == '\U{00a0}' || c == '\U{1680}'
    || '\U{2000}' <= c <= '\U{200a}' || c == '\U{2028}' || c == '\U{2029}'
    || c == '\U{202f}' || c == '\U{205f}' || c == '\U{3000}'
  }

  predicate Blank(s: string) { forall c <- s :: Space(c) }

  function ParsedChord(s: string): Result<Chord> {
    if Blank(s) then Err(Empty) else ChordOf(Split(s, '+'), {})
  }

  method PrintChord(c: Chord) returns (s: string)
    ensures s == ChordText(c)
  {
    s := "";
    if c.key == "" {
      return;
    }
    assert MODS[0..] == MODS;
    for i := 0 to |MODS|
      invariant s + NamesFrom(MODS[i..], c.mods) == NamesFrom(MODS, c.mods)
    {
      assert MODS[i..][1..] == MODS[i + 1..];
      NamesAppend(s, MODS[i..], c.mods);
      if MODS[i] in c.mods {
        s := s + ModName(MODS[i]) + "+";
      }
    }
    assert s == NamesFrom(MODS, c.mods);
    s := s + c.key;
  }

  lemma NamesAppend(s: string, order: seq<Mod>, mods: set<Mod>)
    requires order != []
    ensures var next := if order[0] in mods then s + ModName(order[0]) + "+" else s;
      s + NamesFrom(order, mods) == next + NamesFrom(order[1..], mods)
  {
    var head := if order[0] in mods then ModName(order[0]) + "+" else "";
    assert s + (head + NamesFrom(order[1..], mods)) == (s + head) + NamesFrom(order[1..], mods);
  }

  lemma ModNameParses(m: Mod)
    ensures ModOf(ModName(m)) == Some(m) && '+' !in ModName(m)
  {
  }

  method ParseChord(s: string) returns (r: Result<Chord>)
    ensures r == ParsedChord(s)
  {
    if Blank(s) {
      return Err(Empty);
    }
    var parts := Split(s, '+');
    var c := Chord({}, "");
    for i := 0 to |parts|
      invariant c.key == "" && ChordOf(parts, {}) == ChordOf(parts[i..], c.mods)
    {
      var p := parts[i];
      var m := ModOf(p);
      if m.Some? {
        if m.value in c.mods {
          return Err(DuplicateModifier);
        }
        c := c.(mods := c.mods + {m.value});
      } else {
        if i != |parts| - 1 || !ValidKey(p) {
          return Err(UnknownKey);
        }
        return Ok(c.(key := p));
      }
    }
    r := Err(ModifierOnly);
  }

  function ModNames(ms: seq<Mod>): seq<string> { if ms == [] then [] else [ModName(ms[0])] + ModNames(ms[1..]) }

  predicate Distinct(ms: seq<Mod>) { forall i, j :: 0 <= i < j < |ms| ==> ms[i] != ms[j] }

  function ModSet(ms: seq<Mod>): set<Mod> { set m <- ms }

  lemma {:induction false} ChordOfNames(ms: seq<Mod>, key: string, mods: set<Mod>)
    requires ValidKey(key) && Distinct(ms) && forall m <- ms :: m !in mods
    ensures ChordOf(ModNames(ms) + [key], mods) == Ok(Chord(mods + ModSet(ms), key))
  {
    KeyShape(key);
    if ms == [] {
      assert ModNames(ms) + [key] == [key];
      assert mods + ModSet([]) == mods;
    } else {
      ModNameParses(ms[0]);
      var parts := ModNames(ms) + [key];
      assert parts[0] == ModName(ms[0]) && parts[1..] == ModNames(ms[1..]) + [key];
      ChordOfNames(ms[1..], key, mods + {ms[0]});
      assert (mods + {ms[0]}) + ModSet(ms[1..]) == mods + ModSet(ms);
    }
  }

  /** What spelling `m` in front of `rest` adds. */
  lemma NamesCons(m: Mod, rest: seq<Mod>, mods: set<Mod>)
    requires m !in mods && Distinct(rest) && forall x <- rest :: x !in mods + {m}
    ensures var ms := [m] + rest;
      && Distinct(ms) && (forall x <- ms :: x !in mods)
      && mods + ModSet(ms) == (mods + {m}) + ModSet(rest) && ModNames(ms) == [ModName(m)] + ModNames(rest)
  {
    assert ([m] + rest)[1..] == rest;
    assert ModSet([m] + rest) == {m} + ModSet(rest);
  }

  lemma {:induction false} NamesOfChord(parts: seq<string>, mods: set<Mod>) returns (ms: seq<Mod>)
    requires ChordOf(parts, mods).Ok?
    ensures var c := ChordOf(parts, mods).value;
      && ValidKey(c.key) && Distinct(ms) && (forall m <- ms :: m !in mods)
      && c.mods == mods + ModSet(ms) && parts == ModNames(ms) + [c.key]
  {
    if ModOf(parts[0]).Some? {
      var m := ModOf(parts[0]).value;
      var rest := NamesOfChord(parts[1..], mods + {m});
      ms := [m] + rest;
      NamesCons(m, rest, mods);
      assert parts == [parts[0]] + parts[1..];
    } else {
      ms := [];
      assert parts == [parts[0]];
    }
  }

  /** `s` spells the chord: its modifiers in some order, then its key. */
  ghost predicate Spells(s: string, c: Chord) {
    ValidKey(c.key) && exists ms :: Distinct(ms) && ModSet(ms) == c.mods && Split(s, '+') == ModNames(ms) + [c.key]
  }

  lemma BlankIsNoName(s: string)
    requires Blank(s)
    ensures !ValidKey(s) && ModOf(s).None? && '+' !in s
  {
    assert !Space('+') && !Space('C') && !Space('A') && !Space('S');
    if s != "" {
      assert s[0] in s;
      assert !KeyChar(s[0]);
    }
    if ValidKey(s) { KeyShape(s); }
  }

  lemma BlankHasNoKey(s: string)
    requires Blank(s)
    ensures ChordOf(Split(s, '+'), {}).Err?
  {
    BlankIsNoName(s);
    SplitWhole(s, '+');
  }

  /** A text parses to a chord exactly if it spells it. */
  lemma ParsesIffSpells(s: string, c: Chord)
    ensures ParsedChord(s) == Ok(c) <==> Spells(s, c)
  {
    if ParsedChord(s) == Ok(c) {
      var ms := NamesOfChord(Split(s, '+'), {});
      assert {} + ModSet(ms) == ModSet(ms);
    }
    if Spells(s, c) {
      var ms :| Distinct(ms) && ModSet(ms) == c.mods && Split(s, '+') == ModNames(ms) + [c.key];
      ChordOfNames(ms, c.key, {});
      assert {} + ModSet(ms) == ModSet(ms);
      if Blank(s) { BlankHasNoKey(s); }
    }
  }

  function Kept(order: seq<Mod>, mods: set<Mod>): seq<Mod> {
    if order == [] then [] else (if order[0] in mods then [order[0]] else []) + Kept(order[1..], mods)
  }

  lemma {:induction false} KeptDistinct(order: seq<Mod>, mods: set<Mod>)
    requires Distinct(order)
    ensures Distinct(Kept(order, mods)) && forall m :: m in Kept(order, mods) <==> m in order && m in mods
  {
    if order != [] {
      KeptDistinct(order[1..], mods);
      assert order == [order[0]] + order[1..];
      assert forall m <- order[1..] :: m != order[0];
    }
  }

  lemma {:induction false} SplitNames(order: seq<Mod>, mods: set<Mod>, key: string)
    requires '+' !in key
    ensures Split(NamesFrom(order, mods) + key, '+') == ModNames(Kept(order, mods)) + [key]
  {
    if order == [] {
      assert NamesFrom(order, mods) + key == key;
      SplitWhole(key, '+');
    } else {
      SplitNames(order[1..], mods, key);
      SplitName(order, mods, key);
    }
  }

  lemma SplitName(order: seq<Mod>, mods: set<Mod>, key: string)
    requires order != []
    ensures var rest := Split(NamesFrom(order[1..], mods) + key, '+');
      Split(NamesFrom(order, mods) + key, '+') == if order[0] in mods then [ModName(order[0])] + rest else rest
    ensures ModNames(Kept(order, mods))
         == (if order[0] in mods then [ModName(order[0])] else []) + ModNames(Kept(order[1..], mods))
  {
    var rest := NamesFrom(order[1..], mods) + key;
    if order[0] in mods {
      ModNameParses(order[0]);
      SplitAfter(ModName(order[0]), rest, '+');
      assert NamesFrom(order, mods) + key == ModName(order[0]) + ['+'] + rest;
      assert Kept(order, mods)[1..] == Kept(order[1..], mods);
    } else {
      assert NamesFrom(order, mods) + key == rest;
      assert Kept(order, mods) == Kept(order[1..], mods);
    }
  }

  /** A valid chord is read back from its text. */
  lemma ChordRoundTrip(c: Chord)
    requires ValidChord(c)
    ensures ParsedChord(ChordText(c)) == Ok(c)
  {
    KeyShape(c.key);
    SplitNames(MODS, c.mods, c.key);
    KeptDistinct(MODS, c.mods);
    forall m ensures m in MODS { assert m == MODS[0] || m == MODS[1] || m == MODS[2] || m == MODS[3]; }
    assert ModSet(Kept(MODS, c.mods)) == c.mods;
    assert Spells(ChordText(c), c);
    ParsesIffSpells(ChordText(c), c);
  }

  // ---- joystick bindings ----------------------------------------------------------------------

  const HAT_NAMES := ["up", "up_right", "right", "down_right", "down", "down_left", "left", "up_left"]

  predicate DeviceChar(c: char) { KeyChar(c) || c == '_' || c == '-' || c == '.' }

  predicate ValidDevice(s: string) { s != "" && forall c <- s :: DeviceChar(c) }

  predicate ValidRef(j: JoyButton) { ValidDevice(j.device) && j.button < HAT_BASE + HAT_COUNT * HAT_DIRS }

  predicate Valid(t: Trigger) {
    match t
    case Key(c) => ValidChord(c)
    case Joy(main, modifier) => ValidRef(main) && (modifier.Some? ==> ValidRef(modifier.value))
  }

  function HatText(b: nat): string
    requires b >= HAT_BASE
  {
    "hat" + Decimal((b - HAT_BASE) / HAT_DIRS + 1) + "." + HAT_NAMES[(b - HAT_BASE) % HAT_DIRS]
  }

  function InputText(b: nat): string {
    if b >= HAT_BASE then HatText(b) else "btn" + Decimal(b + 1)
  }

  function RefText(j: JoyButton): string {
    j.device + ":" + InputText(j.button)
  }

  function Text(t: Trigger): string {
    match t
    case Key(c) => ChordText(c)
    case Joy(main, None) => "joy:" + RefText(main)
    case Joy(main, Some(modifier)) => "joy:" + (RefText(modifier) + "+" + RefText(main))
  }

  function HatIndex(name: string): Option<nat> {
    if d :| 0 <= d < HAT_DIRS && HAT_NAMES[d] == name then Some(d) else None
  }

  function ParsedInput(s: string): Result<nat> {
    if HasPrefix(s, "btn") then
      var n := Atoi(s[3..]);
      if n.None? || n.value < 1 || n.value > MAX_BUTTON + 1 then Err(BadInput) else Ok(n.value - 1)
    else if HasPrefix(s, "hat") then
      match Cut(s[3..], '.')
      case None => Err(BadInput)
      case Some(pair) =>
        var n, dir := Atoi(pair.0), HatIndex(pair.1);
        if n.None? || n.value < 1 || n.value > HAT_COUNT || dir.None? then Err(BadInput)
        else Ok(HAT_BASE + (n.value - 1) * HAT_DIRS + dir.value)
    else Err(BadInput)
  }

  function ParsedRef(s: string): Result<JoyButton> {
    match Cut(s, ':')
    case None => Err(BadInput)
    case Some(pair) =>
      if !ValidDevice(pair.0) then Err(BadDevice)
      else
        match ParsedInput(pair.1)
        case Err(e) => Err(e)
        case Ok(button) => Ok(JoyButton(pair.0, button))
  }

  function ParsedJoy(parts: seq<string>): Result<Trigger> {
    if |parts| == 0 || |parts| > 2 then Err(BadModifier)
    else
      match ParsedRef(parts[|parts| - 1])
      case Err(e) => Err(e)
      case Ok(main) =>
        if |parts| == 1 then Ok(Joy(main, None))
        else
          match ParsedRef(parts[0])
          case Err(e) => Err(e)
          case Ok(modifier) => Ok(Joy(main, Some(modifier)))
  }

  function Parsed(s: string): Result<Trigger> {
    if Blank(s) then Err(Empty)
    else if HasPrefix(s, "joy:") then ParsedJoy(Split(s[4..], '+'))
    else
      match ParsedChord(s)
      case Err(e) => Err(e)
      case Ok(c) => Ok(Key(c))
  }

  lemma HatIndexOf(d: nat)
    requires d < HAT_DIRS
    ensures HatIndex(HAT_NAMES[d]) == Some(d) && '+' !in HAT_NAMES[d]
  {
  }

  lemma InputRoundTrip(b: nat)
    requires b < HAT_BASE + HAT_COUNT * HAT_DIRS
    ensures ParsedInput(InputText(b)) == Ok(b)
    ensures '+' !in InputText(b)
  {
    var s := InputText(b);
    if b < HAT_BASE {
      assert s[3..] == Decimal(b + 1);
      AtoiOfDecimal(b + 1);
    } else {
      HatRoundTrip(b);
    }
  }

  lemma HatRoundTrip(b: nat)
    requires HAT_BASE <= b < HAT_BASE + HAT_COUNT * HAT_DIRS
    ensures ParsedInput(HatText(b)) == Ok(b) && '+' !in HatText(b)
  {
    var hat, dir := (b - HAT_BASE) / HAT_DIRS, (b - HAT_BASE) % HAT_DIRS;
    var s := HatText(b);
    assert s[3..] == Decimal(hat + 1) + ['.'] + HAT_NAMES[dir];
    CutAfter(Decimal(hat + 1), HAT_NAMES[dir], '.');
    AtoiOfDecimal(hat + 1);
    HatIndexOf(dir);
    assert '+' !in Decimal(hat + 1);
    assert HasPrefix(s, "hat") && !HasPrefix(s, "btn") by { assert s[..3] == "hat" && s[0] == 'h'; }
  }

  lemma RefRoundTrip(j: JoyButton)
    requires ValidRef(j)
    ensures ParsedRef(RefText(j)) == Ok(j) && '+' !in RefText(j)
  {
    CutAfter(j.device, InputText(j.button), ':');
    assert j.device + ":" + InputText(j.button) == j.device + [':'] + InputText(j.button);
    InputRoundTrip(j.button);
  }

  /** A text that starts like a joystick binding is read as one. */
  lemma JoyPrefixed(rest: string)
    ensures Parsed("joy:" + rest) == ParsedJoy(Split(rest, '+'))
  {
    var s := "joy:" + rest;
    assert s[..4] == "joy:" && s[4..] == rest;
    assert s[0] in s && !Space(s[0]);
  }

  lemma JoyRoundTrip(main: JoyButton, modifier: Option<JoyButton>)
    requires Valid(Joy(main, modifier))
    ensures Parsed(Text(Joy(main, modifier))) == Ok(Joy(main, modifier))
  {
    RefRoundTrip(main);
    SplitWhole(RefText(main), '+');
    match modifier
    case None => JoyPrefixed(RefText(main));
    case Some(m) =>
      RefRoundTrip(m);
      SplitAfter(RefText(m), RefText(main), '+');
      JoyPrefixed(RefText(m) + ['+'] + RefText(main));
  }

  /** A valid trigger is read back from its text. */
  lemma RoundTrip(t: Trigger)
    requires Valid(t)
    ensures Parsed(Text(t)) == Ok(t)
  {
    if t.Key? {
      ChordRoundTrip(t.chord);
      ChordIsNotJoy(t.chord);
    } else {
      JoyRoundTrip(t.main, t.modifier);
    }
  }

  lemma ChordIsNotJoy(c: Chord)
    requires ValidChord(c)
    ensures ChordText(c) != "" && ChordText(c)[0] != 'j'
  {
    KeyShape(c.key);
    NamesStart(MODS, c.mods);
  }

  lemma {:induction false} NamesStart(order: seq<Mod>, mods: set<Mod>)
    ensures var s := NamesFrom(order, mods); s != "" ==> s[0] != 'j'
  {
    if order != [] { NamesStart(order[1..], mods); }
  }

  /** Only valid triggers are ever parsed. */
  lemma ParsedIsValid(s: string)
    ensures Parsed(s).Ok? ==> Valid(Parsed(s).value)
  {
    if Parsed(s).Ok? && Parsed(s).value.Key? {
      ParsesIffSpells(s, Parsed(s).value.chord);
    }
  }

  /** Printing what was parsed gives the same trigger again, whatever the text looked like. */
  lemma PrintIsCanonical(s: string)
    requires Parsed(s).Ok?
    ensures Valid(Parsed(s).value) && Parsed(Text(Parsed(s).value)) == Parsed(s)
  {
    ParsedIsValid(s);
    RoundTrip(Parsed(s).value);
  }

  /** Different triggers have different texts. */
  lemma TextInjective(t: Trigger, u: Trigger)
    requires Valid(t) && Valid(u) && Text(t) == Text(u)
    ensures t == u
  {
    RoundTrip(t);
    RoundTrip(u);
  }

  // ---- how it is spelled ------------------------------------------------------------------------

  /** A modifier in front of the key, if it is set. */
  function Prefix(m: Mod, mods: set<Mod>): string { if m in mods then ModName(m) + "+" else "" }

  lemma ModSpelling()
    ensures ModName(Ctrl) == "Ctrl" && ModName(Alt) == "Alt" && ModName(Shift) == "Shift" && ModName(Super) == "Super"
  {
  }

  /** Modifiers are spelled in one order, each at most once. */
  lemma ChordSpelling(mods: set<Mod>, key: string)
    requires key != ""
    ensures ChordText(Chord(mods, key))
         == Prefix(Ctrl, mods) + (Prefix(Alt, mods) + (Prefix(Shift, mods) + (Prefix(Super, mods) + key)))
  {
    SpelledFrom(MODS, 0, mods, key);
    SpelledFrom(MODS, 1, mods, key);
    SpelledFrom(MODS, 2, mods, key);
    SpelledFrom(MODS, 3, mods, key);
    assert MODS[4..] == [] && NamesFrom([], mods) + key == key;
    assert MODS[0..] == MODS;
  }

  lemma SpelledFrom(order: seq<Mod>, i: nat, mods: set<Mod>, key: string)
    requires i < |order|
    ensures NamesFrom(order[i..], mods) + key == Prefix(order[i], mods) + (NamesFrom(order[i + 1..], mods) + key)
  {
    assert order[i..][1..] == order[i + 1..];
    var head, tail := Prefix(order[i], mods), NamesFrom(order[i + 1..], mods);
    assert NamesFrom(order[i..], mods) == head + tail;
    Regrouped(head, tail, key);
  }

  lemma Regrouped(a: string, b: string, c: string)
    ensures (a + b) + c == a + (b + c)
  {
  }

  /** Buttons count from one; hats too, and their eight directions go clockwise from up. */
  lemma ButtonSpelling(b: nat)
    requires b < 128
    ensures InputText(b) == "btn" + Decimal(b + 1)
  {
  }

  lemma HatSpelling(hat: nat, dir: nat)
    requires dir < 8
    ensures InputText(128 + 8 * hat + dir) == "hat" + Decimal(hat + 1) + "." +
      match dir
      case 0 => "up"
      case 1 => "up_right"
      case 2 => "right"
      case 3 => "down_right"
      case 4 => "down"
      case 5 => "down_left"
      case 6 => "left"
      case _ => "up_left"
  {
    assert (8 * hat + dir) / 8 == hat && (8 * hat + dir) % 8 == dir;
  }

  /** A joystick trigger is spelled modifier first, each input behind its device. */
  lemma JoySpelling(main: JoyButton, modifier: Option<JoyButton>)
    ensures Text(Joy(main, modifier)) ==
      match modifier
      case None => "joy:" + (main.device + ":" + InputText(main.button))
      case Some(m) =>
        "joy:" + ((m.device + ":" + InputText(m.button)) + "+" + (main.device + ":" + InputText(main.button)))
  {
  }

  /** Numbers have no leading zero. */
  lemma {:induction false} NoLeadingZero(n: nat)
    ensures |Decimal(n)| > 1 ==> Decimal(n)[0] != '0'
    ensures n > 0 ==> Decimal(n)[0] != '0'
  {
    if n >= 10 { NoLeadingZero(n / 10); }
  }

  // ---- what is read ---------------------------------------------------------------------------

  /** A number may carry a sign. */
  lemma SignedNumber(n: nat)
    ensures Atoi("+" + Decimal(n)) == Some(n) && Atoi("-" + Decimal(n)) == Some(-(n as int))
  {
    ValueOfDecimal(n);
    assert ("+" + Decimal(n))[1..] == Decimal(n) && ("-" + Decimal(n))[1..] == Decimal(n);
  }

  /** Buttons 1 to 128 are read, and no other. */
  lemma ButtonRead(x: string, n: int)
    requires Atoi(x) == Some(n)
    ensures ParsedInput("btn" + x) == if 1 <= n <= 128 then Ok(n - 1) else Err(BadInput)
  {
    var s := "btn" + x;
    assert s[3..] == x;
    assert HasPrefix(s, "btn") by { assert s[..3] == "btn"; }
  }

  /** Hats 1 to 4 are read, eight inputs each behind the buttons, and no other. */
  lemma HatRead(x: string, n: int, dir: nat)
    requires Atoi(x) == Some(n) && '.' !in x && dir < 8
    ensures ParsedInput("hat" + x + "." + HAT_NAMES[dir])
         == if 1 <= n <= 4 then Ok(128 + 8 * (n - 1) + dir) else Err(BadInput)
  {
    var s := "hat" + x + "." + HAT_NAMES[dir];
    assert s[3..] == x + ['.'] + HAT_NAMES[dir];
    CutAfter(x, HAT_NAMES[dir], '.');
    HatIndexOf(dir);
    assert HasPrefix(s, "hat") && !HasPrefix(s, "btn") by { assert s[..3] == "hat" && s[0] == 'h'; }
  }

  /** A device id is letters, digits, and three kinds of punctuation, and not empty. */
  lemma DeviceIds(s: string)
    ensures ValidDevice(s) <==>
      |s| > 0 &&
      forall c <- s :: 'A' <= c <= 'Z' || 'a' <= c <= 'z' || '0' <= c <= '9' || c in {'_', '-', '.'}
  {
  }

  /** The key names that come in families: letters, digits, the keypad's digits and 24
      function keys. */
  lemma KeyFamilies(c: char, n: nat)
    ensures 'A' <= c <= 'Z' || '0' <= c <= '9' ==> ValidKey([c])
    ensures '0' <= c <= '9' ==> ValidKey("Numpad" + [c])
    ensures 1 <= n <= 24 ==> ValidKey("F" + Decimal(n))
  {
    assert [c][0] == c;
    var pad := "Numpad" + [c];
    assert |pad| == 7 && pad[..6] == "Numpad" && pad[6] == c;
  }

  lemma DecimalInjective(m: nat, n: nat)
    requires Decimal(m) == Decimal(n)
    ensures m == n
  {
    ValueOfDecimal(m);
    ValueOfDecimal(n);
  }

  lemma NoNamedKeyIsF(k: string)
    requires k in NAMED
    ensures k != "" && k[0] != 'F' && ValidKey(k)
  {
  }

  /** There are exactly 24 function keys. */
  lemma FunctionKeys(n: nat)
    ensures ValidKey("F" + Decimal(n)) <==> 1 <= n <= 24
  {
    var k := "F" + Decimal(n);
    assert k[0] == 'F' && k[1..] == Decimal(n) && |k| > 1;
    if k in NAMED { NoNamedKeyIsF(k); }
    assert |k| >= 6 ==> k[..6][0] == 'F';
    if i :| 1 <= i <= 24 && k == "F" + Decimal(i) {
      assert ("F" + Decimal(i))[1..] == Decimal(i);
      DecimalInjective(i, n);
    }
  }
}

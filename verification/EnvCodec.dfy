/** The production env file: values as JSON strings (section 7 of RFC 8259), read back line
    by line, over UTF-16 code units. */
module EnvCodec {
  import opened SandboxTypes

  type Unit = x: int | 0 <= x < 0x1_0000

  type Text = seq<Unit>

  const LF: Unit := 10
  const CR: Unit := 13
  const QUOTE: Unit := 34
  const BACKSLASH: Unit := 92
  const APOSTROPHE: Unit := 39
  const EQUALS: Unit := 61
  const HASH: Unit := 35

  /** `__proto__`, the one name an object does not store as its own. */
  const PROTO: Text := [95, 95, 112, 114, 111, 116, 111, 95, 95]

  // ---- JSON strings -------------------------------------------------------

  predicate HighSurrogate(u: Unit) {
    0xD800 <= u < 0xDC00
  }

  predicate LowSurrogate(u: Unit) {
    0xDC00 <= u < 0xE000
  }

  function HexDigit(d: int): Unit
    requires 0 <= d < 16
  {
    if d < 10 then 48 + d else 87 + d
  }

  /** A backslash, a `u` and four digits. */
  function UnicodeEscape(u: Unit): Text {
    [BACKSLASH, 117, HexDigit(u / 4096), HexDigit(u / 256 % 16), HexDigit(u / 16 % 16), HexDigit(u % 16)]
  }

  /** The letter of a short escape, or None. */
  function ShortEscape(u: Unit): Option<Unit> {
    if u == 8 then Some(98)
    else if u == 9 then Some(116)
    else if u == 10 then Some(110)
    else if u == 12 then Some(102)
    else if u == 13 then Some(114)
    else if u == QUOTE then Some(QUOTE)
    else if u == BACKSLASH then Some(BACKSLASH)
    else None
  }

  /** A unit that is not half of a surrogate pair. */
  function QuoteUnit(u: Unit): Text {
    if ShortEscape(u).Some? then [BACKSLASH, ShortEscape(u).value]
    else if u < 32 || HighSurrogate(u) || LowSurrogate(u) then UnicodeEscape(u)
    else [u]
  }

  predicate PairAt(v: Text) {
    |v| >= 2 && HighSurrogate(v[0]) && LowSurrogate(v[1])
  }

  function Quoted(v: Text): Text {
    if v == [] then []
    else if PairAt(v) then v[..2] + Quoted(v[2..])
    else QuoteUnit(v[0]) + Quoted(v[1..])
  }

  function Stringify(v: Text): Text {
    [QUOTE] + Quoted(v) + [QUOTE]
  }

  function HexValue(u: Unit): Option<int> {
    if 48 <= u <= 57 then Some(u - 48)
    else if 97 <= u <= 102 then Some(u - 87)
    else if 65 <= u <= 70 then Some(u - 55)
    else None
  }

  function Unescape(letter: Unit): Option<Unit> {
    if letter == QUOTE || letter == BACKSLASH || letter == 47 then Some(letter)
    else if letter == 98 then Some(8)
    else if letter == 102 then Some(12)
    else if letter == 110 then Some(10)
    else if letter == 114 then Some(13)
    else if letter == 116 then Some(9)
    else None
  }

  /** The unit of four hexadecimal digits. */
  function HexUnit(text: Text): Option<Unit>
    requires |text| == 4
  {
    var a, b, c, d := HexValue(text[0]), HexValue(text[1]), HexValue(text[2]), HexValue(text[3]);
    if a.Some? && b.Some? && c.Some? && d.Some?
    then Some(((a.value * 16 + b.value) * 16 + c.value) * 16 + d.value)
    else None
  }

  function Prepend(u: Unit, rest: Option<Text>): Option<Text> {
    match rest case None => None case Some(text) => Some([u] + text)
  }

  /** What follows the opening quote, up to a closing quote at the very end. */
  function ParseBody(text: Text): Option<Text> {
    if text == [] then None
    else if text[0] == QUOTE then (if |text| == 1 then Some([]) else None)
    else if text[0] < 32 then None
    else if text[0] != BACKSLASH then Prepend(text[0], ParseBody(text[1..]))
    else if |text| == 1 then None
    else if text[1] == 117 then
      if |text| >= 6 && HexUnit(text[2..6]).Some? then Prepend(HexUnit(text[2..6]).value, ParseBody(text[6..])) else None
    else if Unescape(text[1]).Some? then Prepend(Unescape(text[1]).value, ParseBody(text[2..]))
    else None
  }

  // ---- lines and trimming -------------------------------------------------

  predicate White(u: Unit) {
    || 9 <= u <= 13 || u == 32 || u == 0xA0 || u == 0x1680 || 0x2000 <= u <= 0x200A
    || u == 0x2028 || u == 0x2029 || u == 0x202F || u == 0x205F || u == 0x3000 || u == 0xFEFF
  }

  function TrimStart(t: Text): (r: Text)
    ensures |r| <= |t|
  {
    if t != [] && White(t[0]) then TrimStart(t[1..]) else t
  }

  function TrimEnd(t: Text): (r: Text)
    ensures |r| <= |t|
  {
    if t != [] && White(t[|t| - 1]) then TrimEnd(t[..|t| - 1]) else t
  }

  function Trim(t: Text): Text {
    TrimEnd(TrimStart(t))
  }

  /** The position of the first `u`, or the length. */
  function IndexOf(t: Text, u: Unit): (i: nat)
    ensures i <= |t| && (i < |t| ==> t[i] == u) && forall k :: 0 <= k < i ==> t[k] != u
  {
    if t == [] || t[0] == u then 0 else 1 + IndexOf(t[1..], u)
  }

  function DropReturn(line: Text): Text {
    if line != [] && line[|line| - 1] == CR then line[..|line| - 1] else line
  }

  /** Split at each line feed, with the carriage return before it. */
  function Lines(t: Text): (r: seq<Text>)
    ensures r != []
    decreases |t|
  {
    var i := IndexOf(t, LF);
    if i == |t| then [t] else [DropReturn(t[..i])] + Lines(t[i + 1..])
  }

  // ---- the file -----------------------------------------------------------

  predicate NameStart(u: Unit) {
    65 <= u <= 90 || 97 <= u <= 122 || u == 95
  }

  predicate EnvName(name: Text) {
    name != [] && NameStart(name[0]) && forall i :: 0 <= i < |name| ==> NameStart(name[i]) || 48 <= name[i] <= 57
  }

  predicate EndsIn(t: Text, u: Unit) {
    t != [] && t[|t| - 1] == u
  }

  /** `slice(1, -1)`. */
  function Inner(t: Text): Text {
    if |t| < 2 then [] else t[1..|t| - 1]
  }

  /** None where the value is malformed. */
  function Decode(raw: Text): Option<Text> {
    var value := Trim(raw);
    if value != [] && value[0] == QUOTE then
      if EndsIn(value, QUOTE) then ParseBody(value[1..]) else None
    else if value != [] && value[0] == APOSTROPHE then
      if EndsIn(value, APOSTROPHE) && APOSTROPHE !in Inner(value) then Some(Inner(value)) else None
    else Some(value)
  }

  type Env = map<Text, Text>

  /** Assignment to a property of a plain object. */
  function Assign(env: Env, name: Text, value: Text): Env {
    if name == PROTO then env else env[name := value]
  }

  function ParseLine(env: Env, raw: Text): Option<Env> {
    var line := Trim(raw);
    if line == [] || line[0] == HASH then Some(env)
    else
      var at := IndexOf(line, EQUALS);
      if at < 1 || at == |line| then Some(env)
      else
        var name := Trim(line[..at]);
        if !EnvName(name) then Some(env)
        else match Decode(line[at + 1..])
          case None => None
          case Some(value) => Some(Assign(env, name, value))
  }

  function ParseLines(env: Env, lines: seq<Text>): Option<Env>
    decreases |lines|
  {
    if lines == [] then Some(env)
    else match ParseLine(env, lines[0])
      case None => None
      case Some(next) => ParseLines(next, lines[1..])
  }

  function Parse(input: Text): Option<Env> {
    ParseLines(map[], Lines(input))
  }

  function EncodeLine(name: Text, value: Text): Option<Text> {
    if EnvName(name) then Some(name + [EQUALS] + Stringify(value)) else None
  }

  // ---- a string survives --------------------------------------------------

  lemma {:induction false} HexSurvives(u: Unit)
    ensures HexUnit(UnicodeEscape(u)[2..6]) == Some(u)
  {
    var t := UnicodeEscape(u)[2..6];
    assert t == [HexDigit(u / 4096), HexDigit(u / 256 % 16), HexDigit(u / 16 % 16), HexDigit(u % 16)];
    HexParts(u);
  }

  lemma {:induction false} HexParts(u: int)
    requires 0 <= u < 0x1_0000
    ensures ((u / 4096 * 16 + u / 256 % 16) * 16 + u / 16 % 16) * 16 + u % 16 == u
  {
  }

  lemma {:induction false} UnitSurvives(u: Unit, rest: Text)
    ensures ParseBody(QuoteUnit(u) + rest) == Prepend(u, ParseBody(rest))
  {
    var all := QuoteUnit(u) + rest;
    if ShortEscape(u).Some? {
      assert all[2..] == rest;
    } else if |QuoteUnit(u)| == 6 {
      HexSurvives(u);
      assert all[2..6] == UnicodeEscape(u)[2..6];
      assert all[6..] == rest;
    } else {
      assert all[1..] == rest;
    }
  }

  /** Whatever the string, lone surrogates and control characters included. */
  lemma {:induction false} StringSurvives(v: Text)
    ensures ParseBody(Quoted(v) + [QUOTE]) == Some(v)
    decreases |v|
  {
    if v == [] {
      assert Quoted(v) + [QUOTE] == [QUOTE];
    } else if PairAt(v) {
      StringSurvives(v[2..]);
      var rest := Quoted(v[2..]) + [QUOTE];
      assert Quoted(v) + [QUOTE] == [v[0]] + ([v[1]] + rest);
      assert ([v[0]] + ([v[1]] + rest))[1..] == [v[1]] + rest;
      assert ([v[1]] + rest)[1..] == rest;
      assert [v[0]] + ([v[1]] + v[2..]) == v;
    } else {
      StringSurvives(v[1..]);
      var rest := Quoted(v[1..]) + [QUOTE];
      assert Quoted(v) + [QUOTE] == QuoteUnit(v[0]) + rest;
      UnitSurvives(v[0], rest);
      assert [v[0]] + v[1..] == v;
    }
  }

  // ---- an encoded line is one line ----------------------------------------

  predicate NoBreak(t: Text) {
    forall i :: 0 <= i < |t| ==> t[i] >= 32
  }

  lemma {:induction false} QuotedHasNoBreak(v: Text)
    ensures NoBreak(Quoted(v))
    decreases |v|
  {
    if v != [] {
      if PairAt(v) {
        QuotedHasNoBreak(v[2..]);
      } else {
        QuotedHasNoBreak(v[1..]);
        UnitHasNoBreak(v[0]);
      }
    }
  }

  lemma {:induction false} UnitHasNoBreak(u: Unit)
    ensures NoBreak(QuoteUnit(u))
  {
  }

  /** Text that starts and ends with something visible is not changed by trimming. */
  lemma {:induction false} TrimKeeps(t: Text)
    requires t != [] && !White(t[0]) && !White(t[|t| - 1])
    ensures Trim(t) == t
  {
  }

  lemma {:induction false} EncodedIsOneLine(name: Text, value: Text)
    requires EnvName(name)
    ensures var line := EncodeLine(name, value).value;
      && NoBreak(line) && Trim(line) == line && IndexOf(line, EQUALS) == |name|
      && line[..|name|] == name && line[|name| + 1..] == Stringify(value)
      && Trim(name) == name && Trim(Stringify(value)) == Stringify(value)
  {
    var line := EncodeLine(name, value).value;
    QuotedHasNoBreak(value);
    TrimKeeps(line);
    TrimKeeps(name);
    TrimKeeps(Stringify(value));
    assert line[..|name|] == name;
    assert line[|name|] == EQUALS;
    assert forall k :: 0 <= k < |name| ==> line[k] == name[k] && name[k] != EQUALS;
  }

  lemma {:induction false} LineSurvives(env: Env, name: Text, value: Text)
    requires EnvName(name)
    ensures ParseLine(env, EncodeLine(name, value).value) == Some(Assign(env, name, value))
  {
    EncodedIsOneLine(name, value);
    StringSurvives(value);
    assert Stringify(value)[1..] == Quoted(value) + [QUOTE];
  }

  // ---- the file survives --------------------------------------------------

  datatype Entry = Entry(name: Text, value: Text)

  /** The lines of the entries, joined by line feeds. */
  function JoinLines(lines: seq<Text>): Text {
    if lines == [] then [] else if |lines| == 1 then lines[0] else lines[0] + [LF] + JoinLines(lines[1..])
  }

  function EncodeAll(entries: seq<Entry>): (r: seq<Text>)
    requires forall i :: 0 <= i < |entries| ==> EnvName(entries[i].name)
    ensures |r| == |entries| && forall i :: 0 <= i < |r| ==> r[i] == EncodeLine(entries[i].name, entries[i].value).value
  {
    seq(|entries|, i requires 0 <= i < |entries| => EncodeLine(entries[i].name, entries[i].value).value)
  }

  lemma {:induction false} FirstBreak(line: Text, rest: Text)
    requires NoBreak(line)
    ensures IndexOf(line + [LF] + rest, LF) == |line| && IndexOf(line, LF) == |line|
  {
    var t := line + [LF] + rest;
    assert t[|line|] == LF;
    forall k | 0 <= k < |line|
      ensures t[k] != LF
    {
      assert t[k] == line[k];
    }
  }

  lemma {:induction false} LinesOfJoined(lines: seq<Text>)
    requires lines != [] && forall i :: 0 <= i < |lines| ==> NoBreak(lines[i])
    ensures Lines(JoinLines(lines)) == lines
    decreases |lines|
  {
    if |lines| == 1 {
      FirstBreak(lines[0], []);
    } else {
      var rest := JoinLines(lines[1..]);
      LinesOfJoined(lines[1..]);
      FirstBreak(lines[0], rest);
      var t := lines[0] + [LF] + rest;
      assert t[..|lines[0]|] == lines[0] && t[|lines[0]| + 1..] == rest;
      assert DropReturn(lines[0]) == lines[0];
      assert lines == [lines[0]] + lines[1..];
    }
  }

  /** The object the entries fill, in order. */
  function Filled(env: Env, entries: seq<Entry>): Env
    decreases |entries|
  {
    if entries == [] then env else Filled(Assign(env, entries[0].name, entries[0].value), entries[1..])
  }

  lemma {:induction false} EntriesSurvive(env: Env, entries: seq<Entry>)
    requires forall i :: 0 <= i < |entries| ==> EnvName(entries[i].name)
    ensures ParseLines(env, EncodeAll(entries)) == Some(Filled(env, entries))
    decreases |entries|
  {
    if entries != [] {
      LineSurvives(env, entries[0].name, entries[0].value);
      EntriesSurvive(Assign(env, entries[0].name, entries[0].value), entries[1..]);
      assert EncodeAll(entries)[1..] == EncodeAll(entries[1..]);
    }
  }

  /** Parsing the joined encoded lines fills the object as assignment would. */
  lemma {:induction false} FileSurvives(entries: seq<Entry>)
    requires forall i :: 0 <= i < |entries| ==> EnvName(entries[i].name)
    ensures Parse(JoinLines(EncodeAll(entries))) == Some(Filled(map[], entries))
  {
    if entries == [] {
      assert EncodeAll(entries) == [] && IndexOf([], LF) == 0;
      var one: seq<Text> := [[]];
      assert Lines([]) == one && one[1..] == [] && Trim(one[0]) == [];
    } else {
      var lines := EncodeAll(entries);
      forall i | 0 <= i < |lines|
        ensures NoBreak(lines[i])
      {
        EncodedIsOneLine(entries[i].name, entries[i].value);
      }
      LinesOfJoined(lines);
      EntriesSurvive(map[], entries);
    }
  }

  /** `entries` list a map, each name once, in any order. */
  ghost predicate Lists(entries: seq<Entry>, env: Env) {
    && (forall i :: 0 <= i < |entries| ==> entries[i].name in env && env[entries[i].name] == entries[i].value)
    && (forall i, j :: 0 <= i < j < |entries| ==> entries[i].name != entries[j].name)
    && (forall name :: name in env ==> exists i :: 0 <= i < |entries| && entries[i].name == name)
  }

  /** What an object keeps of a map. */
  function Kept(env: Env): Env {
    env - {PROTO}
  }

  lemma {:induction false} FilledHas(env: Env, entries: seq<Entry>, name: Text)
    requires forall i, j :: 0 <= i < j < |entries| ==> entries[i].name != entries[j].name
    ensures name in Filled(env, entries) <==>
      name in env || (name != PROTO && exists i :: 0 <= i < |entries| && entries[i].name == name)
    ensures forall i :: 0 <= i < |entries| && entries[i].name == name && name != PROTO ==> name in Filled(env, entries) && Filled(env, entries)[name] == entries[i].value
    ensures name in env && (forall i :: 0 <= i < |entries| ==> entries[i].name != name) ==> name in Filled(env, entries) && Filled(env, entries)[name] == env[name]
    decreases |entries|
  {
    if entries != [] {
      var next := Assign(env, entries[0].name, entries[0].value);
      var rest := entries[1..];
      FilledHas(next, rest, name);
      assert forall i :: 0 <= i < |rest| ==> rest[i] == entries[i + 1];
      if exists i :: 0 <= i < |entries| && entries[i].name == name {
        var i :| 0 <= i < |entries| && entries[i].name == name;
        if i > 0 { assert rest[i - 1].name == name; }
      }
    }
  }

  /** For every map of valid names to strings, written in any order: reading the file
      gives the map back, except for an entry called `__proto__`. */
  lemma {:induction false} EnvRoundTrip(entries: seq<Entry>, env: Env)
    requires Lists(entries, env) && forall name :: name in env ==> EnvName(name)
    ensures Parse(JoinLines(EncodeAll(entries))) == Some(Kept(env))
    ensures Parse(JoinLines(EncodeAll(entries))) == Some(env) <==> PROTO !in env
  {
    FileSurvives(entries);
    var filled := Filled(map[], entries);
    forall name
      ensures name in filled <==> name in Kept(env)
      ensures name in filled ==> filled[name] == env[name]
    {
      FilledHas(map[], entries, name);
    }
    assert filled == Kept(env);
    if PROTO in env {
      assert PROTO !in Kept(env);
    } else {
      assert Kept(env) == env;
    }
  }

  // ---- the parser, as a loop ----------------------------------------------

  method ParseText(input: Text) returns (output: Option<Env>)
    ensures output == Parse(input)
  {
    var env: Env := map[];
    var lines := Lines(input);
    var index := 0;
    while index < |lines|
      invariant 0 <= index <= |lines|
      invariant Parse(input) == ParseLines(env, lines[index..])
    {
      assert lines[index..][0] == lines[index] && lines[index..][1..] == lines[index + 1..];
      var line := Trim(lines[index]);
      index := index + 1;
      if line == [] || line[0] == HASH {
        continue;
      }
      var separator := IndexOf(line, EQUALS);
      if separator < 1 || separator == |line| {
        continue;
      }
      var name := Trim(line[..separator]);
      if !EnvName(name) {
        continue;
      }
      var value := Decode(line[separator + 1..]);
      if value.None? {
        return None;
      }
      env := Assign(env, name, value.value);
    }
    output := Some(env);
  }
}

/** What the env parser accepts, beyond what the writer writes. */
module EnvGrammar {
  import opened SandboxTypes
  import opened EnvCodec

  const LOWER := "0123456789abcdef"
  const UPPER := "0123456789ABCDEF"

  /** A hexadecimal digit is written in either case. */
  predicate Digit(u: Unit, d: nat) {
    d < 16 && (u == LOWER[d] as int || u == UPPER[d] as int)
  }

  lemma {:induction false} DigitIsExact(u: Unit, d: nat)
    ensures HexValue(u) == Some(d) <==> Digit(u, d)
    ensures HexValue(u).Some? ==> 0 <= HexValue(u).value < 16
  {
    if d < 16 {
      if d < 10 {
        assert LOWER[d] as int == UPPER[d] as int == 48 + d;
      } else {
        assert LOWER[d] as int == 87 + d && UPPER[d] as int == 55 + d;
      }
    }
  }

  /** One unit of a string, as section 7 of RFC 8259 lets it be written. */
  ghost predicate Writes(piece: Text, u: Unit) {
    || (piece == [u] && u >= 32 && u != '"' as int && u != '\\' as int)
    || (|piece| == 2 && piece[0] == '\\' as int && Short(piece[1], u))
    || (|piece| == 6 && piece[0] == '\\' as int && piece[1] == 'u' as int && FourDigits(piece[2..6], u))
  }

  /** The short escapes. */
  predicate Short(letter: Unit, u: Unit) {
    || (letter == u && (u == '"' as int || u == '\\' as int || u == '/' as int))
    || (letter == 'b' as int && u == 8) || (letter == 't' as int && u == 9) || (letter == 'n' as int && u == 10)
    || (letter == 'f' as int && u == 12) || (letter == 'r' as int && u == 13)
  }

  ghost predicate FourDigits(text: Text, u: Unit)
    requires |text| == 4
  {
    exists a: nat, b: nat, c: nat, d: nat ::
      Digit(text[0], a) && Digit(text[1], b) && Digit(text[2], c) && Digit(text[3], d) && u == 4096 * a + 256 * b + 16 * c + d
  }

  lemma {:induction false} DigitsGive(text: Text, u: Unit, a: nat, b: nat, c: nat, d: nat)
    requires |text| == 4 && Digit(text[0], a) && Digit(text[1], b) && Digit(text[2], c) && Digit(text[3], d)
    ensures HexUnit(text) == Some(u) <==> u == 4096 * a + 256 * b + 16 * c + d
  {
    DigitIsExact(text[0], a);
    DigitIsExact(text[1], b);
    DigitIsExact(text[2], c);
    DigitIsExact(text[3], d);
  }

  lemma {:induction false} DigitOf(u: Unit) returns (d: nat)
    requires HexValue(u).Some?
    ensures Digit(u, d)
  {
    d := HexValue(u).value;
    DigitIsExact(u, d);
  }

  lemma {:induction false} DigitsAreExact(text: Text, u: Unit)
    requires |text| == 4
    ensures HexUnit(text) == Some(u) <==> FourDigits(text, u)
  {
    if HexUnit(text).Some? {
      var a := DigitOf(text[0]);
      var b := DigitOf(text[1]);
      var c := DigitOf(text[2]);
      var d := DigitOf(text[3]);
      DigitsGive(text, HexUnit(text).value, a, b, c, d);
    }
    if FourDigits(text, u) {
      var a: nat, b: nat, c: nat, d: nat :|
        Digit(text[0], a) && Digit(text[1], b) && Digit(text[2], c) && Digit(text[3], d) && u == 4096 * a + 256 * b + 16 * c + d;
      DigitsGive(text, u, a, b, c, d);
    }
  }

  function Join(pieces: seq<Text>): Text {
    if pieces == [] then [] else pieces[0] + Join(pieces[1..])
  }

  /** `text` spells `v` piece by piece and then closes. */
  ghost predicate Spells(text: Text, pieces: seq<Text>, v: Text) {
    && |pieces| == |v| && text == Join(pieces) + [QUOTE]
    && forall i :: 0 <= i < |v| ==> Writes(pieces[i], v[i])
  }

  lemma {:induction false} SpelledParses(text: Text, pieces: seq<Text>, v: Text)
    requires Spells(text, pieces, v)
    ensures ParseBody(text) == Some(v)
    decreases |v|
  {
    if v != [] {
      var piece, rest := pieces[0], Join(pieces[1..]) + [QUOTE];
      assert text == piece + rest && Writes(piece, v[0]);
      assert text[|piece|..] == rest;
      SpelledParses(rest, pieces[1..], v[1..]);
      assert [v[0]] + v[1..] == v;
      if |piece| == 6 {
        assert text[2..6] == piece[2..6];
        DigitsAreExact(piece[2..6], v[0]);
      }
    }
  }

  lemma {:induction false} OnePiece(text: Text, piece: Text, u: Unit, pieces: seq<Text>, v: Text)
    requires Writes(piece, u) && |piece| <= |text| && piece == text[..|piece|] && Spells(text[|piece|..], pieces, v)
    ensures Spells(text, [piece] + pieces, [u] + v)
  {
    assert ([piece] + pieces)[1..] == pieces;
    assert text == piece + text[|piece|..];
  }

  /** The pieces of a text that is read. */
  lemma {:induction false} ParsedIsSpelled(text: Text) returns (pieces: seq<Text>)
    requires ParseBody(text).Some?
    ensures Spells(text, pieces, ParseBody(text).value)
    decreases |text|
  {
    if text[0] == QUOTE {
      pieces := [];
    } else {
      var n := if text[0] != BACKSLASH then 1 else if text[1] == 117 then 6 else 2;
      var u: Unit := ParseBody(text).value[0];
      if n == 6 {
        DigitsAreExact(text[2..6], u);
        assert text[..6][2..6] == text[2..6];
      }
      var rest := ParsedIsSpelled(text[n..]);
      OnePiece(text, text[..n], u, rest, ParseBody(text[n..]).value);
      pieces := [text[..n]] + rest;
    }
  }

  /** The parser reads a string exactly as the grammar spells it, in whatever of the allowed
      ways each unit is written, and reads nothing else. */
  lemma {:induction false} StringIsExact(text: Text, v: Text)
    ensures ParseBody(text) == Some(v) <==> exists pieces :: Spells(text, pieces, v)
  {
    if ParseBody(text) == Some(v) {
      var pieces := ParsedIsSpelled(text);
    }
    if exists pieces :: Spells(text, pieces, v) {
      var pieces :| Spells(text, pieces, v);
      SpelledParses(text, pieces, v);
    }
  }

  // ---- names and trimming -------------------------------------------------

  predicate InWord(u: Unit) {
    'A' as int <= u <= 'Z' as int || 'a' as int <= u <= 'z' as int || u == '_' as int
  }

  /** A name is a word of letters, digits and underscores that does not start with a digit. */
  lemma {:induction false} NameIsExact(name: Text)
    ensures EnvName(name) <==>
      && name != [] && InWord(name[0])
      && forall i :: 0 <= i < |name| ==> InWord(name[i]) || '0' as int <= name[i] <= '9' as int
  {
  }

  ghost predicate AllWhite(t: Text) {
    forall i :: 0 <= i < |t| ==> White(t[i])
  }

  lemma {:induction false} StartIsExact(t: Text) returns (head: Text)
    ensures t == head + TrimStart(t) && AllWhite(head)
    ensures TrimStart(t) != [] ==> !White(TrimStart(t)[0])
  {
    if t != [] && White(t[0]) {
      var rest := StartIsExact(t[1..]);
      head := [t[0]] + rest;
    } else {
      head := [];
    }
  }

  lemma {:induction false} EndTrimIsExact(t: Text) returns (tail: Text)
    ensures t == TrimEnd(t) + tail && AllWhite(tail)
    ensures TrimEnd(t) != [] ==> !White(TrimEnd(t)[|TrimEnd(t)| - 1])
    decreases |t|
  {
    if t != [] && White(t[|t| - 1]) {
      var rest := EndTrimIsExact(t[..|t| - 1]);
      tail := rest + [t[|t| - 1]];
    } else {
      tail := [];
    }
  }

  /** Trimming takes the white space off both ends and nothing else. */
  lemma {:induction false} TrimIsExact(t: Text) returns (head: Text, tail: Text)
    ensures t == head + Trim(t) + tail && AllWhite(head) && AllWhite(tail)
    ensures Trim(t) != [] ==> !White(Trim(t)[0]) && !White(Trim(t)[|Trim(t)| - 1])
  {
    head := StartIsExact(t);
    tail := EndTrimIsExact(TrimStart(t));
    if Trim(t) != [] {
      assert Trim(t)[0] == TrimStart(t)[0];
    }
  }

  // ---- a line -------------------------------------------------------------

  /** What a value is written as: a quoted string, a text between apostrophes that holds
      none, or a bare text. */
  ghost predicate Value(raw: Text, v: Text) {
    var t := Trim(raw);
    if t != [] && t[0] == '"' as int then exists pieces :: Spells(t[1..], pieces, v)
    else if t != [] && t[0] == '\'' as int
    then (t == ['\'' as int] && v == []) || (t == ['\'' as int] + v + ['\'' as int] && '\'' as int !in v)
    else v == t
  }

  lemma {:induction false} ValueIsExact(raw: Text, v: Text)
    ensures Decode(raw) == Some(v) <==> Value(raw, v)
  {
    var t := Trim(raw);
    if t != [] && t[0] == QUOTE {
      StringIsExact(t[1..], v);
      if exists pieces :: Spells(t[1..], pieces, v) {
        var pieces :| Spells(t[1..], pieces, v);
        assert t[1..][|t[1..]| - 1] == QUOTE;
      }
    } else if t != [] && t[0] == APOSTROPHE {
      if |t| >= 2 && t[|t| - 1] == APOSTROPHE {
        assert t == [APOSTROPHE] + Inner(t) + [APOSTROPHE];
      }
      if t == [APOSTROPHE] + v + [APOSTROPHE] {
        assert Inner(t) == v;
      }
    }
  }
}

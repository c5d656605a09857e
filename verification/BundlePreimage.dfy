/** The preimage of a skill bundle's digest, as the catalog script and the bundle package
    compute it. */
module BundlePreimage {
  import opened SandboxTypes

  type byte = x: int | 0 <= x < 256

  type Bytes = seq<byte>

  type Unit = x: int | 0 <= x < 0x1_0000

  /** A Unicode scalar value. */
  type Scalar = x: int | (0 <= x < 0xD800 || 0xE000 <= x < 0x11_0000) witness 0

  type Name = seq<Scalar>

  datatype File = File(name: Name, data: Bytes)

  // ---- encodings ----------------------------------------------------------

  function Utf8Of(c: Scalar): Bytes {
    if c < 0x80 then [c]
    else if c < 0x800 then [0xC0 + c / 0x40, 0x80 + c % 0x40]
    else if c < 0x1_0000 then [0xE0 + c / 0x1000, 0x80 + c / 0x40 % 0x40, 0x80 + c % 0x40]
    else [0xF0 + c / 0x4_0000, 0x80 + c / 0x1000 % 0x40, 0x80 + c / 0x40 % 0x40, 0x80 + c % 0x40]
  }

  function Utf8(name: Name): (r: Bytes)
    ensures name != [] ==> r != []
  {
    if name == [] then [] else Utf8Of(name[0]) + Utf8(name[1..])
  }

  function UnitsOf(c: Scalar): seq<Unit> {
    if c < 0x1_0000 then [c] else [0xD800 + (c - 0x1_0000) / 0x400, 0xDC00 + (c - 0x1_0000) % 0x400]
  }

  function Units(name: Name): (r: seq<Unit>)
    ensures name != [] ==> r != []
  {
    if name == [] then [] else UnitsOf(name[0]) + Units(name[1..])
  }

  /** Each code unit as two bytes, the high one first. */
  function BigEndian(units: seq<Unit>): Bytes {
    if units == [] then [] else [units[0] / 256, units[0] % 256] + BigEndian(units[1..])
  }

  function U32(n: nat): Bytes
    requires n < 0x1_0000_0000
  {
    [n / 0x100_0000, n / 0x1_0000 % 256, n / 256 % 256, n % 256]
  }

  function U32Value(b: Bytes): int
    requires |b| == 4
  {
    var x: int, y: int, z: int, w: int := b[0], b[1], b[2], b[3];
    ((x * 256 + y) * 256 + z) * 256 + w
  }

  lemma {:induction false} U32RoundTrip(n: nat)
    requires n < 0x1_0000_0000
    ensures U32Value(U32(n)) == n
  {
  }

  /** The scalar value at the head of UTF-8 text. */
  function ScalarAt(t: Bytes): int {
    if t == [] then 0
    else
      var a: int := t[0];
      if a < 0x80 || |t| < 2 then a
      else
        var b: int := t[1];
        if a < 0xE0 || |t| < 3 then (a - 0xC0) * 0x40 + (b - 0x80)
        else
          var c: int := t[2];
          if a < 0xF0 || |t| < 4 then ((a - 0xE0) * 0x40 + (b - 0x80)) * 0x40 + (c - 0x80)
          else
            var d: int := t[3];
            (((a - 0xF0) * 0x40 + (b - 0x80)) * 0x40 + (c - 0x80)) * 0x40 + (d - 0x80)
  }

  lemma {:induction false} Base64Digits(c: int)
    requires 0 <= c < 0x11_0000
    ensures c == (c / 0x40) * 0x40 + c % 0x40
    ensures c == ((c / 0x1000) * 0x40 + c / 0x40 % 0x40) * 0x40 + c % 0x40
    ensures c == (((c / 0x4_0000) * 0x40 + c / 0x1000 % 0x40) * 0x40 + c / 0x40 % 0x40) * 0x40 + c % 0x40
  {
  }

  lemma {:induction false} ScalarRoundTrip(c: Scalar, rest: Bytes)
    ensures ScalarAt(Utf8Of(c) + rest) == c
  {
    var head := Utf8Of(c);
    var t := head + rest;
    Base64Digits(c);
    assert t[0] == head[0];
    if c >= 0x80 {
      assert t[1] == head[1];
      if c >= 0x800 {
        assert t[2] == head[2];
        if c >= 0x1_0000 {
          assert t[3] == head[3];
        }
      }
    }
  }

  lemma {:induction false} SameScalar(c: Scalar, d: Scalar, x: Bytes, y: Bytes)
    requires Utf8Of(c) + x == Utf8Of(d) + y
    ensures c == d
  {
    ScalarRoundTrip(c, x);
    ScalarRoundTrip(d, y);
  }

  lemma {:induction false} Utf8Injective(a: Name, b: Name)
    requires Utf8(a) == Utf8(b)
    ensures a == b
    decreases |a|
  {
    if a != [] && b != [] {
      SameScalar(a[0], b[0], Utf8(a[1..]), Utf8(b[1..]));
      SamePrefix(Utf8Of(a[0]), Utf8(a[1..]), Utf8(b[1..]));
      Utf8Injective(a[1..], b[1..]);
      assert a == [a[0]] + a[1..] && b == [b[0]] + b[1..];
    }
  }

  lemma {:induction false} SamePrefix(p: Bytes, x: Bytes, y: Bytes)
    requires p + x == p + y
    ensures x == y
  {
    assert (p + x)[|p|..] == x && (p + y)[|p|..] == y;
  }

  /** The scalar value at the head of UTF-16 text. */
  function UnitsAt(u: seq<Unit>): int {
    if u == [] then 0
    else
      var hi: int := u[0];
      if !(0xD800 <= hi < 0xDC00) || |u| < 2 then hi
      else
        var lo: int := u[1];
        0x1_0000 + (hi - 0xD800) * 0x400 + (lo - 0xDC00)
  }

  lemma {:induction false} UnitsRoundTrip(c: Scalar, rest: seq<Unit>)
    ensures UnitsAt(UnitsOf(c) + rest) == c
  {
  }

  lemma {:induction false} UnitsInjective(a: Name, b: Name)
    requires Units(a) == Units(b)
    ensures a == b
    decreases |a|
  {
    if a != [] && b != [] {
      UnitsRoundTrip(a[0], Units(a[1..]));
      UnitsRoundTrip(b[0], Units(b[1..]));
      var p := UnitsOf(a[0]);
      assert (p + Units(a[1..]))[|p|..] == Units(a[1..]);
      assert (p + Units(b[1..]))[|p|..] == Units(b[1..]);
      UnitsInjective(a[1..], b[1..]);
      assert a == [a[0]] + a[1..] && b == [b[0]] + b[1..];
    }
  }

  // ---- the two orders -----------------------------------------------------

  /** Lexicographic order. */
  predicate Less(a: seq<int>, b: seq<int>)
    decreases |a|
  {
    b != [] && (a == [] || a[0] < b[0] || (a[0] == b[0] && Less(a[1..], b[1..])))
  }

  function ByteInts(s: Bytes): (r: seq<int>)
    ensures |r| == |s| && forall i :: 0 <= i < |s| ==> r[i] == s[i]
  {
    seq(|s|, i requires 0 <= i < |s| => s[i])
  }

  function UnitInts(s: seq<Unit>): (r: seq<int>)
    ensures |r| == |s| && forall i :: 0 <= i < |s| ==> r[i] == s[i]
  {
    seq(|s|, i requires 0 <= i < |s| => s[i])
  }

  /** The script's sort key order. */
  predicate PythonLess(a: Name, b: Name) {
    Less(ByteInts(BigEndian(Units(a))), ByteInts(BigEndian(Units(b))))
  }

  /** The package's `<` on strings. */
  predicate JsLess(a: Name, b: Name) {
    Less(UnitInts(Units(a)), UnitInts(Units(b)))
  }

  lemma {:induction false} EndianOrder(a: seq<Unit>, b: seq<Unit>)
    ensures Less(ByteInts(BigEndian(a)), ByteInts(BigEndian(b))) <==> Less(UnitInts(a), UnitInts(b))
    decreases |a|
  {
    if a != [] && b != [] {
      var x, y := ByteInts(BigEndian(a)), ByteInts(BigEndian(b));
      assert x[1..][1..] == ByteInts(BigEndian(a[1..]));
      assert y[1..][1..] == ByteInts(BigEndian(b[1..]));
      assert UnitInts(a)[1..] == UnitInts(a[1..]) && UnitInts(b)[1..] == UnitInts(b[1..]);
      EndianOrder(a[1..], b[1..]);
      assert Less(x[1..], y[1..]) <==> x[1] < y[1] || (x[1] == y[1] && Less(x[1..][1..], y[1..][1..]));
    }
  }

  /** The two programs order paths alike. */
  lemma {:induction false} OrdersAgree(a: Name, b: Name)
    ensures PythonLess(a, b) <==> JsLess(a, b)
  {
    EndianOrder(Units(a), Units(b));
  }

  lemma {:induction false} LessTrans(a: seq<int>, b: seq<int>, c: seq<int>)
    requires Less(a, b) && Less(b, c)
    ensures Less(a, c)
    decreases |a|
  {
    if a != [] && a[0] == b[0] && b[0] == c[0] {
      LessTrans(a[1..], b[1..], c[1..]);
    }
  }

  lemma {:induction false} LessTotal(a: seq<int>, b: seq<int>)
    ensures a == b || Less(a, b) || Less(b, a)
    ensures !(Less(a, b) && Less(b, a)) && (a == b ==> !Less(a, b))
    decreases |a|
  {
    if a != [] && b != [] {
      LessTotal(a[1..], b[1..]);
      if a[0] == b[0] {
        assert a == [a[0]] + a[1..] && b == [b[0]] + b[1..];
      }
    }
  }

  lemma {:induction false} NamesTotal(a: Name, b: Name)
    ensures a == b || JsLess(a, b) || JsLess(b, a)
    ensures !(JsLess(a, b) && JsLess(b, a)) && (a == b ==> !JsLess(a, b))
  {
    var x, y := UnitInts(Units(a)), UnitInts(Units(b));
    LessTotal(x, y);
    if x == y {
      assert Units(a) == Units(b) by {
        assert forall i :: 0 <= i < |x| ==> x[i] == y[i];
      }
      UnitsInjective(a, b);
    }
  }

  // ---- sorting ------------------------------------------------------------

  ghost predicate Distinct(files: seq<File>) {
    forall i, j :: 0 <= i < j < |files| ==> files[i].name != files[j].name
  }

  /** Strictly ascending paths. */
  ghost predicate Ascending(files: seq<File>) {
    forall i, j :: 0 <= i < j < |files| ==> JsLess(files[i].name, files[j].name)
  }

  /** What a sort by the order of the package, or of the script, returns. */
  ghost predicate SortOf(files: seq<File>, sorted: seq<File>) {
    multiset(sorted) == multiset(files) && Ascending(sorted)
  }

  function InsertJs(f: File, sorted: seq<File>): (r: seq<File>)
    ensures multiset(r) == multiset(sorted) + multiset{f}
  {
    if sorted == [] then [f]
    else if JsLess(f.name, sorted[0].name) then [f] + sorted
    else
      assert sorted == [sorted[0]] + sorted[1..];
      [sorted[0]] + InsertJs(f, sorted[1..])
  }

  function InsertPython(f: File, sorted: seq<File>): seq<File> {
    if sorted == [] then [f]
    else if PythonLess(f.name, sorted[0].name) then [f] + sorted
    else [sorted[0]] + InsertPython(f, sorted[1..])
  }

  function SortJs(files: seq<File>): (r: seq<File>)
    ensures multiset(r) == multiset(files)
  {
    if files == [] then []
    else
      assert files == [files[0]] + files[1..];
      InsertJs(files[0], SortJs(files[1..]))
  }

  function SortPython(files: seq<File>): seq<File> {
    if files == [] then [] else InsertPython(files[0], SortPython(files[1..]))
  }

  lemma {:induction false} InsertsAgree(f: File, sorted: seq<File>)
    ensures InsertPython(f, sorted) == InsertJs(f, sorted)
    decreases |sorted|
  {
    if sorted != [] {
      OrdersAgree(f.name, sorted[0].name);
      InsertsAgree(f, sorted[1..]);
    }
  }

  lemma {:induction false} SortsAgree(files: seq<File>)
    ensures SortPython(files) == SortJs(files)
    decreases |files|
  {
    if files != [] {
      SortsAgree(files[1..]);
      InsertsAgree(files[0], SortJs(files[1..]));
    }
  }

  /** Everything in `files` comes after `f`. */
  ghost predicate AllAfter(f: File, files: seq<File>) {
    forall i :: 0 <= i < |files| ==> JsLess(f.name, files[i].name)
  }

  lemma {:induction false} AscendingCons(f: File, files: seq<File>)
    requires Ascending(files) && AllAfter(f, files)
    ensures Ascending([f] + files)
  {
  }

  lemma {:induction false} BeforeAll(f: File, files: seq<File>)
    requires files != [] && Ascending(files) && JsLess(f.name, files[0].name)
    ensures AllAfter(f, files)
  {
    forall j | 0 < j < |files|
      ensures JsLess(f.name, files[j].name)
    {
      LessTrans(UnitInts(Units(f.name)), UnitInts(Units(files[0].name)), UnitInts(Units(files[j].name)));
    }
  }

  lemma {:induction false} AfterInsert(head: File, f: File, rest: seq<File>)
    requires AllAfter(head, rest) && JsLess(head.name, f.name)
    ensures AllAfter(head, InsertJs(f, rest))
  {
    var r := InsertJs(f, rest);
    forall j | 0 <= j < |r|
      ensures JsLess(head.name, r[j].name)
    {
      assert r[j] in multiset(r);
      if r[j] != f {
        assert r[j] in multiset(rest);
        var k :| 0 <= k < |rest| && rest[k] == r[j];
      }
    }
  }

  lemma {:induction false} InsertAscends(f: File, sorted: seq<File>)
    requires Ascending(sorted) && forall i :: 0 <= i < |sorted| ==> sorted[i].name != f.name
    ensures Ascending(InsertJs(f, sorted))
    decreases |sorted|
  {
    if sorted != [] {
      NamesTotal(f.name, sorted[0].name);
      if JsLess(f.name, sorted[0].name) {
        BeforeAll(f, sorted);
        AscendingCons(f, sorted);
      } else {
        InsertAscends(f, sorted[1..]);
        AfterInsert(sorted[0], f, sorted[1..]);
        AscendingCons(sorted[0], InsertJs(f, sorted[1..]));
      }
    }
  }

  lemma {:induction false} SortAscends(files: seq<File>)
    requires Distinct(files)
    ensures SortOf(files, SortJs(files))
    decreases |files|
  {
    if files != [] {
      SortAscends(files[1..]);
      var sorted := SortJs(files[1..]);
      forall i | 0 <= i < |sorted|
        ensures sorted[i].name != files[0].name
      {
        assert sorted[i] in multiset(files[1..]);
        var k :| 0 <= k < |files[1..]| && files[1..][k] == sorted[i];
        assert files[k + 1].name != files[0].name;
      }
      InsertAscends(files[0], sorted);
    }
  }

  lemma {:induction false} TailOf(files: seq<File>)
    requires files != []
    ensures multiset(files[1..]) == multiset(files) - multiset{files[0]} && |files| == |multiset(files)|
  {
    assert files == [files[0]] + files[1..];
  }

  /** A collection has one ascending arrangement. */
  lemma {:induction false} AscendingIsUnique(xs: seq<File>, ys: seq<File>)
    requires Ascending(xs) && Ascending(ys) && multiset(xs) == multiset(ys)
    ensures xs == ys
    decreases |xs|
  {
    if xs != [] && ys != [] {
      SameFirst(xs, ys);
      TailOf(xs);
      TailOf(ys);
      AscendingIsUnique(xs[1..], ys[1..]);
      assert xs == [xs[0]] + xs[1..] && ys == [ys[0]] + ys[1..];
    } else if xs != [] {
      TailOf(xs);
    } else if ys != [] {
      TailOf(ys);
    }
  }

  lemma {:induction false} SameFirst(xs: seq<File>, ys: seq<File>)
    requires Ascending(xs) && Ascending(ys) && multiset(xs) == multiset(ys) && xs != [] && ys != []
    ensures xs[0] == ys[0]
  {
    assert xs[0] in multiset(ys) && ys[0] in multiset(xs);
    var i :| 0 <= i < |ys| && ys[i] == xs[0];
    var j :| 0 <= j < |xs| && xs[j] == ys[0];
    NamesTotal(xs[0].name, ys[0].name);
  }

  // ---- the preimage -------------------------------------------------------

  /** Lengths that fit four bytes. */
  predicate Packable(f: File) {
    |Utf8(f.name)| < 0x1_0000_0000 && |f.data| < 0x1_0000_0000
  }

  predicate AllPackable(files: seq<File>) {
    forall i :: 0 <= i < |files| ==> Packable(files[i])
  }

  function Record(f: File): Bytes
    requires Packable(f)
  {
    U32(|Utf8(f.name)|) + U32(|f.data|) + Utf8(f.name) + f.data
  }

  function Records(files: seq<File>): Bytes
    requires AllPackable(files)
  {
    if files == [] then [] else Record(files[0]) + Records(files[1..])
  }

  /** `agentic-skill-bundle-v1` and a NUL. */
  const MAGIC: Bytes := [97, 103, 101, 110, 116, 105, 99, 45, 115, 107, 105, 108, 108, 45, 98, 117, 110, 100, 108, 101, 45, 118, 49, 0]

  lemma {:induction false} PackableAnyOrder(files: seq<File>, sorted: seq<File>)
    requires AllPackable(files) && multiset(sorted) == multiset(files)
    ensures AllPackable(sorted)
  {
    forall i | 0 <= i < |sorted|
      ensures Packable(sorted[i])
    {
      assert sorted[i] in multiset(files);
    }
  }

  /** The script's preimage. */
  function Preimage(files: seq<File>): Bytes
    requires AllPackable(files)
  {
    SortsAgree(files);
    PackableAnyOrder(files, SortPython(files));
    MAGIC + Records(SortPython(files))
  }

  /** The package's preimage. */
  function JsPreimage(files: seq<File>): Bytes
    requires AllPackable(files)
  {
    PackableAnyOrder(files, SortJs(files));
    MAGIC + Records(SortJs(files))
  }

  lemma {:induction false} RecordHead(f: File, rest: Bytes)
    requires Packable(f)
    ensures var t := Record(f) + rest; var n := |Utf8(f.name)|;
      && |t| >= 8 + n + |f.data| && t[..4] == U32(n) && t[4..8] == U32(|f.data|)
      && t[8..8 + n] == Utf8(f.name) && t[8 + n..8 + n + |f.data|] == f.data && t[8 + n + |f.data|..] == rest
  {
  }

  lemma {:induction false} SameRecord(f: File, g: File, x: Bytes, y: Bytes)
    requires Packable(f) && Packable(g) && Record(f) + x == Record(g) + y
    ensures f == g && x == y
  {
    RecordHead(f, x);
    RecordHead(g, y);
    U32RoundTrip(|Utf8(f.name)|);
    U32RoundTrip(|Utf8(g.name)|);
    U32RoundTrip(|f.data|);
    U32RoundTrip(|g.data|);
    Utf8Injective(f.name, g.name);
  }

  lemma {:induction false} RecordsInjective(xs: seq<File>, ys: seq<File>)
    requires AllPackable(xs) && AllPackable(ys) && Records(xs) == Records(ys)
    ensures xs == ys
    decreases |xs|
  {
    if xs != [] && ys != [] {
      SameRecord(xs[0], ys[0], Records(xs[1..]), Records(ys[1..]));
      RecordsInjective(xs[1..], ys[1..]);
      assert xs == [xs[0]] + xs[1..] && ys == [ys[0]] + ys[1..];
    } else {
      RecordsEmpty(xs);
      RecordsEmpty(ys);
    }
  }

  lemma {:induction false} RecordsEmpty(files: seq<File>)
    requires AllPackable(files)
    ensures Records(files) == [] <==> files == []
  {
  }

  /** Two directories have the same preimage exactly if they hold the same files,
      whatever order the listing came in. */
  lemma {:induction false} PreimageIsExact(xs: seq<File>, ys: seq<File>)
    requires AllPackable(xs) && AllPackable(ys) && Distinct(xs) && Distinct(ys)
    ensures Preimage(xs) == Preimage(ys) <==> multiset(xs) == multiset(ys)
  {
    SortsAgree(xs);
    SortsAgree(ys);
    SortAscends(xs);
    SortAscends(ys);
    PackableAnyOrder(xs, SortJs(xs));
    PackableAnyOrder(ys, SortJs(ys));
    if Preimage(xs) == Preimage(ys) {
      SamePrefix(MAGIC, Records(SortJs(xs)), Records(SortJs(ys)));
      RecordsInjective(SortJs(xs), SortJs(ys));
    }
    if multiset(xs) == multiset(ys) {
      AscendingIsUnique(SortJs(xs), SortJs(ys));
    }
  }

  /** The script and the package hash the same bytes. */
  lemma {:induction false} ProgramsAgree(files: seq<File>)
    requires AllPackable(files)
    ensures Preimage(files) == JsPreimage(files)
  {
    SortsAgree(files);
  }

  function Fed(files: seq<File>): Bytes
    requires AllPackable(files)
  {
    if files == [] then [] else Fed(files[..|files| - 1]) + Record(files[|files| - 1])
  }

  lemma {:induction false} FedIsRecords(files: seq<File>)
    requires AllPackable(files)
    ensures Fed(files) == Records(files)
    decreases |files|
  {
    if files != [] {
      var before, last := files[..|files| - 1], files[|files| - 1];
      FedIsRecords(before);
      RecordsSnoc(before, last);
      assert before + [last] == files;
    }
  }

  lemma {:induction false} RecordsSnoc(files: seq<File>, f: File)
    requires AllPackable(files) && Packable(f)
    ensures AllPackable(files + [f]) && Records(files + [f]) == Records(files) + Record(f)
    decreases |files|
  {
    if files == [] {
      assert [] + [f] == [f] && [f][1..] == [];
    } else {
      RecordsSnoc(files[1..], f);
      assert (files + [f])[1..] == files[1..] + [f];
    }
  }

  /** The bytes fed to the hash, record by record. */
  method Digest(files: seq<File>) returns (fed: Bytes)
    requires AllPackable(files)
    ensures fed == Preimage(files)
  {
    SortsAgree(files);
    PackableAnyOrder(files, SortPython(files));
    var sorted := SortPython(files);
    var body: Bytes := [];
    for i := 0 to |sorted|
      invariant body == Fed(sorted[..i])
    {
      assert sorted[..i + 1][..i] == sorted[..i];
      body := body + Record(sorted[i]);
    }
    assert sorted[..|sorted|] == sorted;
    FedIsRecords(sorted);
    fed := MAGIC + body;
  }
}

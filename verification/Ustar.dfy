/** The ustar interchange format of the `pax` utility in IEEE Std 1003.1, as the tenant
    archive writes it, and a reader of it. */
module Ustar {
  import opened SandboxTypes

  type byte = x: int | 0 <= x < 256

  type Bytes = seq<byte>

  const BLOCK: nat := 512
  const SLASH: byte := 47
  const SPACE: byte := 32
  const ZERO: byte := 48

  /** A file of the archive.  Its path is the UTF-8 text of the name, where a slash is
      one byte and no byte of another character. */
  datatype Member = Member(path: Bytes, mode: nat, content: Bytes)

  function Fill(b: byte, n: nat): (r: Bytes)
    ensures |r| == n && forall i :: 0 <= i < n ==> r[i] == b
  {
    seq(n, i => b)
  }

  // ---- octal fields -------------------------------------------------------

  /** The digits of `value` in base eight. */
  function Octal(value: nat): (r: Bytes)
    ensures |r| >= 1
  {
    if value < 8 then [ZERO + value] else Octal(value / 8) + [ZERO + value % 8]
  }

  function Pow8(k: nat): (r: nat)
    ensures r >= 1
  {
    if k == 0 then 1 else 8 * Pow8(k - 1)
  }

  predicate OctalDigit(b: byte) {
    ZERO <= b < ZERO + 8
  }

  predicate Fits(value: nat, width: nat) {
    |Octal(value)| < width
  }

  /** Zero-padded digits and a NUL. */
  function OctalField(value: nat, width: nat): (r: Bytes)
    requires Fits(value, width)
    ensures |r| == width
  {
    Fill(ZERO, width - 1 - |Octal(value)|) + Octal(value) + [0]
  }

  /** The value of the digits before the first other byte. */
  function Parse(field: Bytes): nat {
    ParseOn(field, 0)
  }

  function ParseOn(field: Bytes, value: nat): nat {
    if field == [] || !OctalDigit(field[0]) then value else ParseOn(field[1..], 8 * value + (field[0] - ZERO))
  }

  lemma {:induction false} OctalIsDigits(value: nat)
    ensures forall i :: 0 <= i < |Octal(value)| ==> OctalDigit(Octal(value)[i])
  {
    if value >= 8 {
      OctalIsDigits(value / 8);
    }
  }

  /** A number has at most `k` digits exactly if it is below the power of eight. */
  lemma {:induction false} OctalLength(value: nat, k: nat)
    requires k >= 1
    ensures |Octal(value)| <= k <==> value < Pow8(k)
    decreases k
  {
    if k == 1 {
      assert Pow8(1) == 8 * Pow8(0);
      if value >= 8 {
        assert |Octal(value / 8)| >= 1;
      }
    } else if value >= 8 {
      OctalLength(value / 8, k - 1);
    } else {
      PowGrows(k);
    }
  }

  lemma {:induction false} PowGrows(k: nat)
    requires k >= 1
    ensures Pow8(k) >= 8
  {
  }

  lemma {:induction false} ParseDigits(digits: Bytes, rest: Bytes, value: nat)
    requires forall i :: 0 <= i < |digits| ==> OctalDigit(digits[i])
    requires rest == [] || !OctalDigit(rest[0])
    ensures ParseOn(digits + rest, value) == ParseOn(digits, value)
    decreases |digits|
  {
    if digits == [] {
      assert digits + rest == rest;
    } else {
      assert (digits + rest)[1..] == digits[1..] + rest;
      ParseDigits(digits[1..], rest, 8 * value + (digits[0] - ZERO));
    }
  }

  lemma {:induction false} ParseSnoc(digits: Bytes, d: byte, value: nat)
    requires OctalDigit(d) && forall i :: 0 <= i < |digits| ==> OctalDigit(digits[i])
    ensures ParseOn(digits + [d], value) == 8 * ParseOn(digits, value) + (d - ZERO)
    decreases |digits|
  {
    if digits == [] {
      assert digits + [d] == [d] && [d][1..] == [];
    } else {
      assert (digits + [d])[1..] == digits[1..] + [d];
      ParseSnoc(digits[1..], d, 8 * value + (digits[0] - ZERO));
    }
  }

  lemma {:induction false} ParseOctal(value: nat)
    ensures Parse(Octal(value)) == value
  {
    if value < 8 {
      assert Octal(value)[1..] == [] && ParseOn([], value) == value;
    } else {
      ParseOctal(value / 8);
      OctalIsDigits(value / 8);
      ParseSnoc(Octal(value / 8), ZERO + value % 8, 0);
    }
  }

  lemma {:induction false} ParsePadded(n: nat, digits: Bytes)
    ensures Parse(Fill(ZERO, n) + digits) == Parse(digits)
  {
    if n == 0 {
      assert Fill(ZERO, 0) + digits == digits;
    } else {
      var all := Fill(ZERO, n) + digits;
      assert all[1..] == Fill(ZERO, n - 1) + digits;
      ParsePadded(n - 1, digits);
    }
  }

  /** Reading an octal field gives back what was written. */
  lemma {:induction false} OctalRoundTrip(value: nat, width: nat, after: Bytes)
    requires Fits(value, width)
    ensures Parse(OctalField(value, width) + after) == value
  {
    var pad, digits := Fill(ZERO, width - 1 - |Octal(value)|), Octal(value);
    OctalIsDigits(value);
    ParseDigits(pad + digits, [0] + after, 0);
    assert OctalField(value, width) + after == (pad + digits) + ([0] + after);
    ParsePadded(|pad|, digits);
    ParseOctal(value);
  }

  // ---- the path -----------------------------------------------------------

  /** A slash where the prefix and the name both fit. */
  predicate FitsAt(path: Bytes, at: nat) {
    at < |path| && path[at] == SLASH && at <= 155 && |path| - at - 1 <= 100
  }

  /** The last fitting slash before `end`. */
  function LastFit(path: Bytes, end: nat): (r: Option<nat>)
    requires end <= |path|
    ensures r.Some? ==> r.value < end && FitsAt(path, r.value) && forall i :: r.value < i < end ==> !FitsAt(path, i)
    ensures r.None? ==> forall i :: 0 <= i < end ==> !FitsAt(path, i)
  {
    if end == 0 then None else if FitsAt(path, end - 1) then Some(end - 1) else LastFit(path, end - 1)
  }

  /** (name, prefix), or None when the path cannot be represented. */
  function Split(path: Bytes): Option<(Bytes, Bytes)> {
    if |path| <= 100 then Some((path, []))
    else
      match LastFit(path, |path|)
      case None => None
      case Some(at) => Some((path[at + 1..], path[..at]))
  }

  function Join(name: Bytes, prefix: Bytes): Bytes {
    if prefix == [] then name else prefix + [SLASH] + name
  }

  lemma {:induction false} SplitFits(path: Bytes)
    ensures Split(path).Some? ==> |Split(path).value.0| <= 100 && |Split(path).value.1| <= 155
  {
  }

  /** Splitting refuses exactly the long paths without a slash that leaves at most 155 bytes
      before it and at most 100 after it; it takes the last one; and a reader reassembles
      every path, except a long one split at a leading slash. */
  lemma {:induction false} SplitIsExact(path: Bytes)
    ensures Split(path).None? <==>
      |path| > 100 && forall at :: 0 <= at < |path| && path[at] == '/' as int ==> at > 155 || |path| - at - 1 > 100
    ensures Split(path).Some? ==>
      var (name, prefix) := Split(path).value;
      && |name| <= 100 && |prefix| <= 155
      && (Join(name, prefix) == path <==> |path| <= 100 || prefix != [])
      && (|path| > 100 && prefix == [] ==> path == [SLASH] + name)
      && (|path| > 100 ==> forall at :: |prefix| < at < |path| && path[at] == '/' as int ==> at > 155)
  {
    if Split(path).None? {
      forall at | 0 <= at < |path| && path[at] == SLASH
        ensures at > 155 || |path| - at - 1 > 100
      {
        assert !FitsAt(path, at);
      }
    } else if |path| > 100 {
      var prefix := Split(path).value.1;
      assert FitsAt(path, |prefix|);
      forall at | |prefix| < at < |path| && path[at] == SLASH
        ensures at > 155
      {
        assert !FitsAt(path, at);
      }
    }
  }

  // ---- the header ---------------------------------------------------------

  /** `h` with `b` written at `at`. */
  function Patch(h: Bytes, at: nat, b: Bytes): (r: Bytes)
    requires at + |b| <= |h|
    ensures |r| == |h|
    ensures forall i :: 0 <= i < |h| ==> r[i] == if at <= i < at + |b| then b[i - at] else h[i]
  {
    h[..at] + b + h[at + |b|..]
  }

  function Slice(h: Bytes, at: nat, n: nat): (r: Bytes)
    requires at + n <= |h|
    ensures |r| == n
  {
    h[at..at + n]
  }

  const MAGIC: Bytes := [117, 115, 116, 97, 114, 0]
  const VERSION: Bytes := [48, 48]

  /** The mode written for `mode`. */
  function ModeOf(mode: nat): nat {
    if mode == 0 then 0x1A4 else mode
  }

  predicate Writable(m: Member) {
    Split(m.path).Some? && Fits(ModeOf(m.mode), 8) && Fits(|m.content|, 12)
  }

  /** The name and the numeric fields. */
  function Front(name: Bytes, mode: nat, size: nat): (h: Bytes)
    requires |name| <= 100 && Fits(mode, 8) && Fits(size, 12)
    ensures |h| == BLOCK
  {
    var h0 := Patch(Fill(0, BLOCK), 0, name);
    var h1 := Patch(h0, 100, OctalField(mode, 8));
    var h2 := Patch(h1, 108, OctalField(0, 8));
    var h3 := Patch(h2, 116, OctalField(0, 8));
    var h4 := Patch(h3, 124, OctalField(size, 12));
    Patch(h4, 136, OctalField(0, 12))
  }

  /** The rest, with spaces where the checksum goes. */
  function Back(h: Bytes, prefix: Bytes): (r: Bytes)
    requires |h| == BLOCK && |prefix| <= 155
    ensures |r| == BLOCK
  {
    var h0 := Patch(h, 148, Fill(SPACE, 8));
    var h1 := Patch(h0, 156, [ZERO]);
    var h2 := Patch(h1, 257, MAGIC);
    var h3 := Patch(h2, 263, VERSION);
    Patch(h3, 345, prefix)
  }

  function Unsummed(m: Member): (h: Bytes)
    requires Writable(m)
    ensures |h| == BLOCK
  {
    SplitFits(m.path);
    var (name, prefix) := Split(m.path).value;
    Back(Front(name, ModeOf(m.mode), |m.content|), prefix)
  }

  function Sum(h: Bytes): nat {
    if h == [] then 0 else Sum(h[..|h| - 1]) + h[|h| - 1]
  }

  lemma {:induction false} SumBounded(h: Bytes)
    ensures Sum(h) <= 255 * |h|
  {
    if h != [] {
      SumBounded(h[..|h| - 1]);
    }
  }

  /** The checksum of a block always has at most six octal digits. */
  lemma {:induction false} ChecksumFits(h: Bytes)
    requires |h| == BLOCK
    ensures Fits(Sum(h), 7)
  {
    SumBounded(h);
    OctalLength(Sum(h), 6);
    assert Pow8(6) == 262144 by {
      assert Pow8(1) == 8 * Pow8(0) && Pow8(2) == 8 * Pow8(1) && Pow8(3) == 8 * Pow8(2);
      assert Pow8(4) == 8 * Pow8(3) && Pow8(5) == 8 * Pow8(4) && Pow8(6) == 8 * Pow8(5);
    }
  }

  function ChecksumField(h: Bytes): (r: Bytes)
    requires |h| == BLOCK
    ensures |r| == 8
  {
    ChecksumFits(h);
    OctalField(Sum(h), 7) + [SPACE]
  }

  function Header(m: Member): (h: Bytes)
    requires Writable(m)
    ensures |h| == BLOCK
  {
    var h := Unsummed(m);
    Patch(h, 148, ChecksumField(h))
  }

  // ---- the archive --------------------------------------------------------

  function Padding(size: nat): (n: nat)
    ensures n < BLOCK && (size + n) % BLOCK == 0
  {
    (BLOCK - size % BLOCK) % BLOCK
  }

  /** One header block and the content that follows it. */
  datatype Chunk = Chunk(header: Bytes, content: Bytes)

  function Padded(c: Chunk): (r: Bytes)
    ensures |r| == |c.header| + |c.content| + Padding(|c.content|)
  {
    c.header + c.content + Fill(0, Padding(|c.content|))
  }

  function Concat(chunks: seq<Chunk>): Bytes {
    if chunks == [] then [] else Concat(chunks[..|chunks| - 1]) + Padded(chunks[|chunks| - 1])
  }

  /** The chunks and two zero blocks. */
  function Pack(chunks: seq<Chunk>): Bytes {
    Concat(chunks) + Fill(0, 2 * BLOCK)
  }

  predicate AllWritable(members: seq<Member>) {
    forall i :: 0 <= i < |members| ==> Writable(members[i])
  }

  function Chunks(members: seq<Member>): (r: seq<Chunk>)
    requires AllWritable(members)
    ensures |r| == |members|
  {
    seq(|members|, i requires 0 <= i < |members| => Chunk(Header(members[i]), members[i].content))
  }

  function Archive(members: seq<Member>): Bytes
    requires AllWritable(members)
  {
    Pack(Chunks(members))
  }

  // ---- the reader ---------------------------------------------------------

  datatype Meta = Meta(path: Bytes, mode: nat, size: nat)

  /** A text field ends at its first NUL. */
  function Text(field: Bytes): Bytes {
    if field == [] || field[0] == 0 then [] else [field[0]] + Text(field[1..])
  }

  predicate Zeros(b: Bytes) {
    forall i :: 0 <= i < |b| ==> b[i] == 0
  }

  /** A regular file's header with a right checksum, or None. */
  function ReadHeader(h: Bytes): Option<Meta>
    requires |h| == BLOCK
  {
    if Parse(Slice(h, 148, 8)) != Sum(Patch(h, 148, Fill(SPACE, 8))) then None
    else if Slice(h, 257, 6) != MAGIC || Slice(h, 263, 2) != VERSION || h[156] != ZERO then None
    else Some(Meta(Join(Text(Slice(h, 0, 100)), Text(Slice(h, 345, 155))), Parse(Slice(h, 100, 8)), Parse(Slice(h, 124, 12))))
  }

  /** The members up to the two zero blocks, or None for a damaged archive. */
  function Read(raw: Bytes): Option<seq<Member>> {
    if |raw| < 2 * BLOCK then None
    else if Zeros(raw[..BLOCK]) then
      if Zeros(raw[BLOCK..2 * BLOCK]) then Some([]) else None
    else
      match ReadHeader(raw[..BLOCK])
      case None => None
      case Some(meta) =>
        var end := BLOCK + meta.size + Padding(meta.size);
        if |raw| < end then None
        else
          match Read(raw[end..])
          case None => None
          case Some(rest) => Some([Member(meta.path, meta.mode, raw[BLOCK..BLOCK + meta.size])] + rest)
  }
}

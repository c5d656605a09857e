/** Reading what the archive writer wrote. */
module UstarRoundTrip {
  import opened SandboxTypes
  import opened Ustar

  /** A path a directory walk can produce: not empty, no NUL, no leading slash. */
  predicate WalkPath(path: Bytes) {
    path != [] && path[0] != SLASH && forall i :: 0 <= i < |path| ==> path[i] != 0
  }

  /** The member as the archive stores it: mode zero is written as 0644. */
  function Stored(m: Member): Member {
    m.(mode := ModeOf(m.mode))
  }

  lemma {:induction false} TextStops(text: Bytes, n: nat)
    requires forall i :: 0 <= i < |text| ==> text[i] != 0
    ensures Text(text + Fill(0, n)) == text
    decreases |text|
  {
    if text == [] {
      assert text + Fill(0, n) == Fill(0, n);
    } else {
      assert (text + Fill(0, n))[1..] == text[1..] + Fill(0, n);
      TextStops(text[1..], n);
    }
  }

  // ---- the fields of a header ---------------------------------------------

  lemma {:induction false} FrontFields(name: Bytes, mode: nat, size: nat)
    requires |name| <= 100 && Fits(mode, 8) && Fits(size, 12)
    ensures var h := Front(name, mode, size);
      && Slice(h, 0, 100) == name + Fill(0, 100 - |name|)
      && Slice(h, 100, 8) == OctalField(mode, 8) && Slice(h, 124, 12) == OctalField(size, 12)
      && forall i :: 148 <= i < BLOCK ==> h[i] == 0
  {
  }

  lemma {:induction false} BackFields(h: Bytes, prefix: Bytes)
    requires |h| == BLOCK && |prefix| <= 155 && forall i :: 148 <= i < BLOCK ==> h[i] == 0
    ensures var r := Back(h, prefix);
      && (forall i :: 0 <= i < 148 ==> r[i] == h[i])
      && Slice(r, 148, 8) == Fill(SPACE, 8) && r[156] == ZERO
      && Slice(r, 257, 6) == MAGIC && Slice(r, 263, 2) == VERSION
      && Slice(r, 345, 155) == prefix + Fill(0, 155 - |prefix|)
  {
  }

  /** Writing the checksum changes its own eight bytes only. */
  lemma {:induction false} SummedFields(m: Member)
    requires Writable(m)
    ensures var h, u := Header(m), Unsummed(m);
      && Slice(h, 148, 8) == ChecksumField(u)
      && (forall i :: 0 <= i < BLOCK && !(148 <= i < 156) ==> h[i] == u[i])
  {
  }

  lemma {:induction false} ChecksumVerifies(m: Member)
    requires Writable(m)
    ensures var h := Header(m); Parse(Slice(h, 148, 8)) == Sum(Patch(h, 148, Fill(SPACE, 8)))
  {
    var h, u := Header(m), Unsummed(m);
    SplitFits(m.path);
    var (name, prefix) := Split(m.path).value;
    var front := Front(name, ModeOf(m.mode), |m.content|);
    FrontFields(name, ModeOf(m.mode), |m.content|);
    BackFields(front, prefix);
    SummedFields(m);
    var spaced := Patch(h, 148, Fill(SPACE, 8));
    forall i | 0 <= i < BLOCK
      ensures spaced[i] == u[i]
    {
      if 148 <= i < 156 {
        assert u[i] == Slice(u, 148, 8)[i - 148];
      }
    }
    assert spaced == u;
    ChecksumFits(u);
    OctalRoundTrip(Sum(u), 7, [SPACE]);
  }

  lemma {:induction false} SameSlice(h: Bytes, u: Bytes, at: nat, n: nat)
    requires |h| == |u| && at + n <= |h| && forall i :: at <= i < at + n ==> h[i] == u[i]
    ensures Slice(h, at, n) == Slice(u, at, n)
  {
  }

  lemma {:induction false} HeaderFields(m: Member, name: Bytes, prefix: Bytes)
    requires Writable(m) && Split(m.path) == Some((name, prefix)) && |name| <= 100 && |prefix| <= 155
    ensures var h := Header(m);
      && Slice(h, 0, 100) == name + Fill(0, 100 - |name|)
      && Slice(h, 100, 8) == OctalField(ModeOf(m.mode), 8) && Slice(h, 124, 12) == OctalField(|m.content|, 12)
      && h[156] == ZERO && Slice(h, 257, 6) == MAGIC && Slice(h, 263, 2) == VERSION
      && Slice(h, 345, 155) == prefix + Fill(0, 155 - |prefix|)
  {
    var h, u := Header(m), Unsummed(m);
    var front := Front(name, ModeOf(m.mode), |m.content|);
    FrontFields(name, ModeOf(m.mode), |m.content|);
    BackFields(front, prefix);
    SummedFields(m);
    SameSlice(h, front, 0, 100);
    SameSlice(h, front, 100, 8);
    SameSlice(h, front, 124, 12);
    SameSlice(h, u, 257, 6);
    SameSlice(h, u, 263, 2);
    SameSlice(h, u, 345, 155);
  }

  // ---- every byte of a header ----------------------------------------------

  /** Zero in a numeric field: the digit 0 in every place but the last, then a NUL. */
  ghost predicate ZeroField(h: Bytes, at: nat, width: nat)
    requires at + width <= |h| && width >= 1
  {
    h[at + width - 1] == 0 && forall i :: at <= i < at + width - 1 ==> h[i] == 48
  }

  ghost predicate Blank(h: Bytes, from: nat, until: nat)
    requires until <= |h|
  {
    forall i :: from <= i < until ==> h[i] == 0
  }

  lemma {:induction false} ZeroOctal(width: nat)
    requires width >= 2
    ensures Fits(0, width) && OctalField(0, width) == Fill(48, width - 1) + [0]
  {
    assert Octal(0) == [48];
    assert Fill(48, width - 2) + [48] == Fill(48, width - 1);
  }

  lemma {:induction false} FrontLayout(name: Bytes, mode: nat, size: nat)
    requires |name| <= 100 && Fits(mode, 8) && Fits(size, 12)
    ensures var h := Front(name, mode, size);
      ZeroField(h, 108, 8) && ZeroField(h, 116, 8) && ZeroField(h, 136, 12)
  {
    ZeroOctal(8);
    ZeroOctal(12);
    assert forall i :: 0 <= i < 7 ==> OctalField(0, 8)[i] == 48;
    assert forall i :: 0 <= i < 11 ==> OctalField(0, 12)[i] == 48;
    assert OctalField(0, 8)[7] == 0 && OctalField(0, 12)[11] == 0;
  }

  lemma {:induction false} BackLayout(h: Bytes, prefix: Bytes)
    requires |h| == BLOCK && |prefix| <= 155 && forall i :: 148 <= i < BLOCK ==> h[i] == 0
    ensures var r := Back(h, prefix); Blank(r, 157, 257) && Blank(r, 265, 345) && Blank(r, 500, 512)
  {
  }

  /** The fields that the reader does not look at are what the format asks of an owner and a
      time that are left out: owner, group and time are zero in digits, and link name, user and
      group names, device numbers and the rest are blank. */
  lemma {:induction false} HeaderLayout(m: Member)
    requires Writable(m)
    ensures var h := Header(m);
      && ZeroField(h, 108, 8) && ZeroField(h, 116, 8) && ZeroField(h, 136, 12)
      && Blank(h, 157, 257) && Blank(h, 265, 345) && Blank(h, 500, 512)
      && h[154] == 0 && h[155] == 32
  {
    SplitFits(m.path);
    var (name, prefix) := Split(m.path).value;
    var front := Front(name, ModeOf(m.mode), |m.content|);
    FrontFields(name, ModeOf(m.mode), |m.content|);
    FrontLayout(name, ModeOf(m.mode), |m.content|);
    BackFields(front, prefix);
    BackLayout(front, prefix);
    SummedFields(m);
    var field := ChecksumField(Unsummed(m));
    assert Header(m)[154] == Slice(Header(m), 148, 8)[6] && Header(m)[155] == Slice(Header(m), 148, 8)[7];
  }

  /** A content is followed by as few zero bytes as fill its last block. */
  lemma {:induction false} PaddingIsZero(c: Chunk)
    requires |c.header| == BLOCK
    ensures var raw := Padded(c); var end := BLOCK + |c.content|;
      |raw| % 512 == 0 && |raw| < end + 512 && Blank(raw, end, |raw|)
  {
  }

  /** The reader accepts every written header and finds path, mode and size in it. */
  lemma {:induction false} HeaderRoundTrip(m: Member)
    requires Writable(m) && WalkPath(m.path)
    ensures ReadHeader(Header(m)) == Some(Meta(m.path, ModeOf(m.mode), |m.content|))
  {
    SplitIsExact(m.path);
    var (name, prefix) := Split(m.path).value;
    assert Join(name, prefix) == m.path;
    ChecksumVerifies(m);
    HeaderFields(m, name, prefix);
    NoNuls(m.path, name, prefix);
    TextStops(name, 100 - |name|);
    TextStops(prefix, 155 - |prefix|);
    FieldReads(ModeOf(m.mode), 8);
    FieldReads(|m.content|, 12);
  }

  lemma {:induction false} FieldReads(value: nat, width: nat)
    requires width >= 2 && Fits(value, width)
    ensures Parse(OctalField(value, width)) == value
  {
    OctalRoundTrip(value, width, []);
    assert OctalField(value, width) + [] == OctalField(value, width);
  }

  lemma {:induction false} NoNuls(path: Bytes, name: Bytes, prefix: Bytes)
    requires WalkPath(path) && Join(name, prefix) == path
    ensures forall i :: 0 <= i < |name| ==> name[i] != 0
    ensures forall i :: 0 <= i < |prefix| ==> prefix[i] != 0
  {
    if prefix != [] {
      assert forall i :: 0 <= i < |prefix| ==> path[i] == prefix[i];
      assert forall i :: 0 <= i < |name| ==> path[|prefix| + 1 + i] == name[i];
    }
  }

  // ---- the archive --------------------------------------------------------

  predicate AllWalked(members: seq<Member>) {
    forall i :: 0 <= i < |members| ==> WalkPath(members[i].path)
  }

  function AllStored(members: seq<Member>): (r: seq<Member>)
    ensures |r| == |members| && forall i :: 0 <= i < |r| ==> r[i] == Stored(members[i])
  {
    seq(|members|, i requires 0 <= i < |members| => Stored(members[i]))
  }

  lemma {:induction false} ConcatCons(chunks: seq<Chunk>)
    requires chunks != []
    ensures Concat(chunks) == Padded(chunks[0]) + Concat(chunks[1..])
    decreases |chunks|
  {
    var last := |chunks| - 1;
    if last == 0 {
      assert chunks[..0] == [] && chunks[1..] == [];
    } else {
      ConcatCons(chunks[..last]);
      assert chunks[..last][1..] == chunks[1..][..last - 1];
      assert chunks[1..][last - 1] == chunks[last];
      Associate(Padded(chunks[0]), Concat(chunks[1..][..last - 1]), Padded(chunks[last]));
    }
  }

  lemma {:induction false} Associate(x: Bytes, y: Bytes, z: Bytes)
    ensures (x + y) + z == x + (y + z)
  {
  }

  lemma {:induction false} PackCons(chunks: seq<Chunk>)
    requires chunks != []
    ensures Pack(chunks) == Padded(chunks[0]) + Pack(chunks[1..])
  {
    ConcatCons(chunks);
    Associate(Padded(chunks[0]), Concat(chunks[1..]), Fill(0, 2 * BLOCK));
  }

  lemma {:induction false} ReadsOn(raw: Bytes, meta: Meta, rest: Bytes)
    requires |raw| >= 2 * BLOCK && ReadHeader(raw[..BLOCK]) == Some(meta) && !Zeros(raw[..BLOCK])
    requires |raw| >= BLOCK + meta.size + Padding(meta.size) && raw[BLOCK + meta.size + Padding(meta.size)..] == rest
    requires Read(rest).Some?
    ensures Read(raw) == Some([Member(meta.path, meta.mode, raw[BLOCK..BLOCK + meta.size])] + Read(rest).value)
  {
  }

  lemma {:induction false} HeaderIsNotZero(m: Member)
    requires Writable(m)
    ensures !Zeros(Header(m))
  {
    SplitFits(m.path);
    HeaderFields(m, Split(m.path).value.0, Split(m.path).value.1);
    assert Slice(Header(m), 257, 6)[0] == Header(m)[257] == 117;
  }

  /** Where the parts of a chunk lie. */
  lemma {:induction false} ChunkApart(c: Chunk, rest: Bytes)
    requires |c.header| == BLOCK
    ensures var raw := Padded(c) + rest; var size := |c.content|;
      && raw[..BLOCK] == c.header && raw[BLOCK..BLOCK + size] == c.content
      && raw[BLOCK + size + Padding(size)..] == rest && |raw| == BLOCK + size + Padding(size) + |rest|
  {
  }

  /** A header that a reader takes for a file of this content. */
  ghost predicate Announces(c: Chunk, m: Member) {
    && |c.header| == BLOCK && !Zeros(c.header)
    && ReadHeader(c.header) == Some(Meta(m.path, m.mode, |c.content|)) && c.content == m.content
  }

  lemma {:induction false} WrittenAnnounces(m: Member)
    requires Writable(m) && WalkPath(m.path)
    ensures Announces(Chunk(Header(m), m.content), Stored(m))
  {
    HeaderRoundTrip(m);
    HeaderIsNotZero(m);
  }

  lemma {:induction false} ReadOne(c: Chunk, m: Member, rest: Bytes)
    requires Announces(c, m) && Read(rest).Some?
    ensures Read(Padded(c) + rest) == Some([m] + Read(rest).value)
  {
    ChunkApart(c, rest);
    ReadsOn(Padded(c) + rest, Meta(m.path, m.mode, |c.content|), rest);
  }

  lemma {:induction false} EmptyReads()
    ensures Read(Pack([])) == Some([])
  {
    assert Pack([]) == Fill(0, 2 * BLOCK);
  }

  lemma {:induction false} PackRoundTrip(chunks: seq<Chunk>, members: seq<Member>)
    requires |chunks| == |members| && forall i :: 0 <= i < |chunks| ==> Announces(chunks[i], members[i])
    ensures Read(Pack(chunks)) == Some(members)
    decreases |chunks|
  {
    if chunks == [] {
      EmptyReads();
    } else {
      PackCons(chunks);
      PackRoundTrip(chunks[1..], members[1..]);
      ReadOne(chunks[0], members[0], Pack(chunks[1..]));
      assert members == [members[0]] + members[1..];
    }
  }

  /** A ustar reader applied to the archive returns exactly the path, the stored mode
      and the bytes of every member, in order. */
  lemma {:induction false} ArchiveRoundTrip(members: seq<Member>)
    requires AllWritable(members) && AllWalked(members)
    ensures Read(Archive(members)) == Some(AllStored(members))
  {
    forall i | 0 <= i < |members|
      ensures Announces(Chunks(members)[i], AllStored(members)[i])
    {
      WrittenAnnounces(members[i]);
    }
    PackRoundTrip(Chunks(members), AllStored(members));
  }

  /** The members themselves come back exactly if none has mode zero. */
  lemma {:induction false} ModesSurvive(members: seq<Member>)
    requires AllWritable(members) && AllWalked(members)
    ensures Read(Archive(members)) == Some(members) <==> forall i :: 0 <= i < |members| ==> members[i].mode != 0
  {
    ArchiveRoundTrip(members);
    if forall i :: 0 <= i < |members| ==> members[i].mode != 0 {
      assert AllStored(members) == members;
    } else {
      var i :| 0 <= i < |members| && members[i].mode == 0;
      assert AllStored(members)[i].mode != members[i].mode;
    }
  }

  /** Different trees give different archives. */
  lemma {:induction false} ArchiveInjective(xs: seq<Member>, ys: seq<Member>)
    requires AllWritable(xs) && AllWalked(xs) && AllWritable(ys) && AllWalked(ys)
    ensures Archive(xs) == Archive(ys) ==> AllStored(xs) == AllStored(ys)
  {
    ArchiveRoundTrip(xs);
    ArchiveRoundTrip(ys);
  }

  function TotalBytes(chunks: seq<Chunk>): nat {
    if chunks == [] then 0 else |chunks[0].content| + TotalBytes(chunks[1..])
  }

  /** An archive is whole blocks, and no longer than what it holds allows. */
  lemma {:induction false} PackSize(chunks: seq<Chunk>)
    requires forall i :: 0 <= i < |chunks| ==> |chunks[i].header| == BLOCK
    ensures |Pack(chunks)| % BLOCK == 0
    ensures |Pack(chunks)| <= TotalBytes(chunks) + |chunks| * 1023 + 1024
    decreases |chunks|
  {
    if chunks == [] {
      assert |Pack(chunks)| == 1024;
    } else {
      var rest := chunks[1..];
      PackSize(rest);
      PackCons(chunks);
      PaddedSize(chunks[0]);
      SizeOn(|Padded(chunks[0])|, |Pack(rest)|, |chunks[0].content|, TotalBytes(rest), |rest|);
      assert |Pack(chunks)| == |Padded(chunks[0])| + |Pack(rest)|;
    }
  }

  lemma {:induction false} SizeOn(head: nat, tail: nat, size: nat, total: nat, count: nat)
    requires head % BLOCK == 0 && tail % BLOCK == 0 && head <= size + 1023 && tail <= total + count * 1023 + 1024
    ensures (head + tail) % BLOCK == 0 && head + tail <= size + total + (count + 1) * 1023 + 1024
  {
  }

  lemma {:induction false} PaddedSize(c: Chunk)
    requires |c.header| == BLOCK
    ensures |Padded(c)| % BLOCK == 0 && |Padded(c)| <= |c.content| + 2 * BLOCK - 1
  {
  }
}

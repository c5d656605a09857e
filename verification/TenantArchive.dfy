/** The tenant package archive: the walk that collects files under its limits, and the
    writer that fills one header buffer after another. */
module TenantArchive {
  import opened SandboxTypes
  import opened Ustar
  import Trip = UstarRoundTrip

  const MAX_FILES: nat := 512
  const MAX_FILE_BYTES: nat := 16 * 1024 * 1024
  const MAX_TOTAL_BYTES: nat := 32 * 1024 * 1024

  // ---- the tree -----------------------------------------------------------

  datatype Node =
    | Directory(name: Bytes, children: seq<Node>)
    | Regular(name: Bytes, mode: nat, content: Bytes)
    | Link(name: Bytes)
    | Special(name: Bytes)

  function Ascii(text: string): Bytes
    requires forall i :: 0 <= i < |text| ==> text[i] < 128 as char
  {
    seq(|text|, i requires 0 <= i < |text| => text[i] as int)
  }

  function Lower(b: byte): byte {
    if 65 <= b <= 90 then b + 32 else b
  }

  function LowerAll(name: Bytes): Bytes {
    seq(|name|, i requires 0 <= i < |name| => Lower(name[i]))
  }

  predicate EndsWith(name: Bytes, tail: Bytes) {
    |name| >= |tail| && name[|name| - |tail|..] == tail
  }

  predicate StartsWith(name: Bytes, head: Bytes) {
    |name| >= |head| && name[..|head|] == head
  }

  predicate Secret(name: Bytes) {
    var lower := LowerAll(name);
    || lower == Ascii(".env") || StartsWith(lower, Ascii(".env."))
    || EndsWith(lower, Ascii(".pem")) || EndsWith(lower, Ascii(".key"))
    || lower == Ascii("credentials.json")
  }

  predicate ExcludedDirectory(name: Bytes) {
    name in {Ascii(".git"), Ascii(".next"), Ascii(".turbo"), Ascii("artifacts"), Ascii("coverage"), Ascii("logs"), Ascii("node_modules")}
  }

  predicate Dots(name: Bytes) {
    name == Ascii(".") || name == Ascii("..")
  }

  function Under(dir: Bytes, name: Bytes): Bytes {
    if dir == [] then name else dir + [SLASH] + name
  }

  /** An entry the walk passes over. */
  predicate Skipped(node: Node) {
    (node.Directory? && ExcludedDirectory(node.name)) || Secret(node.name)
  }

  // ---- what a walk finds, and when it refuses -----------------------------

  /** The regular files below `nodes` that are not passed over, in order. */
  function Listing(nodes: seq<Node>, dir: Bytes): seq<Member>
    decreases nodes, 0
  {
    if nodes == [] then [] else ListingOf(nodes[0], dir) + Listing(nodes[1..], dir)
  }

  function ListingOf(node: Node, dir: Bytes): seq<Member>
    decreases node, 1
  {
    if Skipped(node) then []
    else
      match node
      case Directory(name, children) => Listing(children, Under(dir, name))
      case Regular(name, mode, content) => [Member(Under(dir, name), mode % 512, content)]
      case _ => []
  }

  /** Nothing below `nodes` is refused for what it is. */
  predicate Plain(nodes: seq<Node>)
    decreases nodes, 0
  {
    nodes == [] || (PlainNode(nodes[0]) && Plain(nodes[1..]))
  }

  predicate PlainNode(node: Node)
    decreases node, 1
  {
    && !Dots(node.name)
    && (Skipped(node) || (match node
        case Directory(_, children) => Plain(children)
        case Regular(_, _, content) => |content| <= MAX_FILE_BYTES
        case _ => false))
  }

  function ContentBytes(members: seq<Member>): nat {
    if members == [] then 0 else |members[0].content| + ContentBytes(members[1..])
  }

  /** The state of the walk. */
  datatype Walk = Walk(files: seq<Member>, total: nat)

  /** What the walk does with one more file, or None when a limit is passed. */
  function Take(w: Walk, m: Member): Option<Walk> {
    if |m.content| > MAX_FILE_BYTES || w.total + |m.content| > MAX_TOTAL_BYTES then None
    else if |w.files| + 1 > MAX_FILES then None
    else Some(Walk(w.files + [m], w.total + |m.content|))
  }

  function Visit(w: Walk, nodes: seq<Node>, dir: Bytes): Option<Walk>
    decreases nodes, 0
  {
    if nodes == [] then Some(w)
    else
      match VisitNode(w, nodes[0], dir)
      case None => None
      case Some(v) => Visit(v, nodes[1..], dir)
  }

  function VisitNode(w: Walk, node: Node, dir: Bytes): Option<Walk>
    decreases node, 1
  {
    if Dots(node.name) then None
    else if Skipped(node) then Some(w)
    else
      match node
      case Directory(name, children) => Visit(w, children, Under(dir, name))
      case Regular(name, mode, content) => Take(w, Member(Under(dir, name), mode % 512, content))
      case _ => None
  }

  lemma {:induction false} BytesAppend(xs: seq<Member>, ys: seq<Member>)
    ensures ContentBytes(xs + ys) == ContentBytes(xs) + ContentBytes(ys)
    decreases |xs|
  {
    if xs == [] {
      assert xs + ys == ys;
    } else {
      assert (xs + ys)[1..] == xs[1..] + ys;
      BytesAppend(xs[1..], ys);
    }
  }

  /** `w` has room for what is listed. */
  predicate Room(w: Walk, listed: seq<Member>) {
    w.total + ContentBytes(listed) <= MAX_TOTAL_BYTES && |w.files| + |listed| <= MAX_FILES
  }

  /** The state after taking what is listed. */
  function Taken(w: Walk, listed: seq<Member>): Walk {
    Walk(w.files + listed, w.total + ContentBytes(listed))
  }

  lemma {:induction false} TakenOn(w: Walk, xs: seq<Member>, ys: seq<Member>)
    ensures Taken(Taken(w, xs), ys) == Taken(w, xs + ys)
    ensures Room(w, xs + ys) <==> Room(Taken(w, xs), ys) && w.total + ContentBytes(xs + ys) <= MAX_TOTAL_BYTES
    ensures Room(w, xs + ys) ==> Room(w, xs)
  {
    BytesAppend(xs, ys);
    assert (w.files + xs) + ys == w.files + (xs + ys);
  }

  /** The walk succeeds exactly if nothing is refused and the totals keep the limits,
      and then has taken exactly the listing. */
  lemma {:induction false} VisitIsExact(w: Walk, nodes: seq<Node>, dir: Bytes)
    requires w.total <= MAX_TOTAL_BYTES && |w.files| <= MAX_FILES
    ensures Visit(w, nodes, dir).Some? <==> Plain(nodes) && Room(w, Listing(nodes, dir))
    ensures Visit(w, nodes, dir).Some? ==> Visit(w, nodes, dir).value == Taken(w, Listing(nodes, dir))
    decreases nodes, 0
  {
    if nodes == [] {
      assert w.files + [] == w.files;
    } else {
      var xs, ys := ListingOf(nodes[0], dir), Listing(nodes[1..], dir);
      VisitNodeIsExact(w, nodes[0], dir);
      TakenOn(w, xs, ys);
      if VisitNode(w, nodes[0], dir).Some? {
        VisitIsExact(Taken(w, xs), nodes[1..], dir);
      }
    }
  }

  lemma {:induction false} VisitNodeIsExact(w: Walk, node: Node, dir: Bytes)
    requires w.total <= MAX_TOTAL_BYTES && |w.files| <= MAX_FILES
    ensures VisitNode(w, node, dir).Some? <==> PlainNode(node) && Room(w, ListingOf(node, dir))
    ensures VisitNode(w, node, dir).Some? ==> VisitNode(w, node, dir).value == Taken(w, ListingOf(node, dir))
    decreases node, 1
  {
    assert w.files + [] == w.files;
    if !Skipped(node) {
      match node {
        case Directory(name, children) => VisitIsExact(w, children, Under(dir, name));
        case Regular(name, mode, content) =>
          var m := Member(Under(dir, name), mode % 512, content);
          assert [m][1..] == [];
          assert ContentBytes([m]) == |content|;
        case _ =>
      }
    }
  }

  // ---- the paths of a listing ---------------------------------------------

  /** A directory entry's name: not empty, no slash, no NUL. */
  predicate EntryName(name: Bytes) {
    name != [] && forall i :: 0 <= i < |name| ==> name[i] != SLASH && name[i] != 0
  }

  predicate Named(nodes: seq<Node>)
    decreases nodes, 0
  {
    && (forall i, j :: 0 <= i < j < |nodes| ==> nodes[i].name != nodes[j].name)
    && (forall i :: 0 <= i < |nodes| ==> NamedNode(nodes[i]))
  }

  predicate NamedNode(node: Node)
    decreases node, 1
  {
    EntryName(node.name) && (node.Directory? ==> Named(node.children))
  }

  /** `path` is `base` or lies in that directory. */
  predicate Below(path: Bytes, base: Bytes) {
    path == base || (|path| > |base| && path[..|base|] == base && path[|base|] == SLASH)
  }

  predicate Walked(dir: Bytes) {
    dir == [] || Trip.WalkPath(dir)
  }

  ghost predicate GoodPaths(listed: seq<Member>) {
    && (forall i, j :: 0 <= i < j < |listed| ==> listed[i].path != listed[j].path)
    && (forall i :: 0 <= i < |listed| ==> Trip.WalkPath(listed[i].path) && listed[i].mode < 512)
  }

  lemma {:induction false} UnderWalks(dir: Bytes, name: Bytes)
    requires Walked(dir) && EntryName(name)
    ensures Trip.WalkPath(Under(dir, name))
  {
  }

  lemma {:induction false} BelowDeeper(path: Bytes, dir: Bytes, name: Bytes)
    requires dir != [] && Below(path, Under(dir, name))
    ensures Below(path, dir)
  {
  }

  /** The text before the first slash. */
  function FirstPart(path: Bytes): Bytes {
    if path == [] || path[0] == SLASH then [] else [path[0]] + FirstPart(path[1..])
  }

  lemma {:induction false} FirstPartIs(name: Bytes, rest: Bytes)
    requires forall i :: 0 <= i < |name| ==> name[i] != SLASH
    requires rest == [] || rest[0] == SLASH
    ensures FirstPart(name + rest) == name
    decreases |name|
  {
    if name == [] {
      assert name + rest == rest;
    } else {
      assert (name + rest)[1..] == name[1..] + rest;
      FirstPartIs(name[1..], rest);
    }
  }

  lemma {:induction false} BelowPart(path: Bytes, dir: Bytes, x: Bytes)
    requires EntryName(x) && Below(path, Under(dir, x))
    ensures var at := if dir == [] then 0 else |dir| + 1; at <= |path| && FirstPart(path[at..]) == x
  {
    var at := if dir == [] then 0 else |dir| + 1;
    var rest := path[at + |x|..];
    assert path[at..] == x + rest;
    FirstPartIs(x, rest);
  }

  ghost predicate AllBelow(listed: seq<Member>, base: Bytes) {
    forall i :: 0 <= i < |listed| ==> Below(listed[i].path, base)
  }

  /** `path` lies below one of `nodes`. */
  ghost predicate BelowOne(path: Bytes, dir: Bytes, nodes: seq<Node>) {
    exists i :: 0 <= i < |nodes| && Below(path, Under(dir, nodes[i].name))
  }

  lemma {:induction false} GoodTogether(xs: seq<Member>, ys: seq<Member>)
    requires GoodPaths(xs) && GoodPaths(ys)
    requires forall i, j :: 0 <= i < |xs| && 0 <= j < |ys| ==> xs[i].path != ys[j].path
    ensures GoodPaths(xs + ys)
  {
  }

  lemma {:induction false} ApartFromRest(path: Bytes, dir: Bytes, nodes: seq<Node>, other: Bytes)
    requires Named(nodes) && nodes != [] && Below(path, Under(dir, nodes[0].name)) && BelowOne(other, dir, nodes[1..])
    ensures path != other
  {
    var k :| 0 <= k < |nodes[1..]| && Below(other, Under(dir, nodes[1..][k].name));
    assert nodes[k + 1] == nodes[1..][k] && NamedNode(nodes[0]) && NamedNode(nodes[k + 1]);
    BelowPart(path, dir, nodes[0].name);
    BelowPart(other, dir, nodes[k + 1].name);
  }

  lemma {:induction false} BelowRest(path: Bytes, dir: Bytes, nodes: seq<Node>)
    requires nodes != [] && BelowOne(path, dir, nodes[1..])
    ensures BelowOne(path, dir, nodes)
  {
  }

  lemma {:induction false} NamedRest(nodes: seq<Node>)
    requires Named(nodes) && nodes != []
    ensures Named(nodes[1..]) && NamedNode(nodes[0])
  {
  }

  /** The listing names each file once, by a path an archive can carry back. */
  lemma {:induction false} ListingPaths(nodes: seq<Node>, dir: Bytes)
    requires Named(nodes) && Walked(dir)
    ensures GoodPaths(Listing(nodes, dir))
    ensures forall k :: 0 <= k < |Listing(nodes, dir)| ==> BelowOne(Listing(nodes, dir)[k].path, dir, nodes)
    decreases nodes, 0
  {
    if nodes != [] {
      var xs, ys := ListingOf(nodes[0], dir), Listing(nodes[1..], dir);
      NamedRest(nodes);
      ListingNodePaths(nodes[0], dir);
      ListingPaths(nodes[1..], dir);
      forall i, j | 0 <= i < |xs| && 0 <= j < |ys|
        ensures xs[i].path != ys[j].path
      {
        ApartFromRest(xs[i].path, dir, nodes, ys[j].path);
      }
      GoodTogether(xs, ys);
      forall j | 0 <= j < |ys|
        ensures BelowOne(ys[j].path, dir, nodes)
      {
        BelowRest(ys[j].path, dir, nodes);
      }
    }
  }

  lemma {:induction false} ListingNodePaths(node: Node, dir: Bytes)
    requires NamedNode(node) && Walked(dir)
    ensures GoodPaths(ListingOf(node, dir)) && AllBelow(ListingOf(node, dir), Under(dir, node.name))
    decreases node, 1
  {
    UnderWalks(dir, node.name);
    if node.Directory? && !Skipped(node) {
      var base := Under(dir, node.name);
      var listed := Listing(node.children, base);
      ListingPaths(node.children, base);
      forall k | 0 <= k < |listed|
        ensures Below(listed[k].path, base)
      {
        assert BelowOne(listed[k].path, base, node.children);
        var i :| 0 <= i < |node.children| && Below(listed[k].path, Under(base, node.children[i].name));
        BelowDeeper(listed[k].path, base, node.children[i].name);
      }
    }
  }

  // ---- the walk, in place -------------------------------------------------

  class Collector {
    var files: seq<Member>
    var totalBytes: nat

    ghost function View(): Walk
      reads this
    {
      Walk(files, totalBytes)
    }

    constructor ()
      ensures View() == Walk([], 0)
    {
      files, totalBytes := [], 0;
    }

    /** False where the walk throws. */
    method VisitDirectory(entries: seq<Node>, dir: Bytes) returns (ok: bool)
      modifies this
      ensures ok == Visit(old(View()), entries, dir).Some?
      ensures ok ==> View() == Visit(old(View()), entries, dir).value
      decreases entries, 0
    {
      ghost var before := View();
      var i := 0;
      while i < |entries|
        invariant 0 <= i <= |entries|
        invariant Visit(before, entries, dir) == Visit(View(), entries[i..], dir)
      {
        assert entries[i..][0] == entries[i] && entries[i..][1..] == entries[i + 1..];
        var good := VisitEntry(entries[i], dir);
        if !good {
          return false;
        }
        i := i + 1;
      }
      ok := true;
    }

    method VisitEntry(entry: Node, dir: Bytes) returns (ok: bool)
      modifies this
      ensures ok == VisitNode(old(View()), entry, dir).Some?
      ensures ok ==> View() == VisitNode(old(View()), entry, dir).value
      decreases entry, 1
    {
      if Dots(entry.name) {
        return false;
      }
      if entry.Directory? && ExcludedDirectory(entry.name) {
        return true;
      }
      if Secret(entry.name) {
        return true;
      }
      match entry {
        case Directory(name, children) => ok := VisitDirectory(children, Under(dir, name));
        case Regular(name, mode, content) => ok := Push(Member(Under(dir, name), mode % 512, content));
        case _ => ok := false;
      }
    }

    method Push(m: Member) returns (ok: bool)
      modifies this
      ensures ok == Take(old(View()), m).Some?
      ensures ok ==> View() == Take(old(View()), m).value
    {
      if |m.content| > MAX_FILE_BYTES {
        return false;
      }
      totalBytes := totalBytes + |m.content|;
      if totalBytes > MAX_TOTAL_BYTES {
        return false;
      }
      files := files + [m];
      ok := |files| <= MAX_FILES;
    }
  }

  // ---- the header buffer --------------------------------------------------

  /** Copies `value` into the field at `at`; false where it does not fit. */
  method WriteText(header: array<byte>, at: nat, length: nat, value: Bytes) returns (ok: bool)
    requires at + length <= header.Length
    modifies header
    ensures ok == (|value| <= length)
    ensures header[..] == if ok then Patch(old(header[..]), at, value) else old(header[..])
  {
    if |value| > length {
      return false;
    }
    var i := 0;
    while i < |value|
      invariant 0 <= i <= |value|
      invariant forall k :: 0 <= k < header.Length ==> header[k] == if at <= k < at + i then value[k - at] else old(header[k])
    {
      header[at + i] := value[i];
      i := i + 1;
    }
    assert header[..] == Patch(old(header[..]), at, value);
    ok := true;
  }

  method WriteOctal(header: array<byte>, at: nat, length: nat, value: nat) returns (ok: bool)
    requires at + length <= header.Length
    modifies header
    ensures ok == Fits(value, length)
    ensures header[..] == if ok then Patch(old(header[..]), at, OctalField(value, length)) else old(header[..])
  {
    if |Octal(value)| > length - 1 {
      return false;
    }
    ok := WriteText(header, at, length, OctalField(value, length));
  }

  /** Looks for the last slash that leaves both parts short enough. */
  method SplitPath(path: Bytes) returns (parts: Option<(Bytes, Bytes)>)
    ensures parts == Split(path)
  {
    if |path| <= 100 {
      return Some((path, []));
    }
    var i := |path|;
    while i > 0
      invariant 0 <= i <= |path| && LastFit(path, |path|) == LastFit(path, i)
    {
      i := i - 1;
      if path[i] == SLASH && i <= 155 && |path| - i - 1 <= 100 {
        return Some((path[i + 1..], path[..i]));
      }
    }
    parts := None;
  }

  method Checksum(header: array<byte>) returns (sum: nat)
    ensures sum == Sum(header[..])
  {
    sum := 0;
    var i := 0;
    while i < header.Length
      invariant 0 <= i <= header.Length && sum == Sum(header[..i])
    {
      assert header[..i + 1][..i] == header[..i];
      sum := sum + header[i];
      i := i + 1;
    }
    assert header[..i] == header[..];
  }

  method WriteFront(header: array<byte>, name: Bytes, mode: nat, size: nat)
    requires header[..] == Fill(0, BLOCK) && |name| <= 100 && Fits(mode, 8) && Fits(size, 12) && Fits(0, 8) && Fits(0, 12)
    modifies header
    ensures header[..] == Front(name, mode, size)
  {
    var _ := WriteText(header, 0, 100, name);
    var _ := WriteOctal(header, 100, 8, mode);
    var _ := WriteOctal(header, 108, 8, 0);
    var _ := WriteOctal(header, 116, 8, 0);
    var _ := WriteOctal(header, 124, 12, size);
    var _ := WriteOctal(header, 136, 12, 0);
  }

  method WriteBack(header: array<byte>, prefix: Bytes)
    requires header.Length == BLOCK && |prefix| <= 155
    modifies header
    ensures header[..] == Back(old(header[..]), prefix)
  {
    var _ := WriteText(header, 148, 8, Fill(SPACE, 8));
    var _ := WriteText(header, 156, 1, [ZERO]);
    var _ := WriteText(header, 257, 6, MAGIC);
    var _ := WriteText(header, 263, 2, VERSION);
    var _ := WriteText(header, 345, 155, prefix);
  }

  /** None where the path or the size cannot be represented. */
  method BuildHeader(m: Member) returns (header: Option<Bytes>)
    ensures header.Some? <==> Writable(m)
    ensures header.Some? ==> header.value == Header(m)
  {
    var parts := SplitPath(m.path);
    if parts.None? || !Fits(ModeOf(m.mode), 8) || !Fits(|m.content|, 12) {
      return None;
    }
    SplitIsExact(m.path);
    var buffer := new byte[BLOCK](_ => 0);
    assert buffer[..] == Fill(0, BLOCK);
    WriteFront(buffer, parts.value.0, ModeOf(m.mode), |m.content|);
    WriteBack(buffer, parts.value.1);
    var sum := Checksum(buffer);
    ChecksumFits(buffer[..]);
    var _ := WriteText(buffer, 148, 8, OctalField(sum, 7) + [SPACE]);
    header := Some(buffer[..]);
  }

  // ---- the archive --------------------------------------------------------

  datatype Packed = Packed(raw: Bytes, fileCount: nat, uncompressedBytes: nat)

  predicate HasManifest(files: seq<Member>) {
    exists i :: 0 <= i < |files| && files[i].path == Ascii("agentic.json")
  }

  /** The members as they were read for packing. */
  function Reread(files: seq<Member>, contents: seq<Bytes>): (r: seq<Member>)
    requires |files| == |contents|
    ensures |r| == |files| && forall i :: 0 <= i < |r| ==> r[i] == files[i].(content := contents[i])
  {
    seq(|files|, i requires 0 <= i < |files| => files[i].(content := contents[i]))
  }

  predicate SameSizes(files: seq<Member>, contents: seq<Bytes>) {
    |files| == |contents| && forall i :: 0 <= i < |files| ==> |contents[i]| == |files[i].content|
  }

  /** `done` are the chunks of the first members. */
  ghost predicate Built(done: seq<Chunk>, members: seq<Member>) {
    |done| <= |members| && forall k :: 0 <= k < |done| ==> Writable(members[k]) && done[k] == Chunk(Header(members[k]), members[k].content)
  }

  lemma {:induction false} BuiltAll(done: seq<Chunk>, members: seq<Member>)
    requires Built(done, members) && |done| == |members|
    ensures AllWritable(members) && done == Chunks(members)
  {
  }

  lemma {:induction false} BuiltOn(done: seq<Chunk>, members: seq<Member>, c: Chunk)
    requires Built(done, members) && |done| < |members| && Writable(members[|done|])
    requires c == Chunk(Header(members[|done|]), members[|done|].content)
    ensures Built(done + [c], members)
  {
  }

  method BuildChunk(m: Member) returns (chunk: Option<Chunk>)
    ensures chunk.Some? <==> Writable(m)
    ensures chunk.Some? ==> chunk.value == Chunk(Header(m), m.content)
  {
    var header := BuildHeader(m);
    chunk := match header case None => None case Some(h) => Some(Chunk(h, m.content));
  }

  /** Pushes a header and the content of each file; a file whose size has changed since
      the walk ends the command. */
  method PushAll(files: seq<Member>, members: seq<Member>) returns (chunks: Option<seq<Chunk>>)
    requires |files| == |members|
    ensures chunks.Some? ==> Built(chunks.value, members) && |chunks.value| == |members|
    ensures chunks.Some? <==> AllWritable(members) && forall k :: 0 <= k < |files| ==> |members[k].content| == |files[k].content|
  {
    var pushed: seq<Chunk> := [];
    for i := 0 to |files|
      invariant |pushed| == i && Built(pushed, members)
      invariant forall k :: 0 <= k < i ==> |members[k].content| == |files[k].content|
    {
      if |members[i].content| != |files[i].content| {
        return None;
      }
      var chunk := BuildChunk(members[i]);
      if chunk.None? {
        return None;
      }
      BuiltOn(pushed, members, chunk.value);
      pushed := pushed + [chunk.value];
    }
    chunks := Some(pushed);
  }

  method PackAll(files: seq<Member>, contents: seq<Bytes>) returns (raw: Option<Bytes>)
    requires |files| == |contents|
    ensures raw.Some? <==> SameSizes(files, contents) && AllWritable(Reread(files, contents))
    ensures raw.Some? ==> raw.value == Archive(Reread(files, contents))
  {
    var members := Reread(files, contents);
    var chunks := PushAll(files, members);
    if chunks.None? {
      return None;
    }
    BuiltAll(chunks.value, members);
    raw := Some(Pack(chunks.value));
  }

  method HasManifestFile(files: seq<Member>) returns (found: bool)
    ensures found == HasManifest(files)
  {
    var i := 0;
    while i < |files|
      invariant 0 <= i <= |files| && forall k :: 0 <= k < i ==> files[k].path != Ascii("agentic.json")
    {
      if files[i].path == Ascii("agentic.json") {
        return true;
      }
      i := i + 1;
    }
    found := false;
  }

  /** The whole command.  `contents` is what each listed file holds when it is read for
      packing, after the walk has recorded its size. */
  method CreateArchive(root: seq<Node>, contents: seq<Bytes>) returns (packed: Option<Packed>)
    requires |contents| == |Listing(root, [])|
    ensures packed.Some? <==>
      var listed := Listing(root, []);
      && Plain(root) && Room(Walk([], 0), listed) && HasManifest(listed)
      && SameSizes(listed, contents) && AllWritable(Reread(listed, contents))
    ensures packed.Some? ==>
      var listed := Listing(root, []);
      && packed.value.raw == Archive(Reread(listed, contents))
      && packed.value.fileCount == |listed| && packed.value.uncompressedBytes == ContentBytes(listed)
  {
    var collector := new Collector();
    var ok := collector.VisitDirectory(root, []);
    VisitIsExact(Walk([], 0), root, []);
    if !ok {
      return None;
    }
    var files := collector.files;
    assert files == Listing(root, []);
    var found := HasManifestFile(files);
    if !found {
      return None;
    }
    var raw := PackAll(files, contents);
    packed := match raw case None => None case Some(bytes) => Some(Packed(bytes, |files|, collector.totalBytes));
  }

  /** What the command packs, a reader gets back: every listed file once, by its path,
      with the bytes that were read. */
  lemma {:induction false} PackageRoundTrip(root: seq<Node>, contents: seq<Bytes>)
    requires Named(root) && SameSizes(Listing(root, []), contents)
    requires AllWritable(Reread(Listing(root, []), contents))
    ensures var members := Reread(Listing(root, []), contents);
      && Read(Archive(members)) == Some(Trip.AllStored(members))
      && forall i, j :: 0 <= i < j < |members| ==> members[i].path != members[j].path
  {
    ListingPaths(root, []);
    Trip.ArchiveRoundTrip(Reread(Listing(root, []), contents));
  }

  /** A collected file is refused by the writer only for its path. */
  lemma {:induction false} OnlyPathsRefuse(m: Member)
    requires m.mode < 512 && |m.content| <= MAX_FILE_BYTES
    ensures Writable(m) <==> Split(m.path).Some?
  {
    OctalLength(ModeOf(m.mode), 7);
    OctalLength(|m.content|, 11);
    assert Pow8(7) == 8 * Pow8(6) && Pow8(8) == 8 * Pow8(7) && Pow8(9) == 8 * Pow8(8) && Pow8(10) == 8 * Pow8(9) && Pow8(11) == 8 * Pow8(10);
    assert Pow8(1) == 8 * Pow8(0) && Pow8(2) == 8 * Pow8(1) && Pow8(3) == 8 * Pow8(2) && Pow8(4) == 8 * Pow8(3) && Pow8(5) == 8 * Pow8(4) && Pow8(6) == 8 * Pow8(5);
  }

  /** Under the limits the archive stays below 33 MiB. */
  lemma {:induction false} ArchiveBounded(members: seq<Member>)
    requires AllWritable(members) && |members| <= MAX_FILES && ContentBytes(members) <= MAX_TOTAL_BYTES
    ensures |Archive(members)| % BLOCK == 0 && |Archive(members)| < 33 * 1024 * 1024
  {
    var chunks := Chunks(members);
    Trip.PackSize(chunks);
    SameTotal(members, chunks);
  }

  lemma {:induction false} SameTotal(members: seq<Member>, chunks: seq<Chunk>)
    requires |members| == |chunks| && forall i :: 0 <= i < |members| ==> chunks[i].content == members[i].content
    ensures ContentBytes(members) == Trip.TotalBytes(chunks)
    decreases |members|
  {
    if members != [] {
      SameTotal(members[1..], chunks[1..]);
    }
  }
}

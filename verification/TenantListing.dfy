/** Which files of a tenant package are archived, exactly, and what refuses the package. */
module TenantListing {
  import opened SandboxTypes
  import opened Ustar
  import opened TenantArchive

  // ---- trails -------------------------------------------------------------

  /** The names on the way down from `nodes` lead to `node`. */
  ghost predicate Leads(nodes: seq<Node>, trail: seq<Bytes>, node: Node)
    decreases |trail|
  {
    trail != [] && exists i :: 0 <= i < |nodes| && nodes[i].name == trail[0] && LeadsFrom(nodes[i], trail, node)
  }

  ghost predicate LeadsFrom(first: Node, trail: seq<Bytes>, node: Node)
    requires trail != []
    decreases |trail|, 0
  {
    if |trail| == 1 then first == node else first.Directory? && Leads(first.children, trail[1..], node)
  }

  /** Nothing on the way is a secret, and no directory on the way is excluded. */
  ghost predicate Open(trail: seq<Bytes>) {
    forall i :: 0 <= i < |trail| ==> !Secret(trail[i]) && (i + 1 < |trail| ==> !ExcludedDirectory(trail[i]))
  }

  /** The path of a trail below `dir`: its names joined by slashes. */
  function PathOf(dir: Bytes, trail: seq<Bytes>): Bytes
    decreases |trail|
  {
    if trail == [] then dir
    else PathOf(if dir == [] then trail[0] else dir + [47] + trail[0], trail[1..])
  }

  /** `m` is the regular file at the end of `trail`, with its permission bits. */
  ghost predicate FileAt(nodes: seq<Node>, dir: Bytes, trail: seq<Bytes>, m: Member) {
    && trail != [] && Open(trail) && m.path == PathOf(dir, trail)
    && exists mode: nat :: Leads(nodes, trail, Regular(trail[|trail| - 1], mode, m.content)) && m.mode == mode % 512
  }

  lemma {:induction false} OpenTail(trail: seq<Bytes>)
    requires trail != []
    ensures Open(trail) <==> !Secret(trail[0]) && (|trail| > 1 ==> !ExcludedDirectory(trail[0])) && Open(trail[1..])
  {
    assert forall i :: 0 <= i < |trail[1..]| ==> trail[1..][i] == trail[i + 1];
    assert forall i :: 0 < i < |trail| ==> trail[i] == trail[1..][i - 1];
  }

  /** A trail into one of `nodes` starts with that node's name. */
  lemma {:induction false} LeadsBy(nodes: seq<Node>, i: nat, trail: seq<Bytes>, node: Node)
    requires i < |nodes| && trail != [] && nodes[i].name == trail[0] && LeadsFrom(nodes[i], trail, node)
    ensures Leads(nodes, trail, node)
  {
  }

  lemma {:induction false} LeadsTail(nodes: seq<Node>, trail: seq<Bytes>, node: Node)
    requires nodes != []
    ensures Leads(nodes, trail, node) <==>
      Leads(nodes[1..], trail, node) || (trail != [] && nodes[0].name == trail[0] && LeadsFrom(nodes[0], trail, node))
  {
    assert forall i :: 0 <= i < |nodes[1..]| ==> nodes[1..][i] == nodes[i + 1];
    assert forall i :: 0 < i < |nodes| ==> nodes[i] == nodes[1..][i - 1];
  }

  // ---- what is listed -----------------------------------------------------

  lemma {:induction false} FileAtTail(nodes: seq<Node>, dir: Bytes, trail: seq<Bytes>, m: Member)
    requires nodes != [] && FileAt(nodes[1..], dir, trail, m)
    ensures FileAt(nodes, dir, trail, m)
  {
    var mode: nat :| Leads(nodes[1..], trail, Regular(trail[|trail| - 1], mode, m.content)) && m.mode == mode % 512;
    LeadsTail(nodes, trail, Regular(trail[|trail| - 1], mode, m.content));
  }

  /** A file in a directory that is not passed over. */
  lemma {:induction false} FileAtDeeper(nodes: seq<Node>, i: nat, dir: Bytes, rest: seq<Bytes>, m: Member)
    requires i < |nodes| && nodes[i].Directory? && !Skipped(nodes[i]) && FileAt(nodes[i].children, Under(dir, nodes[i].name), rest, m)
    ensures FileAt(nodes, dir, [nodes[i].name] + rest, m)
  {
    var trail := [nodes[i].name] + rest;
    assert trail[1..] == rest && trail[|trail| - 1] == rest[|rest| - 1];
    OpenTail(trail);
    var mode: nat :| Leads(nodes[i].children, rest, Regular(rest[|rest| - 1], mode, m.content)) && m.mode == mode % 512;
    LeadsBy(nodes, i, trail, Regular(trail[|trail| - 1], mode, m.content));
  }

  lemma {:induction false} ListedIsFile(nodes: seq<Node>, dir: Bytes, m: Member) returns (trail: seq<Bytes>)
    requires m in Listing(nodes, dir)
    ensures FileAt(nodes, dir, trail, m)
    decreases nodes, 0
  {
    if m in ListingOf(nodes[0], dir) {
      trail := ListedOneIsFile(nodes[0], dir, m);
      var rest := trail[1..];
      if nodes[0].Directory? {
        FileAtDeeper(nodes, 0, dir, rest, m);
        assert [nodes[0].name] + rest == trail;
      } else {
        LeadsBy(nodes, 0, trail, nodes[0]);
        assert FileAt(nodes, dir, trail, m);
      }
    } else {
      trail := ListedIsFile(nodes[1..], dir, m);
      FileAtTail(nodes, dir, trail, m);
    }
  }

  lemma {:induction false} ListedOneIsFile(node: Node, dir: Bytes, m: Member) returns (trail: seq<Bytes>)
    requires m in ListingOf(node, dir)
    ensures !Skipped(node) && trail != [] && trail[0] == node.name
    ensures node.Directory? ==> FileAt(node.children, Under(dir, node.name), trail[1..], m)
    ensures !node.Directory? ==> node.Regular? && trail == [node.name] && Open(trail) && m == Member(PathOf(dir, trail), node.mode % 512, node.content)
    decreases node, 1
  {
    match node {
      case Directory(name, children) =>
        var rest := ListedIsFile(children, Under(dir, name), m);
        trail := [name] + rest;
        assert trail[1..] == rest;
      case Regular(name, _, _) =>
        trail := [name];
        assert trail[1..] == [];
        assert PathOf(Under(dir, name), []) == Under(dir, name);
      case _ =>
        assert false;
    }
  }

  lemma {:induction false} FileIsListed(nodes: seq<Node>, dir: Bytes, trail: seq<Bytes>, mode: nat, content: Bytes)
    requires trail != [] && Open(trail) && Leads(nodes, trail, Regular(trail[|trail| - 1], mode, content))
    ensures Member(PathOf(dir, trail), mode % 512, content) in Listing(nodes, dir)
    decreases nodes, 1
  {
    var node := Regular(trail[|trail| - 1], mode, content);
    LeadsTail(nodes, trail, node);
    if Leads(nodes[1..], trail, node) {
      FileIsListed(nodes[1..], dir, trail, mode, content);
    } else {
      FileIsListedBy(nodes[0], dir, trail, mode, content);
    }
  }

  lemma {:induction false} FileIsListedBy(first: Node, dir: Bytes, trail: seq<Bytes>, mode: nat, content: Bytes)
    requires trail != [] && Open(trail) && first.name == trail[0]
    requires LeadsFrom(first, trail, Regular(trail[|trail| - 1], mode, content))
    ensures Member(PathOf(dir, trail), mode % 512, content) in ListingOf(first, dir)
    decreases first, 0
  {
    OpenTail(trail);
    if |trail| == 1 {
      assert trail[1..] == [];
      assert PathOf(Under(dir, first.name), []) == Under(dir, first.name);
    } else {
      assert trail[1..][|trail[1..]| - 1] == trail[|trail| - 1];
      FileIsListed(first.children, Under(dir, first.name), trail[1..], mode, content);
    }
  }

  /** A file is archived exactly if some way down leads to it on which nothing is a secret and
      no directory is excluded, under the names on that way and with its permission bits. */
  lemma {:induction false} ListingIsExact(nodes: seq<Node>, dir: Bytes, m: Member)
    ensures m in Listing(nodes, dir) <==> exists trail :: FileAt(nodes, dir, trail, m)
  {
    if m in Listing(nodes, dir) {
      var trail := ListedIsFile(nodes, dir, m);
    }
    if trail :| FileAt(nodes, dir, trail, m) {
      var mode: nat :| Leads(nodes, trail, Regular(trail[|trail| - 1], mode, m.content)) && m.mode == mode % 512;
      FileIsListed(nodes, dir, trail, mode, m.content);
    }
  }

  // ---- what refuses a package ---------------------------------------------

  /** An entry that the walk meets and that ends it: a dot name, or anything it does not pass
      over that is neither a directory nor a regular file of at most 16 MiB. */
  ghost predicate Refused(node: Node) {
    || node.name == [46] || node.name == [46, 46]
    || (!Skipped(node) && !node.Directory? && !(node.Regular? && |node.content| <= 16_777_216))
  }

  /** The walk meets what the trail leads to. */
  ghost predicate Met(nodes: seq<Node>, trail: seq<Bytes>, node: Node) {
    trail != [] && Leads(nodes, trail, node)
    && forall i :: 0 <= i < |trail| - 1 ==> !Secret(trail[i]) && !ExcludedDirectory(trail[i])
  }

  lemma {:induction false} MetDeeper(nodes: seq<Node>, i: nat, rest: seq<Bytes>, node: Node)
    requires i < |nodes| && nodes[i].Directory? && !Skipped(nodes[i]) && Met(nodes[i].children, rest, node)
    ensures Met(nodes, [nodes[i].name] + rest, node)
  {
    var trail := [nodes[i].name] + rest;
    assert trail[1..] == rest;
    assert forall k :: 0 < k < |trail| ==> trail[k] == rest[k - 1];
    LeadsBy(nodes, i, trail, node);
  }

  lemma {:induction false} PlainMeetsNone(nodes: seq<Node>, trail: seq<Bytes>, node: Node)
    requires Plain(nodes) && Met(nodes, trail, node)
    ensures !Refused(node)
    decreases nodes, 1
  {
    LeadsTail(nodes, trail, node);
    if Leads(nodes[1..], trail, node) {
      PlainMeetsNone(nodes[1..], trail, node);
    } else {
      PlainNodeMeetsNone(nodes[0], trail, node);
    }
  }

  lemma {:induction false} PlainNodeMeetsNone(first: Node, trail: seq<Bytes>, node: Node)
    requires PlainNode(first) && trail != [] && first.name == trail[0] && LeadsFrom(first, trail, node)
    requires forall i :: 0 <= i < |trail| - 1 ==> !Secret(trail[i]) && !ExcludedDirectory(trail[i])
    ensures !Refused(node)
    decreases first, 0
  {
    if |trail| == 1 {
      DotNames(first.name);
    } else {
      assert forall i :: 0 <= i < |trail[1..]| ==> trail[1..][i] == trail[i + 1];
      assert !Secret(trail[0]) && !ExcludedDirectory(trail[0]);
      PlainMeetsNone(first.children, trail[1..], node);
    }
  }

  lemma {:induction false} DotNames(name: Bytes)
    ensures Dots(name) <==> name == [46] || name == [46, 46]
  {
    assert Ascii(".") == [46];
    assert Ascii("..") == [46, 46];
  }

  lemma {:induction false} OddIsMet(nodes: seq<Node>) returns (trail: seq<Bytes>, node: Node)
    requires !Plain(nodes)
    ensures Met(nodes, trail, node) && Refused(node)
    decreases nodes, 0
  {
    if !PlainNode(nodes[0]) {
      trail, node := OddNodeIsMet(nodes[0], nodes);
    } else {
      trail, node := OddIsMet(nodes[1..]);
      LeadsTail(nodes, trail, node);
    }
  }

  lemma {:induction false} OddNodeIsMet(first: Node, nodes: seq<Node>) returns (trail: seq<Bytes>, node: Node)
    requires !PlainNode(first) && nodes != [] && nodes[0] == first
    ensures Met(nodes, trail, node) && Refused(node)
    decreases first, 1
  {
    DotNames(first.name);
    if Dots(first.name) || !first.Directory? {
      trail, node := [first.name], first;
      LeadsBy(nodes, 0, trail, node);
    } else {
      var rest;
      rest, node := OddIsMet(first.children);
      trail := [first.name] + rest;
      MetDeeper(nodes, 0, rest, node);
    }
  }

  /** A package is refused for what is in it exactly if the walk meets a refused entry. */
  lemma {:induction false} RefusalIsExact(nodes: seq<Node>)
    ensures Plain(nodes) <==> forall trail, node :: Met(nodes, trail, node) ==> !Refused(node)
  {
    if Plain(nodes) {
      forall trail, node | Met(nodes, trail, node) ensures !Refused(node) {
        PlainMeetsNone(nodes, trail, node);
      }
    } else {
      var trail, node := OddIsMet(nodes);
    }
  }

  // ---- secrets ------------------------------------------------------------

  /** The same text but for capital letters. */
  ghost predicate Spells(name: Bytes, text: string) {
    && |name| == |text|
    && forall i :: 0 <= i < |text| ==> name[i] == text[i] as int || ('a' <= text[i] <= 'z' && name[i] == text[i] as int - 32)
  }

  lemma {:induction false} LowerSpells(name: Bytes, text: string)
    requires forall i :: 0 <= i < |text| ==> text[i] < 128 as char && !('A' <= text[i] <= 'Z')
    ensures LowerAll(name) == Ascii(text) <==> Spells(name, text)
  {
    if LowerAll(name) == Ascii(text) {
      forall i | 0 <= i < |text|
        ensures name[i] == text[i] as int || ('a' <= text[i] <= 'z' && name[i] == text[i] as int - 32)
      {
        assert LowerAll(name)[i] == Ascii(text)[i];
      }
    }
    if Spells(name, text) {
      forall i | 0 <= i < |text| ensures LowerAll(name)[i] == Ascii(text)[i] {
      }
      assert LowerAll(name) == Ascii(text);
    }
  }

  lemma {:induction false} HeadSpells(name: Bytes, text: string)
    requires forall i :: 0 <= i < |text| ==> text[i] < 128 as char && !('A' <= text[i] <= 'Z')
    ensures StartsWith(LowerAll(name), Ascii(text)) <==> |name| >= |text| && Spells(name[..|text|], text)
  {
    if |name| >= |text| {
      LowerSpells(name[..|text|], text);
      assert LowerAll(name[..|text|]) == LowerAll(name)[..|text|];
    }
  }

  lemma {:induction false} EndSpells(name: Bytes, text: string)
    requires forall i :: 0 <= i < |text| ==> text[i] < 128 as char && !('A' <= text[i] <= 'Z')
    ensures EndsWith(LowerAll(name), Ascii(text)) <==> |name| >= |text| && Spells(name[|name| - |text|..], text)
  {
    if |name| >= |text| {
      LowerSpells(name[|name| - |text|..], text);
      assert LowerAll(name[|name| - |text|..]) == LowerAll(name)[|name| - |text|..];
    }
  }

  ghost predicate SpellsHead(name: Bytes, text: string) {
    |name| >= |text| && Spells(name[..|text|], text)
  }

  ghost predicate SpellsEnd(name: Bytes, text: string) {
    |name| >= |text| && Spells(name[|name| - |text|..], text)
  }

  /** Secrets are `.env`, everything that starts with `.env.`, everything that ends with `.pem`
      or `.key`, and `credentials.json`, in capitals or not. */
  lemma {:induction false} SecretIsExact(name: Bytes)
    ensures Secret(name) <==>
      || Spells(name, ".env") || Spells(name, "credentials.json")
      || SpellsHead(name, ".env.") || SpellsEnd(name, ".pem") || SpellsEnd(name, ".key")
  {
    LowerSpells(name, ".env");
    LowerSpells(name, "credentials.json");
    HeadSpells(name, ".env.");
    EndSpells(name, ".pem");
    EndSpells(name, ".key");
  }
}

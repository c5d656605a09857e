/** What the integration criterion reads, requires and reports, item by item. */
module IntegrationAnswers {
  import opened SandboxTypes
  import opened IntegrationEvidence
  import opened IntegrationAccount
  import EvidenceBar

  // ---- what is read -------------------------------------------------------

  function JoinCommas(pieces: seq<string>): string {
    if pieces == [] then "" else if |pieces| == 1 then pieces[0] else pieces[0] + "," + JoinCommas(pieces[1..])
  }

  ghost predicate NoCommas(pieces: seq<string>) {
    forall i :: 0 <= i < |pieces| ==> ',' !in pieces[i]
  }

  lemma {:induction false} SplitJoins(s: string)
    ensures JoinCommas(Split(s)) == s && NoCommas(Split(s))
  {
    if s != "" {
      SplitJoins(s[1..]);
      var rest := Split(s[1..]);
      assert s == [s[0]] + s[1..];
      if s[0] == ',' {
        assert ([""] + rest)[1..] == rest;
      } else {
        var grown := [[s[0]] + rest[0]] + rest[1..];
        assert grown[1..] == rest[1..] && grown[0] == [s[0]] + rest[0];
        assert forall i :: 0 < i < |grown| ==> grown[i] == rest[i];
        if |rest| > 1 {
          assert [s[0]] + (rest[0] + "," + JoinCommas(rest[1..])) == ([s[0]] + rest[0]) + "," + JoinCommas(rest[1..]);
        }
      }
    }
  }

  lemma {:induction false} JoinedSplits(pieces: seq<string>)
    requires pieces != [] && NoCommas(pieces)
    ensures Split(JoinCommas(pieces)) == pieces
    decreases |pieces|, |pieces[0]|
  {
    var s := JoinCommas(pieces);
    var head, rest := pieces[0], pieces[1..];
    if head == "" {
      if rest == [] {
        assert s == "" && pieces == [""];
      } else {
        assert s == [','] + JoinCommas(rest);
        assert s[0] == ',' && s[1..] == JoinCommas(rest);
        JoinedSplits(rest);
        assert pieces == [""] + rest;
      }
    } else {
      var shorter := [head[1..]] + rest;
      assert forall i :: 0 < i < |shorter| ==> shorter[i] == pieces[i];
      assert ',' !in head && head[0] in head && forall c :: c in head[1..] ==> c in head;
      assert shorter[1..] == rest;
      assert head == [head[0]] + head[1..];
      if rest != [] {
        assert s == [head[0]] + (head[1..] + "," + JoinCommas(rest));
      }
      assert s == [head[0]] + JoinCommas(shorter);
      assert s[0] == head[0] && s[1..] == JoinCommas(shorter);
      JoinedSplits(shorter);
      assert [[s[0]] + shorter[0]] + shorter[1..] == pieces;
    }
  }

  /** Splitting gives the only pieces without commas that commas join to the text. */
  lemma {:induction false} SplitIsExact(s: string, pieces: seq<string>)
    ensures pieces == Split(s) <==> pieces != [] && NoCommas(pieces) && JoinCommas(pieces) == s
  {
    SplitJoins(s);
    if pieces != [] && NoCommas(pieces) {
      JoinedSplits(pieces);
    }
  }

  /** A binding covers an event exactly if one of the pieces between the commas of its id,
      trimmed, names it; an empty name is nobody's. */
  lemma {:induction false} BoundIsExact(w: Reading, b: Binding, pieces: seq<string>, e: string)
    requires pieces != [] && NoCommas(pieces) && JoinCommas(pieces) == (if b.bindingId.Some? then b.bindingId.value else "")
    ensures e in BoundEvents(w, b) <==> e != "" && exists i :: 0 <= i < |pieces| && w.trim(pieces[i]) == e
  {
    JoinedSplits(pieces);
    var all := EvidenceBar.TrimAll(w.trim, pieces);
    assert BoundEvents(w, b) == EvidenceBar.NonEmpty(all);
    if exists i :: 0 <= i < |pieces| && w.trim(pieces[i]) == e {
      var i :| 0 <= i < |pieces| && w.trim(pieces[i]) == e;
      assert all[i] == e;
    }
  }

  /** Who notifies declares what it emits, who is triggered or consumes what triggers it. */
  lemma {:induction false} DeclaredIsExact(w: Reading, spec: Spec, q: Requirement, e: string)
    ensures e in DeclaredEvents(w, spec, q) <==>
      (w.role(q.role) == Notify && e in spec.emit) || (w.role(q.role) in {Trigger, Consume} && e in spec.trigger)
  {
  }

  /** A binding is of the kind it names; without one it is a tool if it names a tool. */
  lemma {:induction false} KindIsExact(b: Binding, kind: Kind)
    ensures KindOf(b) == Some(kind) <==>
      b.kind == Some(kind) || (b.kind == None && kind == Tool && b.toolName != None && b.toolName != Some(""))
  {
  }

  /** A plan is flattened in the order of its text: each step, then its body. */
  lemma {:induction false} FlattenIsExact(step: PlanStep, x: seq<PlanStep>, y: seq<PlanStep>)
    ensures Flatten([]) == [] && Flatten([step]) == [step] + Flatten(step.body) && Flatten(x + y) == Flatten(x) + Flatten(y)
    decreases |x|
  {
    assert [step][1..] == [];
    if x == [] {
      assert x + y == y;
    } else {
      assert (x + y)[1..] == x[1..] + y;
      FlattenIsExact(step, x[1..], y);
    }
  }

  // ---- what is required ---------------------------------------------------

  ghost predicate FirstOf(list: seq<Requirement>, q: Requirement) {
    exists i :: 0 <= i < |list| && list[i] == q && forall j :: 0 <= j < i ==> list[j].id != q.id
  }

  ghost predicate LastOf(list: seq<Requirement>, q: Requirement) {
    exists i :: 0 <= i < |list| && list[i] == q && forall j :: i < j < |list| ==> list[j].id != q.id
  }

  lemma {:induction false} LastCons(qs: seq<Requirement>, q: Requirement)
    requires qs != []
    ensures LastOf(qs, q) <==> LastOf(qs[1..], q) || (qs[0] == q && !Mentions(qs[1..], q.id))
  {
    var rest := qs[1..];
    assert forall i :: 0 <= i < |rest| ==> rest[i] == qs[i + 1];
    if LastOf(qs, q) {
      var i :| 0 <= i < |qs| && qs[i] == q && forall j :: i < j < |qs| ==> qs[j].id != q.id;
      if i > 0 {
        assert rest[i - 1] == q;
      }
    }
    if LastOf(rest, q) {
      var i :| 0 <= i < |rest| && rest[i] == q && forall j :: i < j < |rest| ==> rest[j].id != q.id;
      assert qs[i + 1] == q;
    }
    if qs[0] == q && !Mentions(rest, q.id) {
      assert forall j :: 0 < j < |qs| ==> qs[j] == rest[j - 1] && rest[j - 1] in rest;
    }
  }

  lemma {:induction false} FirstCons(qs: seq<Requirement>, q: Requirement)
    requires qs != []
    ensures FirstOf(qs, q) <==> qs[0] == q || (qs[0].id != q.id && FirstOf(qs[1..], q))
  {
    var rest := qs[1..];
    assert forall i :: 0 <= i < |rest| ==> rest[i] == qs[i + 1];
    if FirstOf(qs, q) {
      var i :| 0 <= i < |qs| && qs[i] == q && forall j :: 0 <= j < i ==> qs[j].id != q.id;
      if i > 0 {
        assert rest[i - 1] == q;
      }
    }
    if qs[0].id != q.id && FirstOf(rest, q) {
      var i :| 0 <= i < |rest| && rest[i] == q && forall j :: 0 <= j < i ==> rest[j].id != q.id;
      assert qs[i + 1] == q;
    }
  }

  lemma {:induction false} PutAllHas(list: seq<Requirement>, qs: seq<Requirement>, q: Requirement)
    requires UniqueIds(list)
    ensures q in PutAll(list, qs) <==> LastOf(qs, q) || (q in list && !Mentions(qs, q.id))
    decreases |qs|
  {
    if qs != [] {
      PutKeeps(list, qs[0]);
      PutAllHas(Put(list, qs[0]), qs[1..], q);
      LastCons(qs, q);
      MentionsSplit(qs);
    }
  }

  lemma {:induction false} PutNewAllHas(list: seq<Requirement>, qs: seq<Requirement>, q: Requirement)
    requires UniqueIds(list)
    ensures q in PutNewAll(list, qs) <==> q in list || (!Mentions(list, q.id) && FirstOf(qs, q))
    decreases |qs|
  {
    if qs != [] {
      var next := PutNew(list, qs[0]);
      PutKeeps(list, qs[0]);
      PutNewAllHas(next, qs[1..], q);
      FirstCons(qs, q);
      PlaceIs(list, qs[0].id);
      MentionsNew(list, qs[0], q.id);
    }
  }

  lemma {:induction false} PlaceIs(list: seq<Requirement>, id: string)
    ensures Place(list, id).None? <==> !Mentions(list, id)
  {
    if Place(list, id).Some? {
      assert list[Place(list, id).value] in list;
    }
  }

  lemma {:induction false} MentionsNew(list: seq<Requirement>, q: Requirement, id: string)
    ensures Mentions(PutNew(list, q), id) <==> Mentions(list, id) || q.id == id
  {
    PlaceIs(list, q.id);
    if Place(list, q.id).None? {
      assert PutNew(list, q)[|list|] == q;
      assert forall r :: r in list ==> r in PutNew(list, q);
    }
  }

  /** On whose terms an id is assessed: on the last ones that the ontology derives, else on
      the first ones that the agent carries, else on the first ones that a binding names. */
  lemma {:induction false} TermsAreExact(w: Reading, actions: seq<Action>, spec: Spec, q: Requirement)
    ensures var derived := Derived(w, actions, spec);
      q in Requirements(w, actions, spec) <==>
        if Mentions(derived, q.id) then LastOf(derived, q)
        else if Mentions(spec.requirements, q.id) then FirstOf(spec.requirements, q)
        else FirstOf(BoundBy(spec.bindings), q)
  {
    var derived := Derived(w, actions, spec);
    var base := PutAll([], derived);
    var carried := PutNewAll(base, spec.requirements);
    PutAllKeeps([], derived);
    PutNewAllKeeps(base, spec.requirements);
    PutAllHas([], derived, q);
    PutNewAllHas(base, spec.requirements, q);
    PutNewAllHas(carried, BoundBy(spec.bindings), q);
    EndsMention(derived, q);
    EndsMention(spec.requirements, q);
  }

  lemma {:induction false} EndsMention(list: seq<Requirement>, q: Requirement)
    ensures LastOf(list, q) || FirstOf(list, q) ==> Mentions(list, q.id)
  {
  }

  // ---- the verdict --------------------------------------------------------

  /** The binding at `i`, and no other, names the requirement. */
  ghost predicate OnlyAt(bindings: seq<Binding>, id: string, i: int) {
    && 0 <= i < |bindings| && bindings[i].requirement.id == id
    && forall j :: 0 <= j < |bindings| && j != i ==> bindings[j].requirement.id != id
  }

  lemma {:induction false} OnlyOne(bindings: seq<Binding>, id: string, i: int)
    requires OnlyAt(bindings, id, i)
    ensures BindingsFor(bindings, id) == [bindings[i]]
    decreases |bindings|
  {
    var n := |bindings| - 1;
    if i < n {
      OnlyOne(bindings[..n], id, i);
    } else {
      NoneLeft(bindings[..n], id);
    }
  }

  lemma {:induction false} NoneLeft(bindings: seq<Binding>, id: string)
    requires forall b :: b in bindings ==> b.requirement.id != id
    ensures BindingsFor(bindings, id) == []
  {
    if BindingsFor(bindings, id) != [] {
      assert BindingsFor(bindings, id)[0] in BindingsFor(bindings, id);
    }
  }

  lemma {:induction false} FoundAt(bindings: seq<Binding>, id: string) returns (i: int)
    requires |BindingsFor(bindings, id)| == 1
    ensures OnlyAt(bindings, id, i)
    decreases |bindings|
  {
    var n := |bindings| - 1;
    if bindings[n].requirement.id == id {
      i := n;
      forall j | 0 <= j < n
        ensures bindings[j].requirement.id != id
      {
        assert bindings[..n][j] in bindings[..n];
      }
    } else {
      i := FoundAt(bindings[..n], id);
    }
  }

  /** The verdict on a requirement: what its only binding says of itself, as long as that is
      not that it is resolved; resolved if the binding then proves it; missing otherwise, and
      wherever no binding or several name it. */
  lemma {:induction false} VerdictIsExact(w: Reading, spec: Spec, q: Requirement, i: int)
    ensures OnlyAt(spec.bindings, q.id, i) ==> var b := spec.bindings[i];
      Judge(w, spec, q) == if b.status != Resolved then b.status else if ProvenBy(w, spec, q, b) then Resolved else Missing
    ensures (forall k :: !OnlyAt(spec.bindings, q.id, k)) ==> Judge(w, spec, q) == Missing
  {
    if OnlyAt(spec.bindings, q.id, i) {
      OnlyOne(spec.bindings, q.id, i);
      if spec.bindings[i].status == Resolved {
        EvidenceIsProof(w, spec, q, spec.bindings[i]);
      }
    }
    if |BindingsFor(spec.bindings, q.id)| == 1 {
      var k := FoundAt(spec.bindings, q.id);
    }
  }

  // ---- the report ---------------------------------------------------------

  ghost predicate Open(w: Reading, spec: Spec, q: Requirement, issue: Issue) {
    Judge(w, spec, q) != Resolved && issue == Issue(spec.short, q, Judge(w, spec, q))
  }

  lemma {:induction false} NoteAllReports(a: Assessment, w: Reading, spec: Spec, qs: seq<Requirement>, issue: Issue)
    ensures issue in NoteAll(a, w, spec, qs).issues <==> issue in a.issues || exists q :: q in qs && Open(w, spec, q, issue)
    decreases |qs|
  {
    if qs != [] {
      var rest := qs[1..];
      NoteAllReports(Note(a, w, spec, qs[0]), w, spec, rest, issue);
      assert issue in Note(a, w, spec, qs[0]).issues <==> issue in a.issues || Open(w, spec, qs[0], issue);
      assert qs == [qs[0]] + rest && qs[0] in qs;
      if q :| q in qs && Open(w, spec, q, issue) {
        assert q == qs[0] || q in rest;
      }
      if q :| q in rest && Open(w, spec, q, issue) {
        assert q in qs;
      }
    }
  }

  ghost predicate OpenIn(w: Reading, actions: seq<Action>, spec: Spec, issue: Issue) {
    exists q :: q in Requirements(w, actions, spec) && Open(w, spec, q, issue)
  }

  lemma {:induction false} NoteSpecsReports(a: Assessment, w: Reading, actions: seq<Action>, specs: seq<Spec>, issue: Issue)
    ensures issue in NoteSpecs(a, w, actions, specs).issues <==>
      issue in a.issues || exists spec :: spec in specs && OpenIn(w, actions, spec, issue)
    decreases |specs|
  {
    if specs != [] {
      NoteAllReports(a, w, specs[0], Requirements(w, actions, specs[0]), issue);
      var rest := specs[1..];
      NoteSpecsReports(NoteAll(a, w, specs[0], Requirements(w, actions, specs[0])), w, actions, rest, issue);
      assert specs == [specs[0]] + rest && specs[0] in specs;
      if spec :| spec in specs && OpenIn(w, actions, spec, issue) {
        assert spec == specs[0] || spec in rest;
      }
      if spec :| spec in rest && OpenIn(w, actions, spec, issue) {
        assert spec in specs;
      }
    }
  }

  lemma {:induction false} AbsentReports(a: Assessment, name: string, qs: seq<Requirement>, issue: Issue)
    ensures issue in Absent(a, name, qs).issues <==>
      issue in a.issues || (issue.requirement in qs && issue == Issue(name, issue.requirement, Missing))
    decreases |qs|
  {
    if qs != [] {
      AbsentReports(Assessment(a.total + 1, a.resolved, a.issues + [Issue(name, qs[0], Missing)]), name, qs[1..], issue);
      assert forall q :: q in qs <==> q == qs[0] || q in qs[1..];
    }
  }

  /** An Agent action that no agent of its own covers misses all it requires. */
  ghost predicate Missed(w: Reading, specs: seq<Spec>, action: Action, issue: Issue) {
    && "Agent" in action.actors && (forall spec :: spec in specs && !spec.isSubAgent ==> spec.actionName != action.name)
    && issue.requirement in w.derive(action) && issue == Issue(action.name, issue.requirement, Missing)
  }

  lemma {:induction false} UncoveredIs(action: Action, specs: seq<Spec>)
    ensures Uncovered(action, Covered(specs)) <==>
      "Agent" in action.actors && forall spec :: spec in specs && !spec.isSubAgent ==> spec.actionName != action.name
  {
  }

  lemma {:induction false} NoteActionsReports(a: Assessment, w: Reading, actions: seq<Action>, specs: seq<Spec>, issue: Issue)
    ensures issue in NoteActions(a, w, actions, Covered(specs)).issues <==>
      issue in a.issues || exists action :: action in actions && Missed(w, specs, action, issue)
    decreases |actions|
  {
    if actions != [] {
      var next := if Uncovered(actions[0], Covered(specs)) then Absent(a, actions[0].name, w.derive(actions[0])) else a;
      var rest := actions[1..];
      AbsentReports(a, actions[0].name, w.derive(actions[0]), issue);
      UncoveredIs(actions[0], specs);
      NoteActionsReports(next, w, rest, specs, issue);
      assert actions == [actions[0]] + rest && actions[0] in actions;
      if action :| action in actions && Missed(w, specs, action, issue) {
        assert action == actions[0] || action in rest;
      }
      if action :| action in rest && Missed(w, specs, action, issue) {
        assert action in actions;
      }
    }
  }

  /** The report names exactly the requirements that are not resolved, each with its agent and
      its verdict, and, where asked for, what the uncovered Agent actions miss. */
  lemma {:induction false} IssuesAreExact(w: Reading, specs: seq<Spec>, actions: seq<Action>, includeUncovered: bool, issue: Issue)
    ensures issue in Assess(w, specs, actions, includeUncovered).issues <==>
      || (exists spec :: spec in specs && OpenIn(w, actions, spec, issue))
      || (includeUncovered && exists action :: action in actions && Missed(w, specs, action, issue))
  {
    NoteSpecsReports(Assessment(0, 0, []), w, actions, specs, issue);
    NoteActionsReports(NoteSpecs(Assessment(0, 0, []), w, actions, specs), w, actions, specs, issue);
  }
}

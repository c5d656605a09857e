/** The account of the integration criterion over a whole fleet. */
module IntegrationAccount {
  import opened SandboxTypes
  import opened IntegrationEvidence

  // ---- what is assessed ---------------------------------------------------

  ghost predicate UniqueIds(list: seq<Requirement>) {
    forall i, j :: 0 <= i < j < |list| ==> list[i].id != list[j].id
  }

  ghost predicate Mentions(qs: seq<Requirement>, id: string) {
    exists q :: q in qs && q.id == id
  }

  lemma {:induction false} PutKeeps(list: seq<Requirement>, q: Requirement)
    requires UniqueIds(list)
    ensures UniqueIds(Put(list, q)) && UniqueIds(PutNew(list, q))
    ensures q in Put(list, q) && (forall r :: r in Put(list, q) <==> r == q || (r in list && r.id != q.id))
    ensures forall r :: r in PutNew(list, q) <==> r in list || (r == q && Place(list, q.id).None?)
  {
    match Place(list, q.id) {
      case None =>
      case Some(k) =>
        assert list[k := q][k] == q;
        forall r | r in list && r.id != q.id ensures r in list[k := q] {
          var i :| 0 <= i < |list| && list[i] == r;
          assert list[k := q][i] == r;
        }
    }
  }

  /** Setting a whole list: ids stay unique, and what stands for an id of the list comes
      from the list. */
  lemma {:induction false} PutAllKeeps(list: seq<Requirement>, qs: seq<Requirement>)
    requires UniqueIds(list)
    ensures UniqueIds(PutAll(list, qs))
    ensures forall r :: r in PutAll(list, qs) ==> r in qs || r in list
    ensures forall id :: Mentions(PutAll(list, qs), id) <==> Mentions(list, id) || Mentions(qs, id)
    decreases |qs|
  {
    if qs != [] {
      PutKeeps(list, qs[0]);
      PutAllKeeps(Put(list, qs[0]), qs[1..]);
      MentionsSplit(qs);
      forall id ensures Mentions(Put(list, qs[0]), id) <==> Mentions(list, id) || qs[0].id == id {
        assert qs[0] in Put(list, qs[0]);
      }
      assert forall r :: r in qs[1..] ==> r in qs;
    }
  }

  lemma {:induction false} MentionsSplit(qs: seq<Requirement>)
    requires qs != []
    ensures forall id :: Mentions(qs, id) <==> qs[0].id == id || Mentions(qs[1..], id)
  {
  }

  /** Setting only what is missing: everything that stood keeps standing. */
  lemma {:induction false} PutNewAllKeeps(list: seq<Requirement>, qs: seq<Requirement>)
    requires UniqueIds(list)
    ensures UniqueIds(PutNewAll(list, qs))
    ensures forall r :: r in list ==> r in PutNewAll(list, qs)
    ensures forall id :: Mentions(PutNewAll(list, qs), id) <==> Mentions(list, id) || Mentions(qs, id)
    decreases |qs|
  {
    if qs != [] {
      var t := PutNew(list, qs[0]);
      PutKeeps(list, qs[0]);
      PutNewAllKeeps(t, qs[1..]);
      MentionsSplit(qs);
      forall id ensures Mentions(t, id) <==> Mentions(list, id) || qs[0].id == id {
        match Place(list, qs[0].id) {
          case None => assert qs[0] in t;
          case Some(k) => assert list[k] in list;
        }
      }
    }
  }

  lemma {:induction false} SameIdSame(list: seq<Requirement>, p: Requirement, q: Requirement)
    requires UniqueIds(list) && p in list && q in list && p.id == q.id
    ensures p == q
  {
  }

  /** Each id that the ontology derives, the agent carries or a binding names is assessed
      once, and on the ontology's terms wherever it derives that id. */
  lemma {:induction false} RequirementsAreExact(w: Reading, actions: seq<Action>, spec: Spec)
    ensures UniqueIds(Requirements(w, actions, spec))
    ensures forall id :: Mentions(Requirements(w, actions, spec), id) <==>
      Mentions(Derived(w, actions, spec), id) || Mentions(spec.requirements, id) || Mentions(BoundBy(spec.bindings), id)
    ensures forall q :: q in Requirements(w, actions, spec) && Mentions(Derived(w, actions, spec), q.id) ==>
      q in Derived(w, actions, spec)
  {
    var derived := Derived(w, actions, spec);
    var base := PutAll([], derived);
    var carried := PutNewAll(base, spec.requirements);
    PutAllKeeps([], derived);
    PutNewAllKeeps(base, spec.requirements);
    PutNewAllKeeps(carried, BoundBy(spec.bindings));
    forall q | q in Requirements(w, actions, spec) && Mentions(derived, q.id) ensures q in derived {
      assert Mentions(base, q.id);
      var p :| p in base && p.id == q.id;
      SameIdSame(Requirements(w, actions, spec), p, q);
    }
  }

  // ---- the account --------------------------------------------------------

  /** One verdict on the account. */
  function Note(a: Assessment, w: Reading, spec: Spec, q: Requirement): Assessment {
    var status := Judge(w, spec, q);
    if status == Resolved then Assessment(a.total + 1, a.resolved + 1, a.issues)
    else Assessment(a.total + 1, a.resolved, a.issues + [Issue(spec.short, q, status)])
  }

  function NoteAll(a: Assessment, w: Reading, spec: Spec, qs: seq<Requirement>): Assessment
    decreases |qs|
  {
    if qs == [] then a else NoteAll(Note(a, w, spec, qs[0]), w, spec, qs[1..])
  }

  function NoteSpecs(a: Assessment, w: Reading, actions: seq<Action>, specs: seq<Spec>): Assessment
    decreases |specs|
  {
    if specs == [] then a
    else NoteSpecs(NoteAll(a, w, specs[0], Requirements(w, actions, specs[0])), w, actions, specs[1..])
  }

  function Absent(a: Assessment, name: string, qs: seq<Requirement>): Assessment
    decreases |qs|
  {
    if qs == [] then a
    else Absent(Assessment(a.total + 1, a.resolved, a.issues + [Issue(name, qs[0], Missing)]), name, qs[1..])
  }

  function Covered(specs: seq<Spec>): set<string> {
    set spec | spec in specs && !spec.isSubAgent :: spec.actionName
  }

  predicate Uncovered(action: Action, covered: set<string>) {
    "Agent" in action.actors && action.name !in covered
  }

  lemma {:induction false} CoveredOn(specs: seq<Spec>, i: nat)
    requires i < |specs|
    ensures Covered(specs[..i + 1]) == Covered(specs[..i]) + (if specs[i].isSubAgent then {} else {specs[i].actionName})
  {
  }

  function NoteActions(a: Assessment, w: Reading, actions: seq<Action>, covered: set<string>): Assessment
    decreases |actions|
  {
    if actions == [] then a
    else
      var next := if Uncovered(actions[0], covered) then Absent(a, actions[0].name, w.derive(actions[0])) else a;
      NoteActions(next, w, actions[1..], covered)
  }

  function Assess(w: Reading, specs: seq<Spec>, actions: seq<Action>, includeUncovered: bool): Assessment {
    var a := NoteSpecs(Assessment(0, 0, []), w, actions, specs);
    if includeUncovered then NoteActions(a, w, actions, Covered(specs)) else a
  }

  // ---- it adds up ---------------------------------------------------------

  ghost predicate AddsUp(a: Assessment) {
    a.total == a.resolved + |a.issues|
  }

  lemma {:induction false} NoteAllIs(a: Assessment, w: Reading, spec: Spec, qs: seq<Requirement>)
    requires AddsUp(a)
    ensures var r := NoteAll(a, w, spec, qs);
      && AddsUp(r) && r.total == a.total + |qs| && a.issues <= r.issues
      && (r.issues == a.issues <==> forall q :: q in qs ==> Proven(w, spec, q))
    decreases |qs|
  {
    if qs != [] {
      var next := Note(a, w, spec, qs[0]);
      ResolvedIsProven(w, spec, qs[0]);
      NoteAllIs(next, w, spec, qs[1..]);
      assert forall q :: q in qs <==> q == qs[0] || q in qs[1..];
      Prefixes(a.issues, next.issues, NoteAll(next, w, spec, qs[1..]).issues);
    }
  }

  lemma {:induction false} Prefixes(x: seq<Issue>, y: seq<Issue>, z: seq<Issue>)
    requires x <= y <= z
    ensures x <= z && (z == x <==> (x == y && y == z))
  {
  }

  lemma {:induction false} AbsentIs(a: Assessment, name: string, qs: seq<Requirement>)
    requires AddsUp(a)
    ensures var r := Absent(a, name, qs);
      && AddsUp(r) && r.total == a.total + |qs| && r.resolved == a.resolved && a.issues <= r.issues
      && (r.issues == a.issues <==> qs == [])
    decreases |qs|
  {
    if qs != [] {
      var next := Assessment(a.total + 1, a.resolved, a.issues + [Issue(name, qs[0], Missing)]);
      AbsentIs(next, name, qs[1..]);
      Prefixes(a.issues, next.issues, Absent(next, name, qs[1..]).issues);
    }
  }

  ghost predicate SpecProven(w: Reading, actions: seq<Action>, spec: Spec) {
    forall q :: q in Requirements(w, actions, spec) ==> Proven(w, spec, q)
  }

  ghost predicate FleetProven(w: Reading, actions: seq<Action>, specs: seq<Spec>) {
    forall i :: 0 <= i < |specs| ==> SpecProven(w, actions, specs[i])
  }

  /** What an action without an agent leaves open. */
  function Owes(w: Reading, action: Action, covered: set<string>): seq<Requirement> {
    if Uncovered(action, covered) then w.derive(action) else []
  }

  ghost predicate NothingOwed(w: Reading, actions: seq<Action>, covered: set<string>) {
    forall i :: 0 <= i < |actions| ==> Owes(w, actions[i], covered) == []
  }

  function Size(w: Reading, actions: seq<Action>, specs: seq<Spec>): nat {
    if specs == [] then 0 else |Requirements(w, actions, specs[0])| + Size(w, actions, specs[1..])
  }

  function AbsentSize(w: Reading, actions: seq<Action>, covered: set<string>): nat {
    if actions == [] then 0
    else |Owes(w, actions[0], covered)| + AbsentSize(w, actions[1..], covered)
  }

  lemma {:induction false} NoteSpecsIs(a: Assessment, w: Reading, actions: seq<Action>, specs: seq<Spec>)
    requires AddsUp(a)
    ensures var r := NoteSpecs(a, w, actions, specs);
      && AddsUp(r) && r.total == a.total + Size(w, actions, specs) && a.issues <= r.issues
      && (r.issues == a.issues <==> FleetProven(w, actions, specs))
    decreases |specs|
  {
    if specs != [] {
      var next := NoteAll(a, w, specs[0], Requirements(w, actions, specs[0]));
      NoteAllIs(a, w, specs[0], Requirements(w, actions, specs[0]));
      NoteSpecsIs(next, w, actions, specs[1..]);
      assert next.issues == a.issues <==> SpecProven(w, actions, specs[0]);
      Prefixes(a.issues, next.issues, NoteSpecs(next, w, actions, specs[1..]).issues);
    }
  }

  lemma {:induction false} NoteActionsIs(a: Assessment, w: Reading, actions: seq<Action>, covered: set<string>)
    requires AddsUp(a)
    ensures var r := NoteActions(a, w, actions, covered);
      && AddsUp(r) && r.total == a.total + AbsentSize(w, actions, covered) && r.resolved == a.resolved && a.issues <= r.issues
      && (r.issues == a.issues <==> NothingOwed(w, actions, covered))
    decreases |actions|
  {
    if actions != [] {
      var next := if Uncovered(actions[0], covered) then Absent(a, actions[0].name, w.derive(actions[0])) else a;
      if Uncovered(actions[0], covered) {
        AbsentIs(a, actions[0].name, w.derive(actions[0]));
      }
      NoteActionsIs(next, w, actions[1..], covered);
      Prefixes(a.issues, next.issues, NoteActions(next, w, actions[1..], covered).issues);
    }
  }

  /** The total is the resolved and the issues together, and counts every requirement of
      every agent and of every Agent action without one; there is no issue exactly when all
      of the first are proven and there are none of the second. */
  lemma {:induction false} AccountIsExact(w: Reading, specs: seq<Spec>, actions: seq<Action>, includeUncovered: bool)
    ensures var r := Assess(w, specs, actions, includeUncovered);
      && r.total == r.resolved + |r.issues|
      && r.total == Size(w, actions, specs) + (if includeUncovered then AbsentSize(w, actions, Covered(specs)) else 0)
      && (r.issues == [] <==>
            && FleetProven(w, actions, specs)
            && (includeUncovered ==> NothingOwed(w, actions, Covered(specs))))
  {
    var a := NoteSpecs(Assessment(0, 0, []), w, actions, specs);
    NoteSpecsIs(Assessment(0, 0, []), w, actions, specs);
    if includeUncovered {
      NoteActionsIs(a, w, actions, Covered(specs));
      Prefixes([], a.issues, NoteActions(a, w, actions, Covered(specs)).issues);
    }
  }

  // ---- the loops as they run ----------------------------------------------

  /** The map of one agent's requirements. */
  method Collect(w: Reading, actions: seq<Action>, spec: Spec) returns (byId: seq<Requirement>)
    ensures byId == Requirements(w, actions, spec)
  {
    byId := [];
    var derived := Derived(w, actions, spec);
    var i := 0;
    while i < |derived|
      invariant 0 <= i <= |derived|
      invariant PutAll(byId, derived[i..]) == PutAll([], derived)
    {
      assert derived[i..][1..] == derived[i + 1..];
      byId := Put(byId, derived[i]);
      i := i + 1;
    }
    ghost var base := byId;
    i := 0;
    while i < |spec.requirements|
      invariant 0 <= i <= |spec.requirements|
      invariant PutNewAll(byId, spec.requirements[i..]) == PutNewAll(base, spec.requirements)
    {
      assert spec.requirements[i..][1..] == spec.requirements[i + 1..];
      byId := PutNew(byId, spec.requirements[i]);
      i := i + 1;
    }
    ghost var carried := byId;
    var bound := BoundBy(spec.bindings);
    i := 0;
    while i < |bound|
      invariant 0 <= i <= |bound|
      invariant PutNewAll(byId, bound[i..]) == PutNewAll(carried, bound)
    {
      assert bound[i..][1..] == bound[i + 1..];
      byId := PutNew(byId, bound[i]);
      i := i + 1;
    }
  }

  method AssessSpec(w: Reading, spec: Spec, qs: seq<Requirement>, start: Assessment) returns (a: Assessment)
    ensures a == NoteAll(start, w, spec, qs)
  {
    var total, resolved, issues := start.total, start.resolved, start.issues;
    var i := 0;
    while i < |qs|
      invariant 0 <= i <= |qs|
      invariant NoteAll(Assessment(total, resolved, issues), w, spec, qs[i..]) == NoteAll(start, w, spec, qs)
    {
      assert qs[i..][1..] == qs[i + 1..];
      var q := qs[i];
      i := i + 1;
      total := total + 1;
      var matches := BindingsFor(spec.bindings, q.id);
      if |matches| != 1 {
        issues := issues + [Issue(spec.short, q, Missing)];
        continue;
      }
      var binding := matches[0];
      if binding.status != Resolved {
        issues := issues + [Issue(spec.short, q, binding.status)];
        continue;
      }
      if !Claims(w, spec, q, binding) {
        issues := issues + [Issue(spec.short, q, Missing)];
        continue;
      }
      if !Executes(spec, q, binding) {
        issues := issues + [Issue(spec.short, q, Missing)];
        continue;
      }
      resolved := resolved + 1;
    }
    a := Assessment(total, resolved, issues);
  }

  method AssessAbsent(w: Reading, actions: seq<Action>, covered: set<string>, start: Assessment) returns (a: Assessment)
    ensures a == NoteActions(start, w, actions, covered)
  {
    a := start;
    var i := 0;
    while i < |actions|
      invariant 0 <= i <= |actions|
      invariant NoteActions(a, w, actions[i..], covered) == NoteActions(start, w, actions, covered)
    {
      assert actions[i..][1..] == actions[i + 1..];
      var action := actions[i];
      if Uncovered(action, covered) {
        var qs := w.derive(action);
        ghost var was := a;
        var j := 0;
        while j < |qs|
          invariant 0 <= j <= |qs|
          invariant Absent(a, action.name, qs[j..]) == Absent(was, action.name, qs)
        {
          assert qs[j..][1..] == qs[j + 1..];
          a := Assessment(a.total + 1, a.resolved, a.issues + [Issue(action.name, qs[j], Missing)]);
          j := j + 1;
        }
      }
      i := i + 1;
    }
  }

  method AssessFleet(w: Reading, specs: seq<Spec>, actions: seq<Action>, includeUncovered: bool) returns (a: Assessment)
    ensures a == Assess(w, specs, actions, includeUncovered)
  {
    var covered: set<string> := {};
    a := Assessment(0, 0, []);
    var i := 0;
    while i < |specs|
      invariant 0 <= i <= |specs|
      invariant covered == Covered(specs[..i])
      invariant NoteSpecs(a, w, actions, specs[i..]) == NoteSpecs(Assessment(0, 0, []), w, actions, specs)
    {
      assert specs[i..][1..] == specs[i + 1..];
      CoveredOn(specs, i);
      if !specs[i].isSubAgent {
        covered := covered + {specs[i].actionName};
      }
      var qs := Collect(w, actions, specs[i]);
      a := AssessSpec(w, specs[i], qs, a);
      i := i + 1;
    }
    assert specs[..i] == specs;
    if includeUncovered {
      a := AssessAbsent(w, actions, covered, a);
    }
  }
}

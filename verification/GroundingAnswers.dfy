/** What grounding one phase keeps, and why it refuses what it refuses. */
module GroundingAnswers {
  import opened SandboxTypes
  import opened PhaseGrounding

  /** `at` lists in ascending order the members of `good` below `n`. */
  ghost predicate Picks(at: seq<nat>, n: nat, good: set<nat>) {
    && (forall i, j :: 0 <= i < j < |at| ==> at[i] < at[j])
    && (forall k :: k in at <==> k < n && k in good)
  }

  lemma {:induction false} PickNext(at: seq<nat>, n: nat, good: set<nat>) returns (next: seq<nat>)
    requires Picks(at, n, good)
    ensures Picks(next, n + 1, good) && next == (if n in good then at + [n] else at)
  {
    next := if n in good then at + [n] else at;
    forall i | 0 <= i < |at|
      ensures at[i] < n
    {
      assert at[i] in at;
    }
  }

  lemma {:induction false} ResolvedSnoc(norm: Norm, index: Index, anchors: seq<Anchor>, a: Anchor)
    ensures ResolvedAnchors(norm, index, anchors + [a]) ==
      ResolvedAnchors(norm, index, anchors) + (if AnchorResolves(norm, index, a) then [a] else [])
    decreases |anchors|
  {
    if anchors == [] {
      assert [] + [a] == [a] && [a][1..] == [];
    } else {
      assert (anchors + [a])[1..] == anchors[1..] + [a];
      ResolvedSnoc(norm, index, anchors[1..], a);
    }
  }

  /** A citation that is in the ontology under its kind and related to the phase. */
  predicate Good(norm: Norm, index: Index, related: Related, a: Anchor) {
    var id := norm(a.id);
    && match a.kind
       case Entity => id in index.entity && (id in related.ids.entity || id in related.linked)
       case Action => id in index.action && (id in related.ids.action || id in related.linked)
       case Rule => id in index.rule && (id in related.ids.rule || id in related.linked)
       case Event => id in index.event && (id in related.ids.event || id in related.linked)
  }

  /** The positions of the good ones. */
  function Goods(norm: Norm, index: Index, related: Related, anchors: seq<Anchor>): set<nat> {
    set k: nat | k < |anchors| && Good(norm, index, related, anchors[k])
  }

  /** Of the anchors exactly the good ones are kept, in their order. */
  ghost predicate KeepsGood(norm: Norm, index: Index, related: Related, anchors: seq<Anchor>, kept: seq<Anchor>) {
    exists at: seq<nat> ::
      Picks(at, |anchors|, Goods(norm, index, related, anchors)) && |at| == |kept|
      && forall j :: 0 <= j < |at| ==> at[j] < |anchors| && kept[j] == anchors[at[j]]
  }

  lemma {:induction false} AnchorsPicked(norm: Norm, index: Index, related: Related, anchors: seq<Anchor>, n: nat) returns (at: seq<nat>)
    requires Sound(index) && n <= |anchors|
    ensures Picks(at, n, Goods(norm, index, related, anchors))
    ensures var kept := ResolvedAnchors(norm, Narrow(index, related), anchors[..n]);
      |at| == |kept| && forall j :: 0 <= j < |at| ==> at[j] < |anchors| && kept[j] == anchors[at[j]]
  {
    if n == 0 {
      at := [];
    } else {
      var before := AnchorsPicked(norm, index, related, anchors, n - 1);
      assert anchors[..n] == anchors[..n - 1] + [anchors[n - 1]];
      ResolvedSnoc(norm, Narrow(index, related), anchors[..n - 1], anchors[n - 1]);
      NarrowIsCitable(norm, index, related, anchors[n - 1]);
      at := PickNext(before, n - 1, Goods(norm, index, related, anchors));
    }
  }

  lemma {:induction false} AnchorsAreExact(norm: Norm, index: Index, related: Related, anchors: seq<Anchor>)
    requires Sound(index)
    ensures KeepsGood(norm, index, related, anchors, ResolvedAnchors(norm, Narrow(index, related), anchors))
  {
    var at := AnchorsPicked(norm, index, related, anchors, |anchors|);
    assert anchors[..|anchors|] == anchors;
  }

  // ---- references ---------------------------------------------------------

  /** Where a good value comes first. */
  function Firsts(norm: Norm, ids: set<string>, values: seq<string>): set<nat> {
    set k: nat | k < |values| && norm(values[k]) in ids && forall m :: 0 <= m < k ==> norm(values[m]) != norm(values[k])
  }

  /** Of the references the good ones are kept, in normal form, each where it comes first. */
  ghost predicate KeepsFirst(norm: Norm, ids: set<string>, values: seq<string>, kept: seq<string>) {
    exists at: seq<nat> ::
      Picks(at, |values|, Firsts(norm, ids, values)) && |at| == |kept|
      && forall j :: 0 <= j < |at| ==> at[j] < |values| && kept[j] == norm(values[at[j]])
  }

  lemma {:induction false} FirstIsNew(norm: Norm, ids: set<string>, values: seq<string>, n: nat)
    requires "" !in ids && n < |values|
    ensures n in Firsts(norm, ids, values) <==> norm(values[n]) in ids && norm(values[n]) !in GroundRefs(norm, ids, values[..n])
  {
    var id, before := norm(values[n]), values[..n];
    RefsHas(norm, ids, before);
    if id in ids && id in GroundRefs(norm, ids, before) {
      var v :| v in before && norm(v) == id;
      var m :| 0 <= m < n && values[m] == v;
    } else if id in ids {
      assert forall m :: 0 <= m < n ==> values[m] in before;
    }
  }

  lemma {:induction false} RefsPicked(norm: Norm, ids: set<string>, values: seq<string>, n: nat) returns (at: seq<nat>)
    requires "" !in ids && n <= |values|
    ensures Picks(at, n, Firsts(norm, ids, values))
    ensures var kept := GroundRefs(norm, ids, values[..n]);
      |at| == |kept| && forall j :: 0 <= j < |at| ==> at[j] < |values| && kept[j] == norm(values[at[j]])
  {
    if n == 0 {
      at := [];
    } else {
      var before := RefsPicked(norm, ids, values, n - 1);
      assert values[..n][..n - 1] == values[..n - 1];
      FirstIsNew(norm, ids, values, n - 1);
      at := PickNext(before, n - 1, Firsts(norm, ids, values));
    }
  }

  lemma {:induction false} RefsAreExact(norm: Norm, ids: set<string>, values: seq<string>)
    requires "" !in ids
    ensures KeepsFirst(norm, ids, values, GroundRefs(norm, ids, values))
  {
    var at := RefsPicked(norm, ids, values, |values|);
    assert values[..|values|] == values;
  }

  // ---- steps and phases ---------------------------------------------------

  /** What may be referred to. */
  function Usable(ids: set<string>, own: set<string>, linked: set<string>): set<string> {
    ids * (own + linked)
  }

  /** A step lives exactly if an anchor of it is good. */
  ghost predicate Lives(norm: Norm, index: Index, related: Related, step: Step) {
    Goods(norm, index, related, step.anchors) != {}
  }

  /** What a step becomes: the same step with what is good of it. */
  ghost predicate Becomes(norm: Norm, index: Index, related: Related, step: Step, kept: Step) {
    var entities := Usable(index.entity, related.ids.entity, related.linked);
    && kept.name == step.name && KeepsGood(norm, index, related, step.anchors, kept.anchors)
    && KeepsFirst(norm, entities, step.readIds, kept.readIds) && KeepsFirst(norm, entities, step.writeIds, kept.writeIds)
    && KeepsFirst(norm, Usable(index.event, related.ids.event, related.linked), step.emitIds, kept.emitIds)
  }

  lemma {:induction false} NoneKept(norm: Norm, index: Index, related: Related, anchors: seq<Anchor>, kept: seq<Anchor>)
    requires KeepsGood(norm, index, related, anchors, kept)
    ensures kept != [] <==> Goods(norm, index, related, anchors) != {}
  {
    var at: seq<nat> :|
      Picks(at, |anchors|, Goods(norm, index, related, anchors)) && |at| == |kept|
      && forall j :: 0 <= j < |at| ==> at[j] < |anchors| && kept[j] == anchors[at[j]];
    PicksNone(at, |anchors|, Goods(norm, index, related, anchors));
  }

  lemma {:induction false} PicksNone(at: seq<nat>, n: nat, good: set<nat>)
    requires Picks(at, n, good) && forall k :: k in good ==> k < n
    ensures at != [] <==> good != {}
  {
    if at != [] {
      assert at[0] in at;
    }
    if k :| k in good {
      assert k in at;
    }
  }

  lemma {:induction false} StepIsExact(norm: Norm, index: Index, related: Related, step: Step)
    requires Sound(index)
    ensures var kept := GroundStep(norm, Narrow(index, related), step);
      && (kept.Some? <==> Lives(norm, index, related, step))
      && (kept.Some? ==> Becomes(norm, index, related, step, kept.value))
  {
    var narrow := Narrow(index, related);
    AnchorsAreExact(norm, index, related, step.anchors);
    NoneKept(norm, index, related, step.anchors, ResolvedAnchors(norm, narrow, step.anchors));
    assert "" !in Of(index, Entity) && "" !in Of(index, Event);
    assert narrow.entity == Usable(index.entity, related.ids.entity, related.linked);
    assert narrow.event == Usable(index.event, related.ids.event, related.linked);
    RefsAreExact(norm, narrow.entity, step.readIds);
    RefsAreExact(norm, narrow.entity, step.writeIds);
    RefsAreExact(norm, narrow.event, step.emitIds);
  }

  /** The positions of the living steps. */
  ghost function Living(norm: Norm, index: Index, related: Related, steps: seq<Step>): set<nat> {
    set k: nat | k < |steps| && Lives(norm, index, related, steps[k])
  }

  lemma {:induction false} StepsSnoc(norm: Norm, index: Index, steps: seq<Step>, step: Step)
    ensures GroundSteps(norm, index, steps + [step]) ==
      GroundSteps(norm, index, steps) + (match GroundStep(norm, index, step) case None => [] case Some(kept) => [kept])
    decreases |steps|
  {
    if steps == [] {
      assert [] + [step] == [step] && [step][1..] == [];
    } else {
      assert (steps + [step])[1..] == steps[1..] + [step];
      StepsSnoc(norm, index, steps[1..], step);
    }
  }

  /** The steps that come out are the living ones in their order, each with what is good of it. */
  ghost predicate KeepsLiving(norm: Norm, index: Index, related: Related, steps: seq<Step>, kept: seq<Step>, at: seq<nat>, n: nat)
    requires n <= |steps|
  {
    && Picks(at, n, Living(norm, index, related, steps)) && |at| == |kept|
    && forall j :: 0 <= j < |at| ==> at[j] < |steps| && Becomes(norm, index, related, steps[at[j]], kept[j])
  }

  lemma {:induction false} LivingNext(norm: Norm, index: Index, related: Related, steps: seq<Step>, kept: seq<Step>, at: seq<nat>, n: nat, own: Option<Step>)
    returns (next: seq<nat>)
    requires n < |steps| && KeepsLiving(norm, index, related, steps, kept, at, n)
    requires own.Some? <==> Lives(norm, index, related, steps[n])
    requires own.Some? ==> Becomes(norm, index, related, steps[n], own.value)
    ensures KeepsLiving(norm, index, related, steps, kept + (if own.Some? then [own.value] else []), next, n + 1)
  {
    next := PickNext(at, n, Living(norm, index, related, steps));
  }

  lemma {:induction false} StepsPicked(norm: Norm, index: Index, related: Related, steps: seq<Step>, n: nat) returns (at: seq<nat>)
    requires Sound(index) && n <= |steps|
    ensures KeepsLiving(norm, index, related, steps, GroundSteps(norm, Narrow(index, related), steps[..n]), at, n)
  {
    if n == 0 {
      at := [];
    } else {
      var before := StepsPicked(norm, index, related, steps, n - 1);
      var kept, own := GroundSteps(norm, Narrow(index, related), steps[..n - 1]), GroundStep(norm, Narrow(index, related), steps[n - 1]);
      assert steps[..n] == steps[..n - 1] + [steps[n - 1]];
      StepsSnoc(norm, Narrow(index, related), steps[..n - 1], steps[n - 1]);
      StepIsExact(norm, index, related, steps[n - 1]);
      at := LivingNext(norm, index, related, steps, kept, before, n - 1, own);
    }
  }

  /** A phase is grounded exactly if an anchor of its own is good and some proposed step
      lives; it then holds its good anchors and the living steps, in their order, each with
      exactly what is good of it. */
  lemma {:induction false} PhaseIsExact(norm: Norm, index: Index, related: Related, phase: Phase, steps: seq<Step>)
    requires Sound(index)
    ensures var kept := GroundPhase(norm, Narrow(index, related), phase, steps);
      && (kept.Some? <==>
            Goods(norm, index, related, phase.anchors) != {} && Living(norm, index, related, steps) != {})
      && (kept.Some? ==>
            && kept.value.id == phase.id && KeepsGood(norm, index, related, phase.anchors, kept.value.anchors)
            && exists at :: KeepsLiving(norm, index, related, steps, kept.value.steps, at, |steps|))
  {
    var narrow := Narrow(index, related);
    AnchorsAreExact(norm, index, related, phase.anchors);
    NoneKept(norm, index, related, phase.anchors, ResolvedAnchors(norm, narrow, phase.anchors));
    var at := StepsPicked(norm, index, related, steps, |steps|);
    assert steps[..|steps|] == steps;
    PicksNone(at, |steps|, Living(norm, index, related, steps));
  }

  // ---- why something is refused -------------------------------------------

  /** `a` is cited under that reason. */
  ghost predicate CitedFor(entries: seq<Unresolved>, reason: Reason, a: Anchor) {
    exists k :: 0 <= k < |entries| && entries[k].reason == reason && a in entries[k].cited
  }

  /** What a step reads and writes is cited as an entity, what it emits as an event. */
  predicate RefersTo(step: Step, a: Anchor) {
    (a.kind == Entity && (a.id in step.readIds || a.id in step.writeIds)) || (a.kind == Event && a.id in step.emitIds)
  }

  lemma {:induction false} RefsAre(step: Step, a: Anchor)
    ensures a in Refs(step) <==> RefersTo(step, a)
  {
    var x, y, z := AsAnchors(Entity, step.readIds), AsAnchors(Entity, step.writeIds), AsAnchors(Event, step.emitIds);
    assert a in Refs(step) <==> a in x || a in y || a in z;
    AsAnchorsHas(Entity, step.readIds, a);
    AsAnchorsHas(Entity, step.writeIds, a);
    AsAnchorsHas(Event, step.emitIds, a);
  }

  lemma {:induction false} AsAnchorsHas(kind: Kind, ids: seq<string>, a: Anchor)
    ensures a in AsAnchors(kind, ids) <==> a.kind == kind && a.id in ids
  {
    if a.kind == kind && a.id in ids {
      var i :| 0 <= i < |ids| && ids[i] == a.id;
      assert AsAnchors(kind, ids)[i] == a;
    }
  }

  predicate Exists(norm: Norm, index: Index, a: Anchor) {
    match a.kind
    case Entity => norm(a.id) in index.entity
    case Action => norm(a.id) in index.action
    case Rule => norm(a.id) in index.rule
    case Event => norm(a.id) in index.event
  }

  /** What the account says of `a`: it dies with its step, it does not exist, or it exists
      without being related.  An anchor of a dead step is not a refused reference. */
  ghost predicate Explained(norm: Norm, index: Index, related: Related, step: Step, entries: seq<Unresolved>, a: Anchor) {
    var lives := exists b :: b in step.anchors && Good(norm, index, related, b);
    var refers := RefersTo(step, a) || (lives && a in step.anchors);
    && (CitedFor(entries, WholeStep, a) <==> !lives && a in step.anchors)
    && (CitedFor(entries, Invented, a) <==> refers && !Exists(norm, index, a))
    && (CitedFor(entries, Laundered, a) <==> refers && Exists(norm, index, a) && !Good(norm, index, related, a))
  }

  lemma {:induction false} ReasonJoin(x: seq<Unresolved>, y: seq<Unresolved>, reason: Reason, a: Anchor)
    ensures CitedFor(x + y, reason, a) <==> CitedFor(x, reason, a) || CitedFor(y, reason, a)
  {
    var all := x + y;
    if CitedFor(x, reason, a) {
      var k :| 0 <= k < |x| && x[k].reason == reason && a in x[k].cited;
      assert all[k] == x[k];
    }
    if CitedFor(y, reason, a) {
      var k :| 0 <= k < |y| && y[k].reason == reason && a in y[k].cited;
      assert all[|x| + k] == y[k];
    }
  }

  lemma {:induction false} OneReason(name: string, given: Reason, cited: seq<Anchor>, reason: Reason, a: Anchor)
    ensures CitedFor(Entry(name, given, cited), reason, a) <==> reason == given && a in cited
    ensures CitedFor([Unresolved(name, given, cited)], reason, a) <==> reason == given && a in cited
  {
    var one := [Unresolved(name, given, cited)];
    if reason == given && a in cited {
      assert one[0].reason == reason && a in one[0].cited;
    }
  }

  lemma {:induction false} ReasonsOf(whole: seq<Unresolved>, name: string, rejected: seq<Anchor>, unrelated: seq<Anchor>, reason: Reason, a: Anchor)
    ensures CitedFor(whole + Entry(name, Invented, rejected) + Entry(name, Laundered, unrelated), reason, a) <==>
      CitedFor(whole, reason, a) || (reason == Invented && a in rejected) || (reason == Laundered && a in unrelated)
  {
    ReasonJoin(whole + Entry(name, Invented, rejected), Entry(name, Laundered, unrelated), reason, a);
    ReasonJoin(whole, Entry(name, Invented, rejected), reason, a);
    OneReason(name, Invented, rejected, reason, a);
    OneReason(name, Laundered, unrelated, reason, a);
  }

  /** What of a list is refused for which reason. */
  lemma {:induction false} ListReasons(norm: Norm, index: Index, related: Related, anchors: seq<Anchor>, a: Anchor)
    ensures a in WithFate(norm, index, related, anchors, Nonexistent) <==> a in anchors && !Exists(norm, index, a)
    ensures a in WithFate(norm, index, related, anchors, Unrelated) <==>
      a in anchors && Exists(norm, index, a) && !Good(norm, index, related, a)
    ensures WithFate(norm, index, related, anchors, Adopted) != [] <==> exists b :: b in anchors && Good(norm, index, related, b)
  {
    FateHas(norm, index, related, anchors, Nonexistent);
    FateHas(norm, index, related, anchors, Unrelated);
    FateHas(norm, index, related, anchors, Adopted);
    var adopted := WithFate(norm, index, related, anchors, Adopted);
    if adopted != [] {
      assert adopted[0] in adopted;
    }
  }

  /** Every refused citation of a step is in its account under its own reason. */
  lemma {:induction false} ReasonsAreExact(norm: Norm, index: Index, related: Related, step: Step, a: Anchor)
    ensures Explained(norm, index, related, step, AccountFor(norm, index, related, step).unresolved, a)
  {
    var invented := WithFate(norm, index, related, step.anchors, Nonexistent);
    var laundered := WithFate(norm, index, related, step.anchors, Unrelated);
    var alive := WithFate(norm, index, related, step.anchors, Adopted) != [];
    var rejected := (if alive then invented else []) + WithFate(norm, index, related, Refs(step), Nonexistent);
    var unrelated := (if alive then laundered else []) + WithFate(norm, index, related, Refs(step), Unrelated);
    var whole := if alive then [] else [Unresolved(step.name, WholeStep, invented + laundered)];
    ListReasons(norm, index, related, step.anchors, a);
    ListReasons(norm, index, related, Refs(step), a);
    RefsAre(step, a);
    ReasonsOf(whole, step.name, rejected, unrelated, WholeStep, a);
    ReasonsOf(whole, step.name, rejected, unrelated, Invented, a);
    ReasonsOf(whole, step.name, rejected, unrelated, Laundered, a);
    OneReason(step.name, WholeStep, invented + laundered, WholeStep, a);
    OneReason(step.name, WholeStep, invented + laundered, Invented, a);
    OneReason(step.name, WholeStep, invented + laundered, Laundered, a);
  }

  // ---- what the counters count --------------------------------------------

  /** The citations under one reason, counted. */
  function Cited(entries: seq<Unresolved>, reason: Reason): nat {
    if entries == [] then 0
    else (if entries[0].reason == reason then |entries[0].cited| else 0) + Cited(entries[1..], reason)
  }

  lemma {:induction false} CitedJoin(x: seq<Unresolved>, y: seq<Unresolved>, reason: Reason)
    ensures Cited(x + y, reason) == Cited(x, reason) + Cited(y, reason)
    decreases |x|
  {
    if x == [] {
      assert x + y == y;
    } else {
      assert (x + y)[1..] == x[1..] + y;
      CitedJoin(x[1..], y, reason);
    }
  }

  lemma {:induction false} StepCounts(norm: Norm, index: Index, related: Related, step: Step)
    ensures var account := AccountFor(norm, index, related, step);
      account.rejected == Cited(account.unresolved, Invented) && account.unrelated == Cited(account.unresolved, Laundered)
  {
    var account := AccountFor(norm, index, related, step);
    var invented := WithFate(norm, index, related, step.anchors, Nonexistent);
    var laundered := WithFate(norm, index, related, step.anchors, Unrelated);
    var alive := WithFate(norm, index, related, step.anchors, Adopted) != [];
    var rejected := (if alive then invented else []) + WithFate(norm, index, related, Refs(step), Nonexistent);
    var unrelated := (if alive then laundered else []) + WithFate(norm, index, related, Refs(step), Unrelated);
    var whole := if alive then [] else [Unresolved(step.name, WholeStep, invented + laundered)];
    EntriesCount(whole, step.name, rejected, unrelated);
  }

  lemma {:induction false} EntriesCount(whole: seq<Unresolved>, name: string, rejected: seq<Anchor>, unrelated: seq<Anchor>)
    requires |whole| <= 1 && forall i :: 0 <= i < |whole| ==> whole[i].reason == WholeStep
    ensures var all := whole + Entry(name, Invented, rejected) + Entry(name, Laundered, unrelated);
      Cited(all, Invented) == |rejected| && Cited(all, Laundered) == |unrelated|
  {
    var first := whole + Entry(name, Invented, rejected);
    CitedJoin(first, Entry(name, Laundered, unrelated), Invented);
    CitedJoin(first, Entry(name, Laundered, unrelated), Laundered);
    CitedJoin(whole, Entry(name, Invented, rejected), Invented);
    CitedJoin(whole, Entry(name, Invented, rejected), Laundered);
  }

  /** The two counters of a phase count the citations in the entries of their reason. */
  lemma {:induction false} CountersAreExact(norm: Norm, index: Index, related: Related, steps: seq<Step>)
    ensures var account := AccountAll(norm, index, related, steps);
      account.rejected == Cited(account.unresolved, Invented) && account.unrelated == Cited(account.unresolved, Laundered)
    decreases |steps|
  {
    if steps != [] {
      var before := AccountAll(norm, index, related, steps[..|steps| - 1]);
      var last := AccountFor(norm, index, related, steps[|steps| - 1]);
      CountersAreExact(norm, index, related, steps[..|steps| - 1]);
      StepCounts(norm, index, related, steps[|steps| - 1]);
      CitedJoin(before.unresolved, last.unresolved, Invented);
      CitedJoin(before.unresolved, last.unresolved, Laundered);
    }
  }
}

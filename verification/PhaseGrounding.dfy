/** Grounding one reasoned phase: what the model cites is adopted only if the ontology
    has it and relates it to the phase, and whatever is refused is written down. */
module PhaseGrounding {
  import opened SandboxTypes

  datatype Kind = Entity | Action | Rule | Event

  datatype Anchor = Anchor(kind: Kind, id: string)

  /** A proposed step; its rules have already become anchors. */
  datatype Step = Step(name: string, readIds: seq<string>, writeIds: seq<string>, emitIds: seq<string>, anchors: seq<Anchor>)

  datatype Phase = Phase(id: string, anchors: seq<Anchor>, steps: seq<Step>)

  /** The identifiers of an ontology, by kind, in normal form. */
  datatype Index = Index(entity: set<string>, action: set<string>, rule: set<string>, event: set<string>)

  /** What a phase may cite: by kind, and by a reviewed link whatever the kind. */
  datatype Related = Related(ids: Index, linked: set<string>)

  type Norm = string -> string

  function Of(index: Index, kind: Kind): set<string> {
    match kind
    case Entity => index.entity
    case Action => index.action
    case Rule => index.rule
    case Event => index.event
  }

  /** Every listed identifier is non-empty. */
  predicate Sound(index: Index) {
    forall kind :: "" !in Of(index, kind)
  }

  predicate ResolvedIn(norm: Norm, index: Index, a: Anchor) {
    norm(a.id) in Of(index, a.kind)
  }

  predicate RelatedIn(norm: Norm, related: Related, a: Anchor) {
    norm(a.id) in Of(related.ids, a.kind) || norm(a.id) in related.linked
  }

  /** What may be adopted. */
  predicate Citable(norm: Norm, index: Index, related: Related, a: Anchor) {
    ResolvedIn(norm, index, a) && RelatedIn(norm, related, a)
  }

  function Narrowed(ids: set<string>, own: set<string>, linked: set<string>): set<string> {
    set id | id in ids && (id in own || id in linked)
  }

  function Narrow(index: Index, related: Related): Index {
    Index(Narrowed(index.entity, related.ids.entity, related.linked), Narrowed(index.action, related.ids.action, related.linked),
          Narrowed(index.rule, related.ids.rule, related.linked), Narrowed(index.event, related.ids.event, related.linked))
  }

  // ---- the grounder -------------------------------------------------------

  predicate AnchorResolves(norm: Norm, index: Index, a: Anchor) {
    norm(a.id) != "" && norm(a.id) in Of(index, a.kind)
  }

  function ResolvedAnchors(norm: Norm, index: Index, anchors: seq<Anchor>): seq<Anchor> {
    if anchors == [] then []
    else (if AnchorResolves(norm, index, anchors[0]) then [anchors[0]] else []) + ResolvedAnchors(norm, index, anchors[1..])
  }

  /** The values that are in the index, normalised, each once, in order. */
  function GroundRefs(norm: Norm, ids: set<string>, values: seq<string>): (r: seq<string>) {
    if values == [] then []
    else
      var before := GroundRefs(norm, ids, values[..|values| - 1]);
      var id := norm(values[|values| - 1]);
      if id != "" && id in ids && id !in before then before + [id] else before
  }

  function GroundStep(norm: Norm, index: Index, step: Step): Option<Step> {
    var anchors := ResolvedAnchors(norm, index, step.anchors);
    if anchors == [] then None
    else Some(Step(step.name, GroundRefs(norm, index.entity, step.readIds), GroundRefs(norm, index.entity, step.writeIds),
                   GroundRefs(norm, index.event, step.emitIds), anchors))
  }

  function GroundSteps(norm: Norm, index: Index, steps: seq<Step>): seq<Step> {
    if steps == [] then []
    else (match GroundStep(norm, index, steps[0]) case None => [] case Some(step) => [step]) + GroundSteps(norm, index, steps[1..])
  }

  /** A phase needs an anchor and a step of its own that resolve. */
  function GroundPhase(norm: Norm, index: Index, phase: Phase, steps: seq<Step>): Option<Phase> {
    var anchors := ResolvedAnchors(norm, index, phase.anchors);
    var grounded := GroundSteps(norm, index, steps);
    if anchors == [] || grounded == [] then None else Some(Phase(phase.id, anchors, grounded))
  }

  // ---- the accounting -----------------------------------------------------

  datatype Fate = Nonexistent | Unrelated | Adopted

  function FateOf(norm: Norm, index: Index, related: Related, a: Anchor): Fate {
    if !ResolvedIn(norm, index, a) then Nonexistent else if !RelatedIn(norm, related, a) then Unrelated else Adopted
  }

  function WithFate(norm: Norm, index: Index, related: Related, anchors: seq<Anchor>, fate: Fate): seq<Anchor> {
    if anchors == [] then []
    else
      (if FateOf(norm, index, related, anchors[0]) == fate then [anchors[0]] else [])
      + WithFate(norm, index, related, anchors[1..], fate)
  }

  function AsAnchors(kind: Kind, ids: seq<string>): (r: seq<Anchor>)
    ensures |r| == |ids| && forall i :: 0 <= i < |r| ==> r[i] == Anchor(kind, ids[i])
  {
    seq(|ids|, i requires 0 <= i < |ids| => Anchor(kind, ids[i]))
  }

  /** Everything a step reads, writes and emits, as citations. */
  function Refs(step: Step): seq<Anchor> {
    AsAnchors(Entity, step.readIds) + AsAnchors(Entity, step.writeIds) + AsAnchors(Event, step.emitIds)
  }

  datatype Reason = WholeStep | Invented | Laundered

  datatype Unresolved = Unresolved(name: string, reason: Reason, cited: seq<Anchor>)

  datatype Account = Account(unresolved: seq<Unresolved>, rejected: nat, unrelated: nat)

  function Entry(name: string, reason: Reason, cited: seq<Anchor>): seq<Unresolved> {
    if cited == [] then [] else [Unresolved(name, reason, cited)]
  }

  /** What one step adds to the account. */
  function AccountFor(norm: Norm, index: Index, related: Related, step: Step): Account {
    var invented := WithFate(norm, index, related, step.anchors, Nonexistent);
    var laundered := WithFate(norm, index, related, step.anchors, Unrelated);
    var alive := WithFate(norm, index, related, step.anchors, Adopted) != [];
    var rejected := (if alive then invented else []) + WithFate(norm, index, related, Refs(step), Nonexistent);
    var unrelated := (if alive then laundered else []) + WithFate(norm, index, related, Refs(step), Unrelated);
    Account((if alive then [] else [Unresolved(step.name, WholeStep, invented + laundered)])
              + Entry(step.name, Invented, rejected) + Entry(step.name, Laundered, unrelated),
            |rejected|, |unrelated|)
  }

  function Sum(x: Account, y: Account): Account {
    Account(x.unresolved + y.unresolved, x.rejected + y.rejected, x.unrelated + y.unrelated)
  }

  function AccountAll(norm: Norm, index: Index, related: Related, steps: seq<Step>): Account {
    if steps == [] then Account([], 0, 0)
    else Sum(AccountAll(norm, index, related, steps[..|steps| - 1]), AccountFor(norm, index, related, steps[|steps| - 1]))
  }

  // ---- nothing is laundered -----------------------------------------------

  lemma {:induction false} NarrowIsCitable(norm: Norm, index: Index, related: Related, a: Anchor)
    requires Sound(index)
    ensures AnchorResolves(norm, Narrow(index, related), a) <==> Citable(norm, index, related, a)
  {
  }

  lemma {:induction false} ResolvedAreAdopted(norm: Norm, index: Index, related: Related, anchors: seq<Anchor>)
    requires Sound(index)
    ensures ResolvedAnchors(norm, Narrow(index, related), anchors) == WithFate(norm, index, related, anchors, Adopted)
    decreases |anchors|
  {
    if anchors != [] {
      NarrowIsCitable(norm, index, related, anchors[0]);
      ResolvedAreAdopted(norm, index, related, anchors[1..]);
    }
  }

  lemma {:induction false} FateHas(norm: Norm, index: Index, related: Related, anchors: seq<Anchor>, fate: Fate)
    ensures forall a :: a in WithFate(norm, index, related, anchors, fate) <==> a in anchors && FateOf(norm, index, related, a) == fate
    decreases |anchors|
  {
    if anchors != [] {
      FateHas(norm, index, related, anchors[1..], fate);
      assert anchors == [anchors[0]] + anchors[1..];
    }
  }

  lemma {:induction false} RefsHas(norm: Norm, ids: set<string>, values: seq<string>)
    ensures forall id :: id in GroundRefs(norm, ids, values) <==> id != "" && id in ids && exists v :: v in values && norm(v) == id
    ensures forall i, j :: 0 <= i < j < |GroundRefs(norm, ids, values)| ==> GroundRefs(norm, ids, values)[i] != GroundRefs(norm, ids, values)[j]
    decreases |values|
  {
    if values != [] {
      var rest, last := values[..|values| - 1], values[|values| - 1];
      RefsHas(norm, ids, rest);
      assert values == rest + [last];
      var r := GroundRefs(norm, ids, values);
      forall id | id in r
        ensures id != "" && id in ids && exists v :: v in values && norm(v) == id
      {
        if id in GroundRefs(norm, ids, rest) {
          var v :| v in rest && norm(v) == id;
          assert v in values;
        } else {
          assert last in values;
        }
      }
    }
  }

  /** A reference that a phase may carry: in the ontology for its kind, and related. */
  predicate Allowed(index: Index, related: Related, kind: Kind, id: string) {
    id in Of(index, kind) && (id in Of(related.ids, kind) || id in related.linked)
  }

  ghost predicate Honest(norm: Norm, index: Index, related: Related, step: Step) {
    && step.anchors != [] && (forall a :: a in step.anchors ==> Citable(norm, index, related, a))
    && (forall id :: id in step.readIds ==> Allowed(index, related, Entity, id))
    && (forall id :: id in step.writeIds ==> Allowed(index, related, Entity, id))
    && (forall id :: id in step.emitIds ==> Allowed(index, related, Event, id))
  }

  lemma {:induction false} GroundedIsHonest(norm: Norm, index: Index, related: Related, step: Step)
    requires Sound(index) && GroundStep(norm, Narrow(index, related), step).Some?
    ensures Honest(norm, index, related, GroundStep(norm, Narrow(index, related), step).value)
  {
    var narrow := Narrow(index, related);
    ResolvedAreAdopted(norm, index, related, step.anchors);
    FateHas(norm, index, related, step.anchors, Adopted);
    RefsHas(norm, narrow.entity, step.readIds);
    RefsHas(norm, narrow.entity, step.writeIds);
    RefsHas(norm, narrow.event, step.emitIds);
  }

  /** Nothing in a grounded phase is invented or borrowed from elsewhere in the ontology. */
  lemma {:induction false} NothingLaundered(norm: Norm, index: Index, related: Related, steps: seq<Step>)
    requires Sound(index)
    ensures forall k :: 0 <= k < |GroundSteps(norm, Narrow(index, related), steps)| ==>
      Honest(norm, index, related, GroundSteps(norm, Narrow(index, related), steps)[k])
    decreases |steps|
  {
    if steps != [] {
      NothingLaundered(norm, index, related, steps[1..]);
      if GroundStep(norm, Narrow(index, related), steps[0]).Some? {
        GroundedIsHonest(norm, index, related, steps[0]);
      }
    }
  }

  // ---- nothing is dropped in silence --------------------------------------

  lemma {:induction false} HeadCount(x: seq<Anchor>, a: Anchor)
    requires x != []
    ensures multiset(x)[a] == (if x[0] == a then 1 else 0) + multiset(x[1..])[a]
  {
    assert x == [x[0]] + x[1..];
  }

  lemma {:induction false} FateHead(norm: Norm, index: Index, related: Related, anchors: seq<Anchor>, fate: Fate, a: Anchor)
    requires anchors != []
    ensures multiset(WithFate(norm, index, related, anchors, fate))[a] ==
      (if FateOf(norm, index, related, anchors[0]) == fate && anchors[0] == a then 1 else 0)
      + multiset(WithFate(norm, index, related, anchors[1..], fate))[a]
  {
  }

  /** Every citation has one fate: each occurrence of `a` is in exactly one of the lists. */
  lemma {:induction false} FatesPartition(norm: Norm, index: Index, related: Related, anchors: seq<Anchor>, a: Anchor)
    ensures multiset(anchors)[a] == multiset(WithFate(norm, index, related, anchors, Nonexistent))[a]
      + multiset(WithFate(norm, index, related, anchors, Unrelated))[a] + multiset(WithFate(norm, index, related, anchors, Adopted))[a]
    decreases |anchors|
  {
    if anchors != [] {
      FatesPartition(norm, index, related, anchors[1..], a);
      FateHead(norm, index, related, anchors, Nonexistent, a);
      FateHead(norm, index, related, anchors, Unrelated, a);
      FateHead(norm, index, related, anchors, Adopted, a);
      HeadCount(anchors, a);
    }
  }

  /** `a` is written down in the entries. */
  ghost predicate CitedIn(entries: seq<Unresolved>, a: Anchor) {
    exists k :: 0 <= k < |entries| && a in entries[k].cited
  }

  ghost predicate HasWhole(entries: seq<Unresolved>) {
    exists k :: 0 <= k < |entries| && entries[k].reason == WholeStep
  }

  lemma {:induction false} EntriesJoin(x: seq<Unresolved>, y: seq<Unresolved>)
    ensures forall a :: CitedIn(x + y, a) <==> CitedIn(x, a) || CitedIn(y, a)
    ensures HasWhole(x + y) <==> HasWhole(x) || HasWhole(y)
  {
    var all := x + y;
    assert forall k :: 0 <= k < |x| ==> all[k] == x[k];
    assert forall k :: 0 <= k < |y| ==> all[|x| + k] == y[k];
    forall a
      ensures CitedIn(all, a) <==> CitedIn(x, a) || CitedIn(y, a)
    {
      if CitedIn(x, a) {
        var k :| 0 <= k < |x| && a in x[k].cited;
        assert a in all[k].cited;
      }
      if CitedIn(y, a) {
        var k :| 0 <= k < |y| && a in y[k].cited;
        assert a in all[|x| + k].cited;
      }
    }
  }

  lemma {:induction false} EntryCites(name: string, reason: Reason, cited: seq<Anchor>)
    ensures forall a :: CitedIn(Entry(name, reason, cited), a) <==> a in cited
    ensures reason != WholeStep ==> !HasWhole(Entry(name, reason, cited))
  {
    forall a | a in cited
      ensures CitedIn(Entry(name, reason, cited), a)
    {
      assert a in Entry(name, reason, cited)[0].cited;
    }
  }

  lemma {:induction false} WholeCites(name: string, cited: seq<Anchor>)
    ensures forall a :: CitedIn([Unresolved(name, WholeStep, cited)], a) <==> a in cited
    ensures HasWhole([Unresolved(name, WholeStep, cited)])
  {
    var one := [Unresolved(name, WholeStep, cited)];
    assert one[0].reason == WholeStep;
    forall a | a in cited
      ensures CitedIn(one, a)
    {
      assert a in one[0].cited;
    }
  }

  /** Refused: not in the ontology, or not related to the phase. */
  ghost predicate Refused(norm: Norm, index: Index, related: Related, anchors: seq<Anchor>, a: Anchor) {
    a in anchors && !Citable(norm, index, related, a)
  }

  lemma {:induction false} RefusedAre(norm: Norm, index: Index, related: Related, anchors: seq<Anchor>)
    ensures forall a :: Refused(norm, index, related, anchors, a) <==>
      a in WithFate(norm, index, related, anchors, Nonexistent) || a in WithFate(norm, index, related, anchors, Unrelated)
  {
    FateHas(norm, index, related, anchors, Nonexistent);
    FateHas(norm, index, related, anchors, Unrelated);
  }

  /** The grounder and the account agree on which steps die: those without a citable
      anchor. */
  lemma {:induction false} DeadStepsAgree(norm: Norm, index: Index, related: Related, step: Step)
    requires Sound(index)
    ensures var alive := GroundStep(norm, Narrow(index, related), step).Some?;
      && (alive <==> WithFate(norm, index, related, step.anchors, Adopted) != [])
      && (alive <==> exists a :: a in step.anchors && Citable(norm, index, related, a))
  {
    ResolvedAreAdopted(norm, index, related, step.anchors);
    FateHas(norm, index, related, step.anchors, Adopted);
    var adopted := WithFate(norm, index, related, step.anchors, Adopted);
    if adopted != [] {
      assert adopted[0] in adopted;
    }
  }

  /** The account of a step records exactly what is refused: nothing is dropped in
      silence, and nothing adopted is complained about. */
  lemma {:induction false} RefusedIsRecorded(norm: Norm, index: Index, related: Related, step: Step)
    ensures var entries := AccountFor(norm, index, related, step).unresolved;
      && (forall a :: CitedIn(entries, a) <==> Refused(norm, index, related, step.anchors, a) || Refused(norm, index, related, Refs(step), a))
      && (HasWhole(entries) <==> WithFate(norm, index, related, step.anchors, Adopted) == [])
  {
    var invented := WithFate(norm, index, related, step.anchors, Nonexistent);
    var laundered := WithFate(norm, index, related, step.anchors, Unrelated);
    var alive := WithFate(norm, index, related, step.anchors, Adopted) != [];
    var rejected := (if alive then invented else []) + WithFate(norm, index, related, Refs(step), Nonexistent);
    var unrelated := (if alive then laundered else []) + WithFate(norm, index, related, Refs(step), Unrelated);
    var whole := if alive then [] else [Unresolved(step.name, WholeStep, invented + laundered)];
    var second := Entry(step.name, Invented, rejected);
    var third := Entry(step.name, Laundered, unrelated);
    RefusedAre(norm, index, related, step.anchors);
    RefusedAre(norm, index, related, Refs(step));
    WholeCites(step.name, invented + laundered);
    EntryCites(step.name, Invented, rejected);
    EntryCites(step.name, Laundered, unrelated);
    EntriesJoin(whole, second);
    EntriesJoin(whole + second, third);
  }

  /** For a step that lives, what is refused and what is adopted add up to what it cited. */
  lemma {:induction false} CountsAddUp(norm: Norm, index: Index, related: Related, step: Step)
    requires WithFate(norm, index, related, step.anchors, Adopted) != []
    ensures var account := AccountFor(norm, index, related, step);
      account.rejected + account.unrelated
        + |WithFate(norm, index, related, step.anchors, Adopted)| + |WithFate(norm, index, related, Refs(step), Adopted)|
      == |step.anchors| + |Refs(step)|
  {
    FatesCount(norm, index, related, step.anchors);
    FatesCount(norm, index, related, Refs(step));
  }

  lemma {:induction false} FatesCount(norm: Norm, index: Index, related: Related, anchors: seq<Anchor>)
    ensures |anchors| == |WithFate(norm, index, related, anchors, Nonexistent)| + |WithFate(norm, index, related, anchors, Unrelated)|
      + |WithFate(norm, index, related, anchors, Adopted)|
    decreases |anchors|
  {
    if anchors != [] {
      FatesCount(norm, index, related, anchors[1..]);
    }
  }

  // ---- all steps ----------------------------------------------------------

  /** Some step cites `a`, and it is refused. */
  ghost predicate RefusedSomewhere(norm: Norm, index: Index, related: Related, steps: seq<Step>, a: Anchor) {
    exists k :: 0 <= k < |steps| && (Refused(norm, index, related, steps[k].anchors, a) || Refused(norm, index, related, Refs(steps[k]), a))
  }

  lemma {:induction false} SomewhereSnoc(norm: Norm, index: Index, related: Related, steps: seq<Step>, a: Anchor)
    requires steps != []
    ensures var last := |steps| - 1;
      RefusedSomewhere(norm, index, related, steps, a) <==>
        RefusedSomewhere(norm, index, related, steps[..last], a)
        || Refused(norm, index, related, steps[last].anchors, a) || Refused(norm, index, related, Refs(steps[last]), a)
  {
  }

  /** The account of the phase is complete and has nothing else in it. */
  lemma {:induction false} AccountIsExact(norm: Norm, index: Index, related: Related, steps: seq<Step>, a: Anchor)
    ensures CitedIn(AccountAll(norm, index, related, steps).unresolved, a) <==> RefusedSomewhere(norm, index, related, steps, a)
    decreases |steps|
  {
    if steps != [] {
      var last := |steps| - 1;
      AccountIsExact(norm, index, related, steps[..last], a);
      RefusedIsRecorded(norm, index, related, steps[last]);
      EntriesJoin(AccountAll(norm, index, related, steps[..last]).unresolved, AccountFor(norm, index, related, steps[last]).unresolved);
      SomewhereSnoc(norm, index, related, steps, a);
    }
  }

  // ---- the program --------------------------------------------------------

  datatype Result = Result(phase: Phase, account: Account, grounded: nat)

  lemma {:induction false} FateSnoc(norm: Norm, index: Index, related: Related, anchors: seq<Anchor>, a: Anchor, fate: Fate)
    ensures WithFate(norm, index, related, anchors + [a], fate) ==
      WithFate(norm, index, related, anchors, fate) + (if FateOf(norm, index, related, a) == fate then [a] else [])
    decreases |anchors|
  {
    if anchors == [] {
      assert [] + [a] == [a] && [a][1..] == [];
    } else {
      assert (anchors + [a])[1..] == anchors[1..] + [a];
      FateSnoc(norm, index, related, anchors[1..], a, fate);
    }
  }

  /** One pass over the anchors of a step. */
  method Sort(norm: Norm, index: Index, related: Related, anchors: seq<Anchor>)
    returns (nonexistent: seq<Anchor>, unrelated: seq<Anchor>, adopted: seq<Anchor>)
    ensures nonexistent == WithFate(norm, index, related, anchors, Nonexistent)
    ensures unrelated == WithFate(norm, index, related, anchors, Unrelated)
    ensures adopted == WithFate(norm, index, related, anchors, Adopted)
  {
    nonexistent, unrelated, adopted := [], [], [];
    for i := 0 to |anchors|
      invariant nonexistent == WithFate(norm, index, related, anchors[..i], Nonexistent)
      invariant unrelated == WithFate(norm, index, related, anchors[..i], Unrelated)
      invariant adopted == WithFate(norm, index, related, anchors[..i], Adopted)
    {
      var a := anchors[i];
      assert anchors[..i + 1] == anchors[..i] + [a];
      FateSnoc(norm, index, related, anchors[..i], a, Nonexistent);
      FateSnoc(norm, index, related, anchors[..i], a, Unrelated);
      FateSnoc(norm, index, related, anchors[..i], a, Adopted);
      if norm(a.id) !in Of(index, a.kind) {
        nonexistent := nonexistent + [a];
      } else if norm(a.id) !in Of(related.ids, a.kind) && norm(a.id) !in related.linked {
        unrelated := unrelated + [a];
      } else {
        adopted := adopted + [a];
      }
    }
    assert anchors[..|anchors|] == anchors;
  }

  method AccountStep(norm: Norm, index: Index, related: Related, step: Step) returns (account: Account)
    ensures account == AccountFor(norm, index, related, step)
  {
    var invented, laundered, adopted := Sort(norm, index, related, step.anchors);
    var inventedRefs, launderedRefs, _ := Sort(norm, index, related, Refs(step));
    var unresolved: seq<Unresolved> := [];
    if adopted == [] {
      unresolved := [Unresolved(step.name, WholeStep, invented + laundered)];
    }
    var rejected := (if adopted == [] then [] else invented) + inventedRefs;
    var unrelated := (if adopted == [] then [] else laundered) + launderedRefs;
    if rejected != [] {
      unresolved := unresolved + [Unresolved(step.name, Invented, rejected)];
    }
    if unrelated != [] {
      unresolved := unresolved + [Unresolved(step.name, Laundered, unrelated)];
    }
    account := Account(unresolved, |rejected|, |unrelated|);
  }

  /** A phase that does not ground keeps its own form and grounds nothing. */
  method GroundReasonedPhase(norm: Norm, index: Index, related: Related, phase: Phase, proposed: seq<Step>) returns (result: Result)
    ensures result.account == AccountAll(norm, index, related, proposed)
    ensures match GroundPhase(norm, Narrow(index, related), phase, proposed)
            case None => result.phase == phase && result.grounded == 0
            case Some(grounded) => result.phase == grounded && result.grounded == |grounded.steps| > 0
  {
    var grounded := GroundPhase(norm, Narrow(index, related), phase, proposed);
    var account := Account([], 0, 0);
    for i := 0 to |proposed|
      invariant account == AccountAll(norm, index, related, proposed[..i])
    {
      assert proposed[..i + 1][..i] == proposed[..i];
      var own := AccountStep(norm, index, related, proposed[i]);
      account := Account(account.unresolved + own.unresolved, account.rejected + own.rejected, account.unrelated + own.unrelated);
    }
    assert proposed[..|proposed|] == proposed;
    result := match grounded
      case None => Result(phase, account, 0)
      case Some(p) => Result(p, account, |p.steps|);
  }
}

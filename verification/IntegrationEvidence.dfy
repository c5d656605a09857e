/** What proves an integration requirement: one binding, and evidence for its exact execution
    surface. */
module IntegrationEvidence {
  import opened SandboxTypes
  import opened Distinctness
  import EvidenceBar

  datatype Requirement = Requirement(id: string, role: string, events: seq<string>)

  datatype Kind = Tool | Runtime | Event

  datatype Status = Resolved | NeedsConfig | NeedsProbe | Missing | HumanBoundary

  /** Where a binding claims to be executed. */
  datatype Ref =
    | ToolRef(toolName: string, stepIds: seq<string>)
    | RuntimeRef(providerId: string, stepIds: seq<string>)
    | EventRef(eventNames: seq<string>)

  datatype Binding = Binding(
    requirement: Requirement,
    status: Status,
    kind: Option<Kind>,
    toolName: Option<string>,
    bindingId: Option<string>,
    ref: Option<Ref>)

  datatype StepKind = ToolStep | LogicStep | OtherStep

  datatype PlanStep = PlanStep(stepId: string, kind: StepKind, tool: Option<string>, body: seq<PlanStep>)

  datatype Spec = Spec(
    short: string,
    actionName: string,
    isSubAgent: bool,
    requirements: seq<Requirement>,
    bindings: seq<Binding>,
    tools: seq<string>,
    emit: seq<string>,
    trigger: seq<string>,
    plan: seq<PlanStep>)

  datatype Action = Action(name: string, actors: seq<string>)

  datatype Role = Notify | Trigger | Consume | OtherRole

  /** What the ontology says: the requirements of an action, the reading of a role, and
      trimming, none of which the claims look into. */
  datatype Reading = Reading(derive: Action -> seq<Requirement>, role: string -> Role, trim: string -> string)

  datatype Issue = Issue(short: string, requirement: Requirement, status: Status)

  datatype Assessment = Assessment(total: nat, resolved: nat, issues: seq<Issue>)

  // ---- requirements -------------------------------------------------------

  function Place(list: seq<Requirement>, id: string): (r: Option<nat>)
    ensures r.Some? ==> r.value < |list| && list[r.value].id == id
    ensures r.None? ==> forall i :: 0 <= i < |list| ==> list[i].id != id
  {
    if list == [] then None
    else if list[0].id == id then Some(0)
    else
      match Place(list[1..], id)
      case None => None
      case Some(k) => Some(k + 1)
  }

  /** Setting a key of an insertion-ordered map. */
  function Put(list: seq<Requirement>, q: Requirement): seq<Requirement> {
    match Place(list, q.id)
    case None => list + [q]
    case Some(k) => list[k := q]
  }

  /** Setting it only where it is not there. */
  function PutNew(list: seq<Requirement>, q: Requirement): seq<Requirement> {
    if Place(list, q.id).None? then list + [q] else list
  }

  function PutAll(list: seq<Requirement>, qs: seq<Requirement>): seq<Requirement>
    decreases |qs|
  {
    if qs == [] then list else PutAll(Put(list, qs[0]), qs[1..])
  }

  function PutNewAll(list: seq<Requirement>, qs: seq<Requirement>): seq<Requirement>
    decreases |qs|
  {
    if qs == [] then list else PutNewAll(PutNew(list, qs[0]), qs[1..])
  }

  /** The last action of a name, as the map holds it. */
  function ActionOf(actions: seq<Action>, name: string): (r: Option<Action>)
    ensures r.Some? ==> r.value in actions && r.value.name == name
    ensures r.None? ==> forall a :: a in actions ==> a.name != name
    decreases |actions|
  {
    if actions == [] then None
    else
      var n := |actions| - 1;
      if actions[n].name == name then Some(actions[n]) else ActionOf(actions[..n], name)
  }

  function Derived(w: Reading, actions: seq<Action>, spec: Spec): seq<Requirement> {
    match ActionOf(actions, spec.actionName)
    case None => []
    case Some(action) => w.derive(action)
  }

  function BoundBy(bindings: seq<Binding>): (r: seq<Requirement>)
    ensures |r| == |bindings| && forall i :: 0 <= i < |r| ==> r[i] == bindings[i].requirement
  {
    seq(|bindings|, i requires 0 <= i < |bindings| => bindings[i].requirement)
  }

  /** What an agent is assessed on: the ontology first, then what it carries, then what its
      bindings name. */
  function Requirements(w: Reading, actions: seq<Action>, spec: Spec): seq<Requirement> {
    PutNewAll(PutNewAll(PutAll([], Derived(w, actions, spec)), spec.requirements), BoundBy(spec.bindings))
  }

  // ---- evidence -----------------------------------------------------------

  function Flatten(steps: seq<PlanStep>): seq<PlanStep> {
    if steps == [] then [] else [steps[0]] + Flatten(steps[0].body) + Flatten(steps[1..])
  }

  /** The last step of an id, as the map holds it. */
  function StepOf(steps: seq<PlanStep>, id: string): (r: Option<PlanStep>)
    ensures r.Some? ==> r.value in steps && r.value.stepId == id
    ensures r.None? ==> forall s :: s in steps ==> s.stepId != id
    decreases |steps|
  {
    if steps == [] then None
    else
      var n := |steps| - 1;
      if steps[n].stepId == id then Some(steps[n]) else StepOf(steps[..n], id)
  }

  /** The pieces between the commas. */
  function Split(s: string): (r: seq<string>)
    ensures |r| >= 1
  {
    if s == "" then [""]
    else if s[0] == ',' then [""] + Split(s[1..])
    else
      var rest := Split(s[1..]);
      [[s[0]] + rest[0]] + rest[1..]
  }

  function BindingsFor(bindings: seq<Binding>, id: string): (r: seq<Binding>)
    ensures forall b :: b in r <==> b in bindings && b.requirement.id == id
    decreases |bindings|
  {
    if bindings == [] then []
    else
      var n := |bindings| - 1;
      BindingsFor(bindings[..n], id) + (if bindings[n].requirement.id == id then [bindings[n]] else [])
  }

  predicate Named(s: Option<string>) {
    s.Some? && s.value != ""
  }

  predicate Given(w: Reading, s: Option<string>) {
    s.Some? && w.trim(s.value) != ""
  }

  function KindOf(b: Binding): Option<Kind> {
    if b.kind.Some? then b.kind else if Named(b.toolName) then Some(Tool) else None
  }

  function BoundEvents(w: Reading, b: Binding): seq<string> {
    EvidenceBar.NonEmpty(EvidenceBar.TrimAll(w.trim, Split(if b.bindingId.Some? then b.bindingId.value else "")))
  }

  function DeclaredEvents(w: Reading, spec: Spec, q: Requirement): seq<string> {
    match w.role(q.role)
    case Notify => spec.emit
    case Trigger => spec.trigger
    case Consume => spec.trigger
    case OtherRole => []
  }

  /** The checks on a resolved binding that come before its execution reference. */
  predicate Claims(w: Reading, spec: Spec, q: Requirement, b: Binding) {
    match KindOf(b)
    case None => false
    case Some(Tool) => Named(b.toolName) && b.toolName.value in spec.tools
    case Some(Runtime) => Given(w, b.bindingId)
    case Some(Event) =>
      && Given(w, b.bindingId) && q.events != [] && w.role(q.role) != OtherRole
      && forall i :: 0 <= i < |q.events| ==> q.events[i] in DeclaredEvents(w, spec, q) && q.events[i] in BoundEvents(w, b)
  }

  predicate StepIsTool(steps: seq<PlanStep>, id: string, tool: Option<string>) {
    var step := StepOf(steps, id);
    step.Some? && step.value.kind == ToolStep && step.value.tool == tool
  }

  predicate StepIsLogic(steps: seq<PlanStep>, id: string) {
    var step := StepOf(steps, id);
    step.Some? && step.value.kind == LogicStep
  }

  /** The checks on the execution reference, duplicates counted by the size of a set. */
  predicate Executes(spec: Spec, q: Requirement, b: Binding)
    requires KindOf(b).Some?
  {
    match KindOf(b).value
    case Tool =>
      && b.ref.Some? && b.ref.value.ToolRef? && Some(b.ref.value.toolName) == b.toolName
      && (var ids := b.ref.value.stepIds;
          |ids| > 0 && |Elements(ids)| == |ids| && forall i :: 0 <= i < |ids| ==> StepIsTool(Flatten(spec.plan), ids[i], b.toolName))
    case Runtime =>
      && b.ref.Some? && b.ref.value.RuntimeRef? && Some(b.ref.value.providerId) == b.bindingId
      && (var ids := b.ref.value.stepIds;
          |ids| > 0 && |Elements(ids)| == |ids| && forall i :: 0 <= i < |ids| ==> StepIsLogic(Flatten(spec.plan), ids[i]))
    case Event =>
      && b.ref.Some? && b.ref.value.EventRef?
      && (var names := b.ref.value.eventNames;
          |names| > 0 && |Elements(names)| == |names| && forall i :: 0 <= i < |q.events| ==> q.events[i] in names)
  }

  /** The verdict on one requirement. */
  function Judge(w: Reading, spec: Spec, q: Requirement): Status {
    var matches := BindingsFor(spec.bindings, q.id);
    if |matches| != 1 then Missing
    else if matches[0].status != Resolved then matches[0].status
    else if !Claims(w, spec, q, matches[0]) then Missing
    else if !Executes(spec, q, matches[0]) then Missing
    else Resolved
  }

  // ---- what counts as proof -----------------------------------------------

  /** The step that an id means: no later one of the plan has the same id. */
  ghost predicate Means(steps: seq<PlanStep>, k: int, id: string) {
    0 <= k < |steps| && steps[k].stepId == id && forall j :: k < j < |steps| ==> steps[j].stepId != id
  }

  ghost predicate Shaped(step: PlanStep, kind: StepKind, tool: Option<string>) {
    step.kind == kind && (tool.Some? ==> step.tool == tool)
  }

  /** Every listed step is listed once and means a step of the given shape. */
  ghost predicate RunsIn(spec: Spec, ids: seq<string>, kind: StepKind, tool: Option<string>) {
    && ids != [] && Distinct(ids)
    && forall i :: 0 <= i < |ids| ==>
        exists k :: Means(Flatten(spec.plan), k, ids[i]) && Shaped(Flatten(spec.plan)[k], kind, tool)
  }

  ghost predicate ProvenBy(w: Reading, spec: Spec, q: Requirement, b: Binding) {
    && b.status == Resolved && b.ref.Some?
    && match b.ref.value {
         case ToolRef(tool, ids) =>
           && KindOf(b) == Some(Tool)
           && b.toolName == Some(tool) && tool != "" && tool in spec.tools && RunsIn(spec, ids, ToolStep, Some(tool))
         case RuntimeRef(provider, ids) =>
           && KindOf(b) == Some(Runtime)
           && b.bindingId == Some(provider) && w.trim(provider) != "" && RunsIn(spec, ids, LogicStep, None)
         case EventRef(names) =>
           && KindOf(b) == Some(Event)
           && Given(w, b.bindingId) && w.role(q.role) != OtherRole && q.events != [] && Distinct(names)
           && forall e :: e in q.events ==> e in names && e in DeclaredEvents(w, spec, q) && e in BoundEvents(w, b)
       }
  }

  /** A requirement that one binding, and only one, proves. */
  ghost predicate Proven(w: Reading, spec: Spec, q: Requirement) {
    exists b :: BindingsFor(spec.bindings, q.id) == [b] && ProvenBy(w, spec, q, b)
  }

  lemma {:induction false} StepIsMeant(steps: seq<PlanStep>, id: string, kind: StepKind, tool: Option<string>)
    ensures (StepOf(steps, id).Some? && Shaped(StepOf(steps, id).value, kind, tool)) <==>
      exists k :: Means(steps, k, id) && Shaped(steps[k], kind, tool)
    decreases |steps|
  {
    if steps != [] {
      var n := |steps| - 1;
      if steps[n].stepId == id {
        assert Means(steps, n, id);
      } else {
        StepIsMeant(steps[..n], id, kind, tool);
        assert forall k :: Means(steps, k, id) <==> Means(steps[..n], k, id);
      }
    }
  }

  lemma {:induction false} StepsRun(spec: Spec, ids: seq<string>, kind: StepKind, tool: Option<string>)
    ensures RunsIn(spec, ids, kind, tool) <==>
      && |ids| > 0 && |Elements(ids)| == |ids|
      && forall i :: 0 <= i < |ids| ==>
          StepOf(Flatten(spec.plan), ids[i]).Some? && Shaped(StepOf(Flatten(spec.plan), ids[i]).value, kind, tool)
  {
    SizeIsDistinct(ids);
    forall i | 0 <= i < |ids|
      ensures (StepOf(Flatten(spec.plan), ids[i]).Some? && Shaped(StepOf(Flatten(spec.plan), ids[i]).value, kind, tool)) <==>
        exists k :: Means(Flatten(spec.plan), k, ids[i]) && Shaped(Flatten(spec.plan)[k], kind, tool)
    {
      StepIsMeant(Flatten(spec.plan), ids[i], kind, tool);
    }
  }

  lemma {:induction false} ToolStepsRun(spec: Spec, ids: seq<string>, tool: string)
    ensures RunsIn(spec, ids, ToolStep, Some(tool)) <==>
      |ids| > 0 && |Elements(ids)| == |ids| && forall i :: 0 <= i < |ids| ==> StepIsTool(Flatten(spec.plan), ids[i], Some(tool))
  {
    StepsRun(spec, ids, ToolStep, Some(tool));
  }

  lemma {:induction false} LogicStepsRun(spec: Spec, ids: seq<string>)
    ensures RunsIn(spec, ids, LogicStep, None) <==>
      |ids| > 0 && |Elements(ids)| == |ids| && forall i :: 0 <= i < |ids| ==> StepIsLogic(Flatten(spec.plan), ids[i])
  {
    StepsRun(spec, ids, LogicStep, None);
  }

  lemma {:induction false} EvidenceIsProof(w: Reading, spec: Spec, q: Requirement, b: Binding)
    requires b.status == Resolved
    ensures Claims(w, spec, q, b) && Executes(spec, q, b) <==> ProvenBy(w, spec, q, b)
  {
    if b.ref.Some? {
      match b.ref.value {
        case ToolRef(tool, ids) => ToolStepsRun(spec, ids, tool);
        case RuntimeRef(_, ids) => LogicStepsRun(spec, ids);
        case EventRef(names) =>
          SizeIsDistinct(names);
          if ProvenBy(w, spec, q, b) {
            assert q.events[0] in names;
            assert forall i :: 0 <= i < |q.events| ==> q.events[i] in q.events;
          }
      }
    }
  }

  /** A requirement is resolved exactly when one binding, and only one, proves it: its
      surface is the agent's own and its steps mean what the binding says. */
  lemma {:induction false} ResolvedIsProven(w: Reading, spec: Spec, q: Requirement)
    ensures Judge(w, spec, q) == Resolved <==> Proven(w, spec, q)
  {
    var matches := BindingsFor(spec.bindings, q.id);
    if |matches| == 1 {
      var b := matches[0];
      assert matches == [b];
      if b.status == Resolved {
        EvidenceIsProof(w, spec, q, b);
      }
      assert Judge(w, spec, q) == Resolved <==> ProvenBy(w, spec, q, b);
    }
  }
}

/** The one place where a submitted scope decision becomes a recommendation. */
module ScopeDecision {
  import opened SandboxTypes
  import opened Distinctness

  /** What the model submitted.  A field, list item or map value of the wrong type is None
      or absent; `reasons` keeps the entries whose value is a string. */
  datatype Row = Row(
    actionIds: Option<seq<Option<string>>>,
    virtual: Option<bool>,
    reasons: map<string, string>,
    summary: Option<string>,
    confidence: Option<real>,
    unresolved: Doubts)

  datatype Doubts = Absent | Malformed | Listed(items: seq<Option<string>>)

  datatype Action = Action(id: string, name: string, actors: seq<string>)

  datatype Chosen = Chosen(id: string, name: string, reason: string)

  datatype Recommendation = Recommendation(
    chosen: seq<Chosen>, virtual: bool, summary: string, confidence: real, unresolved: seq<string>)

  datatype Refusal =
    | BadIds | DuplicateIds | NoVirtualFlag | Contradiction | AmbiguousId | UnknownId
    | AmbiguousName | NoReason | BadSummary | BadDoubts

  datatype Result<+T> = Ok(value: T) | Err(refusal: Refusal)

  /** String trimming, which no claim here looks into. */
  type Trim = string -> string

  const REASON_CHARS: nat := 500
  const SUMMARY_CHARS: nat := 1_000
  const DOUBTS: nat := 20

  function Clip(s: string, n: nat): string {
    if |s| <= n then s else s[..n]
  }

  predicate Blank(trim: Trim, s: Option<string>) {
    s.None? || trim(s.value) == ""
  }

  predicate Selectable(a: Action) {
    "Agent" in a.actors
  }

  function Candidates(actions: seq<Action>): (r: seq<Action>)
    ensures forall a :: a in r <==> a in actions && Selectable(a)
  {
    if actions == [] then [] else (if Selectable(actions[0]) then [actions[0]] else []) + Candidates(actions[1..])
  }

  function IdOf(actions: seq<Action>): (r: seq<string>)
    ensures |r| == |actions| && forall i :: 0 <= i < |r| ==> r[i] == actions[i].id
  {
    seq(|actions|, i requires 0 <= i < |actions| => actions[i].id)
  }

  function Trimmed(trim: Trim, ids: seq<Option<string>>): (r: seq<string>)
    requires forall i :: 0 <= i < |ids| ==> ids[i].Some?
    ensures |r| == |ids| && forall i :: 0 <= i < |r| ==> r[i] == trim(ids[i].value)
  {
    seq(|ids|, i requires 0 <= i < |ids| => trim(ids[i].value))
  }

  /** The last action with an identifier, as the map holds it. */
  function ById(actions: seq<Action>, id: string): (r: Option<Action>)
    ensures r.Some? ==> r.value in actions && r.value.id == id
    ensures r.None? ==> forall a :: a in actions ==> a.id != id
  {
    if actions == [] then None
    else
      var last := actions[|actions| - 1];
      if last.id == id then Some(last) else ById(actions[..|actions| - 1], id)
  }

  function Namesakes(actions: seq<Action>, name: string): nat {
    if actions == [] then 0 else (if actions[0].name == name then 1 else 0) + Namesakes(actions[1..], name)
  }

  function ReasonFor(trim: Trim, row: Row, id: string): string {
    if id in row.reasons then Clip(trim(row.reasons[id]), REASON_CHARS) else ""
  }

  /** The selected actions in the order given, or the first thing wrong with one. */
  function Choose(trim: Trim, row: Row, actions: seq<Action>, ids: seq<string>): Result<seq<Chosen>> {
    if ids == [] then Ok([])
    else
      match ById(Candidates(actions), ids[0])
      case None => Err(UnknownId)
      case Some(action) =>
        if Namesakes(actions, action.name) != 1 then Err(AmbiguousName)
        else if ReasonFor(trim, row, ids[0]) == "" then Err(NoReason)
        else
          match Choose(trim, row, actions, ids[1..])
          case Err(refusal) => Err(refusal)
          case Ok(rest) => Ok([Chosen(action.id, action.name, ReasonFor(trim, row, ids[0]))] + rest)
  }

  function DoubtsOf(trim: Trim, doubts: Doubts): seq<string>
    requires doubts.Listed? ==> forall i :: 0 <= i < |doubts.items| ==> !Blank(trim, doubts.items[i])
  {
    if !doubts.Listed? then []
    else
      var n := if |doubts.items| <= DOUBTS then |doubts.items| else DOUBTS;
      assert forall i :: 0 <= i < |doubts.items| ==> !Blank(trim, doubts.items[i]) && doubts.items[i].Some?;
      seq(n, i requires 0 <= i < n => Clip(trim(doubts.items[i].value), REASON_CHARS))
  }

  predicate DoubtsOk(trim: Trim, doubts: Doubts) {
    doubts.Absent? || (doubts.Listed? && forall i :: 0 <= i < |doubts.items| ==> !Blank(trim, doubts.items[i]))
  }

  predicate Known(actions: seq<Action>, ids: seq<string>) {
    forall i :: 0 <= i < |ids| ==> ById(Candidates(actions), ids[i]).Some?
  }

  /** The decision checked from top to bottom. */
  function Finalize(trim: Trim, row: Row, actions: seq<Action>): Result<Recommendation> {
    if row.actionIds.None? || exists i :: 0 <= i < |row.actionIds.value| && Blank(trim, row.actionIds.value[i]) then
      Err(BadIds)
    else
      var ids := Trimmed(trim, row.actionIds.value);
      var candidateIds := IdOf(Candidates(actions));
      if |Elements(ids)| != |ids| then Err(DuplicateIds)
      else if row.virtual.None? then Err(NoVirtualFlag)
      else if row.virtual.value == (ids != []) then Err(Contradiction)
      else if |Elements(candidateIds)| != |candidateIds| then Err(AmbiguousId)
      else if !Known(actions, ids) then Err(UnknownId)
      else
        match Choose(trim, row, actions, ids)
        case Err(refusal) => Err(refusal)
        case Ok(chosen) =>
          var summary := if row.summary.Some? then Clip(trim(row.summary.value), SUMMARY_CHARS) else "";
          if summary == "" || row.confidence.None? || row.confidence.value < 0.0 || row.confidence.value > 1.0 then
            Err(BadSummary)
          else if !DoubtsOk(trim, row.unresolved) then Err(BadDoubts)
          else Ok(Recommendation(chosen, row.virtual.value, summary, row.confidence.value, DoubtsOf(trim, row.unresolved)))
  }

  // ---- what a recommendation guarantees -----------------------------------

  /** The Agent action at `k` has this id, and no other action has its name. */
  ghost predicate Selects(actions: seq<Action>, k: nat, id: string)
    requires k < |actions|
  {
    && "Agent" in actions[k].actors && actions[k].id == id
    && forall m :: 0 <= m < |actions| && m != k ==> actions[m].name != actions[k].name
  }

  /** The Agent actions have identifiers of their own. */
  ghost predicate AgentIdsDistinct(actions: seq<Action>) {
    forall i, j :: 0 <= i < j < |actions| && "Agent" in actions[i].actors && "Agent" in actions[j].actors ==> actions[i].id != actions[j].id
  }

  /** The one Agent action with this id, under its own name and with a reason. */
  ghost predicate Backed(actions: seq<Action>, c: Chosen) {
    && (exists k :: 0 <= k < |actions| && Selects(actions, k, c.id) && actions[k].name == c.name)
    && AgentIdsDistinct(actions)
    && 1 <= |c.reason| <= 500
  }

  ghost predicate Guaranteed(actions: seq<Action>, r: Recommendation) {
    && (forall i, j :: 0 <= i < j < |r.chosen| ==> r.chosen[i].id != r.chosen[j].id)
    && (forall i :: 0 <= i < |r.chosen| ==> Backed(actions, r.chosen[i]))
    && (r.virtual <==> r.chosen == [])
    && 0.0 <= r.confidence <= 1.0
    && r.summary != ""
  }

  /** `kept` is `s` trimmed and cut to its first `n` characters. */
  ghost predicate CutTo(trim: Trim, s: string, n: nat, kept: string) {
    var whole := trim(s);
    |kept| == (if |whole| < n then |whole| else n) && forall i :: 0 <= i < |kept| ==> kept[i] == whole[i]
  }

  /** The recommendation holds what was submitted: the actions in their order, each with the
      first 500 characters of the reason given for it, the flag, the first 1000 characters
      of the summary, the confidence, and the first 20 doubts in their order with the first
      500 characters of each. */
  ghost predicate AsSubmitted(trim: Trim, row: Row, r: Recommendation) {
    && row.actionIds.Some? && |r.chosen| == |row.actionIds.value|
    && (forall i :: 0 <= i < |r.chosen| ==> ChosenAs(trim, row, row.actionIds.value[i], r.chosen[i]))
    && row.virtual == Some(r.virtual) && row.confidence == Some(r.confidence)
    && row.summary.Some? && CutTo(trim, row.summary.value, 1_000, r.summary)
    && match row.unresolved
       case Absent => r.unresolved == []
       case Malformed => false
       case Listed(items) =>
         && |r.unresolved| == (if |items| < 20 then |items| else 20)
         && forall i :: 0 <= i < |r.unresolved| ==> items[i].Some? && CutTo(trim, items[i].value, 500, r.unresolved[i])
  }

  ghost predicate ChosenAs(trim: Trim, row: Row, id: Option<string>, c: Chosen) {
    id.Some? && c.id == trim(id.value) && c.id in row.reasons && CutTo(trim, row.reasons[c.id], 500, c.reason)
  }

  /** The tests that a decision has to pass, in no order. */
  ghost predicate Passes(trim: Trim, row: Row, actions: seq<Action>) {
    && row.actionIds.Some? && row.virtual.Some? && row.confidence.Some?
    && (forall i :: 0 <= i < |row.actionIds.value| ==> !Blank(trim, row.actionIds.value[i]))
    && (var ids := Trimmed(trim, row.actionIds.value);
        && Distinct(ids)
        && (row.virtual.value <==> ids == [])
        && (forall i :: 0 <= i < |ids| ==> Choosable(trim, row, actions, ids[i])))
    && (forall i, j :: 0 <= i < j < |Candidates(actions)| ==> Candidates(actions)[i].id != Candidates(actions)[j].id)
    && !Blank(trim, row.summary)
    && 0.0 <= row.confidence.value <= 1.0
    && DoubtsOk(trim, row.unresolved)
  }

  /** A known Agent action whose name is its own, with a reason. */
  ghost predicate Choosable(trim: Trim, row: Row, actions: seq<Action>, id: string) {
    && ById(Candidates(actions), id).Some?
    && Namesakes(actions, ById(Candidates(actions), id).value.name) == 1
    && id in row.reasons && trim(row.reasons[id]) != ""
  }

  lemma {:induction false} ChooseIsExact(trim: Trim, row: Row, actions: seq<Action>, ids: seq<string>)
    ensures var r := Choose(trim, row, actions, ids);
      && (r.Ok? <==> forall i :: 0 <= i < |ids| ==> Choosable(trim, row, actions, ids[i]))
      && (r.Ok? ==> |r.value| == |ids| && forall i :: 0 <= i < |ids| ==>
            && r.value[i].id == ids[i] && r.value[i].reason == ReasonFor(trim, row, ids[i]) != ""
            && r.value[i].name == ById(Candidates(actions), ids[i]).value.name)
  {
    if ids != [] {
      ChooseIsExact(trim, row, actions, ids[1..]);
      assert forall i :: 0 <= i < |ids[1..]| ==> ids[1..][i] == ids[i + 1];
      assert forall i :: 0 < i < |ids| ==> ids[i] == ids[1..][i - 1];
    }
  }

  lemma {:induction false} IdsDistinct(actions: seq<Action>)
    ensures |Elements(IdOf(actions))| == |IdOf(actions)| <==>
      forall i, j :: 0 <= i < j < |actions| ==> actions[i].id != actions[j].id
  {
    SizeIsDistinct(IdOf(actions));
    if Distinct(IdOf(actions)) {
      forall i, j | 0 <= i < j < |actions| ensures actions[i].id != actions[j].id {
        assert IdOf(actions)[i] != IdOf(actions)[j];
      }
    }
  }

  lemma {:induction false} TestsAreExact(trim: Trim, row: Row, actions: seq<Action>)
    ensures Finalize(trim, row, actions).Ok? <==> Passes(trim, row, actions)
  {
    if row.actionIds.Some? && forall i :: 0 <= i < |row.actionIds.value| ==> !Blank(trim, row.actionIds.value[i]) {
      var ids := Trimmed(trim, row.actionIds.value);
      SizeIsDistinct(ids);
      IdsDistinct(Candidates(actions));
      ChooseIsExact(trim, row, actions, ids);
    }
  }

  // ---- when a decision is accepted -----------------------------------------

  /** A text that is there and not blank. */
  ghost predicate Given(trim: Trim, s: Option<string>) {
    s.Some? && trim(s.value) != ""
  }

  /** `id` is that of an Agent action, no other action has its name, and a reason is given. */
  ghost predicate Recommendable(trim: Trim, row: Row, actions: seq<Action>, id: string) {
    && id in row.reasons && trim(row.reasons[id]) != ""
    && exists k :: 0 <= k < |actions| && Selects(actions, k, id)
  }

  /** Everything the row and the ontology have to satisfy. */
  ghost predicate Acceptable(trim: Trim, row: Row, actions: seq<Action>) {
    && AgentIdsDistinct(actions)
    && row.actionIds.Some? && row.virtual == Some(row.actionIds.value == [])
    && var ids := row.actionIds.value;
    && (forall i :: 0 <= i < |ids| ==> Given(trim, ids[i]) && Recommendable(trim, row, actions, trim(ids[i].value)))
    && (forall i, j :: 0 <= i < j < |ids| ==> trim(ids[i].value) != trim(ids[j].value))
    && Given(trim, row.summary)
    && row.confidence.Some? && 0.0 <= row.confidence.value <= 1.0
    && match row.unresolved
       case Absent => true
       case Malformed => false
       case Listed(items) => forall i :: 0 <= i < |items| ==> Given(trim, items[i])
  }

  lemma {:induction false} NoNamesake(actions: seq<Action>, name: string)
    ensures Namesakes(actions, name) == 0 <==> forall m :: 0 <= m < |actions| ==> actions[m].name != name
    decreases |actions|
  {
    if actions != [] {
      NoNamesake(actions[1..], name);
      assert forall m :: 0 <= m < |actions[1..]| ==> actions[1..][m] == actions[m + 1];
      assert forall m :: 0 < m < |actions| ==> actions[m] == actions[1..][m - 1];
    }
  }

  /** The action at `k` is the one with this name. */
  ghost predicate Only(actions: seq<Action>, k: nat, name: string) {
    k < |actions| && actions[k].name == name && forall m :: 0 <= m < |actions| && m != k ==> actions[m].name != name
  }

  lemma {:induction false} OnlyOn(actions: seq<Action>, k: nat, name: string)
    requires actions != [] && actions[0].name != name
    ensures Only(actions[1..], k, name) <==> Only(actions, k + 1, name)
  {
    assert forall m :: 0 <= m < |actions[1..]| ==> actions[1..][m] == actions[m + 1];
    assert forall m :: 0 < m < |actions| ==> actions[m] == actions[1..][m - 1];
  }

  lemma {:induction false} OnlyFirst(actions: seq<Action>, k: nat, name: string)
    requires actions != [] && actions[0].name == name
    ensures Only(actions, k, name) <==> k == 0 && Namesakes(actions[1..], name) == 0
  {
    NoNamesake(actions[1..], name);
    assert forall m :: 0 <= m < |actions[1..]| ==> actions[1..][m] == actions[m + 1];
    assert forall m :: 0 < m < |actions| ==> actions[m] == actions[1..][m - 1];
  }

  lemma {:induction false} OneNamesake(actions: seq<Action>, k: nat, name: string)
    ensures Only(actions, k, name) ==> Namesakes(actions, name) == 1
    ensures Namesakes(actions, name) == 1 && k < |actions| && actions[k].name == name ==> Only(actions, k, name)
    decreases |actions|
  {
    if actions != [] {
      if actions[0].name == name {
        OnlyFirst(actions, k, name);
        if k > 0 && k < |actions| && actions[k].name == name {
          NoNamesake(actions[1..], name);
          assert actions[1..][k - 1].name == name;
        }
      } else if k > 0 {
        OneNamesake(actions[1..], k - 1, name);
        OnlyOn(actions, k - 1, name);
      }
    }
  }

  lemma {:induction false} AgentIdsTail(actions: seq<Action>)
    requires actions != []
    ensures var rest, first := actions[1..], actions[0];
      AgentIdsDistinct(actions) <==>
        AgentIdsDistinct(rest) && (Selectable(first) ==> forall m :: 0 <= m < |rest| && Selectable(rest[m]) ==> rest[m].id != first.id)
  {
    var rest := actions[1..];
    assert forall m :: 0 <= m < |rest| ==> rest[m] == actions[m + 1];
    if AgentIdsDistinct(actions) {
      forall i, j | 0 <= i < j < |rest| && Selectable(rest[i]) && Selectable(rest[j])
        ensures rest[i].id != rest[j].id
      {
        assert actions[i + 1].id != actions[j + 1].id;
      }
    } else {
      var i, j :| 0 <= i < j < |actions| && Selectable(actions[i]) && Selectable(actions[j]) && actions[i].id == actions[j].id;
      assert actions[j] == rest[j - 1];
      if i > 0 {
        assert actions[i] == rest[i - 1];
      }
    }
  }

  lemma {:induction false} CandidateIdsDistinct(actions: seq<Action>)
    ensures Distinct(IdOf(Candidates(actions))) <==> AgentIdsDistinct(actions)
    decreases |actions|
  {
    if actions != [] {
      var rest, first := actions[1..], actions[0];
      CandidateIdsDistinct(rest);
      AgentIdsTail(actions);
      if Selectable(first) {
        assert IdOf(Candidates(actions)) == [first.id] + IdOf(Candidates(rest));
        FirstIsNew(first.id, IdOf(Candidates(rest)));
        IdAmong(rest, first.id);
      } else {
        assert Candidates(actions) == Candidates(rest);
      }
    }
  }

  lemma {:induction false} FirstIsNew(id: string, ids: seq<string>)
    ensures Distinct([id] + ids) <==> id !in ids && Distinct(ids)
  {
    var all := [id] + ids;
    assert forall i :: 0 <= i < |ids| ==> all[i + 1] == ids[i];
    if Distinct(all) {
      forall i | 0 <= i < |ids| ensures ids[i] != id {
        assert all[0] != all[i + 1];
      }
      forall i, j | 0 <= i < j < |ids| ensures ids[i] != ids[j] {
        assert all[i + 1] != all[j + 1];
      }
    }
  }

  lemma {:induction false} IdAmong(actions: seq<Action>, id: string)
    ensures id in IdOf(Candidates(actions)) <==> exists m :: 0 <= m < |actions| && Selectable(actions[m]) && actions[m].id == id
  {
    var candidates := Candidates(actions);
    if m :| 0 <= m < |actions| && Selectable(actions[m]) && actions[m].id == id {
      assert actions[m] in candidates;
      var k :| 0 <= k < |candidates| && candidates[k] == actions[m];
      assert IdOf(candidates)[k] == id;
    }
    if id in IdOf(candidates) {
      var k :| 0 <= k < |candidates| && candidates[k].id == id;
      assert candidates[k] in candidates;
    }
  }

  lemma {:induction false} SameAgent(actions: seq<Action>, i: nat, j: nat)
    requires AgentIdsDistinct(actions) && i < |actions| && j < |actions|
    requires Selectable(actions[i]) && Selectable(actions[j]) && actions[i].id == actions[j].id
    ensures i == j
  {
  }

  lemma {:induction false} ChoosableIsRecommendable(trim: Trim, row: Row, actions: seq<Action>, id: string)
    requires AgentIdsDistinct(actions)
    ensures Choosable(trim, row, actions, id) <==> Recommendable(trim, row, actions, id)
  {
    var found := ById(Candidates(actions), id);
    if m :| 0 <= m < |actions| && Selects(actions, m, id) {
      assert actions[m] in Candidates(actions);
      var k := PlaceOf(actions, found.value);
      SameAgent(actions, k, m);
      OneNamesake(actions, k, found.value.name);
    } else if found.Some? {
      var k := PlaceOf(actions, found.value);
      OneNamesake(actions, k, found.value.name);
      assert !Selects(actions, k, id);
    }
  }

  lemma {:induction false} PlaceOf(actions: seq<Action>, a: Action) returns (k: nat)
    requires a in Candidates(actions)
    ensures k < |actions| && actions[k] == a && Selectable(a)
  {
    k :| 0 <= k < |actions| && actions[k] == a;
  }

  lemma {:induction false} IdsAgree(trim: Trim, row: Row, actions: seq<Action>, ids: seq<Option<string>>)
    requires AgentIdsDistinct(actions) && forall i :: 0 <= i < |ids| ==> ids[i].Some? && trim(ids[i].value) != ""
    ensures var own := Trimmed(trim, ids);
      && (Distinct(own) <==> forall i, j :: 0 <= i < j < |ids| ==> trim(ids[i].value) != trim(ids[j].value))
      && ((forall i :: 0 <= i < |own| ==> Choosable(trim, row, actions, own[i])) <==>
           forall i :: 0 <= i < |ids| ==> Recommendable(trim, row, actions, trim(ids[i].value)))
      && (own == [] <==> ids == [])
  {
    var own := Trimmed(trim, ids);
    forall i | 0 <= i < |ids|
      ensures Choosable(trim, row, actions, own[i]) <==> Recommendable(trim, row, actions, trim(ids[i].value))
    {
      ChoosableIsRecommendable(trim, row, actions, own[i]);
    }
    if forall i :: 0 <= i < |own| ==> Choosable(trim, row, actions, own[i]) {
      forall i | 0 <= i < |ids| ensures Recommendable(trim, row, actions, trim(ids[i].value)) {
        assert Choosable(trim, row, actions, own[i]);
      }
    }
  }

  lemma {:induction false} DoubtsAgree(trim: Trim, doubts: Doubts)
    ensures DoubtsOk(trim, doubts) <==>
      match doubts
      case Absent => true
      case Malformed => false
      case Listed(items) => forall i :: 0 <= i < |items| ==> Given(trim, items[i])
  {
  }

  /** A recommendation is made exactly when the decision is acceptable. */
  lemma {:induction false} AcceptedIsExact(trim: Trim, row: Row, actions: seq<Action>)
    ensures Finalize(trim, row, actions).Ok? <==> Acceptable(trim, row, actions)
  {
    TestsAreExact(trim, row, actions);
    IdsDistinct(Candidates(actions));
    SizeIsDistinct(IdOf(Candidates(actions)));
    CandidateIdsDistinct(actions);
    DoubtsAgree(trim, row.unresolved);
    if AgentIdsDistinct(actions) && row.actionIds.Some?
       && forall i :: 0 <= i < |row.actionIds.value| ==> row.actionIds.value[i].Some? && trim(row.actionIds.value[i].value) != "" {
      IdsAgree(trim, row, actions, row.actionIds.value);
    }
  }

  lemma {:induction false} ChosenIsBacked(actions: seq<Action>, c: Chosen)
    requires AgentIdsDistinct(actions)
    requires var found := ById(Candidates(actions), c.id); found.Some? && found.value.name == c.name && Namesakes(actions, c.name) == 1
    requires 1 <= |c.reason| <= REASON_CHARS
    ensures Backed(actions, c)
  {
    var k := PlaceOf(actions, ById(Candidates(actions), c.id).value);
    OneNamesake(actions, k, c.name);
    assert Selects(actions, k, c.id);
  }

  /** What an accepted decision says of the choice that is made of it. */
  lemma {:induction false} AcceptedChoice(trim: Trim, row: Row, actions: seq<Action>) returns (ids: seq<string>, chosen: seq<Chosen>)
    requires Finalize(trim, row, actions).Ok?
    ensures row.actionIds.Some? && |ids| == |row.actionIds.value| == |chosen| && Distinct(ids) && AgentIdsDistinct(actions)
    ensures forall i :: 0 <= i < |ids| ==> row.actionIds.value[i].Some? && ids[i] == trim(row.actionIds.value[i].value)
    ensures forall i :: 0 <= i < |ids| ==>
      && Choosable(trim, row, actions, ids[i]) && chosen[i].id == ids[i] && chosen[i].reason == ReasonFor(trim, row, ids[i])
      && chosen[i].name == ById(Candidates(actions), ids[i]).value.name
    ensures Finalize(trim, row, actions).value.chosen == chosen
  {
    TestsAreExact(trim, row, actions);
    ids := Trimmed(trim, row.actionIds.value);
    ChooseIsExact(trim, row, actions, ids);
    chosen := Choose(trim, row, actions, ids).value;
    IdsDistinct(Candidates(actions));
    SizeIsDistinct(IdOf(Candidates(actions)));
    CandidateIdsDistinct(actions);
  }

  lemma {:induction false} RecommendationIsAsSubmitted(trim: Trim, row: Row, actions: seq<Action>)
    requires Finalize(trim, row, actions).Ok?
    ensures AsSubmitted(trim, row, Finalize(trim, row, actions).value)
  {
    var ids, chosen := AcceptedChoice(trim, row, actions);
    TestsAreExact(trim, row, actions);
    forall i | 0 <= i < |chosen| ensures ChosenAs(trim, row, row.actionIds.value[i], chosen[i]) {
      assert Choosable(trim, row, actions, ids[i]);
    }
  }

  /** Whatever was submitted, a recommendation names distinct Agent actions, each with its
      own unique name and a reason, and names none exactly when it is virtual; and it
      keeps everything that was submitted, doubts included. */
  lemma {:induction false} RecommendationIsGuaranteed(trim: Trim, row: Row, actions: seq<Action>)
    requires Finalize(trim, row, actions).Ok?
    ensures Guaranteed(actions, Finalize(trim, row, actions).value)
    ensures AsSubmitted(trim, row, Finalize(trim, row, actions).value)
  {
    var ids, chosen := AcceptedChoice(trim, row, actions);
    RecommendationIsAsSubmitted(trim, row, actions);
    TestsAreExact(trim, row, actions);
    forall i | 0 <= i < |chosen| ensures Backed(actions, chosen[i]) {
      assert Choosable(trim, row, actions, ids[i]);
      ChosenIsBacked(actions, chosen[i]);
    }
    forall i, j | 0 <= i < j < |chosen| ensures chosen[i].id != chosen[j].id {
      assert ids[i] != ids[j];
    }
  }
}

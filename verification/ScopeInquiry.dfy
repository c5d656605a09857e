/** The scope inquiry: a model works with read-only tools under call budgets until it
    submits a decision. */
module ScopeInquiry {
  import opened SandboxTypes
  import ScopeDecision

  /** Tool calls kept back for the decision. */
  const RESERVE: int := 1

  /** A tool call.  A decision without a row is one whose arguments were refused; `cut` is
      an abort signal seen before the call. */
  datatype Call = Call(id: string, decision: bool, row: Option<ScopeDecision.Row>, cut: bool)

  /** What one model turn brings. */
  datatype Turn = Fails | Says | Calls(calls: seq<Call>)

  datatype Message =
    | Opening
    | ForceNotice
    | MissingNotice
    | Assistant(ids: seq<string>)
    | Answer(id: string)

  /** A turn as the model sees it. */
  datatype Asked = Asked(history: seq<Message>, decisionOnly: bool)

  datatype Budget = Budget(maxModelCalls: int, maxToolCalls: int)

  /** `readCalls` counts the executed calls of tools other than the decision, `extra` the
      decisions executed although the read budget was spent. */
  datatype State = State(
    messages: seq<Message>,
    modelCalls: nat,
    toolCalls: nat,
    readCalls: nat,
    extra: nat,
    submitted: Option<ScopeDecision.Row>,
    aborted: bool,
    forced: bool,
    asked: seq<Asked>)

  /** The model, and whether time is up or the signal is raised, at each turn. */
  datatype World = World(turn: nat -> Turn, late: nat -> bool, cut: nat -> bool)

  function Start(): State {
    State([Opening], 0, 0, 0, 0, None, false, false, [])
  }

  function ReadBudget(b: Budget): int {
    b.maxToolCalls - RESERVE
  }

  predicate ReadsSpent(b: Budget, s: State) {
    s.toolCalls >= ReadBudget(b)
  }

  predicate MustDecide(b: Budget, s: State) {
    b.maxModelCalls - s.modelCalls <= 1 || ReadsSpent(b, s)
  }

  function Say(s: State, m: Message): State {
    s.(messages := s.messages + [m])
  }

  /** One call of a turn: refused when it is a read without budget, else executed. */
  function Serve(b: Budget, s: State, call: Call): State {
    if call.cut then s.(aborted := true)
    else if !call.decision && ReadsSpent(b, s) then Say(s, Answer(call.id))
    else
      Say(s, Answer(call.id)).(
        toolCalls := s.toolCalls + 1,
        readCalls := s.readCalls + (if call.decision then 0 else 1),
        extra := s.extra + (if ReadsSpent(b, s) then 1 else 0),
        submitted := if call.decision then call.row else None)
  }

  predicate Over(s: State) {
    s.submitted.Some? || s.aborted
  }

  /** The calls of one turn; a submission or an abort ends the loop at once. */
  function Dispatch(b: Budget, s: State, calls: seq<Call>): (r: State)
    ensures r.modelCalls == s.modelCalls && r.forced == s.forced && r.asked == s.asked && s.messages <= r.messages
    decreases |calls|
  {
    if calls == [] || Over(s) then s else Dispatch(b, Serve(b, s, calls[0]), calls[1..])
  }

  function Ids(calls: seq<Call>): (r: seq<string>)
    ensures |r| == |calls| && forall i :: 0 <= i < |r| ==> r[i] == calls[i].id
  {
    seq(|calls|, i requires 0 <= i < |calls| => calls[i].id)
  }

  /** The state as the turn is asked. */
  function Ask(b: Budget, s: State): State {
    var must := MustDecide(b, s);
    var t := if must && !s.forced then Say(s, ForceNotice).(forced := true) else s;
    t.(modelCalls := s.modelCalls + 1, asked := s.asked + [Asked(t.messages, must)])
  }

  predicate Stops(b: Budget, s: State, w: World) {
    Over(s) || w.late(s.modelCalls) || s.modelCalls >= b.maxModelCalls
  }

  /** The answer to a turn, for a turn that does not end the loop. */
  function React(b: Budget, s: State, turn: Turn): State
    requires !turn.Fails?
  {
    match turn
    case Says => Say(Say(s, Assistant([])), MissingNotice)
    case Calls(calls) => Dispatch(b, Say(s, Assistant(Ids(calls))), calls)
  }

  predicate GivesUp(b: Budget, s: State, turn: Turn) {
    turn.Fails? || (turn.Says? && MustDecide(b, s))
  }

  function Inquire(b: Budget, s: State, w: World): State
    decreases b.maxModelCalls - s.modelCalls
  {
    if Over(s) then s
    else if w.cut(s.modelCalls) then s.(aborted := true)
    else if Stops(b, s, w) then s
    else if GivesUp(b, s, w.turn(s.modelCalls)) then Ask(b, s)
    else Inquire(b, React(b, Ask(b, s), w.turn(s.modelCalls)), w)
  }

  // ---- budgets ------------------------------------------------------------

  /** What the loop never exceeds; every tool call past the read budget is a decision. */
  ghost predicate InBudget(b: Budget, s: State) {
    && (s.modelCalls == 0 || s.modelCalls <= b.maxModelCalls)
    && s.readCalls <= Max(0, ReadBudget(b))
    && s.extra == Max(0, s.toolCalls - Max(0, ReadBudget(b)))
  }

  lemma {:induction false} DispatchInBudget(b: Budget, s: State, calls: seq<Call>)
    requires InBudget(b, s) && s.readCalls <= s.toolCalls
    ensures InBudget(b, Dispatch(b, s, calls)) && Dispatch(b, s, calls).readCalls <= Dispatch(b, s, calls).toolCalls
    decreases |calls|
  {
    if calls != [] && !Over(s) {
      DispatchInBudget(b, Serve(b, s, calls[0]), calls[1..]);
    }
  }

  /** The loop ends with at most the budgeted model calls, and at most one read less than
      the tool budget: the decision keeps its slot. */
  lemma {:induction false} BudgetsHold(b: Budget, s: State, w: World)
    requires InBudget(b, s) && s.readCalls <= s.toolCalls
    ensures InBudget(b, Inquire(b, s, w))
    decreases b.maxModelCalls - s.modelCalls
  {
    if !Over(s) && !w.cut(s.modelCalls) && !Stops(b, s, w) && !GivesUp(b, s, w.turn(s.modelCalls)) {
      var t := Ask(b, s);
      if w.turn(s.modelCalls).Calls? {
        var calls := w.turn(s.modelCalls).calls;
        DispatchInBudget(b, Say(t, Assistant(Ids(calls))), calls);
      }
      BudgetsHold(b, React(b, t, w.turn(s.modelCalls)), w);
    }
  }

  /** Calls only add up. */
  lemma {:induction false} CallsGrow(b: Budget, s: State, w: World)
    ensures s.toolCalls <= Inquire(b, s, w).toolCalls
    decreases b.maxModelCalls - s.modelCalls
  {
    if !Over(s) && !w.cut(s.modelCalls) && !Stops(b, s, w) && !GivesUp(b, s, w.turn(s.modelCalls)) {
      var t := Ask(b, s);
      if w.turn(s.modelCalls).Calls? {
        var calls := w.turn(s.modelCalls).calls;
        DispatchGrows(b, Say(t, Assistant(Ids(calls))), calls);
      }
      CallsGrow(b, React(b, t, w.turn(s.modelCalls)), w);
    }
  }

  lemma {:induction false} DispatchGrows(b: Budget, s: State, calls: seq<Call>)
    ensures s.toolCalls <= Dispatch(b, s, calls).toolCalls
    decreases |calls|
  {
    if calls != [] && !Over(s) {
      DispatchGrows(b, Serve(b, s, calls[0]), calls[1..]);
    }
  }

  /** A decision whose arguments are refused. */
  predicate Refused(call: Call) {
    call.decision && call.row.None? && !call.cut
  }

  lemma {:induction false} RefusedAreServed(b: Budget, s: State, calls: seq<Call>)
    requires !Over(s) && forall i :: 0 <= i < |calls| ==> Refused(calls[i])
    ensures Dispatch(b, s, calls).toolCalls == s.toolCalls + |calls|
    decreases |calls|
  {
    if calls != [] {
      RefusedAreServed(b, Serve(b, s, calls[0]), calls[1..]);
    }
  }

  /** Refused decisions are executed without limit: one turn of them passes any budget. */
  lemma {:induction false} RefusedOverspend(b: Budget) returns (w: World)
    requires b.maxModelCalls >= 1 && b.maxToolCalls >= 0
    ensures Inquire(b, Start(), w).toolCalls > b.maxToolCalls
  {
    var calls := seq(b.maxToolCalls + 1, i => Call("c", true, None, false));
    w := World(_ => Calls(calls), _ => false, _ => false);
    var u := Say(Ask(b, Start()), Assistant(Ids(calls)));
    RefusedAreServed(b, u, calls);
    CallsGrow(b, Dispatch(b, u, calls), w);
  }

  ghost predicate KeepsToolBudget(b: Budget) {
    forall w :: Inquire(b, Start(), w).toolCalls <= b.maxToolCalls
  }

  /** The tool budget is kept whatever the model does exactly if the model is never asked. */
  lemma {:induction false} ToolBudgetIsExact(b: Budget)
    requires b.maxToolCalls >= 0
    ensures KeepsToolBudget(b) <==> b.maxModelCalls <= 0
  {
    if b.maxModelCalls >= 1 {
      var w := RefusedOverspend(b);
    }
  }

  /** No decision of this world has refused arguments. */
  ghost predicate Decisive(w: World) {
    forall n: nat, i :: w.turn(n).Calls? && 0 <= i < |w.turn(n).calls| && w.turn(n).calls[i].decision ==>
      w.turn(n).calls[i].row.Some?
  }

  /** The decision still has its slot, or has just used it. */
  ghost predicate Reserved(b: Budget, s: State) {
    s.toolCalls <= ReadBudget(b) || (Over(s) && s.toolCalls <= b.maxToolCalls)
  }

  lemma {:induction false} DispatchReserves(b: Budget, s: State, calls: seq<Call>)
    requires Reserved(b, s) && forall i :: 0 <= i < |calls| && calls[i].decision ==> calls[i].row.Some?
    ensures Reserved(b, Dispatch(b, s, calls))
    decreases |calls|
  {
    if calls != [] && !Over(s) {
      assert forall i :: 0 <= i < |calls[1..]| ==> calls[1..][i] == calls[i + 1];
      DispatchReserves(b, Serve(b, s, calls[0]), calls[1..]);
    }
  }

  /** It is refused decisions alone that pass the budget: without them the reserve is what
      it takes. */
  lemma {:induction false} DecisiveKeepsBudget(b: Budget, s: State, w: World)
    requires b.maxToolCalls >= RESERVE && Decisive(w) && Reserved(b, s)
    ensures Inquire(b, s, w).toolCalls <= b.maxToolCalls
    decreases b.maxModelCalls - s.modelCalls
  {
    if !Over(s) && !w.cut(s.modelCalls) && !Stops(b, s, w) && !GivesUp(b, s, w.turn(s.modelCalls)) {
      var t := Ask(b, s);
      if w.turn(s.modelCalls).Calls? {
        var calls := w.turn(s.modelCalls).calls;
        DispatchReserves(b, Say(t, Assistant(Ids(calls))), calls);
      }
      DecisiveKeepsBudget(b, React(b, t, w.turn(s.modelCalls)), w);
    }
  }

  /** For every world in which no decision is refused. */
  lemma {:induction false} DecisionsFit(b: Budget, w: World)
    requires b.maxToolCalls >= RESERVE && Decisive(w)
    ensures Inquire(b, Start(), w).toolCalls <= b.maxToolCalls
  {
    DecisiveKeepsBudget(b, Start(), w);
  }

  // ---- history ------------------------------------------------------------

  /** The calls still to be answered after `messages`; None where an answer does not match
      or something else is said while an answer is due. */
  function Due(messages: seq<Message>): Option<seq<string>>
    decreases |messages|
  {
    if messages == [] then Some([])
    else
      var before := Due(messages[..|messages| - 1]);
      if before.None? then None
      else
        match messages[|messages| - 1]
        case Answer(id) => if before.value != [] && before.value[0] == id then Some(before.value[1..]) else None
        case Assistant(ids) => if before.value == [] then Some(ids) else None
        case _ => if before.value == [] then Some([]) else None
  }

  /** Every call has exactly one answer, in order, before anything else is said. */
  predicate Settled(messages: seq<Message>) {
    Due(messages) == Some([])
  }

  /** An answer meets the first call due. */
  lemma {:induction false} Answered(messages: seq<Message>, ids: seq<string>)
    requires ids != [] && Due(messages) == Some(ids)
    ensures Due(messages + [Answer(ids[0])]) == Some(ids[1..])
  {
  }

  /** Anything else may be said once nothing is due. */
  lemma {:induction false} Spoken(messages: seq<Message>, m: Message)
    requires Settled(messages) && !m.Answer?
    ensures Due(messages + [m]) == Some(if m.Assistant? then m.ids else [])
  {
  }

  lemma {:induction false} DispatchSettles(b: Budget, s: State, calls: seq<Call>)
    requires Due(s.messages) == Some(Ids(calls)) && !Over(s)
    ensures Over(Dispatch(b, s, calls)) || Settled(Dispatch(b, s, calls).messages)
    decreases |calls|
  {
    if calls == [] {
      assert Ids(calls) == [];
    } else {
      var t := Serve(b, s, calls[0]);
      Answered(s.messages, Ids(calls));
      assert Ids(calls)[1..] == Ids(calls[1..]);
      if !Over(t) {
        DispatchSettles(b, t, calls[1..]);
      }
    }
  }

  /** Every history that a model turn was asked with is settled, and whoever is offered
      only the decision has been told so. */
  ghost predicate GoodAsks(asked: seq<Asked>) {
    forall k :: 0 <= k < |asked| ==>
      Settled(asked[k].history) && (asked[k].decisionOnly ==> ForceNotice in asked[k].history)
  }

  ghost predicate Tidy(s: State) {
    GoodAsks(s.asked) && (Over(s) || Settled(s.messages)) && (s.forced ==> ForceNotice in s.messages)
  }

  lemma {:induction false} AskKeeps(b: Budget, s: State)
    requires Tidy(s) && !Over(s)
    ensures Tidy(Ask(b, s)) && !Over(Ask(b, s))
  {
    Spoken(s.messages, ForceNotice);
  }

  lemma {:induction false} ReactKeeps(b: Budget, s: State, turn: Turn)
    requires Tidy(s) && !Over(s) && !turn.Fails?
    ensures Tidy(React(b, s, turn))
  {
    match turn {
      case Says =>
        Spoken(s.messages, Assistant([]));
        Spoken(s.messages + [Assistant([])], MissingNotice);
      case Calls(calls) =>
        var u := Say(s, Assistant(Ids(calls)));
        Spoken(s.messages, Assistant(Ids(calls)));
        DispatchSettles(b, u, calls);
    }
  }

  /** Before every model turn each earlier tool call has exactly one answer, refused reads
      included. */
  lemma {:induction false} HistoriesSettle(b: Budget, s: State, w: World)
    requires Tidy(s)
    ensures Tidy(Inquire(b, s, w))
    decreases b.maxModelCalls - s.modelCalls
  {
    if !Over(s) && !w.cut(s.modelCalls) && !Stops(b, s, w) {
      AskKeeps(b, s);
      if !GivesUp(b, s, w.turn(s.modelCalls)) {
        ReactKeeps(b, Ask(b, s), w.turn(s.modelCalls));
        HistoriesSettle(b, React(b, Ask(b, s), w.turn(s.modelCalls)), w);
      }
    }
  }

  // ---- how the inquiry ends -----------------------------------------------

  /** The call at `i` is the first one that ends its turn: it meets an abort signal, or it is
      a decision whose arguments are accepted. */
  ghost predicate EndsTurn(calls: seq<Call>, i: nat) {
    && i < |calls| && (calls[i].cut || (calls[i].decision && calls[i].row.Some?))
    && forall j :: 0 <= j < i ==> !calls[j].cut && !(calls[j].decision && calls[j].row.Some?)
  }

  ghost predicate CutIn(turn: Turn) {
    turn.Calls? && exists i: nat :: EndsTurn(turn.calls, i) && turn.calls[i].cut
  }

  ghost predicate Submits(turn: Turn, row: ScopeDecision.Row) {
    turn.Calls? && exists i: nat :: EndsTurn(turn.calls, i) && !turn.calls[i].cut && turn.calls[i].row == Some(row)
  }

  lemma {:induction false} TurnOn(calls: seq<Call>, i: nat)
    requires calls != [] && !calls[0].cut && !(calls[0].decision && calls[0].row.Some?)
    ensures EndsTurn(calls, i + 1) <==> EndsTurn(calls[1..], i)
    ensures !EndsTurn(calls, 0)
  {
    assert forall j :: 0 <= j < |calls[1..]| ==> calls[1..][j] == calls[j + 1];
    assert forall j :: 0 < j < |calls| ==> calls[j] == calls[1..][j - 1];
  }

  lemma {:induction false} DispatchEnds(b: Budget, s: State, calls: seq<Call>, row: ScopeDecision.Row)
    requires !Over(s)
    ensures var r := Dispatch(b, s, calls);
      && (r.aborted <==> CutIn(Calls(calls)))
      && (r.submitted == Some(row) <==> Submits(Calls(calls), row))
    decreases |calls|
  {
    if calls != [] {
      var t := Serve(b, s, calls[0]);
      if Over(t) {
        assert EndsTurn(calls, 0);
        assert Dispatch(b, t, calls[1..]) == t;
      } else {
        DispatchEnds(b, t, calls[1..], row);
        forall i: nat ensures EndsTurn(calls, i + 1) <==> EndsTurn(calls[1..], i) {
          TurnOn(calls, i);
        }
        TurnOn(calls, 0);
        SameEnds(calls, row);
      }
    }
  }

  lemma {:induction false} SameEnds(calls: seq<Call>, row: ScopeDecision.Row)
    requires calls != [] && !EndsTurn(calls, 0) && forall i: nat :: EndsTurn(calls, i + 1) <==> EndsTurn(calls[1..], i)
    ensures CutIn(Calls(calls)) <==> CutIn(Calls(calls[1..]))
    ensures Submits(Calls(calls), row) <==> Submits(Calls(calls[1..]), row)
  {
    forall i: nat | EndsTurn(calls, i)
      ensures i > 0 && EndsTurn(calls[1..], i - 1) && calls[1..][i - 1] == calls[i]
    {
      if i > 0 {
        var j: nat := i - 1;
        assert EndsTurn(calls, j + 1);
      }
    }
    forall i: nat | EndsTurn(calls[1..], i)
      ensures EndsTurn(calls, i + 1) && calls[1..][i] == calls[i + 1]
    {
    }
  }

  /** Turn `k`, offered as `asked` says, leaves the inquiry undecided: prose while reads are
      still offered, or calls none of which ends it. */
  ghost predicate GoesOn(asked: seq<Asked>, w: World, k: nat) {
    && k < |asked|
    && match w.turn(k)
       case Fails => false
       case Says => !asked[k].decisionOnly
       case Calls(calls) => forall i: nat :: !EndsTurn(calls, i)
  }

  /** Nothing but the turns `from` to `until` was asked, each in time and within the budget,
      and all but the last left the inquiry undecided. */
  ghost predicate AskedThrough(b: Budget, asked: seq<Asked>, w: World, from: nat, until: nat) {
    && (forall k: nat :: from <= k < until ==> !w.cut(k) && !w.late(k) && k < b.maxModelCalls)
    && (forall k: nat :: from <= k && k + 1 < until ==> GoesOn(asked, w, k))
  }

  /** How the inquiry can have ended after `n` turns. */
  ghost predicate EndsAs(b: Budget, u: State, w: World, from: nat, row: ScopeDecision.Row) {
    var n := u.modelCalls;
    var open := n <= from || GoesOn(u.asked, w, n - 1);
    && (u.submitted == Some(row) <==> n > from && Submits(w.turn(n - 1), row))
    && (u.aborted <==> (n > from && CutIn(w.turn(n - 1))) || (open && w.cut(n)))
    && (!Over(u) && open ==> w.late(n) || n >= b.maxModelCalls)
  }

  lemma {:induction false} CallsEnd(b: Budget, s: State, w: World, row: ScopeDecision.Row)
    requires !Over(s) && |s.asked| == s.modelCalls && !w.turn(s.modelCalls).Fails?
    ensures var k := s.modelCalls; var t := React(b, Ask(b, s), w.turn(k));
      && t.asked == Ask(b, s).asked && |t.asked| == t.modelCalls == k + 1
      && (t.aborted <==> CutIn(w.turn(k))) && (t.submitted == Some(row) <==> Submits(w.turn(k), row))
  {
    var turn := w.turn(s.modelCalls);
    if turn.Calls? {
      DispatchEnds(b, Say(Ask(b, s), Assistant(Ids(turn.calls))), turn.calls, row);
    }
  }

  lemma {:induction false} OpenGoesOn(b: Budget, s: State, w: World)
    requires !Over(s) && |s.asked| == s.modelCalls && !GivesUp(b, s, w.turn(s.modelCalls))
    ensures var k := s.modelCalls; var t := React(b, Ask(b, s), w.turn(k));
      !Over(t) <==> GoesOn(t.asked, w, k)
  {
    var turn := w.turn(s.modelCalls);
    if turn.Calls? {
      var u := Say(Ask(b, s), Assistant(Ids(turn.calls)));
      var t := Dispatch(b, u, turn.calls);
      var row := ScopeDecision.Row(None, None, map[], None, None, ScopeDecision.Absent);
      DispatchEnds(b, u, turn.calls, if t.submitted.Some? then t.submitted.value else row);
      if !Over(t) {
        forall i: nat ensures !EndsTurn(turn.calls, i) {
          if EndsTurn(turn.calls, i) && !turn.calls[i].cut {
            DispatchEnds(b, u, turn.calls, turn.calls[i].row.value);
          }
        }
      }
    }
  }

  lemma {:induction false} GivingUpEnds(b: Budget, s: State, w: World, row: ScopeDecision.Row)
    requires !Over(s) && |s.asked| == s.modelCalls && !w.cut(s.modelCalls) && !Stops(b, s, w) && GivesUp(b, s, w.turn(s.modelCalls))
    ensures var u := Ask(b, s);
      && u.modelCalls == |u.asked| == s.modelCalls + 1 && s.asked <= u.asked
      && AskedThrough(b, u.asked, w, s.modelCalls, u.modelCalls) && EndsAs(b, u, w, s.modelCalls, row)
  {
    var u := Ask(b, s);
    assert u.asked[s.modelCalls].decisionOnly == MustDecide(b, s);
    assert !GoesOn(u.asked, w, s.modelCalls);
  }

  /** The turn `k` before an end that begins at `k + 1`. */
  lemma {:induction false} OneTurnMore(b: Budget, u: State, w: World, k: nat, row: ScopeDecision.Row)
    requires !w.cut(k) && !w.late(k) && k < b.maxModelCalls && GoesOn(u.asked, w, k) && k + 1 <= u.modelCalls
    requires AskedThrough(b, u.asked, w, k + 1, u.modelCalls) && EndsAs(b, u, w, k + 1, row)
    requires !Submits(w.turn(k), row) && !CutIn(w.turn(k))
    ensures AskedThrough(b, u.asked, w, k, u.modelCalls) && EndsAs(b, u, w, k, row)
  {
  }

  lemma {:induction false} InquireEnds(b: Budget, s: State, w: World, row: ScopeDecision.Row)
    requires !Over(s) && |s.asked| == s.modelCalls
    ensures var u := Inquire(b, s, w);
      && s.modelCalls <= u.modelCalls == |u.asked| && s.asked <= u.asked
      && AskedThrough(b, u.asked, w, s.modelCalls, u.modelCalls)
      && EndsAs(b, u, w, s.modelCalls, row)
    decreases b.maxModelCalls - s.modelCalls
  {
    var k := s.modelCalls;
    if !w.cut(k) && !Stops(b, s, w) {
      if GivesUp(b, s, w.turn(k)) {
        GivingUpEnds(b, s, w, row);
      } else {
        var t := React(b, Ask(b, s), w.turn(k));
        CallsEnd(b, s, w, row);
        OpenGoesOn(b, s, w);
        if Over(t) {
          assert Inquire(b, t, w) == t;
        } else {
          InquireEnds(b, t, w, row);
          assert Inquire(b, t, w).asked[k] == t.asked[k];
          OneTurnMore(b, Inquire(b, t, w), w, k, row);
        }
      }
    }
  }

  /** Whatever the model and the clock do: the inquiry asks turn after turn, each in time and
      within the budget, until one ends it.  It has a decision exactly if the last turn asked
      submitted that one first, is aborted exactly if a call of the last turn or the next look
      at the signal met it, and has neither only if the last turn failed, brought prose where
      a decision was due, or the time or the calls ran out. */
  lemma {:induction false} EndIsExact(b: Budget, w: World, row: ScopeDecision.Row)
    ensures var u := Inquire(b, Start(), w);
      |u.asked| == u.modelCalls && AskedThrough(b, u.asked, w, 0, u.modelCalls) && EndsAs(b, u, w, 0, row)
  {
    InquireEnds(b, Start(), w, row);
  }

  // ---- the whole inquiry --------------------------------------------------

  /** The recommendation, when there was a decision and it passed. */
  function Recommend(trim: ScopeDecision.Trim, b: Budget, w: World, actions: seq<ScopeDecision.Action>)
    : Option<ScopeDecision.Recommendation>
  {
    var s := Inquire(b, Start(), w);
    if s.aborted || s.submitted.None? then None
    else
      match ScopeDecision.Finalize(trim, s.submitted.value, actions)
      case Err(_) => None
      case Ok(recommendation) => Some(recommendation)
  }

  /** Whatever the model does, a recommendation is backed by the ontology, was reached
      within the model budget, and no turn saw an unanswered call. */
  lemma {:induction false} InquiryIsSound(trim: ScopeDecision.Trim, b: Budget, w: World, actions: seq<ScopeDecision.Action>)
    ensures var s := Inquire(b, Start(), w);
      && s.modelCalls <= Max(0, b.maxModelCalls) && s.readCalls <= Max(0, b.maxToolCalls - 1)
      && GoodAsks(s.asked)
    ensures Recommend(trim, b, w, actions).Some? ==>
      ScopeDecision.Guaranteed(actions, Recommend(trim, b, w, actions).value)
  {
    BudgetsHold(b, Start(), w);
    assert Settled([Opening]) by { assert [Opening][..0] == []; }
    HistoriesSettle(b, Start(), w);
    var s := Inquire(b, Start(), w);
    if Recommend(trim, b, w, actions).Some? {
      ScopeDecision.RecommendationIsGuaranteed(trim, s.submitted.value, actions);
    }
  }

  // ---- the loop as it runs ------------------------------------------------

  /** The calls of one turn, from the point where the assistant has spoken. */
  method ServeCalls(b: Budget, start: State, calls: seq<Call>) returns (s: State)
    requires !Over(start)
    ensures s == Dispatch(b, start, calls)
  {
    var messages := start.messages;
    var toolCalls: nat, readCalls: nat, extra: nat := start.toolCalls, start.readCalls, start.extra;
    var submitted: Option<ScopeDecision.Row>, aborted := None, false;
    var readBudget := b.maxToolCalls - RESERVE;
    var i := 0;
    s := start;
    while i < |calls| && submitted.None? && !aborted
      invariant 0 <= i <= |calls|
      invariant s == start.(messages := messages, toolCalls := toolCalls, readCalls := readCalls, extra := extra,
                            submitted := submitted, aborted := aborted)
      invariant Dispatch(b, s, calls[i..]) == Dispatch(b, start, calls)
    {
      var call := calls[i];
      assert calls[i..][1..] == calls[i + 1..];
      i := i + 1;
      if call.cut {
        aborted := true;
      } else if !call.decision && toolCalls >= readBudget {
        messages := messages + [Answer(call.id)];
      } else {
        extra := if toolCalls >= readBudget then extra + 1 else extra;
        toolCalls := toolCalls + 1;
        messages := messages + [Answer(call.id)];
        if call.decision {
          submitted := call.row;
        } else {
          readCalls := readCalls + 1;
        }
      }
      s := start.(messages := messages, toolCalls := toolCalls, readCalls := readCalls, extra := extra,
                  submitted := submitted, aborted := aborted);
    }
  }

  method Run(b: Budget, w: World) returns (s: State)
    ensures s == Inquire(b, Start(), w)
  {
    s := Start();
    while s.submitted.None? && !s.aborted
      invariant Inquire(b, s, w) == Inquire(b, Start(), w)
      decreases b.maxModelCalls - s.modelCalls, if s.aborted then 0 else 1
    {
      if w.cut(s.modelCalls) {
        s := s.(aborted := true);
        break;
      }
      if w.late(s.modelCalls) || s.modelCalls >= b.maxModelCalls {
        break;
      }
      var must := b.maxModelCalls - s.modelCalls <= 1 || s.toolCalls >= b.maxToolCalls - RESERVE;
      var turn := w.turn(s.modelCalls);
      var messages := if must && !s.forced then s.messages + [ForceNotice] else s.messages;
      s := s.(messages := messages, forced := s.forced || must, modelCalls := s.modelCalls + 1, asked := s.asked + [Asked(messages, must)]);
      if turn.Fails? || (turn.Says? && must) {
        break;
      }
      match turn {
        case Says => s := s.(messages := s.messages + [Assistant([])] + [MissingNotice]);
        case Calls(calls) => s := ServeCalls(b, s.(messages := s.messages + [Assistant(Ids(calls))]), calls);
      }
    }
  }
}

/** What each model turn of a scope inquiry is offered. */
module ScopeOffers {
  import opened ScopeInquiry

  function Answers(messages: seq<Message>): (n: nat)
    ensures n <= |messages|
  {
    if messages == [] then 0
    else Answers(messages[..|messages| - 1]) + (if messages[|messages| - 1].Answer? then 1 else 0)
  }

  function Notices(messages: seq<Message>): (n: nat)
    ensures n <= |messages|
  {
    if messages == [] then 0
    else Notices(messages[..|messages| - 1]) + (if messages[|messages| - 1].ForceNotice? then 1 else 0)
  }

  lemma {:induction false} OneMore(messages: seq<Message>, m: Message)
    ensures Answers(messages + [m]) == Answers(messages) + (if m.Answer? then 1 else 0)
    ensures Notices(messages + [m]) == Notices(messages) + (if m.ForceNotice? then 1 else 0)
  {
    assert (messages + [m])[..|messages|] == messages;
  }

  predicate OpensOnce(messages: seq<Message>) {
    messages != [] && forall i :: 0 <= i < |messages| ==> (messages[i].Opening? <==> i == 0)
  }

  /** The history opens once.  Only the decision is offered exactly at the last model call and once the calls answered
      so far have used up what is kept for reads; and whoever is offered only the decision has
      been told so exactly once, everybody else never. */
  ghost predicate Offered(b: Budget, asked: seq<Asked>, k: nat)
    requires k < |asked|
  {
    var history := asked[k].history;
    && OpensOnce(history)
    && (asked[k].decisionOnly <==> k + 1 >= b.maxModelCalls || Answers(history) >= b.maxToolCalls - 1)
    && Notices(history) == (if asked[k].decisionOnly then 1 else 0)
  }

  /** Reads are refused, and so answered without being executed, only once the budget for
      them is spent. */
  ghost predicate Fair(b: Budget, s: State) {
    && OpensOnce(s.messages) && |s.asked| == s.modelCalls
    && s.toolCalls <= Answers(s.messages) && (s.toolCalls < ReadBudget(b) ==> Answers(s.messages) == s.toolCalls)
    && Notices(s.messages) == (if s.forced then 1 else 0) && (s.forced ==> MustDecide(b, s))
    && forall k: nat :: k < |s.asked| ==> Offered(b, s.asked, k)
  }

  lemma {:induction false} AskIsFair(b: Budget, s: State)
    requires Fair(b, s)
    ensures Fair(b, Ask(b, s))
  {
    OneMore(s.messages, ForceNotice);
    var t := Ask(b, s);
    forall k: nat | k < |t.asked|
      ensures Offered(b, t.asked, k)
    {
      if k < |s.asked| {
        assert t.asked[k] == s.asked[k] && Offered(b, s.asked, k);
      } else {
        assert t.asked[k] == Asked(t.messages, MustDecide(b, s));
      }
    }
  }

  lemma {:induction false} DispatchIsFair(b: Budget, s: State, calls: seq<Call>)
    requires Fair(b, s)
    ensures Fair(b, Dispatch(b, s, calls))
    decreases |calls|
  {
    if calls != [] && !Over(s) {
      OneMore(s.messages, Answer(calls[0].id));
      DispatchIsFair(b, Serve(b, s, calls[0]), calls[1..]);
    }
  }

  lemma {:induction false} ReactIsFair(b: Budget, s: State, turn: Turn)
    requires Fair(b, s) && !turn.Fails?
    ensures Fair(b, React(b, s, turn))
  {
    match turn {
      case Says =>
        OneMore(s.messages, Assistant([]));
        OneMore(s.messages + [Assistant([])], MissingNotice);
      case Calls(calls) =>
        OneMore(s.messages, Assistant(Ids(calls)));
        DispatchIsFair(b, Say(s, Assistant(Ids(calls))), calls);
    }
  }

  lemma {:induction false} InquireIsFair(b: Budget, s: State, w: World)
    requires Fair(b, s)
    ensures Fair(b, Inquire(b, s, w))
    decreases b.maxModelCalls - s.modelCalls
  {
    if !Over(s) && !w.cut(s.modelCalls) && !Stops(b, s, w) {
      AskIsFair(b, s);
      if !GivesUp(b, s, w.turn(s.modelCalls)) {
        ReactIsFair(b, Ask(b, s), w.turn(s.modelCalls));
        InquireIsFair(b, React(b, Ask(b, s), w.turn(s.modelCalls)), w);
      }
    }
  }

  /** Every turn of every inquiry is offered reads or only the decision as the budgets say. */
  lemma {:induction false} OffersAreExact(b: Budget, w: World, k: nat)
    requires k < |Inquire(b, Start(), w).asked|
    ensures Offered(b, Inquire(b, Start(), w).asked, k)
  {
    OneMore([], Opening);
    assert [] + [Opening] == [Opening];
    InquireIsFair(b, Start(), w);
  }

  // ---- what the reads are -------------------------------------------------

  /** Executed calls are reads, but for the decision that ends the inquiry. */
  ghost predicate ReadsCounted(s: State) {
    s.toolCalls == s.readCalls + (if s.submitted.Some? then 1 else 0)
  }

  lemma {:induction false} DispatchCounts(b: Budget, s: State, calls: seq<Call>)
    requires ReadsCounted(s) && forall i :: 0 <= i < |calls| && calls[i].decision ==> calls[i].row.Some?
    ensures ReadsCounted(Dispatch(b, s, calls))
    decreases |calls|
  {
    if calls != [] && !Over(s) {
      assert forall i :: 0 <= i < |calls[1..]| ==> calls[1..][i] == calls[i + 1];
      DispatchCounts(b, Serve(b, s, calls[0]), calls[1..]);
    }
  }

  lemma {:induction false} InquireCounts(b: Budget, s: State, w: World)
    requires Decisive(w) && ReadsCounted(s)
    ensures ReadsCounted(Inquire(b, s, w))
    decreases b.maxModelCalls - s.modelCalls
  {
    if !Over(s) && !w.cut(s.modelCalls) && !Stops(b, s, w) && !GivesUp(b, s, w.turn(s.modelCalls)) {
      var t := Ask(b, s);
      if w.turn(s.modelCalls).Calls? {
        var calls := w.turn(s.modelCalls).calls;
        DispatchCounts(b, Say(t, Assistant(Ids(calls))), calls);
      }
      InquireCounts(b, React(b, t, w.turn(s.modelCalls)), w);
    }
  }

  /** Where no decision is refused, every executed call but an accepted decision is a read. */
  lemma {:induction false} ReadsAreCounted(b: Budget, w: World)
    requires Decisive(w)
    ensures ReadsCounted(Inquire(b, Start(), w))
  {
    InquireCounts(b, Start(), w);
  }
}

/** What each event of the workload answers and changes, case by case: under which condition
    an execute request, a cancel command or a resumed handler gets which answer, and what it
    leaves in the fence store, among the executions and in the cache.  The theorems over runs
    are proved elsewhere; here is what they do not say, namely that nobody is refused without
    the reason for it. */
module WorkloadAnswers {
  import opened SandboxTypes
  import opened CancelFence
  import opened WorkloadModel
  import opened WorkloadSafety

  // ---- the answer to an execute request ------------------------------------

  /** The fence of the attempt is for this bundle and App. */
  predicate FenceMatches(cfg: Config, fence: Fence, b: Bundle) {
    fence.bundle == b && fence.slug == b.slug && fence.appId == AppId(cfg.appPrefix, b.slug)
  }

  /** Another bundle, or App, holds the attempt. */
  ghost predicate Taken(cfg: Config, s: State, b: Bundle) {
    var a := b.attemptId;
    if a in s.cache.terminal then s.cache.terminal[a].bundle != b
    else if a in s.runs.active then s.runs.active[a].bundle != b
    else a in s.store.files && !FenceMatches(cfg, s.store.files[a], b)
  }

  /** Nothing is known of the attempt: no result, no execution, no fence. */
  ghost predicate Unknown(s: State, a: AttemptId) {
    a !in s.cache.terminal && a !in s.runs.active && a !in s.store.files
  }

  /** The one new answer may be that of request `id`. */
  ghost predicate AnswersOnly(s: State, t: State, id: RequestId) {
    forall i :: i != id ==> (i in t.log.answers <==> i in s.log.answers) && (i in s.log.answers ==> t.log.answers[i] == s.log.answers[i])
  }

  ghost predicate Answers(s: State, id: RequestId, answer: Answer) {
    id in s.log.answers && s.log.answers[id] == answer
  }

  lemma {:induction false} JudgeCases(cfg: Config, s: State, b: Bundle, ready: bool, valid: bool)
    requires s.store.fences == s.store.files
    ensures var v := Judge(cfg, s, b, ready, valid); var fit := ready && valid; var a := b.attemptId;
      && (v.NotReady? <==> !ready)
      && (v.Invalid? <==> ready && !valid)
      && (v.Collision? <==> fit && Taken(cfg, s, b))
      && (v.Replay? <==> fit && !Taken(cfg, s, b) && a in s.cache.terminal)
      && (v.Join? <==> fit && !Taken(cfg, s, b) && a !in s.cache.terminal && a in s.runs.active)
      && (v.CleanupOnly? <==> fit && !Taken(cfg, s, b) && a !in s.cache.terminal && a !in s.runs.active && a in s.store.files)
      && (v.Busy? <==> fit && Unknown(s, a) && s.runs.active != map[])
      && (v.Launch? <==> fit && Unknown(s, a) && s.runs.active == map[])
      && (v.Replay? ==> v.result == s.cache.terminal[a])
      && (v.Join? ==> v.run == s.runs.active[a].owner)
  {
  }

  /** When a request that was checked against the reaper is refused, and how. */
  lemma {:induction false} RefusalIsExact(cfg: Config, s: State, e: Event)
    requires Inv(s) && Enabled(s, s.now, e) && e.ExecuteDecides?
    ensures var t := React(cfg, s, e); var b := s.handlers[e.id].bundle;
      && AnswersOnly(s, t, e.id)
      && (Answers(t, e.id, Unready) <==> !e.cleanupReady)
      && (Answers(t, e.id, BadCommand) <==> e.cleanupReady && !e.commandValid)
      && (Answers(t, e.id, Collided) <==> e.cleanupReady && e.commandValid && Taken(cfg, s, b))
      && (Answers(t, e.id, Overloaded) <==> e.cleanupReady && e.commandValid && Unknown(s, b.attemptId) && s.runs.active != map[])
  {
    assert PcOk(s, e.id, s.handlers[e.id]);
    var b := s.handlers[e.id].bundle;
    JudgeCases(cfg, s, b, e.cleanupReady, e.commandValid);
    VerdictAnswers(s, e.id, b, Judge(cfg, s, b, e.cleanupReady, e.commandValid), e.accepted);
  }

  lemma {:induction false} VerdictAnswers(s: State, id: RequestId, b: Bundle, v: Verdict, accepted: bool)
    requires id !in s.log.answers
    ensures var t := Decide(s, id, b, v, accepted);
      && AnswersOnly(s, t, id)
      && (Answers(t, id, Unready) <==> v.NotReady?) && (Answers(t, id, BadCommand) <==> v.Invalid?)
      && (Answers(t, id, Collided) <==> v.Collision?) && (Answers(t, id, Overloaded) <==> v.Busy?)
      && (forall r :: Answers(t, id, Told(r)) <==> v == Replay(r))
  {
  }

  /** When it is answered from memory, when it joins an execution, and when it gets no
      further than the cleanup of a fenced attempt. */
  lemma {:induction false} RetryIsExact(cfg: Config, s: State, e: Event, result: Terminal)
    requires Inv(s) && Enabled(s, s.now, e) && e.ExecuteDecides?
    ensures var t := React(cfg, s, e); var b := s.handlers[e.id].bundle; var a := b.attemptId;
      var fit := e.cleanupReady && e.commandValid && !Taken(cfg, s, b);
      && (Answers(t, e.id, Told(result)) <==> fit && a in s.cache.terminal && s.cache.terminal[a] == result)
      && (e.id in t.handlers && t.handlers[e.id].FencedCleanup? <==>
           fit && a !in s.cache.terminal && a !in s.runs.active && a in s.store.files)
      && (fit && a !in s.cache.terminal && a in s.runs.active ==>
           e.id in t.handlers && t.handlers[e.id] == AwaitingRun(b, s.runs.active[a].owner) && t.runs == s.runs)
  {
    assert PcOk(s, e.id, s.handlers[e.id]);
    var b := s.handlers[e.id].bundle;
    JudgeCases(cfg, s, b, e.cleanupReady, e.commandValid);
    VerdictAnswers(s, e.id, b, Judge(cfg, s, b, e.cleanupReady, e.commandValid), e.accepted);
    VerdictWaits(s, e.id, b, Judge(cfg, s, b, e.cleanupReady, e.commandValid), e.accepted);
  }

  lemma {:induction false} VerdictWaits(s: State, id: RequestId, b: Bundle, v: Verdict, accepted: bool)
    ensures var t := Decide(s, id, b, v, accepted);
      && (id in t.handlers && t.handlers[id].FencedCleanup? <==> v.CleanupOnly?)
      && (v.Join? ==> id in t.handlers && t.handlers[id] == AwaitingRun(b, v.run))
      && (v.Launch? || (t.runs == s.runs && t.log.started == s.log.started))
  {
  }

  /** When an execution starts, and of what. */
  lemma {:induction false} StartIsExact(cfg: Config, s: State, e: Event)
    requires Inv(s) && Enabled(s, s.now, e) && e.ExecuteDecides?
    ensures var t := React(cfg, s, e); var b := s.handlers[e.id].bundle;
      if e.cleanupReady && e.commandValid && Unknown(s, b.attemptId) && s.runs.active == map[]
      then
        && t.runs == s.runs.(active := map[b.attemptId := Execution(b, e.id, false, e.accepted && s.now <= b.expiresAt + BUNDLE_SKEW_MS)])
        && t.handlers == s.handlers[e.id := AwaitingRun(b, e.id)]
        && t.log.started == s.log.started + {e.id}
      else t.runs == s.runs && t.log.started == s.log.started
  {
    assert PcOk(s, e.id, s.handlers[e.id]);
    var b := s.handlers[e.id].bundle;
    JudgeCases(cfg, s, b, e.cleanupReady, e.commandValid);
    VerdictWaits(s, e.id, b, Judge(cfg, s, b, e.cleanupReady, e.commandValid), e.accepted);
  }

  // ---- the answer to a cancel command --------------------------------------

  /** From its look at the attempt on, a cancel handler is done and acknowledges the fence
      exactly if a result of the fenced bundle is remembered or nothing of the attempt is
      active; it aborts the execution and waits exactly if that is of the fenced bundle;
      and it is done without an acknowledgement otherwise.  The receipt of a repair needs
      a clean ledger and an inactive attempt. */
  ghost predicate LooksAt(s: State, t: State, id: RequestId, a: AttemptId, f: Fence, repair: bool, clean: bool) {
    var known := a in s.cache.terminal || a !in s.runs.active;
    var held := a in s.cache.terminal && s.cache.terminal[a].bundle != f.bundle;
    var same := a in s.runs.active && s.runs.active[a].bundle == f.bundle && f.bundle.slug == f.slug;
    && t.log.acks == (if known && !held
                      then s.log.acks + {Ack(a, f.bundle, f.slug, f.appId, repair && clean && a !in s.runs.active)}
                      else s.log.acks)
    && t.handlers == (if !known && same
                      then s.handlers[id := AwaitingCancelled(a, f, s.runs.active[a].owner, repair)]
                      else s.handlers - {id})
    && t.runs == (if !known && same
                  then s.runs.(active := s.runs.active[a := s.runs.active[a].(aborted := true)])
                  else s.runs)
  }

  lemma {:induction false} TailLooks(s: State, id: RequestId, a: AttemptId, f: Fence, repair: bool, clean: bool)
    ensures LooksAt(s, FinishCancel(s, id, a, f, repair, clean), id, a, f, repair, clean)
  {
  }

  /** The command names its own App, asks for at most 30 days, and its attempt is fenced
      for the same bundle and App, or is not fenced and there is room. */
  ghost predicate MayFence(cfg: Config, s: State, c: Request) {
    && c.appId == cfg.appPrefix + "-" + c.slug
    && s.now < c.expiresAt <= s.now + 30 * 24 * 3_600_000
    && SafeId(c.attemptId) && SafeId(c.slug) && SafeId(c.appId)
    && if c.attemptId in s.store.files
       then var f := s.store.files[c.attemptId]; f.bundle == c.bundle && f.slug == c.slug && f.appId == c.appId
       else |s.store.files| < cfg.maxEntries
  }

  ghost predicate FencesOnce(s: State, t: State, c: Request) {
    && t.store.fences == t.store.files
    && t.store.files == (if c.attemptId in s.store.files then s.store.files
                         else s.store.files[c.attemptId := Fence(c.bundle, c.slug, c.appId, s.now, c.expiresAt)])
  }

  /** A cancel command is refused with nothing changed, or its fence is durable; then a
      repair of an inactive attempt waits for the reconciliation, and every other command
      looks at the attempt at once. */
  ghost predicate Cancels(cfg: Config, s: State, t: State, command: CancelCommand, clean: bool) {
    var c := command.request;
    if MayFence(cfg, s, c)
    then
      && FencesOnce(s, t, c)
      && if command.repair && c.attemptId !in s.runs.active
         then
           && t.handlers == s.handlers[s.next := RepairCleanup(c.attemptId, t.store.files[c.attemptId])]
           && t.runs == s.runs && t.log.acks == s.log.acks
         else LooksAt(s, t, s.next, c.attemptId, t.store.files[c.attemptId], command.repair, clean)
    else t.store == s.store && t.runs == s.runs && t.handlers == s.handlers && t.log.acks == s.log.acks
  }

  lemma {:induction false} CancelIsExact(cfg: Config, s: State, e: Event)
    requires Inv(s) && Enabled(s, s.now, e) && e.CancelArrives?
    ensures Cancels(cfg, s, React(cfg, s, e), e.command, e.ledgerClean)
  {
    AdmitIsExact(cfg, s, e.command);
    ProceedCancels(cfg, s, Admit(cfg, s.(next := s.next + 1), e.command), e.command, e.ledgerClean);
  }

  /** What admitting the command leaves behind. */
  ghost predicate Admits(cfg: Config, s: State, admitted: (State, Option<Fence>), c: Request) {
    && (admitted.1.Some? <==> MayFence(cfg, s, c))
    && (if admitted.1.Some? then FencesOnce(s, admitted.0, c) && admitted.1.value == admitted.0.store.files[c.attemptId]
        else admitted.0.store == s.store)
    && admitted.0.runs == s.runs && admitted.0.handlers == s.handlers && admitted.0.cache == s.cache
    && admitted.0.log.acks == s.log.acks
  }

  lemma {:induction false} AdmitIsExact(cfg: Config, s: State, command: CancelCommand)
    requires s.store.fences == s.store.files
    ensures Admits(cfg, s, Admit(cfg, s.(next := s.next + 1), command), command.request)
  {
    InstallIsExact(cfg, s, command.request);
    AdmitFollows(cfg, s, command);
  }

  lemma {:induction false} ProceedCancels(cfg: Config, s: State, admitted: (State, Option<Fence>), command: CancelCommand, clean: bool)
    requires Admits(cfg, s, admitted, command.request)
    ensures Cancels(cfg, s, Proceed(admitted, s.next, command, clean), command, clean)
  {
    if admitted.1.Some? {
      FenceIsLookedUp(admitted.0, s, s.next, command, admitted.1.value, clean);
    }
  }

  lemma {:induction false} InstallIsExact(cfg: Config, s: State, c: Request)
    requires s.store.fences == s.store.files
    ensures var installed := Install(s.store.fences, cfg.maxEntries, c, s.now);
      && (installed.Some? && c.appId == cfg.appPrefix + "-" + c.slug && c.expiresAt <= s.now + 30 * 24 * 3_600_000 <==> MayFence(cfg, s, c))
      && (installed.Some? ==>
           && FencesOnce(s, s.(store := Store(s.store.files[c.attemptId := installed.value.1], installed.value.0)), c)
           && c.attemptId in installed.value.0 && installed.value.0[c.attemptId] == installed.value.1)
      && (installed.Some? ==> s.now < c.expiresAt)
  {
  }

  lemma {:induction false} AdmitFollows(cfg: Config, s: State, command: CancelCommand)
    ensures var c := command.request; var installed := Install(s.store.fences, cfg.maxEntries, c, s.now);
      var admitted := Admit(cfg, s.(next := s.next + 1), command);
      && (admitted.1.Some? <==> installed.Some? && CommandAccepted(cfg, s.now, command))
      && (admitted.1.Some? ==>
           admitted.1.value == installed.value.1
           && admitted.0.store == Store(s.store.files[c.attemptId := installed.value.1], installed.value.0))
      && (admitted.1.None? ==> admitted.0.store == s.store)
      && admitted.0.runs == s.runs && admitted.0.handlers == s.handlers && admitted.0.cache == s.cache && admitted.0.log.acks == s.log.acks
  {
  }

  lemma {:induction false} FenceIsLookedUp(f: State, s: State, id: RequestId, command: CancelCommand, fence: Fence, clean: bool)
    requires f.runs == s.runs && f.handlers == s.handlers && f.cache == s.cache && f.log.acks == s.log.acks
    ensures var t := AfterFence(f, id, command, fence, clean); var a := command.request.attemptId;
      && t.store == f.store
      && if command.repair && a !in s.runs.active
         then t.handlers == s.handlers[id := RepairCleanup(a, fence)] && t.runs == s.runs && t.log.acks == s.log.acks
         else LooksAt(s, t, id, a, fence, command.repair, clean)
  {
    TailLooks(f, id, command.request.attemptId, fence, command.repair, clean);
    FinishCancelLooks(f, id, command.request.attemptId, fence, command.repair, clean);
  }

  /** After a repair's reconciliation the handler looks at the attempt; one that failed is
      the end of it. */
  lemma {:induction false} RepairIsExact(cfg: Config, s: State, e: Event)
    requires Enabled(s, s.now, e) && e.RepairReconciled?
    ensures var t := React(cfg, s, e); var pc := s.handlers[e.id];
      && t.store == s.store
      && if e.ok then LooksAt(s, t, e.id, pc.attemptId, pc.fence, true, e.ledgerClean)
         else t.handlers == s.handlers - {e.id} && t.runs == s.runs && t.log.acks == s.log.acks
  {
    TailLooks(s, e.id, s.handlers[e.id].attemptId, s.handlers[e.id].fence, true, e.ledgerClean);
    FinishCancelLooks(s, e.id, s.handlers[e.id].attemptId, s.handlers[e.id].fence, true, e.ledgerClean);
  }

  // ---- what a settled execution and a fence's cleanup are answered with -----

  /** A handler that waited for an execution answers with its result, or with the reaper's
      failure.  A cancel acknowledges the fence exactly if there is a result.  The request
      that owns the execution and every cancel remember the result. */
  lemma {:induction false} SettledIsExact(cfg: Config, s: State, e: Event)
    requires Inv(s) && Enabled(s, s.now, e) && e.HandlerResumes?
    ensures var t := React(cfg, s, e); var pc := s.handlers[e.id]; var result := s.runs.settled[pc.run];
      && t.handlers == s.handlers - {e.id} && t.runs == s.runs && t.store == s.store
      && match pc
         case AwaitingRun(b, run) =>
           && Answers(t, e.id, if result.Some? then Told(result.value) else Crashed) && t.log.acks == s.log.acks
           && (result.Some? && run == e.id ==> b.attemptId in t.cache.terminal && t.cache.terminal[b.attemptId] == result.value)
           && (result.None? || run != e.id ==> t.cache == s.cache)
         case AwaitingCancelled(a, f, _, repair) =>
           && t.log.acks == (if result.Some?
                             then s.log.acks + {Ack(a, f.bundle, f.slug, f.appId, repair && e.ledgerClean && a !in s.runs.active)}
                             else s.log.acks)
           && (result.Some? ==> a in t.cache.terminal && t.cache.terminal[a] == result.value)
           && (result.None? ==> t.cache == s.cache)
         case _ => false
  {
    var result := s.runs.settled[s.handlers[e.id].run];
    if result.Some? {
      var a := if s.handlers[e.id].AwaitingRun? then s.handlers[e.id].bundle.attemptId else s.handlers[e.id].attemptId;
      RememberIsBounded(s.cache, a, result.value);
    }
  }

  /** The reaper settles an execution with its result exactly if the reaper succeeded, and
      a late execute of a fenced attempt is acknowledged exactly if its cleanup did. */
  lemma {:induction false} ReaperIsExact(cfg: Config, s: State, e: Event)
    requires Inv(s) && Enabled(s, s.now, e) && (e.ReaperCloses? || e.FencedReplies?)
    ensures var t := React(cfg, s, e);
      match e
      case ReaperCloses(run, ok) =>
        && t.runs == s.runs.(closing := s.runs.closing - {run}, settled := s.runs.settled[run := if ok then Some(s.runs.closing[run]) else None])
        && t.handlers == s.handlers && t.log == s.log
      case FencedReplies(id, reconciled) =>
        var f := s.handlers[id].fence;
        && t.handlers == s.handlers - {id} && t.runs == s.runs
        && Answers(t, id, if reconciled then FencedOff else Unreconciled)
        && t.log.acks == (if reconciled
                          then s.log.acks + {Ack(s.handlers[id].bundle.attemptId, f.bundle, f.slug, f.appId, false)}
                          else s.log.acks)
      case _ => false
  {
  }

  /** The fences are pruned only while nothing is active, one after the other, and each
      goes exactly if its App is absent and it has expired. */
  lemma {:induction false} PruneIsExact(cfg: Config, s: State, e: Event)
    requires Inv(s) && Enabled(s, s.now, e) && (e.HealthGate? || e.PruneStep?)
    ensures var t := React(cfg, s, e);
      match e
      case HealthGate(clean, batch) =>
        t.store == s.store && t.handlers == (if clean && s.runs.active == map[] then s.handlers[s.next := Pruning(batch)] else s.handlers)
      case PruneStep(id, absent) =>
        var batch := s.handlers[id].batch; var a := batch[0];
        && t.handlers == (if absent then s.handlers[id := Pruning(batch[1..])] else s.handlers - {id})
        && (forall k :: k in t.store.files <==> k in s.store.files && !(k == a && absent && s.store.files[a].expiresAt <= s.now))
        && (forall k :: k in t.store.files ==> t.store.files[k] == s.store.files[k])
        && t.store.fences == t.store.files
      case _ => false
  {
  }

  /** An execute request waits for the reaper under its own number, and a restart keeps the
      fence files and nothing else; the executions it ends have ended for good. */
  lemma {:induction false} ArrivalAndRestartAreExact(cfg: Config, s: State, b: Bundle)
    requires Inv(s)
    ensures var t := React(cfg, s, ExecuteArrives(b));
      && t.handlers == s.handlers[s.next := Reaping(b)] && s.next !in s.handlers && t.next == s.next + 1
      && t.store == s.store && t.runs == s.runs && t.cache == s.cache && t.log.requests == s.log.requests[s.next := b]
    ensures var t := React(cfg, s, Restart);
      && t.store.files == s.store.files && t.store.fences == s.store.files && t.handlers == map[]
      && t.runs == Runs(map[], map[], map[]) && t.cache == Cache([], map[])
      && (forall a :: a in s.runs.active ==> s.runs.active[a].owner in t.log.ended)
      && t.log.answers == s.log.answers && t.log.acks == s.log.acks
  {
    assert forall i :: i in s.handlers ==> PcOk(s, i, s.handlers[i]);
  }
}

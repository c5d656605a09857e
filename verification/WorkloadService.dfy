/** The workload process: mutable maps, and one method for each stretch of code
    between two awaits.  Every method refines one event of the state machine. */
module WorkloadService {
  import opened SandboxTypes
  import opened CancelFence
  import opened WorkloadModel
  import Safety = WorkloadSafety

  lemma {:induction false} ForgetOldest(all: map<AttemptId, Terminal>, order: seq<AttemptId>)
    requires order != [] && forall i, j :: 0 <= i < j < |order| ==> order[i] != order[j]
    ensures Restrict(all, order) - {order[0]} == Restrict(all, order[1..])
  {
  }

  /** The cancel handler once it has its number. */
  function CancelRest(cfg: Config, s: State, id: RequestId, command: CancelCommand, ledgerClean: bool): State {
    WorkloadModel.Proceed(WorkloadModel.Admit(cfg, s, command), id, command, ledgerClean)
  }

  lemma {:induction false} CancelIsCut(cfg: Config, s: State, at: int, command: CancelCommand, ledgerClean: bool)
    requires Enabled(s, at, CancelArrives(command, ledgerClean))
    ensures Step(cfg, s, at, CancelArrives(command, ledgerClean)) ==
      CancelRest(cfg, s.(now := at, next := s.next + 1), s.next, command, ledgerClean)
  {
  }

  class Workload {
    const cfg: Config
    const cancelFences: FenceStore
    var active: map<AttemptId, Execution>
    var closing: map<RequestId, Terminal>
    var settled: map<RequestId, Option<Terminal>>
    var order: seq<AttemptId>
    var terminal: map<AttemptId, Terminal>
    var handlers: map<RequestId, Pc>
    var next: RequestId
    ghost var clock: int
    ghost var log: Log

    ghost function View(): State
      reads this, cancelFences
    {
      State(clock, Store(cancelFences.files, cancelFences.fences), Runs(active, closing, settled),
            Cache(order, terminal), handlers, next, log)
    }

    ghost predicate Valid()
      reads this, cancelFences
    {
      && cancelFences.Valid() && cancelFences.maxEntries == cfg.maxEntries
      && CacheShape(Cache(order, terminal))
    }

    /** A first start over an empty fence directory. */
    constructor (cfg: Config, store: FenceStore, now: int)
      requires store.Valid() && store.files == map[] && store.maxEntries == cfg.maxEntries
      ensures Valid() && View() == Init(now)
      ensures this.cfg == cfg && cancelFences == store
    {
      this.cfg, cancelFences := cfg, store;
      active, closing, settled := map[], map[], map[];
      order, terminal, handlers, next := [], map[], map[], 0;
      clock := now;
      log := Init(now).log;
    }

    /** A restart after a crash: the memory is gone, the fence files are not. */
    method Reload(now: int)
      requires Valid() && Enabled(View(), now, Event.Restart)
      modifies this, cancelFences
      ensures Valid() && View() == Step(cfg, old(View()), now, Event.Restart)
    {
      clock := now;
      ForgetMemory();
      cancelFences.Load();
    }

    /** What the end of the process loses. */
    method ForgetMemory()
      modifies this`active, this`closing, this`settled, this`order, this`terminal, this`handlers, this`log
      ensures CacheShape(Cache(order, terminal))
      ensures View() == Restarted(old(View())).(store := old(View()).store)
    {
      log := Restarted(View()).log;
      active, closing, settled := map[], map[], map[];
      order, terminal, handlers := [], map[], map[];
    }

    method Execute(bundle: Bundle, now: int) returns (id: RequestId)
      requires Valid() && Enabled(View(), now, ExecuteArrives(bundle))
      modifies this
      ensures Valid() && View() == Step(cfg, old(View()), now, ExecuteArrives(bundle)) && id == old(next)
    {
      clock := now;
      id := next;
      handlers := handlers[id := Reaping(bundle)];
      log := log.(requests := log.requests[id := bundle]);
      next := id + 1;
    }

    /** From the candidate reaper's return to the next await: no other handler runs
        between the tests and the change of `active`. */
    method ExecuteDecision(id: RequestId, cleanupReady: bool, commandValid: bool, accepted: bool, now: int) returns (verdict: Verdict)
      requires Valid() && Enabled(View(), now, ExecuteDecides(id, cleanupReady, commandValid, accepted))
      modifies this
      ensures Valid() && View() == Step(cfg, old(View()), now, ExecuteDecides(id, cleanupReady, commandValid, accepted))
      ensures verdict == Judge(cfg, old(View()), old(handlers[id].bundle), cleanupReady, commandValid)
    {
      clock := now;
      var bundle := handlers[id].bundle;
      verdict := Decision(bundle, cleanupReady, commandValid);
      Apply(id, bundle, verdict, accepted, now);
    }

    method Decision(bundle: Bundle, cleanupReady: bool, commandValid: bool) returns (verdict: Verdict)
      ensures verdict == Judge(cfg, View(), bundle, cleanupReady, commandValid)
    {
      if !cleanupReady {
        return NotReady;
      }
      if !commandValid {
        return Invalid;
      }
      var a := bundle.attemptId;
      if a in terminal {
        return if terminal[a].bundle == bundle then Replay(terminal[a]) else Collision;
      }
      if a in active {
        return if active[a].bundle == bundle then Join(active[a].owner) else Collision;
      }
      if a in cancelFences.fences {
        var fence := cancelFences.fences[a];
        if fence.bundle != bundle || fence.slug != bundle.slug || fence.appId != AppId(cfg.appPrefix, bundle.slug) {
          return Collision;
        }
        return CleanupOnly(fence);
      }
      return if active != map[] then Busy else Launch;
    }

    method Apply(id: RequestId, bundle: Bundle, verdict: Verdict, accepted: bool, now: int)
      requires clock == now
      modifies this`active, this`handlers, this`log
      ensures View() == Decide(old(View()), id, bundle, verdict, accepted)
    {
      match verdict {
        case Launch =>
          active := active[bundle.attemptId := Execution(bundle, id, false, accepted && now <= bundle.expiresAt + BUNDLE_SKEW_MS)];
          handlers := handlers[id := AwaitingRun(bundle, id)];
          log := log.(decided := log.decided + {id}, started := log.started + {id});
        case Join(run) =>
          handlers := handlers[id := AwaitingRun(bundle, run)];
          log := log.(decided := log.decided + {id});
        case CleanupOnly(fence) =>
          handlers := handlers[id := FencedCleanup(bundle, fence)];
        case NotReady => Send(id, Unready);
        case Invalid => Send(id, BadCommand);
        case Replay(result) => Send(id, Told(result));
        case Collision => Send(id, Collided);
        case Busy => Send(id, Overloaded);
      }
    }

    method Send(id: RequestId, answer: Answer)
      modifies this`handlers, this`log
      ensures View() == Reply(old(View()), id, answer)
    {
      handlers := handlers - {id};
      log := log.(decided := log.decided + {id}, answers := log.answers[id := answer]);
    }

    method FencedReply(id: RequestId, reconciled: bool, now: int) returns (ack: Option<Ack>)
      requires Valid() && Enabled(View(), now, FencedReplies(id, reconciled))
      modifies this
      ensures Valid() && View() == Step(cfg, old(View()), now, FencedReplies(id, reconciled))
      ensures ack.Some? <==> reconciled
      ensures ack.Some? ==> ack.value in log.acks && ack.value.bundle == old(handlers[id].fence.bundle)
    {
      clock := now;
      var pc := handlers[id];
      Send(id, if reconciled then FencedOff else Unreconciled);
      ack := None;
      if reconciled {
        ack := Some(Ack(pc.bundle.attemptId, pc.fence.bundle, pc.fence.slug, pc.fence.appId, false));
        log := log.(acks := log.acks + {ack.value});
      }
    }

    /** The executor's promise settles; the `finally` block leaves `active` at once
        and then waits for the candidate reaper. */
    method ExecutionEnds(a: AttemptId, ended: Ended, now: int)
      requires Valid() && Enabled(View(), now, Event.ExecutionEnds(a, ended))
      modifies this
      ensures Valid() && View() == Step(cfg, old(View()), now, Event.ExecutionEnds(a, ended))
    {
      clock := now;
      var x := active[a];
      var outcome;
      match ended {
        case Returned => outcome := Completed;
        case Threw(verified, failed) =>
          if x.aborted {
            outcome := if verified then CancelledClean else CleanupFailed;
          } else {
            outcome := if failed then CleanupFailed else OtherFailure;
          }
      }
      active := active - {a};
      closing := closing[x.owner := Terminal(x.bundle, outcome, x.owner)];
      log := log.(ended := log.ended + {x.owner});
    }

    method ReaperCloses(run: RequestId, ok: bool, now: int)
      requires Valid() && Enabled(View(), now, Event.ReaperCloses(run, ok))
      modifies this
      ensures Valid() && View() == Step(cfg, old(View()), now, Event.ReaperCloses(run, ok))
    {
      clock := now;
      settled := settled[run := if ok then Some(closing[run]) else None];
      closing := closing - {run};
    }

    /** The cache stays bounded by forgetting its oldest entries. */
    method RememberTerminal(a: AttemptId, t: Terminal)
      requires CacheShape(Cache(order, terminal))
      modifies this`order, this`terminal
      ensures CacheShape(Cache(order, terminal))
      ensures Cache(order, terminal) == Remember(Cache(old(order), old(terminal)), a, t)
    {
      Safety.RememberIsBounded(Cache(order, terminal), a, t);
      if a !in order {
        order := order + [a];
      }
      terminal := terminal[a := t];
      ghost var all, grown := terminal, order;
      assert terminal == Restrict(all, order);
      while |order| > TERMINAL_CACHE
        invariant Trim(order) == Trim(grown)
        invariant terminal == Restrict(all, order)
        invariant forall i, j :: 0 <= i < j < |order| ==> order[i] != order[j]
        decreases |order|
      {
        ForgetOldest(all, order);
        var oldest := order[0];
        terminal := terminal - {oldest};
        order := order[1..];
      }
    }

    method ResumeExecute(id: RequestId, now: int) returns (result: Option<Terminal>)
      requires Valid() && Enabled(View(), now, HandlerResumes(id, false)) && handlers[id].AwaitingRun?
      modifies this
      ensures Valid() && View() == Step(cfg, old(View()), now, HandlerResumes(id, false))
      ensures result == old(settled[handlers[id].run])
    {
      clock := now;
      var pc := handlers[id];
      result := settled[pc.run];
      if result.Some? && pc.run == id {
        RememberTerminal(pc.bundle.attemptId, result.value);
      }
      Send(id, if result.Some? then Told(result.value) else Crashed);
    }

    method ResumeCancel(id: RequestId, ledgerClean: bool, now: int) returns (ack: Option<Ack>)
      requires Valid() && Enabled(View(), now, HandlerResumes(id, ledgerClean)) && handlers[id].AwaitingCancelled?
      modifies this
      ensures Valid() && View() == Step(cfg, old(View()), now, HandlerResumes(id, ledgerClean))
      ensures ack.Some? <==> old(settled[handlers[id].run]).Some?
      ensures ack.Some? ==> ack.value in log.acks
    {
      clock := now;
      var pc := handlers[id];
      var outcome := settled[pc.run];
      handlers := handlers - {id};
      ack := None;
      if outcome.Some? {
        RememberTerminal(pc.attemptId, outcome.value);
        ack := Some(Ack(pc.attemptId, pc.fence.bundle, pc.fence.slug, pc.fence.appId,
                        pc.repair && ledgerClean && pc.attemptId !in active));
        log := log.(acks := log.acks + {ack.value});
      }
    }

    /** The cancel handler up to its first await: the fence is durable before
        anything else is looked at.  The new state is that of the event, by CancelIsCut. */
    method Cancel(command: CancelCommand, ledgerClean: bool, now: int)
      requires Valid() && Enabled(View(), now, CancelArrives(command, ledgerClean))
      modifies this, cancelFences
      ensures Valid() && View() == CancelRest(cfg, old(View()).(now := now, next := old(next) + 1), old(next), command, ledgerClean)
    {
      var id := next;
      next, clock := id + 1, now;
      CancelOn(id, command, ledgerClean, now);
    }

    method CancelOn(id: RequestId, command: CancelCommand, ledgerClean: bool, now: int)
      requires Valid() && clock == now
      modifies this`active, this`handlers, this`log, cancelFences
      ensures Valid() && View() == CancelRest(cfg, old(View()), id, command, ledgerClean)
    {
      var fence := Admit(command, now);
      if fence.Some? {
        Proceed(id, command, fence.value, ledgerClean);
      }
    }

    method Admit(command: CancelCommand, now: int) returns (fence: Option<Fence>)
      requires Valid() && clock == now
      modifies this`log, cancelFences
      ensures Valid()
      ensures (View(), fence) == WorkloadModel.Admit(cfg, old(View()), command)
    {
      if !CommandAccepted(cfg, now, command) {
        return None;
      }
      fence := cancelFences.InstallFence(command.request, now);
      if fence.Some? {
        log := log.(commands := log.commands + {command});
        assert cancelFences.files == old(cancelFences.files)[command.request.attemptId := fence.value];
      }
    }

    method Proceed(id: RequestId, command: CancelCommand, fence: Fence, ledgerClean: bool)
      modifies this`active, this`handlers, this`log
      ensures View() == AfterFence(old(View()), id, command, fence, ledgerClean)
    {
      var a := command.request.attemptId;
      if command.repair && a !in active {
        handlers := handlers[id := RepairCleanup(a, fence)];
      } else {
        Finish(id, a, fence, command.repair, ledgerClean);
      }
    }

    method RepairReconciled(id: RequestId, ok: bool, ledgerClean: bool, now: int)
      requires Valid() && Enabled(View(), now, Event.RepairReconciled(id, ok, ledgerClean))
      modifies this
      ensures Valid() && View() == Step(cfg, old(View()), now, Event.RepairReconciled(id, ok, ledgerClean))
    {
      clock := now;
      if ok {
        var pc := handlers[id];
        Finish(id, pc.attemptId, pc.fence, true, ledgerClean);
      } else {
        handlers := handlers - {id};
      }
    }

    /** The common tail of the cancel handler. */
    method Finish(id: RequestId, a: AttemptId, fence: Fence, repair: bool, ledgerClean: bool)
      modifies this`active, this`handlers, this`log
      ensures View() == FinishCancel(old(View()), id, a, fence, repair, ledgerClean)
    {
      if a in terminal && terminal[a].bundle != fence.bundle {
        handlers := handlers - {id};
      } else if a in terminal || a !in active {
        handlers := handlers - {id};
        log := log.(acks := log.acks + {Ack(a, fence.bundle, fence.slug, fence.appId, repair && ledgerClean && a !in active)});
      } else {
        var running := active[a];
        if running.bundle != fence.bundle || running.bundle.slug != fence.slug {
          handlers := handlers - {id};
        } else {
          active := active[a := running.(aborted := true)];
          handlers := handlers[id := AwaitingCancelled(a, fence, running.owner, repair)];
        }
      }
    }

    /** The health handler's gate before it prunes: nothing active, everything
        reported clean. */
    method Health(clean: bool, batch: seq<AttemptId>, now: int)
      requires Valid() && Enabled(View(), now, HealthGate(clean, batch))
      modifies this
      ensures Valid() && View() == Step(cfg, old(View()), now, HealthGate(clean, batch))
    {
      clock := now;
      if clean && active == map[] {
        handlers := handlers[next := Pruning(batch)];
        next := next + 1;
      }
    }

    method PruneOne(id: RequestId, appAbsent: bool, now: int)
      requires Valid() && Enabled(View(), now, PruneStep(id, appAbsent))
      modifies this, cancelFences
      ensures Valid() && View() == Step(cfg, old(View()), now, PruneStep(id, appAbsent))
    {
      clock := now;
      if appAbsent {
        var batch := handlers[id].batch;
        handlers := handlers[id := Pruning(batch[1..])];
        var _ := cancelFences.RemoveVerifiedExpired(batch[0], now);
      } else {
        handlers := handlers - {id};
      }
    }
  }
}

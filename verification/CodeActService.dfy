/** The executor process: the maps it updates between awaits.  Every method refines one
    event of the state machine. */
module CodeActService {
  import opened SandboxTypes
  import opened CodeActModel

  class Executor {
    const cfg: Config
    var active: map<ExecutionId, Instance>
    var seenExecutions: map<ExecutionId, int>
    var ready: bool
    var pass: Pass
    var waiting: map<nat, Waiting>
    var nextHandler: nat
    var nextInstance: Instance
    var docker: Docker
    ghost var running: map<Instance, Command>
    ghost var admissions: seq<Admission>
    ghost var clock: int

    ghost function View(): State
      reads this
    {
      State(clock, Runs(active, seenExecutions, running, nextInstance), docker, ready, pass, waiting, nextHandler, admissions)
    }

    constructor (cfg: Config, now: int)
      ensures View() == Init(now) && this.cfg == cfg
    {
      this.cfg := cfg;
      active, seenExecutions, ready, pass := map[], map[], false, NoPass;
      waiting, nextHandler, nextInstance, docker := map[], 0, 0, Docker(map[], 0);
      running, admissions, clock := map[], [], now;
    }

    /** The handler up to its wait for health. */
    method Execute(c: Command, now: int) returns (id: Option<nat>)
      requires CanStep(View(), Timed(now, ExecuteArrives(c)))
      modifies this`waiting, this`nextHandler, this`clock
      ensures View() == Step(cfg, old(View()), Timed(now, ExecuteArrives(c)))
      ensures id.Some? <==> Timely(c, now)
    {
      clock := now;
      if c.issuedAt > now + CLOCK_SKEW_MS || c.expiresAt <= now || c.expiresAt - c.issuedAt > MAX_WINDOW_MS {
        return None;
      }
      id := Some(nextHandler);
      waiting := waiting[nextHandler := Waiting(c, now)];
      nextHandler := nextHandler + 1;
    }

    /** From the health answer to the container: no await between the tests and the
        change of `active`. */
    method Resume(id: nat, now: int) returns (verdict: Verdict)
      requires CanStep(View(), Timed(now, ExecuteResumes(id)))
      modifies this
      ensures View() == Step(cfg, old(View()), Timed(now, ExecuteResumes(id)))
      ensures verdict == Decide(cfg, old(View()).(now := now), old(waiting)[id].command)
    {
      clock := now;
      verdict := Judge(waiting[id].command, now);
      var w := waiting[id];
      waiting := waiting - {id};
      if verdict.Admitted? {
        Start(w, now);
      }
    }

    method Judge(c: Command, now: int) returns (verdict: Verdict)
      requires clock == now
      ensures verdict == Decide(cfg, View(), c)
    {
      if !ready {
        return NotReady;
      }
      if c.id in seenExecutions && seenExecutions[c.id] > now {
        return Consumed;
      }
      return if |active| >= cfg.maxActive then Full else Admitted;
    }

    method Start(w: Waiting, now: int)
      requires clock == now
      modifies this`seenExecutions, this`active, this`running, this`nextInstance, this`admissions
      ensures View() == Admit(old(View()), w)
    {
      Remember(w.command, now);
      var i := nextInstance;
      nextInstance := i + 1;
      active := active[w.command.id := i];
      running := running[i := w.command];
      admissions := admissions + [Admission(w.command, w.checkedAt, now, i)];
    }

    /** Records the id, then forgets every id whose time is over: this one's too, if
        the command had waited that long. */
    method Remember(c: Command, now: int)
      modifies this`seenExecutions
      ensures seenExecutions == Swept(old(seenExecutions)[c.id := c.expiresAt + MEMORY_MS], now)
    {
      seenExecutions := seenExecutions[c.id := c.expiresAt + MEMORY_MS];
      ghost var all := seenExecutions;
      var ids := seenExecutions.Keys;
      while ids != {}
        invariant ids <= seenExecutions.Keys <= all.Keys
        invariant forall id :: id in seenExecutions ==> seenExecutions[id] == all[id]
        invariant forall id :: id in all && id !in ids ==> (id in seenExecutions <==> all[id] > now)
        decreases ids
      {
        var id :| id in ids;
        ids := ids - {id};
        if seenExecutions[id] <= now {
          seenExecutions := seenExecutions - {id};
        }
      }
    }

    /** The `finally` block of an execution. */
    method Finished(i: Instance, c: Command, now: int)
      requires CanStep(View(), Timed(now, ExecutionEnds(i))) && running[i] == c
      modifies this`active, this`running, this`clock
      ensures View() == Step(cfg, old(View()), Timed(now, ExecutionEnds(i)))
    {
      clock := now;
      active := active - {c.id};
      running := running - {i};
    }

    /** One pass is under way at a time. */
    method BeginPass(now: int) returns (began: bool)
      requires clock <= now
      modifies this`pass, this`clock
      ensures began == old(pass).NoPass?
      ensures View() == if began then Step(cfg, old(View()), Timed(now, PassBegins)) else old(View()).(now := now)
    {
      clock := now;
      began := pass.NoPass?;
      if began {
        pass := Listing;
      }
    }

    /** The loop body up to its next await: the active test and the decision to delete
        are one stretch. */
    method LookAtCandidate(now: int)
      requires CanStep(View(), Timed(now, PassLooks))
      modifies this`pass, this`ready, this`clock
      ensures View() == Step(cfg, old(View()), Timed(now, PassLooks))
    {
      clock := now;
      var k := pass.todo[0];
      if k !in docker.containers || docker.containers[k].tag in active {
        pass := Sweeping(pass.todo[1..], pass.startedAt);
      } else if docker.containers[k].createdAt > 0 && pass.startedAt - docker.containers[k].createdAt < cfg.orphanGraceMs {
        ready, pass := false, NoPass;
      } else {
        pass := Deleting(k, pass.todo[1..], pass.startedAt);
      }
    }

    method FinishPass(ok: bool, remaining: bool, now: int)
      requires CanStep(View(), Timed(now, PassFinishes(ok, remaining)))
      modifies this`pass, this`ready, this`clock
      ensures View() == Step(cfg, old(View()), Timed(now, PassFinishes(ok, remaining)))
    {
      clock := now;
      ready, pass := ok && !remaining, NoPass;
    }
  }
}

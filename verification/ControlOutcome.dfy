/** What a finished run leaves behind, told from the answers the run heard. */
module ControlOutcome {
  import opened SandboxTypes
  import opened ControlModel
  import opened ControlSafety
  import opened ControlRecovery
  import opened ControlHistory
  import opened ControlEvidence
  import opened ControlCourse

  /** In every run: what a job whose request has left is, from the answers its run heard
      alone.  The run goes on exactly until they settle it; it leaves the job completed
      exactly for a complete clean result whose App is proved absent, cancelled exactly for
      a clean receipt or a failure or fence with both proofs, unclean exactly for a failed
      cleanup or a failure that could not be proved clean, and else failed.  An unclean
      job may have been repaired since. */
  lemma {:induction false} RunIsExact(cfg: Config, now: int, run: seq<Timed>, n: nat)
    requires CanRun(cfg, Init(now), run)
    ensures var s, c := After(cfg, Init(now), run), Heard(cfg, Init(now), run, n, SILENT);
      n in s.log.sent && n in s.memory.created ==>
        var job := s.memory.created[n];
        && (IsRun(s, n) <==> !Over(c))
        && (IsRun(s, n) <==> job.status in {Running, CleanupPending})
        && (job.status == Completed <==> Succeeds(c))
        && (job.status == Cancelled && !job.repaired <==> Confirms(c))
        && (Unclean(job) || (job.status == Cancelled && job.repaired) <==> Breaks(c))
        && (job.status == Failed && job.error == ExecutionFailed <==> Over(c) && !Succeeds(c) && !Confirms(c) && !Breaks(c))
        && (Confirms(c) ==> job.error == ErrorCode.Cancellation)
        && (Breaks(c) ==> job.error == ErrorCode.CleanupFailed)
  {
    InitInv(now);
    RunKeepsTrack(cfg, Init(now), run, n, SILENT);
    var s, c := After(cfg, Init(now), run), Heard(cfg, Init(now), run, n, SILENT);
    if n in s.log.sent && n in s.memory.created && !IsRun(s, n) {
      assert Left(s.memory.created[n], c);
    }
  }

  // ---- the step that ends a run -------------------------------------------

  /** The job as the run leaves it differs from the job under way in its status, error,
      evidence and time only, and it is what the journal says exactly if the write held. */
  ghost predicate Ends(s: State, t: State, n: nat, written: bool)
    requires n in s.memory.created
  {
    && t.queue == s.queue.(run := Resting) && t.handlers == s.handlers && n in t.memory.created
    && var x, y := s.memory.created[n], t.memory.created[n]; var a := x.bundle.attemptId;
    && y == x.(status := y.status, error := y.error, proof := y.proof, updatedAt := s.now)
    && t.memory == s.memory.(created := s.memory.created[n := y])
    && t.disk == (if written then s.disk[a := Journal(y.bundle, y.status, y.updatedAt, y.error, y.repaired, y.proof)] else s.disk)
    && t.log.dirty == (if written then s.log.dirty - {a} else s.log.dirty + {a})
    && t.log.reaped == s.log.reaped && t.log.sent == s.log.sent
  }

  lemma {:induction false} FinishEnds(s: State, q: State, n: nat, outcome: Outcome, proof: Proof, written: bool)
    requires n in s.memory.created && !s.queue.run.Resting?
    requires q == s.(log := s.log.(facts := q.log.facts), queue := s.queue.(run := q.queue.run))
    ensures Ends(s, FinishRun(q, n, outcome, proof, written), n, written)
  {
  }

  lemma {:induction false} ConsiderEnds(s: State, q: State, n: nat, reply: Reply, at: nat, written: bool)
    requires n in s.memory.created && !s.queue.run.Resting?
    requires q == s.(log := s.log.(facts := q.log.facts))
    ensures var t := Consider(q, n, reply, at, written); IsRun(t, n) || Ends(s, t, n, written)
  {
    match PlanFor(reply) {
      case Conclude(outcome) => FinishEnds(s, q, n, outcome, ByReply(at), written);
      case _ =>
    }
  }

  predicate Written(e: Event) {
    (e.RunReplied? && e.written) || (e.RunFenced? && e.written) || (e.RunProved? && e.written)
  }

  lemma {:induction false} EndIsWritten(cfg: Config, s: State, e: Event, n: nat)
    requires Enabled(cfg, s, e) && IsRun(s, n) && RunEvent(e)
    ensures var t := React(cfg, s, e); IsRun(t, n) || Ends(s, t, n, Written(e))
  {
    match e {
      case RunReplied(reply, written) => ReplyEnds(s, n, reply, written);
      case RunFenced(ok, written) =>
        var pc := s.queue.run;
        FinishEnds(s, s, n, Errored, Unproved, written);
        ConsiderEnds(s, Observe(s, FenceAcked(s.memory.created[n].bundle)), n, pc.reply, pc.replyAt, written);
      case RunProved(ok, written) =>
        var p := Proved(s, ok);
        FinishEnds(s, p.0, n, p.1, p.2, written);
    }
  }

  lemma {:induction false} ReplyEnds(s: State, n: nat, reply: Reply, written: bool)
    requires IsRun(s, n) && s.queue.run.AwaitingReply?
    ensures var t := ReplyToRun(s, reply, written); IsRun(t, n) || Ends(s, t, n, written)
  {
    if reply.TransportError? {
      FinishEnds(s, s, n, Errored, Unproved, written);
    } else if !s.queue.run.fencing {
      ConsiderEnds(s, Observe(s, WorkloadReplied(s.memory.created[n].bundle, reply)), n, reply, Observed(s), written);
    }
  }
}

/** A failed cleanup becomes cancelled only through a repair that came after it. */
module ControlRepair {
  import opened SandboxTypes
  import opened ControlModel
  import opened ControlSafety
  import opened ControlRecovery
  import opened ControlHistory
  import opened ControlCourse
  import opened ControlOutcome
  import opened ControlPending

  /** In every run, from the moment the end of an attempt's run has journalled a failed
      cleanup: whatever follows, crashes included, the attempt stays known, and it is still
      unclean or it was cancelled by a repair receipt verified after that moment. */
  lemma {:induction false} CleanupFailureNeedsRepair(cfg: Config, now: int, before: seq<Timed>, step: Timed, after: seq<Timed>, n: nat)
    requires SerialRun(cfg, Init(now), before) && CanRun(cfg, Init(now), before)
    requires var s := After(cfg, Init(now), before);
      && CanStep(cfg, s, step) && IsRun(s, n) && Written(step.event)
      && Breaks(Hear(Heard(cfg, Init(now), before, n, SILENT), s, step.event, n))
      && SerialRun(cfg, Step(cfg, s, step), after)
    ensures var s := After(cfg, Init(now), before); var t := Step(cfg, s, step);
      && CanRun(cfg, t, after)
      && var u := After(cfg, t, after); var b := s.memory.created[n].bundle;
      && b.attemptId in u.memory.index && Has(u.memory, u.memory.index[b.attemptId])
      && var job := Get(u.memory, u.memory.index[b.attemptId]);
      && job.bundle == b
      && (Unclean(job) || (job.status == Cancelled && exists k :: |t.log.facts| <= k && Shows(u.log.facts, k, RepairReceipt(b))))
  {
    var s := After(cfg, Init(now), before);
    var t, b := Step(cfg, s, step), s.memory.created[n].bundle;
    InitOrderly(now);
    RunOrderly(cfg, Init(now), before);
    RunKeepsTrack(cfg, Init(now), before, n, SILENT);
    var c := Heard(cfg, Init(now), before, n, SILENT);
    StepPends(cfg, s, step, n, c);
    PendsLasts(cfg, t, after, b.attemptId, b, |t.log.facts|);
  }

  lemma {:induction false} StepPends(cfg: Config, s: State, step: Timed, n: nat, c: Course)
    requires Orderly(s) && CanStep(cfg, s, step) && IsRun(s, n) && Written(step.event) && Tracks(s, n, c)
    requires Breaks(Hear(c, s, step.event, n))
    ensures var t := Step(cfg, s, step); var b := s.memory.created[n].bundle;
      Orderly(t) && Pends(t, b.attemptId, b, |t.log.facts|)
  {
    LaterOrderly(s, step.at);
    StepOrderly(cfg, s, step);
    EventPends(cfg, s.(now := step.at), Step(cfg, s, step), step.event, n, c);
  }

  lemma {:induction false} EventPends(cfg: Config, s: State, t: State, e: Event, n: nat, c: Course)
    requires Orderly(s) && Enabled(cfg, s, e) && IsRun(s, n) && Written(e) && Tracks(s, n, c) && Breaks(Hear(c, s, e, n))
    requires t == React(cfg, s, e) && Orderly(t)
    ensures var b := s.memory.created[n].bundle; Pends(t, b.attemptId, b, |t.log.facts|)
  {
    ReactTracks(cfg, s, e, n, c);
    EndIsWritten(cfg, s, e, n);
    RunIsSent(s, n);
    BreaksIsOver(t, n, Hear(c, s, e, n));
    EndPends(s, t, n, Hear(c, s, e, n));
  }

  lemma {:induction false} RunIsSent(s: State, n: nat)
    requires Inv(s) && IsRun(s, n)
    ensures n in s.log.sent
  {
  }

  lemma {:induction false} BreaksIsOver(t: State, n: nat, c: Course)
    requires Inv(t) && Tracks(t, n, c) && Breaks(c)
    ensures !IsRun(t, n)
  {
    if IsRun(t, n) {
      RunIsSent(t, n);
    }
  }
}

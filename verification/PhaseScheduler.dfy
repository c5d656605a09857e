/** The blueprint reasoning pass: phases reasoned one after the other under one deadline,
    a call budget and a cap, each with a fair share of the time that is left. */
module PhaseScheduler {
  import opened SandboxTypes

  datatype Phase = Phase(id: string, steps: nat)

  /** What the kernel makes of one phase: nothing, with or without an error, prose only,
      steps none of which can be grounded, or a phase with so many steps. */
  datatype Outcome = Blank(error: bool) | NoSteps | NothingGrounded | Grounded(steps: nat)

  /** One phase's surroundings: whether the pass was cancelled by then, how long the
      kernel wants, how many calls it makes while it is awaited, and how many calls of
      kernels abandoned before are charged meanwhile. */
  datatype Kernel = Kernel(cancelled: bool, wants: nat, calls: nat, late: nat, outcome: Outcome)

  datatype Status = Skipped | Failed | Unstructured | Unanchored | Enriched

  datatype Record = Record(id: string, status: Status, stepsBefore: nat, stepsAfter: nat, modelCalls: nat)

  datatype Config = Config(phaseCap: nat, perPhaseCost: nat, maxModelCalls: nat, deadlineAt: int, graceMs: nat)

  datatype Pass = Pass(now: int, modelCalls: nat, records: seq<Record>, out: seq<Phase>)

  function Slots(cfg: Config, count: nat, i: nat): nat {
    var capped := if cfg.phaseCap < count then cfg.phaseCap else count;
    if capped > i then capped - i else 1
  }

  /** The fair share of what is left of the deadline. */
  function Share(left: int, slots: nat): (r: nat)
    requires slots >= 1
    ensures r >= 1
  {
    if left < slots then 1 else left / slots
  }

  /** How long the pass waits for the kernel: to its end, or to the kill timer. */
  function Waits(cfg: Config, count: nat, i: nat, now: int, wants: nat): nat {
    var bound := Share(cfg.deadlineAt - now, Slots(cfg, count, i)) + cfg.graceMs;
    if wants < bound then wants else bound
  }

  /** Whether the kernel was abandoned. */
  predicate Abandoned(cfg: Config, count: nat, i: nat, now: int, wants: nat) {
    wants >= Share(cfg.deadlineAt - now, Slots(cfg, count, i)) + cfg.graceMs
  }

  predicate Runs(cfg: Config, p: Pass, i: nat, k: Kernel) {
    && !k.cancelled && i < cfg.phaseCap
    && p.modelCalls + cfg.perPhaseCost <= cfg.maxModelCalls
    && p.now < cfg.deadlineAt
  }

  /** `late` says that the share was over before the kernel came back. */
  function StatusOf(outcome: Outcome, late: bool): Status {
    match outcome
    case Blank(error) => if error || late then Failed else Unstructured
    case NoSteps => Unstructured
    case NothingGrounded => Unanchored
    case Grounded(_) => Enriched
  }

  function Keep(p: Pass, phase: Phase, status: Status, calls: nat): Pass {
    p.(records := p.records + [Record(phase.id, status, phase.steps, phase.steps, calls)], out := p.out + [phase])
  }

  /** An abandoned kernel has no result. */
  function Effective(cfg: Config, count: nat, i: nat, now: int, k: Kernel): Outcome {
    if Abandoned(cfg, count, i, now, k.wants) then Blank(true) else k.outcome
  }

  function Visit(cfg: Config, p: Pass, phase: Phase, count: nat, i: nat, k: Kernel): Pass {
    if !Runs(cfg, p, i, k) then Keep(p.(modelCalls := p.modelCalls + k.late), phase, Skipped, 0)
    else
      var outcome := Effective(cfg, count, i, p.now, k);
      var q := p.(now := p.now + Waits(cfg, count, i, p.now, k.wants), modelCalls := p.modelCalls + k.calls + k.late);
      if outcome.Grounded?
      then q.(records := q.records + [Record(phase.id, Enriched, phase.steps, outcome.steps, k.calls + k.late)],
              out := q.out + [Phase(phase.id, outcome.steps)])
      else Keep(q, phase, StatusOf(outcome, k.wants >= Share(cfg.deadlineAt - p.now, Slots(cfg, count, i))), k.calls + k.late)
  }

  function Through(cfg: Config, p: Pass, phases: seq<Phase>, kernels: seq<Kernel>, i: nat): Pass
    requires |phases| == |kernels| && i <= |phases|
    decreases i
  {
    if i == 0 then p else Visit(cfg, Through(cfg, p, phases, kernels, i - 1), phases[i - 1], |phases|, i - 1, kernels[i - 1])
  }

  function Begin(now: int): Pass {
    Pass(now, 0, [], [])
  }

  // ---- the deadline -------------------------------------------------------

  lemma {:induction false} ShareFits(left: int, slots: nat)
    requires slots >= 1 && left >= 1
    ensures Share(left, slots) <= left
    ensures slots * Share(left, slots) <= left + slots
  {
    if left >= slots {
      DivisionFits(left, slots);
    }
  }

  lemma {:induction false} DivisionFits(left: int, slots: nat)
    requires slots >= 1 && left >= 0
    ensures 0 <= left / slots <= left && slots * (left / slots) <= left
  {
    assert left == slots * (left / slots) + left % slots;
    Scale(left / slots, slots, 1);
  }

  lemma {:induction false} VisitInTime(cfg: Config, p: Pass, phase: Phase, count: nat, i: nat, k: Kernel)
    ensures p.now <= Visit(cfg, p, phase, count, i, k).now
    ensures Visit(cfg, p, phase, count, i, k).now <= p.now || Visit(cfg, p, phase, count, i, k).now <= cfg.deadlineAt + cfg.graceMs
  {
    if Runs(cfg, p, i, k) {
      ShareFits(cfg.deadlineAt - p.now, Slots(cfg, count, i));
    }
  }

  /** No phase, stuck or not, carries the pass beyond its deadline and one grace. */
  lemma {:induction false} EndsInTime(cfg: Config, now: int, phases: seq<Phase>, kernels: seq<Kernel>, i: nat)
    requires |phases| == |kernels| && i <= |phases|
    ensures var end := Through(cfg, Begin(now), phases, kernels, i).now;
      now <= end && (end <= now || end <= cfg.deadlineAt + cfg.graceMs)
    decreases i
  {
    if i > 0 {
      EndsInTime(cfg, now, phases, kernels, i - 1);
      VisitInTime(cfg, Through(cfg, Begin(now), phases, kernels, i - 1), phases[i - 1], |phases|, i - 1, kernels[i - 1]);
    }
  }

  /** The number of phases that share the time. */
  function Sharers(cfg: Config, count: nat): nat {
    if cfg.phaseCap < count then cfg.phaseCap else count
  }

  lemma {:induction false} Scale(m: nat, x: int, y: int)
    requires x >= y
    ensures m * x >= m * y && x * m >= y * m
  {
  }

  lemma {:induction false} Grow(k: nat, x: int, y: int)
    requires k >= 1 && x < y
    ensures k * x < k * y
  {
  }

  lemma {:induction false} Cancel(k: nat, x: int, y: int)
    requires k >= 1 && k * x >= k * y
    ensures x >= y
  {
    if x < y {
      Grow(k, x, y);
    }
  }

  /** The fair-share argument for products: of `k` equal parts one is taken. */
  lemma {:induction false} PartsLeft(k: nat, total: int, left: int, lost: nat, loss: nat, taken: int)
    requires k >= 1 && left >= k * total - lost && k * taken <= left + k * loss
    ensures left - taken >= (k - 1) * total - lost - loss
  {
    Scale(k - 1, left, k * total - lost);
    var want := (k - 1) * total - lost - loss;
    assert k * (left - taken) == k * left - k * taken;
    assert (k - 1) * left == k * left - left;
    assert (k - 1) * (k * total - lost) == k * ((k - 1) * total) - (k - 1) * lost;
    assert (k - 1) * lost == k * lost - lost;
    assert k * want == k * ((k - 1) * total) - k * lost - k * loss;
    Cancel(k, left - taken, want);
  }

  lemma {:induction false} TimesN(n: nat, k: nat, left: int, taken: int, g: nat)
    requires k * taken <= left + k * g
    ensures k * (n * taken) <= n * left + k * (n * g)
  {
    Scale(n, left + k * g, k * taken);
    assert n * (k * taken) == k * (n * taken);
    assert n * (k * g) == k * (n * g);
    assert n * (left + k * g) == n * left + n * (k * g);
  }

  lemma {:induction false} OneMore(n: nat, i: nat, g: nat)
    ensures n * (i + 1) * g == n * i * g + n * g && n * i * g >= 0 && n * g >= 0
  {
    assert n * (i + 1) == n * i + n;
    assert (n * i + n) * g == n * i * g + n * g;
  }

  /** With `k` of `n` sharers left, a phase that takes no more than its share and the
      grace leaves the rest theirs. */
  lemma {:induction false} FairStep(n: nat, k: nat, i: nat, total: int, left: int, taken: int, grace: nat)
    requires k >= 1
    requires n * left >= k * total - n * i * (grace + 1)
    requires k * taken <= left + k + k * grace
    ensures n * (left - taken) >= (k - 1) * total - n * (i + 1) * (grace + 1)
  {
    var g := grace + 1;
    assert k * g == k + k * grace;
    TimesN(n, k, left, taken, g);
    OneMore(n, i, g);
    PartsLeft(k, total, n * left, n * i * g, n * g, n * taken);
    assert n * (left - taken) == n * left - n * taken;
  }

  lemma {:induction false} SkippedFair(n: nat, k: nat, i: nat, total: nat, left: int, grace: nat)
    requires k >= 1 && n * left >= k * total - n * i * (grace + 1)
    ensures n * left >= (k - 1) * total - n * (i + 1) * (grace + 1)
  {
    var g := grace + 1;
    OneMore(n, i, g);
    assert k * total == (k - 1) * total + total;
  }

  /** The time that is left when phase `i` has its turn. */
  function LeftAt(cfg: Config, now: int, phases: seq<Phase>, kernels: seq<Kernel>, i: nat): int
    requires |phases| == |kernels| && i <= |phases|
  {
    cfg.deadlineAt - Through(cfg, Begin(now), phases, kernels, i).now
  }

  lemma {:induction false} TakenFits(cfg: Config, p: Pass, phase: Phase, count: nat, i: nat, k: Kernel)
    requires Runs(cfg, p, i, k)
    ensures var slots := Slots(cfg, count, i); var taken := Visit(cfg, p, phase, count, i, k).now - p.now;
      slots * taken <= (cfg.deadlineAt - p.now) + slots + slots * cfg.graceMs
  {
    var slots := Slots(cfg, count, i);
    var left := cfg.deadlineAt - p.now;
    ShareFits(left, slots);
    var taken := Visit(cfg, p, phase, count, i, k).now - p.now;
    Scale(slots, Share(left, slots) + cfg.graceMs, taken);
    assert slots * (Share(left, slots) + cfg.graceMs) == slots * Share(left, slots) + slots * cfg.graceMs;
  }

  /** Even if every earlier phase was stuck, phase `i` of the `n` that share the time
      still sees at least its part of the whole, less one grace and one rounding for each
      phase before it: left >= (n - i) * T / n - i * (grace + 1). */
  lemma {:induction false} FairShare(cfg: Config, now: int, phases: seq<Phase>, kernels: seq<Kernel>, i: nat)
    requires |phases| == |kernels| && now <= cfg.deadlineAt
    requires i <= Sharers(cfg, |phases|)
    ensures var n := Sharers(cfg, |phases|);
      n * LeftAt(cfg, now, phases, kernels, i) >= (n - i) * (cfg.deadlineAt - now) - n * i * (cfg.graceMs + 1)
    decreases i
  {
    var n := Sharers(cfg, |phases|);
    if i > 0 {
      FairShare(cfg, now, phases, kernels, i - 1);
      var p := Through(cfg, Begin(now), phases, kernels, i - 1);
      var left := cfg.deadlineAt - p.now;
      var k := n - (i - 1);
      if Runs(cfg, p, i - 1, kernels[i - 1]) {
        TakenFits(cfg, p, phases[i - 1], |phases|, i - 1, kernels[i - 1]);
        var taken := Through(cfg, Begin(now), phases, kernels, i).now - p.now;
        FairStep(n, k, i - 1, cfg.deadlineAt - now, left, taken, cfg.graceMs);
      } else {
        SkippedFair(n, k, i - 1, cfg.deadlineAt - now, left, cfg.graceMs);
      }
    }
  }

  // ---- coverage -----------------------------------------------------------

  /** One record and one phase out for each phase in, in order; only an enriched phase
      differs, and only in its steps. */
  ghost predicate Covers(p: Pass, phases: seq<Phase>, i: nat)
    requires i <= |phases|
  {
    && |p.records| == i && |p.out| == i
    && forall k :: 0 <= k < i ==>
      && p.records[k].id == phases[k].id && p.out[k].id == phases[k].id
      && p.records[k].stepsBefore == phases[k].steps && p.records[k].stepsAfter == p.out[k].steps
      && (!p.records[k].status.Enriched? ==> p.out[k] == phases[k])
  }

  lemma {:induction false} VisitCovers(cfg: Config, p: Pass, phases: seq<Phase>, i: nat, k: Kernel)
    requires i < |phases| && Covers(p, phases, i)
    ensures Covers(Visit(cfg, p, phases[i], |phases|, i, k), phases, i + 1)
  {
  }

  lemma {:induction false} EveryPhaseIsCovered(cfg: Config, now: int, phases: seq<Phase>, kernels: seq<Kernel>, i: nat)
    requires |phases| == |kernels| && i <= |phases|
    ensures Covers(Through(cfg, Begin(now), phases, kernels, i), phases, i)
    decreases i
  {
    if i > 0 {
      EveryPhaseIsCovered(cfg, now, phases, kernels, i - 1);
      VisitCovers(cfg, Through(cfg, Begin(now), phases, kernels, i - 1), phases, i - 1, kernels[i - 1]);
    }
  }

  // ---- what becomes of each phase -----------------------------------------

  /** The part of the remaining time that phase `i` may take: an equal part for each phase
      still to come under the cap, rounded down, and at least a millisecond. */
  ghost predicate IsShare(cfg: Config, count: nat, i: nat, now: int, share: nat) {
    var capped := if cfg.phaseCap < count then cfg.phaseCap else count;
    var slots := if i + 1 < capped then capped - i else 1;
    if cfg.deadlineAt - now < slots then share == 1
    else slots * share <= cfg.deadlineAt - now < slots * share + slots
  }

  /** Phase `i` has its turn at time `now` with `calls` made, and ends at `next` with `made`:
      it is skipped exactly if the pass was cancelled or the cap, the budget or the deadline
      forbids it; otherwise what its kernel makes of it in its share and the grace decides. */
  ghost predicate Turn(cfg: Config, count: nat, i: nat, now: int, calls: nat, next: int, made: nat,
                       phase: Phase, k: Kernel, r: Record, out: Phase) {
    var eligible := !k.cancelled && i < cfg.phaseCap && calls + cfg.perPhaseCost <= cfg.maxModelCalls && now < cfg.deadlineAt;
    exists share: nat :: IsShare(cfg, count, i, now, share) &&
      var inTime := k.wants < share + cfg.graceMs;
      && r.id == phase.id && out.id == phase.id && r.stepsBefore == phase.steps && r.stepsAfter == out.steps
      && (r.status == Enriched <==> eligible && inTime && k.outcome.Grounded?)
      && (r.status == Skipped <==> !eligible)
      && (r.status == Failed <==> eligible && (inTime ==> k.outcome.Blank? && (k.outcome.error || k.wants >= share)))
      && (r.status == Unstructured <==>
           eligible && inTime && (k.outcome.NoSteps? || (k.outcome.Blank? && !k.outcome.error && k.wants < share)))
      && (r.status == Unanchored <==> eligible && inTime && k.outcome.NothingGrounded?)
      && (if r.status == Enriched then out.steps == k.outcome.steps else out == phase)
      && r.modelCalls == (if eligible then k.calls + k.late else 0)
      && made == calls + k.late + (if eligible then k.calls else 0)
      && next == now + (if !eligible then 0 else if inTime then k.wants else share + cfg.graceMs)
  }

  lemma {:induction false} ShareIs(cfg: Config, count: nat, i: nat, now: int)
    ensures IsShare(cfg, count, i, now, Share(cfg.deadlineAt - now, Slots(cfg, count, i)))
  {
    var left, slots := cfg.deadlineAt - now, Slots(cfg, count, i);
    if left >= slots {
      assert left == slots * (left / slots) + left % slots;
    }
  }

  lemma {:induction false} VisitIsTurn(cfg: Config, p: Pass, phase: Phase, count: nat, i: nat, k: Kernel)
    ensures var q := Visit(cfg, p, phase, count, i, k);
      && |q.records| == |p.records| + 1 && |q.out| == |p.out| + 1
      && q.records[..|p.records|] == p.records && q.out[..|p.out|] == p.out
      && Turn(cfg, count, i, p.now, p.modelCalls, q.now, q.modelCalls, phase, k, q.records[|p.records|], q.out[|p.out|])
  {
    ShareIs(cfg, count, i, p.now);
  }

  /** Every turn of the first `i`, with the times and calls between them. */
  ghost predicate Turns(cfg: Config, phases: seq<Phase>, kernels: seq<Kernel>, p: Pass, i: nat, times: seq<int>, calls: seq<nat>) {
    && |phases| == |kernels| && i <= |phases| && |times| == |calls| == i + 1 && |p.records| == |p.out| == i
    && times[i] == p.now && calls[i] == p.modelCalls
    && forall j :: 0 <= j < i ==>
      Turn(cfg, |phases|, j, times[j], calls[j], times[j + 1], calls[j + 1], phases[j], kernels[j], p.records[j], p.out[j])
  }

  /** In every pass: the phases have their turns one after the other, each beginning when the
      one before ended and with the calls made by then, and each record and each phase that
      comes out are what the turn makes of that phase. */
  lemma {:induction false} PassIsExact(cfg: Config, now: int, phases: seq<Phase>, kernels: seq<Kernel>, i: nat) returns (times: seq<int>, calls: seq<nat>)
    requires |phases| == |kernels| && i <= |phases|
    ensures Turns(cfg, phases, kernels, Through(cfg, Begin(now), phases, kernels, i), i, times, calls)
    ensures times[0] == now && calls[0] == 0
    decreases i
  {
    if i == 0 {
      times, calls := [now], [0];
    } else {
      var before, made := PassIsExact(cfg, now, phases, kernels, i - 1);
      var p := Through(cfg, Begin(now), phases, kernels, i - 1);
      var q := Visit(cfg, p, phases[i - 1], |phases|, i - 1, kernels[i - 1]);
      VisitIsTurn(cfg, p, phases[i - 1], |phases|, i - 1, kernels[i - 1]);
      times, calls := before + [q.now], made + [q.modelCalls];
      TurnsOn(cfg, phases, kernels, p, q, i - 1, before, made);
    }
  }

  lemma {:induction false} TurnsOn(cfg: Config, phases: seq<Phase>, kernels: seq<Kernel>, p: Pass, q: Pass, i: nat, times: seq<int>, calls: seq<nat>)
    requires i < |phases| && Turns(cfg, phases, kernels, p, i, times, calls)
    requires |q.records| == |q.out| == i + 1 && q.records[..i] == p.records && q.out[..i] == p.out
    requires Turn(cfg, |phases|, i, p.now, p.modelCalls, q.now, q.modelCalls, phases[i], kernels[i], q.records[i], q.out[i])
    ensures Turns(cfg, phases, kernels, q, i + 1, times + [q.now], calls + [q.modelCalls])
  {
    forall j | 0 <= j < i
      ensures q.records[j] == p.records[j] && q.out[j] == p.out[j]
    {
      assert q.records[..i][j] == q.records[j] && q.out[..i][j] == q.out[j];
    }
  }

  function Count(records: seq<Record>, status: Status): nat {
    if records == [] then 0 else (if records[0].status == status then 1 else 0) + Count(records[1..], status)
  }

  datatype Overall = Completed | Degraded | AllFailed | Empty

  /** The status of the whole pass. */
  function Verdict(records: seq<Record>): Overall {
    var enriched, attempted := Count(records, Enriched), |records| - Count(records, Skipped);
    if records == [] then Empty
    else if enriched == |records| then Completed
    else if enriched > 0 then Degraded
    else if attempted > 0 && Count(records, Failed) == attempted then AllFailed
    else Empty
  }

  lemma {:induction false} CountIs(records: seq<Record>, status: Status)
    ensures Count(records, status) <= |records|
    ensures Count(records, status) == 0 <==> forall i :: 0 <= i < |records| ==> records[i].status != status
    ensures Count(records, status) == |records| <==> forall i :: 0 <= i < |records| ==> records[i].status == status
    decreases |records|
  {
    if records != [] {
      CountIs(records[1..], status);
      assert forall i :: 0 <= i < |records[1..]| ==> records[1..][i] == records[i + 1];
      assert forall i :: 0 < i < |records| ==> records[i] == records[1..][i - 1];
    }
  }

  /** Reasoned and mechanical phases together are all phases. */
  lemma {:induction false} CountsAdd(records: seq<Record>)
    ensures Count(records, Enriched) + Count(records, Skipped) + Count(records, Failed)
      + Count(records, Unstructured) + Count(records, Unanchored) == |records|
    decreases |records|
  {
    if records != [] {
      CountsAdd(records[1..]);
    }
  }

  lemma {:induction false} FailedAreAttempted(records: seq<Record>)
    ensures Count(records, Failed) + Count(records, Skipped) == |records| <==>
      forall i :: 0 <= i < |records| ==> records[i].status in {Failed, Skipped}
    ensures Count(records, Failed) + Count(records, Skipped) <= |records|
    decreases |records|
  {
    if records != [] {
      FailedAreAttempted(records[1..]);
      assert forall i :: 0 <= i < |records[1..]| ==> records[1..][i] == records[i + 1];
      assert forall i :: 0 < i < |records| ==> records[i] == records[1..][i - 1];
    }
  }

  /** The pass is called completed exactly if there are phases and every one was enriched,
      degraded exactly if some were and some were not, and failed exactly if some phase was
      tried and each one tried failed. */
  lemma {:induction false} VerdictIsExact(records: seq<Record>)
    ensures Verdict(records) == Completed <==> records != [] && forall i :: 0 <= i < |records| ==> records[i].status == Enriched
    ensures Verdict(records) == Degraded <==>
      (exists i :: 0 <= i < |records| && records[i].status == Enriched)
      && exists i :: 0 <= i < |records| && records[i].status != Enriched
    ensures Verdict(records) == AllFailed <==>
      (exists i :: 0 <= i < |records| && records[i].status == Failed)
      && forall i :: 0 <= i < |records| ==> records[i].status in {Failed, Skipped}
  {
    CountIs(records, Enriched);
    CountIs(records, Skipped);
    CountIs(records, Failed);
    CountsAdd(records);
    FailedAreAttempted(records);
  }

  // ---- the program --------------------------------------------------------

  method ReasonPhases(cfg: Config, phases: seq<Phase>, kernels: seq<Kernel>, start: int) returns (result: Pass, status: Overall)
    requires |phases| == |kernels|
    ensures result == Through(cfg, Begin(start), phases, kernels, |phases|)
    ensures status == Verdict(result.records)
  {
    var now: int, modelCalls: nat := start, 0;
    var records: seq<Record> := [];
    var out: seq<Phase> := [];
    var i := 0;
    while i < |phases|
      invariant 0 <= i <= |phases|
      invariant Pass(now, modelCalls, records, out) == Through(cfg, Begin(start), phases, kernels, i)
    {
      var phase, k := phases[i], kernels[i];
      if k.cancelled || i >= cfg.phaseCap || modelCalls + cfg.perPhaseCost > cfg.maxModelCalls || now >= cfg.deadlineAt {
        modelCalls := modelCalls + k.late;
        out := out + [phase];
        records := records + [Record(phase.id, Skipped, phase.steps, phase.steps, 0)];
      } else {
        var share := Share(cfg.deadlineAt - now, Slots(cfg, |phases|, i));
        var abandoned := k.wants >= share + cfg.graceMs;
        now := now + (if abandoned then share + cfg.graceMs else k.wants);
        modelCalls := modelCalls + k.calls + k.late;
        var spent := k.calls + k.late;
        if !abandoned && k.outcome.Grounded? {
          out := out + [Phase(phase.id, k.outcome.steps)];
          records := records + [Record(phase.id, Enriched, phase.steps, k.outcome.steps, spent)];
        } else {
          out := out + [phase];
          records := records + [Record(phase.id, if abandoned then Failed else StatusOf(k.outcome, k.wants >= share), phase.steps, phase.steps, spent)];
        }
      }
      i := i + 1;
    }
    result := Pass(now, modelCalls, records, out);
    status := Verdict(records);
  }
}

/** The call budget of the reasoning pass, with the calls that abandoned kernels still make:
    exactly when it is kept. */
module PhaseBudget {
  import opened SandboxTypes
  import opened PhaseScheduler

  // ---- what kernels may do ------------------------------------------------

  /** The calls of abandoned kernels that are charged before phase `i` has its turn. */
  function LateCalls(kernels: seq<Kernel>, i: nat): nat
    requires i <= |kernels|
  {
    if i == 0 then 0 else LateCalls(kernels, i - 1) + kernels[i - 1].late
  }

  /** A kernel keeps to the calls it was given. */
  predicate Obedient(cfg: Config, kernels: seq<Kernel>) {
    forall i :: 0 <= i < |kernels| ==> kernels[i].calls <= cfg.perPhaseCost
  }

  /** Phase `i` ran and its kernel was abandoned. */
  predicate LeftRunning(cfg: Config, now: int, phases: seq<Phase>, kernels: seq<Kernel>, i: nat)
    requires |phases| == |kernels| && i < |phases|
  {
    var p := Through(cfg, Begin(now), phases, kernels, i);
    Runs(cfg, p, i, kernels[i]) && Abandoned(cfg, |phases|, i, p.now, kernels[i].wants)
  }

  /** The calls that the kernels abandoned before phase `i` had left when they were. */
  function Unspent(cfg: Config, now: int, phases: seq<Phase>, kernels: seq<Kernel>, i: nat): nat
    requires |phases| == |kernels| && i <= |phases| && Obedient(cfg, kernels)
  {
    if i == 0 then 0
    else
      Unspent(cfg, now, phases, kernels, i - 1)
      + (if LeftRunning(cfg, now, phases, kernels, i - 1) then cfg.perPhaseCost - kernels[i - 1].calls else 0)
  }

  /** Late calls come from kernels abandoned before, out of what these had left. */
  ghost predicate Plausible(cfg: Config, now: int, phases: seq<Phase>, kernels: seq<Kernel>) {
    && |kernels| == |phases| && Obedient(cfg, kernels)
    && forall i :: 0 <= i < |phases| ==> LateCalls(kernels, i + 1) <= Unspent(cfg, now, phases, kernels, i)
  }

  /** The calls stay within the budget but for those that abandoned kernels still make. */
  lemma {:induction false} BudgetHolds(cfg: Config, now: int, phases: seq<Phase>, kernels: seq<Kernel>, i: nat)
    requires |phases| == |kernels| && i <= |phases| && Obedient(cfg, kernels)
    ensures Through(cfg, Begin(now), phases, kernels, i).modelCalls <= cfg.maxModelCalls + LateCalls(kernels, i)
    decreases i
  {
    if i > 0 {
      BudgetHolds(cfg, now, phases, kernels, i - 1);
    }
  }

  ghost predicate KeepsBudget(cfg: Config, now: int, phases: seq<Phase>) {
    forall kernels :: Plausible(cfg, now, phases, kernels) ==>
      Through(cfg, Begin(now), phases, kernels, |phases|).modelCalls <= cfg.maxModelCalls
  }

  // ---- the condition ------------------------------------------------------

  /** An abandoned kernel, even the first, leaves no time for another phase. */
  predicate NoTimeAfter(cfg: Config, now: int, count: nat) {
    cfg.deadlineAt - now <= Share(cfg.deadlineAt - now, Slots(cfg, count, 0)) + cfg.graceMs
  }

  /** What a caller can test before the pass: all sharers fit the budget, or not even one
      does, or no phase can follow an abandoned one. */
  predicate Affordable(cfg: Config, now: int, count: nat) {
    Sharers(cfg, count) * cfg.perPhaseCost <= cfg.maxModelCalls || cfg.perPhaseCost > cfg.maxModelCalls || NoTimeAfter(cfg, now, count)
  }

  // ---- kept ---------------------------------------------------------------

  /** The calls made and those still to come from abandoned kernels. */
  function Owed(cfg: Config, now: int, phases: seq<Phase>, kernels: seq<Kernel>, i: nat): int
    requires |phases| == |kernels| && i <= |phases| && Obedient(cfg, kernels)
  {
    Through(cfg, Begin(now), phases, kernels, i).modelCalls + Unspent(cfg, now, phases, kernels, i) - LateCalls(kernels, i)
  }

  /** A phase that runs adds its share to what is owed at most, any other nothing. */
  lemma {:induction false} OwedStep(cfg: Config, now: int, phases: seq<Phase>, kernels: seq<Kernel>, i: nat)
    requires Plausible(cfg, now, phases, kernels) && i < |phases|
    ensures var p := Through(cfg, Begin(now), phases, kernels, i);
      Owed(cfg, now, phases, kernels, i + 1) <=
        Owed(cfg, now, phases, kernels, i) + (if Runs(cfg, p, i, kernels[i]) then cfg.perPhaseCost else 0)
  {
  }

  /** What is made so far is no more than what is owed. */
  lemma {:induction false} MadeIsOwed(cfg: Config, now: int, phases: seq<Phase>, kernels: seq<Kernel>, i: nat)
    requires Plausible(cfg, now, phases, kernels) && i <= |phases|
    ensures Through(cfg, Begin(now), phases, kernels, i).modelCalls <= Owed(cfg, now, phases, kernels, i)
  {
    if i > 0 {
      assert LateCalls(kernels, i - 1 + 1) <= Unspent(cfg, now, phases, kernels, i - 1);
    }
  }

  lemma {:induction false} Product(x: int, cost: nat)
    ensures (x + 1) * cost == x * cost + cost
  {
  }

  /** What the first `i` phases may use together. */
  function Allowance(cfg: Config, i: nat): nat {
    if i == 0 then 0 else Allowance(cfg, i - 1) + (if i - 1 < cfg.phaseCap then cfg.perPhaseCost else 0)
  }

  lemma {:induction false} AllowanceIs(cfg: Config, i: nat)
    ensures Allowance(cfg, i) == Sharers(cfg, i) * cfg.perPhaseCost
    decreases i
  {
    if i > 0 {
      AllowanceIs(cfg, i - 1);
      if i - 1 < cfg.phaseCap {
        Product(i - 1, cfg.perPhaseCost);
      }
    }
  }

  /** Only sharers run, so all of them together bound what is owed. */
  lemma {:induction false} SharersBound(cfg: Config, now: int, phases: seq<Phase>, kernels: seq<Kernel>, i: nat)
    requires Plausible(cfg, now, phases, kernels) && i <= |phases|
    ensures Owed(cfg, now, phases, kernels, i) <= Allowance(cfg, i)
    decreases i
  {
    if i > 0 {
      SharersBound(cfg, now, phases, kernels, i - 1);
      OwedStep(cfg, now, phases, kernels, i - 1);
    }
  }

  lemma {:induction false} NoneStarts(cfg: Config, now: int, phases: seq<Phase>, kernels: seq<Kernel>, i: nat)
    requires Plausible(cfg, now, phases, kernels) && i <= |phases| && cfg.perPhaseCost > cfg.maxModelCalls
    ensures Owed(cfg, now, phases, kernels, i) <= 0
    decreases i
  {
    if i > 0 {
      NoneStarts(cfg, now, phases, kernels, i - 1);
      OwedStep(cfg, now, phases, kernels, i - 1);
    }
  }

  lemma {:induction false} FewerSlots(left: nat, slots: nat, all: nat)
    requires 1 <= slots <= all
    ensures left / all <= left / slots
  {
    var q, r := left / all, left / slots;
    assert left == all * q + left % all && left == slots * r + left % slots;
    if q > r {
      Scale(slots, q, r + 1);
      Scale(q, all, slots);
      Product(r, slots);
    }
  }

  lemma {:induction false} MoreTime(left: nat, total: nat, all: nat)
    requires left <= total && 1 <= all
    ensures total / all <= left / all + (total - left)
  {
    var q, t, d := left / all, total / all, total - left;
    assert left == all * q + left % all && total == all * t + total % all;
    if t > q + d {
      Scale(all, t, q + d + 1);
      assert all * (q + d + 1) == all * q + all * d + all;
      Scale(d, all, 1);
    }
  }

  lemma {:induction false} AtLeastOne(left: nat, slots: nat)
    requires 1 <= slots
    ensures left < slots ==> left / slots == 0
    ensures left >= slots ==> left / slots >= 1
  {
    assert left == slots * (left / slots) + left % slots;
    if left / slots >= 1 {
      Scale(slots, left / slots, 1);
    }
  }

  /** Less time and fewer slots do not leave more after a share is taken. */
  lemma {:induction false} ShareLeaves(left: int, slots: nat, total: int, all: nat)
    requires 1 <= left <= total && 1 <= slots <= all
    ensures left - Share(left, slots) <= total - Share(total, all)
  {
    FewerSlots(left, slots, all);
    MoreTime(left, total, all);
    AtLeastOne(left, slots);
    AtLeastOne(left, all);
    AtLeastOne(total, all);
  }

  /** Time is over once a kernel has been abandoned. */
  lemma {:induction false} AbandonedEnds(cfg: Config, now: int, phases: seq<Phase>, kernels: seq<Kernel>, i: nat)
    requires |phases| == |kernels| && i < |phases| && NoTimeAfter(cfg, now, |phases|) && LeftRunning(cfg, now, phases, kernels, i)
    ensures Through(cfg, Begin(now), phases, kernels, i + 1).now >= cfg.deadlineAt
  {
    EndsInTime(cfg, now, phases, kernels, i);
    var p := Through(cfg, Begin(now), phases, kernels, i);
    ShareLeaves(cfg.deadlineAt - p.now, Slots(cfg, |phases|, i), cfg.deadlineAt - now, Slots(cfg, |phases|, 0));
  }

  /** Without abandoned kernels the test before a phase covers all it may owe. */
  lemma {:induction false} StartIsCovered(cfg: Config, now: int, phases: seq<Phase>, kernels: seq<Kernel>, i: nat)
    requires Plausible(cfg, now, phases, kernels) && i < |phases| && Unspent(cfg, now, phases, kernels, i) == 0
    requires Runs(cfg, Through(cfg, Begin(now), phases, kernels, i), i, kernels[i])
    ensures Owed(cfg, now, phases, kernels, i + 1) <= cfg.maxModelCalls
  {
    assert LateCalls(kernels, i + 1) <= 0;
    OwedStep(cfg, now, phases, kernels, i);
  }

  /** With no time after an abandoned kernel there is one at most, and nothing after it. */
  lemma {:induction false} OneAtATime(cfg: Config, now: int, phases: seq<Phase>, kernels: seq<Kernel>, i: nat)
    requires Plausible(cfg, now, phases, kernels) && i <= |phases| && NoTimeAfter(cfg, now, |phases|)
    ensures Owed(cfg, now, phases, kernels, i) <= cfg.maxModelCalls
    ensures Unspent(cfg, now, phases, kernels, i) == 0 || Through(cfg, Begin(now), phases, kernels, i).now >= cfg.deadlineAt
    decreases i
  {
    if i > 0 {
      OneAtATime(cfg, now, phases, kernels, i - 1);
      var p := Through(cfg, Begin(now), phases, kernels, i - 1);
      if Runs(cfg, p, i - 1, kernels[i - 1]) {
        StartIsCovered(cfg, now, phases, kernels, i - 1);
        if LeftRunning(cfg, now, phases, kernels, i - 1) {
          AbandonedEnds(cfg, now, phases, kernels, i - 1);
        }
      } else {
        OwedStep(cfg, now, phases, kernels, i - 1);
      }
    }
  }

  lemma {:induction false} AffordableKeeps(cfg: Config, now: int, phases: seq<Phase>, kernels: seq<Kernel>)
    requires Plausible(cfg, now, phases, kernels) && Affordable(cfg, now, |phases|)
    ensures Through(cfg, Begin(now), phases, kernels, |phases|).modelCalls <= cfg.maxModelCalls
  {
    MadeIsOwed(cfg, now, phases, kernels, |phases|);
    if Sharers(cfg, |phases|) * cfg.perPhaseCost <= cfg.maxModelCalls {
      SharersBound(cfg, now, phases, kernels, |phases|);
      AllowanceIs(cfg, |phases|);
    } else if cfg.perPhaseCost > cfg.maxModelCalls {
      NoneStarts(cfg, now, phases, kernels, |phases|);
    } else {
      OneAtATime(cfg, now, phases, kernels, |phases|);
    }
  }

  // ---- not kept -----------------------------------------------------------

  function Min(x: nat, y: nat): nat {
    if x < y then x else y
  }

  /** The calls charged when sharer `i` of the worst pass has its turn. */
  function Charged(cfg: Config, i: nat): nat
    requires cfg.perPhaseCost <= cfg.maxModelCalls
  {
    if i == 0 then 0 else Min((i - 1) * cfg.perPhaseCost, cfg.maxModelCalls - cfg.perPhaseCost)
  }

  /** The first kernel is abandoned before its first call; the next ones leave just room for
      the last one to start, and while that one spends its share the first makes its calls. */
  function WorstKernel(cfg: Config, now: int, count: nat, i: nat): Kernel
    requires cfg.perPhaseCost <= cfg.maxModelCalls
  {
    var n, cost := Sharers(cfg, count), cfg.perPhaseCost;
    if i == 0 then Kernel(false, Share(cfg.deadlineAt - now, Slots(cfg, count, 0)) + cfg.graceMs, 0, 0, Blank(true))
    else if i + 1 < n then Kernel(false, 0, Min(cost, cfg.maxModelCalls - cost - Charged(cfg, i)), 0, Blank(true))
    else if i + 1 == n then Kernel(false, 0, cost, cost, Blank(true))
    else Kernel(false, 0, 0, 0, Blank(true))
  }

  function Worst(cfg: Config, now: int, count: nat): (r: seq<Kernel>)
    requires cfg.perPhaseCost <= cfg.maxModelCalls
    ensures |r| == count && forall i :: 0 <= i < count ==> r[i] == WorstKernel(cfg, now, count, i)
  {
    seq(count, i requires 0 <= i < count => WorstKernel(cfg, now, count, i))
  }

  lemma {:induction false} ChargedNext(cfg: Config, i: nat)
    requires cfg.perPhaseCost <= cfg.maxModelCalls && i >= 1
    ensures Charged(cfg, i + 1) == Charged(cfg, i) + Min(cfg.perPhaseCost, cfg.maxModelCalls - cfg.perPhaseCost - Charged(cfg, i))
  {
    Product(i - 1, cfg.perPhaseCost);
  }

  /** Up to the last sharer every phase of the worst pass runs. */
  lemma {:induction false} WorstRuns(cfg: Config, now: int, phases: seq<Phase>, i: nat)
    requires cfg.perPhaseCost <= cfg.maxModelCalls && !NoTimeAfter(cfg, now, |phases|) && 1 <= i < Sharers(cfg, |phases|)
    ensures var kernels := Worst(cfg, now, |phases|); var p := Through(cfg, Begin(now), phases, kernels, i);
      && p.modelCalls == Charged(cfg, i) && Runs(cfg, p, i, kernels[i])
      && p.now == now + Share(cfg.deadlineAt - now, Slots(cfg, |phases|, 0)) + cfg.graceMs
      && LateCalls(kernels, i) == 0 && LeftRunning(cfg, now, phases, kernels, 0)
    decreases i
  {
    var kernels := Worst(cfg, now, |phases|);
    if i == 1 {
      assert Through(cfg, Begin(now), phases, kernels, 0) == Begin(now);
      assert LateCalls(kernels, 0) == 0;
    } else {
      WorstRuns(cfg, now, phases, i - 1);
      ChargedNext(cfg, i - 1);
    }
  }

  lemma {:induction false} UnspentGrows(cfg: Config, now: int, phases: seq<Phase>, kernels: seq<Kernel>, i: nat)
    requires |phases| == |kernels| && 1 <= i <= |phases| && Obedient(cfg, kernels) && LeftRunning(cfg, now, phases, kernels, 0)
    ensures Unspent(cfg, now, phases, kernels, i) >= cfg.perPhaseCost - kernels[0].calls
    decreases i
  {
    if i > 1 {
      UnspentGrows(cfg, now, phases, kernels, i - 1);
    } else {
      assert Unspent(cfg, now, phases, kernels, 0) == 0;
    }
  }

  lemma {:induction false} WorstLate(cfg: Config, now: int, phases: seq<Phase>, i: nat)
    requires cfg.perPhaseCost <= cfg.maxModelCalls && !NoTimeAfter(cfg, now, |phases|)
    requires 2 <= Sharers(cfg, |phases|) <= i <= |phases|
    ensures LateCalls(Worst(cfg, now, |phases|), i) == cfg.perPhaseCost
    decreases i
  {
    if i == Sharers(cfg, |phases|) {
      WorstRuns(cfg, now, phases, i - 1);
    } else {
      WorstLate(cfg, now, phases, i - 1);
    }
  }

  lemma {:induction false} WorstIsPlausible(cfg: Config, now: int, phases: seq<Phase>)
    requires cfg.perPhaseCost <= cfg.maxModelCalls && !NoTimeAfter(cfg, now, |phases|) && Sharers(cfg, |phases|) >= 2
    ensures Plausible(cfg, now, phases, Worst(cfg, now, |phases|))
  {
    var kernels, n := Worst(cfg, now, |phases|), Sharers(cfg, |phases|);
    WorstRuns(cfg, now, phases, 1);
    forall i | 0 <= i < |phases|
      ensures LateCalls(kernels, i + 1) <= Unspent(cfg, now, phases, kernels, i)
    {
      if i + 1 < n {
        WorstRuns(cfg, now, phases, i + 1);
      } else {
        WorstLate(cfg, now, phases, i + 1);
        UnspentGrows(cfg, now, phases, kernels, i);
      }
    }
  }

  lemma {:induction false} CallsStay(cfg: Config, now: int, phases: seq<Phase>, kernels: seq<Kernel>, i: nat, j: nat)
    requires |phases| == |kernels| && i <= j <= |phases|
    ensures Through(cfg, Begin(now), phases, kernels, i).modelCalls <= Through(cfg, Begin(now), phases, kernels, j).modelCalls
    decreases j
  {
    if i < j {
      CallsStay(cfg, now, phases, kernels, i, j - 1);
    }
  }

  /** The last sharer and the late calls add two shares to what was charged before. */
  lemma {:induction false} WorstTotal(cfg: Config, now: int, phases: seq<Phase>)
    requires cfg.perPhaseCost <= cfg.maxModelCalls && !NoTimeAfter(cfg, now, |phases|) && Sharers(cfg, |phases|) >= 2
    ensures var n := Sharers(cfg, |phases|);
      Through(cfg, Begin(now), phases, Worst(cfg, now, |phases|), n).modelCalls == Charged(cfg, n - 1) + 2 * cfg.perPhaseCost
  {
    WorstRuns(cfg, now, phases, Sharers(cfg, |phases|) - 1);
  }

  lemma {:induction false} ChargedIsTooMuch(cfg: Config, n: nat)
    requires cfg.perPhaseCost <= cfg.maxModelCalls && n * cfg.perPhaseCost > cfg.maxModelCalls
    ensures n >= 2 && Charged(cfg, n - 1) + 2 * cfg.perPhaseCost > cfg.maxModelCalls
  {
    if n < 2 {
      Scale(cfg.perPhaseCost, 1, n);
    } else if n > 2 {
      Product(n - 2, cfg.perPhaseCost);
      Product(n - 1, cfg.perPhaseCost);
    }
  }

  lemma {:induction false} WorstOverspends(cfg: Config, now: int, phases: seq<Phase>)
    requires !Affordable(cfg, now, |phases|)
    ensures Plausible(cfg, now, phases, Worst(cfg, now, |phases|))
    ensures Through(cfg, Begin(now), phases, Worst(cfg, now, |phases|), |phases|).modelCalls > cfg.maxModelCalls
  {
    var n := Sharers(cfg, |phases|);
    ChargedIsTooMuch(cfg, n);
    WorstIsPlausible(cfg, now, phases);
    WorstTotal(cfg, now, phases);
    CallsStay(cfg, now, phases, Worst(cfg, now, |phases|), n, |phases|);
  }

  /** The call budget is kept, whatever plausible kernels do, exactly if it is affordable. */
  lemma {:induction false} BudgetIsExact(cfg: Config, now: int, phases: seq<Phase>)
    ensures KeepsBudget(cfg, now, phases) <==> Affordable(cfg, now, |phases|)
  {
    if Affordable(cfg, now, |phases|) {
      forall kernels | Plausible(cfg, now, phases, kernels)
        ensures Through(cfg, Begin(now), phases, kernels, |phases|).modelCalls <= cfg.maxModelCalls
      {
        AffordableKeeps(cfg, now, phases, kernels);
      }
    } else {
      WorstOverspends(cfg, now, phases);
    }
  }
}

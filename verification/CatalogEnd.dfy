/** When publishing a catalog ends in which way, in terms of its faults. */
module CatalogEnd {
  import opened SandboxTypes
  import opened CatalogSwap

  /** The first `k` operations of a loop met no fault. */
  predicate FineTo(names: seq<Name>, faults: Name -> Fault, k: nat)
    requires k <= |names|
  {
    forall j :: 0 <= j < k ==> faults(names[j]).Fine?
  }

  lemma {:induction false} FineOn(names: seq<Name>, faults: Name -> Fault, k: nat)
    requires 0 < k <= |names|
    ensures FineTo(names, faults, k) <==> faults(names[0]).Fine? && FineTo(names[1..], faults, k - 1)
  {
    assert forall j :: 0 < j < |names| ==> names[j] == names[1..][j - 1];
    assert forall j :: 0 <= j < |names| - 1 ==> names[1..][j] == names[j + 1];
  }

  /** A name is noted as backed up exactly if it had an original and neither its own move nor
      an earlier one met a fault. */
  lemma {:induction false} BackUpNotes(fs: Fs, names: seq<Name>, faults: Name -> Fault, k: nat)
    requires Unique(names) && k < |names|
    ensures var (t, ok) := BackUpAll(fs, names, faults);
      && (ok <==> FineTo(names, faults, |names|))
      && (names[k] in Set(t.backedUp) <==> names[k] in Set(fs.backedUp) || (names[k] in fs.root && FineTo(names, faults, k + 1)))
    decreases |names|
  {
    var name, rest := names[0], names[1..];
    FineOn(names, faults, k + 1);
    FineOn(names, faults, |names|);
    if faults(name).Fine? {
      var moved := if name in fs.root then BackUp(fs, name).(backedUp := fs.backedUp + [name]) else fs;
      SetSnoc(fs.backedUp, name);
      if rest != [] {
        BackUpNotes(moved, rest, faults, if k > 0 then k - 1 else 0);
      }
      if k == 0 {
        BackUpLeaves(moved, rest, faults, name);
      }
    }
  }

  /** A name that the loop does not come to is noted exactly if it was before. */
  lemma {:induction false} BackUpLeaves(fs: Fs, names: seq<Name>, faults: Name -> Fault, name: Name)
    requires forall i :: 0 <= i < |names| ==> names[i] != name
    ensures name in Set(BackUpAll(fs, names, faults).0.backedUp) <==> name in Set(fs.backedUp)
    decreases |names|
  {
    if names != [] && faults(names[0]).Fine? {
      SetSnoc(fs.backedUp, names[0]);
      var moved := if names[0] in fs.root then BackUp(fs, names[0]).(backedUp := fs.backedUp + [names[0]]) else fs;
      BackUpLeaves(moved, names[1..], faults, name);
    }
  }

  /** A name is noted as installed exactly if neither its own move nor an earlier one met a
      fault; it is in place also if the fault of its own move came after the effect. */
  lemma {:induction false} InstallNotes(fs: Fs, names: seq<Name>, faults: Name -> Fault, k: nat)
    requires Unique(names) && k < |names|
    requires forall i :: 0 <= i < |names| ==> names[i] in fs.stage && names[i] !in fs.root && names[i] !in Set(fs.installed)
    ensures var (t, ok) := InstallAll(fs, names, faults);
      && (ok <==> FineTo(names, faults, |names|))
      && (names[k] in Set(t.installed) <==> FineTo(names, faults, k + 1))
      && (names[k] in t.root <==> FineTo(names, faults, k) && !faults(names[k]).Before?)
      && (names[k] in t.root ==> t.root[names[k]] == fs.stage[names[k]])
      && (names[k] in t.stage <==> names[k] !in t.root)
    decreases |names|
  {
    var name, rest := names[0], names[1..];
    FineOn(names, faults, k + 1);
    FineOn(names, faults, |names|);
    if k > 0 {
      FineOn(names, faults, k);
    }
    if faults(name).Fine? {
      var moved := Install(fs, name).(installed := fs.installed + [name]);
      SetSnoc(fs.installed, name);
      if rest != [] {
        InstallNotes(moved, rest, faults, if k > 0 then k - 1 else 0);
      }
      if k == 0 {
        InstallLeaves(moved, rest, faults, name);
      }
    }
  }

  lemma {:induction false} InstallLeaves(fs: Fs, names: seq<Name>, faults: Name -> Fault, name: Name)
    requires forall i :: 0 <= i < |names| ==> names[i] != name
    ensures var t := InstallAll(fs, names, faults).0;
      && (name in Set(t.installed) <==> name in Set(fs.installed))
      && (name in t.root <==> name in fs.root) && (name in t.root ==> t.root[name] == fs.root[name])
      && (name in t.stage <==> name in fs.stage)
    decreases |names|
  {
    if names != [] && !faults(names[0]).Before? && Movable(fs.stage, fs.root, names[0]) && faults(names[0]).Fine? {
      SetSnoc(fs.installed, names[0]);
      InstallLeaves(Install(fs, names[0]).(installed := fs.installed + [names[0]]), names[1..], faults, name);
    }
  }

  /** Removing names that are there succeeds exactly if no removal meets a fault. */
  lemma {:induction false} RemoveEnds(fs: Fs, names: seq<Name>, faults: Name -> Fault)
    requires Unique(names) && Set(names) <= fs.root.Keys
    ensures RemoveAll(fs, names, faults).1 <==> forall n :: n in Set(names) ==> faults(n).Fine?
    decreases |names|
  {
    if names != [] {
      var name := names[|names| - 1];
      SetInit(names);
      if faults(name).Fine? {
        RemoveEnds(fs.(root := fs.root - {name}), names[..|names| - 1], faults);
      } else {
        assert name in Set(names);
      }
    }
  }

  /** A name may be moved back: it has no fault, and its place is free or may be replaced. */
  predicate Restores(fs: Fs, faults: Name -> Fault, name: Name) {
    faults(name).Fine? && Movable(fs.backup, fs.root, name)
  }

  lemma {:induction false} RestoreEnds(fs: Fs, names: seq<Name>, faults: Name -> Fault)
    requires Unique(names) && Set(names) <= fs.backup.Keys
    ensures var (t, ok) := RestoreAll(fs, names, faults);
      && (ok <==> forall n :: n in Set(names) ==> Restores(fs, faults, n))
      && (ok ==> t.backup == fs.backup - Set(names))
    decreases |names|
  {
    if names == [] {
      assert fs.backup - {} == fs.backup;
    } else {
      var name, before := names[|names| - 1], names[..|names| - 1];
      SetInit(names);
      if Restores(fs, faults, name) {
        var moved := Restore(fs, name);
        RestoreEnds(moved, before, faults);
        assert moved.backup - Set(before) == fs.backup - Set(names);
        assert forall n :: n in Set(before) ==> n != name && (Restores(moved, faults, n) <==> Restores(fs, faults, n));
      } else {
        assert name in Set(names);
      }
    }
  }

  // ---- the whole attempt ---------------------------------------------------

  const COUNT: nat := |MANAGED|

  /** The original at `i` was moved to the backup and noted. */
  predicate Saved(root: Tree, plan: Plan, i: nat)
    requires i < COUNT
  {
    MANAGED[i] in root && FineTo(MANAGED, plan.backup, i + 1)
  }

  /** Everything was backed up, and the first `k` new items were installed and noted. */
  predicate Installed(plan: Plan, k: nat)
    requires k <= COUNT
  {
    FineTo(MANAGED, plan.backup, COUNT) && FineTo(MANAGED, plan.install, k)
  }

  /** A new item at `i`, in place without a note, that its original cannot replace. */
  predicate Blocked(root: Tree, stage: Tree, plan: Plan, i: nat)
    requires i < COUNT && Staged(stage)
  {
    && Installed(plan, i) && plan.install(MANAGED[i]).After?
    && MANAGED[i] in root && !Replaces(root[MANAGED[i]], stage[MANAGED[i]])
  }

  predicate Publishes(plan: Plan) {
    Installed(plan, COUNT) && !plan.checkFails
  }

  /** No operation of the rollback fails: nothing stands in the way of an original, and there
      is no fault at the items and originals that were noted. */
  ghost predicate Undoes(root: Tree, stage: Tree, plan: Plan)
    requires Staged(stage)
  {
    && (forall i: nat :: i < COUNT && Installed(plan, i + 1) ==> plan.remove(MANAGED[i]).Fine?)
    && (forall i: nat :: i < COUNT && Saved(root, plan, i) ==> plan.restore(MANAGED[i]).Fine?)
    && (forall i: nat :: i < COUNT ==> !Blocked(root, stage, plan, i))
  }

  /** What the two loops note, at each managed name. */
  lemma {:induction false} SwapNotes(root: Tree, stage: Tree, plan: Plan, i: nat)
    requires root.Keys <= Set(MANAGED) && Staged(stage) && i < COUNT
    ensures var (t, ok) := Swap(Start(root, stage), plan); var name := MANAGED[i];
      && (ok <==> Publishes(plan))
      && (name in Set(t.backedUp) <==> Saved(root, plan, i))
      && (name in Set(t.installed) <==> Installed(plan, i + 1))
      && (FineTo(MANAGED, plan.backup, COUNT) ==>
            && (name in t.root <==> Installed(plan, i) && !plan.install(name).Before?)
            && (name in t.root ==> t.root[name] == stage[name]))
  {
    ManagedUnique();
    var fs := Start(root, stage);
    var (a, saved) := BackUpAll(fs, MANAGED, plan.backup);
    SavedAll(root, stage, MANAGED, plan.backup);
    BackUpNotes(fs, MANAGED, plan.backup, i);
    assert Set(fs.backedUp) == {} && Set(a.installed) == {};
    if saved {
      InstallNotes(a, MANAGED, plan.install, i);
      InstallKeepsBackup(a, MANAGED, plan.install);
    }
  }

  lemma {:induction false} InstallKeepsBackup(fs: Fs, names: seq<Name>, faults: Name -> Fault)
    ensures InstallAll(fs, names, faults).0.backup == fs.backup && InstallAll(fs, names, faults).0.backedUp == fs.backedUp
    decreases |names|
  {
    if names != [] && !faults(names[0]).Before? && Movable(fs.stage, fs.root, names[0]) {
      InstallKeepsBackup(Install(fs, names[0]).(installed := fs.installed + [names[0]]), names[1..], faults);
    }
  }

  lemma {:induction false} ManagedAt(n: Name) returns (i: nat)
    requires n in Set(MANAGED)
    ensures i < COUNT && MANAGED[i] == n
  {
    i :| i < COUNT && MANAGED[i] == n;
  }

  lemma {:induction false} InstalledWithin(fs: Fs, names: seq<Name>, faults: Name -> Fault)
    ensures Set(InstallAll(fs, names, faults).0.installed) <= Set(fs.installed) + Set(names)
    decreases |names|
  {
    if names != [] && !faults(names[0]).Before? && Movable(fs.stage, fs.root, names[0]) {
      SetSnoc(fs.installed, names[0]);
      SetCons(names);
      InstalledWithin(Install(fs, names[0]).(installed := fs.installed + [names[0]]), names[1..], faults);
    }
  }

  lemma {:induction false} NotesWithin(root: Tree, stage: Tree, plan: Plan)
    requires root.Keys <= Set(MANAGED) && Staged(stage)
    ensures var t := Swap(Start(root, stage), plan).0; Set(t.installed) <= Set(MANAGED) && Set(t.backedUp) <= Set(MANAGED)
  {
    ManagedUnique();
    SavedAll(root, stage, MANAGED, plan.backup);
    var (a, saved) := BackUpAll(Start(root, stage), MANAGED, plan.backup);
    assert forall n :: n in a.backup ==> n in root;
    InstalledWithin(a, MANAGED, plan.install);
    InstallKeepsBackup(a, MANAGED, plan.install);
    assert Set(a.installed) == {};
  }

  lemma {:induction false} RemovalsEnd(root: Tree, stage: Tree, plan: Plan, fs: Fs)
    requires root.Keys <= Set(MANAGED) && Staged(stage) && fs == Swap(Start(root, stage), plan).0
    ensures RemoveAll(fs, fs.installed, plan.remove).1 <==>
      forall i: nat :: i < COUNT && Installed(plan, i + 1) ==> plan.remove(MANAGED[i]).Fine?
  {
    SwapStops(root, stage, plan);
    StoppedIsSafe(fs, root, stage, plan);
    NotesWithin(root, stage, plan);
    RemoveEnds(fs, fs.installed, plan.remove);
    forall i: nat | i < COUNT
      ensures MANAGED[i] in Set(fs.installed) <==> Installed(plan, i + 1)
    {
      SwapNotes(root, stage, plan, i);
    }
    forall n | n in Set(fs.installed)
      ensures exists i: nat :: i < COUNT && MANAGED[i] == n
    {
      var i := ManagedAt(n);
    }
  }

  /** The original at `i`, once the installed items are removed. */
  lemma {:induction false} OneReturns(root: Tree, stage: Tree, plan: Plan, fs: Fs, a: Fs, i: nat)
    requires root.Keys <= Set(MANAGED) && Staged(stage) && i < COUNT && Saved(root, plan, i)
    requires fs == Swap(Start(root, stage), plan).0 && RemoveAll(fs, fs.installed, plan.remove) == (a, true)
    ensures Restores(a, plan.restore, MANAGED[i]) <==> plan.restore(MANAGED[i]).Fine? && !Blocked(root, stage, plan, i)
  {
    var name := MANAGED[i];
    SwapStops(root, stage, plan);
    StoppedIsSafe(fs, root, stage, plan);
    RemovedIsSafe(fs, a, root, stage, plan);
    SwapNotes(root, stage, plan, i);
    assert name in a.backup && a.backup[name] == root[name];
    FineAll(plan.backup);
    if FineTo(MANAGED, plan.backup, COUNT) {
      assert name in a.root <==> Installed(plan, i) && plan.install(name).After?;
    } else {
      assert name !in a.root;
    }
  }

  lemma {:induction false} FineAll(faults: Name -> Fault)
    ensures FineTo(MANAGED, faults, COUNT) <==> AllFine(MANAGED, faults)
  {
    AllFineTo(MANAGED, faults);
  }

  lemma {:induction false} AllFineTo(names: seq<Name>, faults: Name -> Fault)
    ensures FineTo(names, faults, |names|) <==> AllFine(names, faults)
    decreases |names|
  {
    if names != [] {
      FineOn(names, faults, |names|);
      AllFineTo(names[1..], faults);
    }
  }

  lemma {:induction false} RestoresEnd(root: Tree, stage: Tree, plan: Plan, fs: Fs, a: Fs)
    requires root.Keys <= Set(MANAGED) && Staged(stage)
    requires fs == Swap(Start(root, stage), plan).0 && RemoveAll(fs, fs.installed, plan.remove) == (a, true)
    ensures RestoreAll(a, a.backedUp, plan.restore).1 <==>
      forall i: nat :: i < COUNT && Saved(root, plan, i) ==> plan.restore(MANAGED[i]).Fine? && !Blocked(root, stage, plan, i)
  {
    SwapStops(root, stage, plan);
    StoppedIsSafe(fs, root, stage, plan);
    RemovedIsSafe(fs, a, root, stage, plan);
    NotesWithin(root, stage, plan);
    RestoreEnds(a, a.backedUp, plan.restore);
    forall i: nat | i < COUNT
      ensures MANAGED[i] in Set(fs.backedUp) <==> Saved(root, plan, i)
      ensures Saved(root, plan, i) ==>
        (Restores(a, plan.restore, MANAGED[i]) <==> plan.restore(MANAGED[i]).Fine? && !Blocked(root, stage, plan, i))
    {
      SwapNotes(root, stage, plan, i);
      if Saved(root, plan, i) {
        OneReturns(root, stage, plan, fs, a, i);
      }
    }
    forall n | n in Set(fs.backedUp)
      ensures exists i: nat :: i < COUNT && MANAGED[i] == n
    {
      var i := ManagedAt(n);
    }
  }

  /** An item can be in the way of an original only where all of them are backed up. */
  lemma {:induction false} BlockedIsSaved(root: Tree, stage: Tree, plan: Plan, i: nat)
    requires Staged(stage) && i < COUNT && Blocked(root, stage, plan, i)
    ensures Saved(root, plan, i)
  {
  }

  /** Which way it ends: it is published exactly if no move met a fault and the check passed;
      it is rolled back exactly if it was not published, the rollback met no fault at what was
      noted, and no item without a note stands where its original cannot replace it.  Else the
      stage and the backup are retained; otherwise nothing is left of them. */
  lemma {:induction false} EndIsExact(root: Tree, stage: Tree, plan: Plan)
    requires root.Keys <= Set(MANAGED) && Staged(stage)
    ensures Publish(Start(root, stage), plan).1 ==
      if Publishes(plan) then Published else if Undoes(root, stage, plan) then RolledBack else Retained
    ensures var (t, end) := Publish(Start(root, stage), plan); !end.Retained? ==> t.stage == map[] && t.backup == map[]
  {
    var (fs, ok) := Swap(Start(root, stage), plan);
    SwapNotes(root, stage, plan, 0);
    RemovalsEnd(root, stage, plan, fs);
    var (a, removed) := RemoveAll(fs, fs.installed, plan.remove);
    if removed {
      RestoresEnd(root, stage, plan, fs, a);
    }
    forall i: nat | i < COUNT && Blocked(root, stage, plan, i)
      ensures Saved(root, plan, i)
    {
      BlockedIsSaved(root, stage, plan, i);
    }
  }
}

/** Publishing a staged skill catalog by backup, install and rollback, with a fault at any
    operation, before or after its effect. */
module CatalogSwap {
  import opened SandboxTypes

  type Name = string

  const MANAGED: seq<Name> := ["upstream", "adapted", "catalog.json", "sources.lock.json"]

  datatype Item = Directory(content: string, empty: bool) | Other(content: string)

  type Tree = map<Name, Item>

  /** `After`: the operation took effect, and then an interrupt arrived before the next
      statement. */
  datatype Fault = Fine | Before | After

  datatype Fs = Fs(root: Tree, stage: Tree, backup: Tree, backedUp: seq<Name>, installed: seq<Name>)

  /** The faults of one run, one for each operation of each loop, and whether the final
      check fails. */
  datatype Plan = Plan(backup: Name -> Fault, install: Name -> Fault, checkFails: bool, remove: Name -> Fault, restore: Name -> Fault)

  // ---- operations ---------------------------------------------------------

  /** What `rename` allows in the place of `target`. */
  predicate Replaces(source: Item, target: Item) {
    if source.Directory? then target.Directory? && target.empty else target.Other?
  }

  predicate Movable(from: Tree, to: Tree, name: Name) {
    name in from && (name in to ==> Replaces(from[name], to[name]))
  }

  function BackUp(fs: Fs, name: Name): Fs
    requires name in fs.root
  {
    fs.(root := fs.root - {name}, backup := fs.backup[name := fs.root[name]])
  }

  function Install(fs: Fs, name: Name): Fs
    requires name in fs.stage
  {
    fs.(stage := fs.stage - {name}, root := fs.root[name := fs.stage[name]])
  }

  function Restore(fs: Fs, name: Name): Fs
    requires name in fs.backup
  {
    fs.(backup := fs.backup - {name}, root := fs.root[name := fs.backup[name]])
  }

  // ---- the loops ----------------------------------------------------------

  function BackUpAll(fs: Fs, names: seq<Name>, faults: Name -> Fault): (Fs, bool)
    decreases |names|
  {
    if names == [] then (fs, true)
    else
      var name := names[0];
      if faults(name).Before? then (fs, false)
      else if name !in fs.root then (if faults(name).After? then (fs, false) else BackUpAll(fs, names[1..], faults))
      else
        var moved := BackUp(fs, name);
        if faults(name).After? then (moved, false)
        else BackUpAll(moved.(backedUp := fs.backedUp + [name]), names[1..], faults)
  }

  function InstallAll(fs: Fs, names: seq<Name>, faults: Name -> Fault): (Fs, bool)
    decreases |names|
  {
    if names == [] then (fs, true)
    else
      var name := names[0];
      if faults(name).Before? || !Movable(fs.stage, fs.root, name) then (fs, false)
      else
        var moved := Install(fs, name);
        if faults(name).After? then (moved, false)
        else InstallAll(moved.(installed := fs.installed + [name]), names[1..], faults)
  }

  /** The last installed name first. */
  function RemoveAll(fs: Fs, names: seq<Name>, faults: Name -> Fault): (Fs, bool)
    decreases |names|
  {
    if names == [] then (fs, true)
    else
      var name := names[|names| - 1];
      if faults(name).Before? || name !in fs.root then (fs, false)
      else
        var gone := fs.(root := fs.root - {name});
        if faults(name).After? then (gone, false) else RemoveAll(gone, names[..|names| - 1], faults)
  }

  function RestoreAll(fs: Fs, names: seq<Name>, faults: Name -> Fault): (Fs, bool)
    decreases |names|
  {
    if names == [] then (fs, true)
    else
      var name := names[|names| - 1];
      if faults(name).Before? || !Movable(fs.backup, fs.root, name) then (fs, false)
      else
        var moved := Restore(fs, name);
        if faults(name).After? then (moved, false) else RestoreAll(moved, names[..|names| - 1], faults)
  }

  datatype End = Published | RolledBack | Retained

  function Swap(fs: Fs, plan: Plan): (Fs, bool) {
    var (a, saved) := BackUpAll(fs, MANAGED, plan.backup);
    if !saved then (a, false)
    else
      var (b, done) := InstallAll(a, MANAGED, plan.install);
      (b, done && !plan.checkFails)
  }

  function Rollback(fs: Fs, plan: Plan): (Fs, bool) {
    var (a, removed) := RemoveAll(fs, fs.installed, plan.remove);
    if !removed then (a, false) else RestoreAll(a, a.backedUp, plan.restore)
  }

  /** The whole attempt.  The stage, with the backup in it, is deleted at the end unless
      the rollback failed. */
  function Publish(fs: Fs, plan: Plan): (Fs, End) {
    var (swapped, ok) := Swap(fs, plan);
    if ok then (swapped.(stage := map[], backup := map[]), Published)
    else
      var (back, undone) := Rollback(swapped, plan);
      if undone then (back.(stage := map[], backup := map[]), RolledBack) else (back, Retained)
  }

  // ---- what each loop keeps ------------------------------------------------

  function Start(root: Tree, stage: Tree): Fs {
    Fs(root, stage, map[], [], [])
  }

  predicate Staged(stage: Tree) {
    forall i :: 0 <= i < |MANAGED| ==> MANAGED[i] in stage
  }

  predicate Unique(names: seq<Name>) {
    forall i, j :: 0 <= i < j < |names| ==> names[i] != names[j]
  }

  function Set(names: seq<Name>): set<Name> {
    set i | 0 <= i < |names| :: names[i]
  }

  /** Every original is in its place or in the backup. */
  predicate Safe(fs: Fs, root: Tree) {
    forall n :: n in root ==> Has(fs.root, n, root[n]) || Has(fs.backup, n, root[n])
  }

  predicate Has(tree: Tree, name: Name, item: Item) {
    name in tree && tree[name] == item
  }

  /** While the backup fills: names are in one place or the other, as they were. */
  ghost predicate Filling(fs: Fs, root: Tree) {
    && (forall n :: n in fs.root ==> Has(root, n, fs.root[n]) && n !in fs.backup)
    && (forall n :: n in fs.backup ==> Has(root, n, fs.backup[n]))
    && (forall n :: n in root ==> n in fs.root || n in fs.backup)
    && Unique(fs.backedUp) && Set(fs.backedUp) <= fs.backup.Keys && fs.installed == []
  }

  /** The name that a backup interrupted after its effect leaves out of the list. */
  function BackupGap(root: Tree, names: seq<Name>, faults: Name -> Fault): Option<Name> {
    if names == [] || faults(names[0]).Before? then None
    else if faults(names[0]).After? then (if names[0] in root then Some(names[0]) else None)
    else BackupGap(root, names[1..], faults)
  }

  predicate AllFine(names: seq<Name>, faults: Name -> Fault)
    decreases |names|
  {
    names == [] || (faults(names[0]).Fine? && AllFine(names[1..], faults))
  }

  lemma {:induction false} SetSnoc(names: seq<Name>, name: Name)
    ensures Set(names + [name]) == Set(names) + {name}
  {
    var all := names + [name];
    assert forall i :: 0 <= i < |names| ==> all[i] == names[i];
    assert all[|names|] == name;
  }

  lemma {:induction false} BackUpKeeps(fs: Fs, name: Name, root: Tree)
    requires Filling(fs, root) && name in fs.root
    ensures Filling(BackUp(fs, name), root)
    ensures Filling(BackUp(fs, name).(backedUp := fs.backedUp + [name]), root)
  {
    SetSnoc(fs.backedUp, name);
    forall i | 0 <= i < |fs.backedUp|
      ensures fs.backedUp[i] != name
    {
      assert fs.backedUp[i] in Set(fs.backedUp);
    }
  }

  lemma {:induction false} BackUpAllKeeps(fs: Fs, names: seq<Name>, faults: Name -> Fault, root: Tree)
    requires Filling(fs, root) && fs.backup.Keys == Set(fs.backedUp) && Unique(names)
    requires forall i :: 0 <= i < |names| ==> (names[i] in fs.root <==> names[i] in root)
    ensures var (t, ok) := BackUpAll(fs, names, faults); var gap := BackupGap(root, names, faults);
      && Filling(t, root) && t.stage == fs.stage
      && t.backup.Keys == Set(t.backedUp) + (if gap.Some? then {gap.value} else {})
      && (gap.Some? ==> gap.value in root && gap.value !in Set(t.backedUp))
      && (ok <==> AllFine(names, faults)) && (ok ==> gap.None?)
      && (ok ==> forall n :: n in t.root ==> n in fs.root && n !in Set(names))
    decreases |names|
  {
    if names != [] && !faults(names[0]).Before? {
      var name := names[0];
      var rest := names[1..];
      if name in fs.root {
        BackUpKeeps(fs, name, root);
        SetSnoc(fs.backedUp, name);
        if !faults(name).After? {
          BackUpAllKeeps(BackUp(fs, name).(backedUp := fs.backedUp + [name]), rest, faults, root);
          SetCons(names);
        }
      } else if !faults(name).After? {
        BackUpAllKeeps(fs, rest, faults, root);
        SetCons(names);
      }
    }
  }

  lemma {:induction false} SetCons(names: seq<Name>)
    requires names != []
    ensures Set(names) == {names[0]} + Set(names[1..])
  {
  }

  /** The name that an install interrupted after its effect leaves out of the list. */
  function InstallGap(names: seq<Name>, faults: Name -> Fault): Option<Name>
    decreases |names|
  {
    if names == [] || faults(names[0]).Before? then None
    else if faults(names[0]).After? then Some(names[0])
    else InstallGap(names[1..], faults)
  }

  function Opt(gap: Option<Name>): set<Name> {
    if gap.Some? then {gap.value} else {}
  }

  /** While the new items move in, over an empty place: each comes from the stage. */
  ghost predicate Installing(fs: Fs, stage: Tree) {
    && (forall n :: n in fs.root ==> Has(stage, n, fs.root[n]))
    && (forall n :: n in fs.stage ==> Has(stage, n, fs.stage[n]))
    && Unique(fs.installed)
  }

  lemma {:induction false} InstallAllKeeps(fs: Fs, names: seq<Name>, faults: Name -> Fault, stage: Tree)
    requires Installing(fs, stage) && fs.root.Keys == Set(fs.installed) && Unique(names)
    requires forall i :: 0 <= i < |names| ==> names[i] in fs.stage && names[i] !in fs.root
    ensures var (t, ok) := InstallAll(fs, names, faults); var gap := InstallGap(names, faults);
      && Installing(t, stage) && t.backup == fs.backup && t.backedUp == fs.backedUp
      && t.root.Keys == Set(t.installed) + Opt(gap) && Opt(gap) !! Set(t.installed)
      && (ok ==> gap.None? && t.root.Keys == fs.root.Keys + Set(names))
    decreases |names|
  {
    if names != [] && !faults(names[0]).Before? {
      var name := names[0];
      var moved := Install(fs, name);
      SetSnoc(fs.installed, name);
      forall i | 0 <= i < |fs.installed|
        ensures fs.installed[i] != name
      {
        assert fs.installed[i] in Set(fs.installed);
      }
      if !faults(name).After? {
        assert Unique(fs.installed + [name]);
        InstallAllKeeps(moved.(installed := fs.installed + [name]), names[1..], faults, stage);
        SetCons(names);
      }
    }
  }

  lemma {:induction false} SetInit(names: seq<Name>)
    requires names != []
    ensures Set(names) == Set(names[..|names| - 1]) + {names[|names| - 1]}
    ensures Unique(names) ==> names[|names| - 1] !in Set(names[..|names| - 1])
  {
  }

  lemma {:induction false} RemoveAllKeeps(fs: Fs, names: seq<Name>, faults: Name -> Fault)
    requires Unique(names) && Set(names) <= fs.root.Keys
    ensures var (t, ok) := RemoveAll(fs, names, faults);
      && t.backup == fs.backup && t.backedUp == fs.backedUp
      && (forall n :: n in t.root ==> Has(fs.root, n, t.root[n]))
      && (ok ==> t.root == fs.root - Set(names))
    decreases |names|
  {
    if names == [] {
      assert fs.root - {} == fs.root;
    } else {
      var name := names[|names| - 1];
      SetInit(names);
      if !faults(name).Before? && !faults(name).After? {
        RemoveAllKeeps(fs.(root := fs.root - {name}), names[..|names| - 1], faults);
        assert (fs.root - {name}) - Set(names[..|names| - 1]) == fs.root - Set(names);
      }
    }
  }

  /** The backup holds originals only. */
  predicate Genuine(backup: Tree, root: Tree) {
    forall n :: n in backup ==> Has(root, n, backup[n])
  }

  lemma {:induction false} RestoreIsSafe(fs: Fs, name: Name, root: Tree)
    requires Safe(fs, root) && Genuine(fs.backup, root) && name in fs.backup
    ensures Safe(Restore(fs, name), root) && Genuine(Restore(fs, name).backup, root)
  {
  }

  /** The names are back, and the rest of the root is untouched. */
  ghost predicate PutBack(fs: Fs, t: Fs, names: set<Name>, root: Tree) {
    && t.root.Keys == fs.root.Keys + names
    && (forall n :: n in names ==> n in t.root && Has(root, n, t.root[n]))
    && (forall n :: n in t.root && n !in names ==> Has(fs.root, n, t.root[n]))
  }

  lemma {:induction false} RestoreAllKeeps(fs: Fs, names: seq<Name>, faults: Name -> Fault, root: Tree)
    requires Safe(fs, root) && Genuine(fs.backup, root) && Unique(names) && Set(names) <= fs.backup.Keys
    ensures var (t, ok) := RestoreAll(fs, names, faults);
      && Safe(t, root) && Genuine(t.backup, root)
      && (ok ==> PutBack(fs, t, Set(names), root))
    decreases |names|
  {
    if names != [] {
      var name := names[|names| - 1];
      SetInit(names);
      if !faults(name).Before? && Movable(fs.backup, fs.root, name) {
        RestoreIsSafe(fs, name, root);
        if !faults(name).After? {
          RestoreAllKeeps(Restore(fs, name), names[..|names| - 1], faults, root);
        }
      }
    }
  }

  // ---- the theorems -------------------------------------------------------

  lemma {:induction false} ManagedUnique()
    ensures Unique(MANAGED)
  {
  }

  /** The backup is incomplete, and nothing is installed. */
  ghost predicate StoppedEarly(fs: Fs, root: Tree, plan: Plan) {
    var gap := BackupGap(root, MANAGED, plan.backup);
    && Filling(fs, root) && fs.backup.Keys == Set(fs.backedUp) + Opt(gap) && Opt(gap) !! Set(fs.backedUp)
    && (gap.Some? ==> gap.value in root)
  }

  /** Everything is backed up, and part of the new items is in place. */
  ghost predicate StoppedLate(fs: Fs, root: Tree, stage: Tree, plan: Plan) {
    var gap := InstallGap(MANAGED, plan.install);
    && BackupGap(root, MANAGED, plan.backup).None?
    && Installing(fs, stage) && fs.backup == root && Unique(fs.backedUp) && Set(fs.backedUp) == root.Keys
    && fs.root.Keys == Set(fs.installed) + Opt(gap) && Opt(gap) !! Set(fs.installed)
  }

  ghost predicate Stopped(fs: Fs, root: Tree, stage: Tree, plan: Plan) {
    if AllFine(MANAGED, plan.backup) then StoppedLate(fs, root, stage, plan) else StoppedEarly(fs, root, plan)
  }

  lemma {:induction false} SavedAll(root: Tree, stage: Tree, names: seq<Name>, faults: Name -> Fault)
    requires root.Keys <= Set(names) && Unique(names)
    ensures var (a, saved) := BackUpAll(Start(root, stage), names, faults); var gap := BackupGap(root, names, faults);
      && (saved <==> AllFine(names, faults)) && a.stage == stage
      && Filling(a, root) && a.backup.Keys == Set(a.backedUp) + Opt(gap) && Opt(gap) !! Set(a.backedUp)
      && (gap.Some? ==> gap.value in root)
      && (saved ==> gap.None? && a.root == map[] && a.backup == root)
  {
    var fs := Start(root, stage);
    assert Set(fs.backedUp) == {} && fs.backup.Keys == {};
    BackUpAllKeeps(fs, names, faults, root);
    var (a, saved) := BackUpAll(fs, names, faults);
    if saved {
      assert a.root.Keys == {};
      assert a.backup == root;
    }
  }

  lemma {:induction false} SwapStops(root: Tree, stage: Tree, plan: Plan)
    requires root.Keys <= Set(MANAGED) && Staged(stage)
    ensures var (t, ok) := Swap(Start(root, stage), plan);
      && Stopped(t, root, stage, plan)
      && (ok ==> t.root.Keys == Set(MANAGED) && forall n :: n in t.root ==> Has(stage, n, t.root[n]))
  {
    ManagedUnique();
    SavedAll(root, stage, MANAGED, plan.backup);
    var (a, saved) := BackUpAll(Start(root, stage), MANAGED, plan.backup);
    if saved {
      assert Set(a.installed) == {} && a.root.Keys == {};
      InstallAllKeeps(a, MANAGED, plan.install, stage);
    }
  }

  /** Publishing puts exactly the staged items in place. */
  lemma {:induction false} PublishedIsNew(root: Tree, stage: Tree, plan: Plan)
    requires root.Keys <= Set(MANAGED) && Staged(stage)
    requires Publish(Start(root, stage), plan).1.Published?
    ensures var t := Publish(Start(root, stage), plan).0;
      t.root.Keys == Set(MANAGED) && forall n :: n in Set(MANAGED) ==> Has(stage, n, t.root[n])
  {
    SwapStops(root, stage, plan);
  }

  lemma {:induction false} StoppedIsSafe(fs: Fs, root: Tree, stage: Tree, plan: Plan)
    requires Stopped(fs, root, stage, plan)
    ensures Safe(fs, root) && Genuine(fs.backup, root) && Unique(fs.installed) && Unique(fs.backedUp)
    ensures Set(fs.installed) <= fs.root.Keys && Set(fs.backedUp) <= fs.backup.Keys
  {
  }

  /** What removing the installed items leaves is still safe. */
  lemma {:induction false} RemovedIsSafe(fs: Fs, t: Fs, root: Tree, stage: Tree, plan: Plan)
    requires Stopped(fs, root, stage, plan) && t == RemoveAll(fs, fs.installed, plan.remove).0
    ensures Safe(t, root) && Genuine(t.backup, root) && t.backup == fs.backup && t.backedUp == fs.backedUp
    ensures RemoveAll(fs, fs.installed, plan.remove).1 ==> t.root == fs.root - Set(fs.installed)
  {
    StoppedIsSafe(fs, root, stage, plan);
    RemoveAllKeeps(fs, fs.installed, plan.remove);
    if !AllFine(MANAGED, plan.backup) {
      assert t == fs;
    }
  }

  /** If the rollback fails too, nothing is lost: every original is in its place or in
      the backup, and the backup is kept.  No fault is excluded. */
  lemma {:induction false} RetainedIsSafe(root: Tree, stage: Tree, plan: Plan)
    requires root.Keys <= Set(MANAGED) && Staged(stage)
    requires Publish(Start(root, stage), plan).1.Retained?
    ensures Safe(Publish(Start(root, stage), plan).0, root)
  {
    var fs := Swap(Start(root, stage), plan).0;
    SwapStops(root, stage, plan);
    var a := RemoveAll(fs, fs.installed, plan.remove).0;
    RemovedIsSafe(fs, a, root, stage, plan);
    StoppedIsSafe(fs, root, stage, plan);
    RestoreAllKeeps(a, a.backedUp, plan.restore, root);
  }

  /** An interrupt hit between an operation and the note of it, where that matters: in
      the backup loop, or in the install loop at a name that had no original. */
  predicate Gap(root: Tree, plan: Plan) {
    || BackupGap(root, MANAGED, plan.backup).Some?
    || (AllFine(MANAGED, plan.backup) && InstallGap(MANAGED, plan.install).Some? && InstallGap(MANAGED, plan.install).value !in root)
  }

  lemma {:induction false} UndoneEarly(fs: Fs, root: Tree, plan: Plan)
    requires StoppedEarly(fs, root, plan) && Rollback(fs, plan).1
    ensures Rollback(fs, plan).0.root == root <==> BackupGap(root, MANAGED, plan.backup).None?
  {
    var gap := BackupGap(root, MANAGED, plan.backup);
    assert Safe(fs, root) && Genuine(fs.backup, root);
    RestoreAllKeeps(fs, fs.backedUp, plan.restore, root);
    var t := RestoreAll(fs, fs.backedUp, plan.restore).0;
    if gap.Some? {
      assert gap.value !in t.root;
    } else {
      assert t.root.Keys == root.Keys;
      assert t.root == root;
    }
  }

  lemma {:induction false} UndoneLate(fs: Fs, root: Tree, stage: Tree, plan: Plan)
    requires StoppedLate(fs, root, stage, plan) && Rollback(fs, plan).1
    ensures Rollback(fs, plan).0.root == root <==> Opt(InstallGap(MANAGED, plan.install)) <= root.Keys
  {
    var gap := Opt(InstallGap(MANAGED, plan.install));
    RemoveAllKeeps(fs, fs.installed, plan.remove);
    var a := RemoveAll(fs, fs.installed, plan.remove).0;
    assert a.root.Keys == gap;
    RestoreAllKeeps(a, a.backedUp, plan.restore, root);
    var t := RestoreAll(a, a.backedUp, plan.restore).0;
    assert t.root.Keys == gap + root.Keys;
    if gap <= root.Keys {
      assert t.root == root;
    }
  }

  /** All or nothing: after a failure and a completed rollback the managed names are
      exactly as before, unless an interrupt fell into one of the gaps. */
  lemma {:induction false} RolledBackIsExact(root: Tree, stage: Tree, plan: Plan)
    requires root.Keys <= Set(MANAGED) && Staged(stage)
    requires Publish(Start(root, stage), plan).1.RolledBack?
    ensures Publish(Start(root, stage), plan).0.root == root <==> !Gap(root, plan)
  {
    var fs := Swap(Start(root, stage), plan).0;
    SwapStops(root, stage, plan);
    if AllFine(MANAGED, plan.backup) {
      UndoneLate(fs, root, stage, plan);
    } else {
      UndoneEarly(fs, root, plan);
    }
  }

  /** The gap loses data: an interrupt right after the first move, and the rollback,
      which does not know of the move, deletes the only copy with the stage. */
  lemma {:induction false} GapLosesOriginal(stage: Tree, item: Item) returns (plan: Plan)
    ensures var (t, end) := Publish(Start(map["upstream" := item], stage), plan);
      end == RolledBack && "upstream" !in t.root && "upstream" !in t.backup
  {
    plan := Plan(_ => After, _ => Fine, false, _ => Fine, _ => Fine);
    var fs := Start(map["upstream" := item], stage);
    assert BackUpAll(fs, MANAGED, plan.backup) == (BackUp(fs, "upstream"), false);
  }

  // ---- the program --------------------------------------------------------

  class Publisher {
    var root: Tree
    var stage: Tree
    var backup: Tree
    var backedUp: seq<Name>
    var installed: seq<Name>

    ghost function View(): Fs
      reads this
    {
      Fs(root, stage, backup, backedUp, installed)
    }

    constructor (root: Tree, stage: Tree)
      ensures View() == Start(root, stage)
    {
      this.root, this.stage, backup, backedUp, installed := root, stage, map[], [], [];
    }

    /** False where the loop raises. */
    method BackUpLoop(faults: Name -> Fault) returns (ok: bool)
      modifies this
      ensures (View(), ok) == BackUpAll(old(View()), MANAGED, faults)
    {
      ghost var before := View();
      var i := 0;
      while i < |MANAGED|
        invariant 0 <= i <= |MANAGED|
        invariant BackUpAll(before, MANAGED, faults) == BackUpAll(View(), MANAGED[i..], faults)
      {
        var name := MANAGED[i];
        assert MANAGED[i..][0] == name && MANAGED[i..][1..] == MANAGED[i + 1..];
        if faults(name).Before? {
          return false;
        }
        if name in root {
          backup := backup[name := root[name]];
          root := root - {name};
          if faults(name).After? {
            return false;
          }
          backedUp := backedUp + [name];
        } else if faults(name).After? {
          return false;
        }
        i := i + 1;
      }
      ok := true;
    }

    method InstallLoop(faults: Name -> Fault) returns (ok: bool)
      modifies this
      ensures (View(), ok) == InstallAll(old(View()), MANAGED, faults)
    {
      ghost var before := View();
      var i := 0;
      while i < |MANAGED|
        invariant 0 <= i <= |MANAGED|
        invariant InstallAll(before, MANAGED, faults) == InstallAll(View(), MANAGED[i..], faults)
      {
        var name := MANAGED[i];
        assert MANAGED[i..][0] == name && MANAGED[i..][1..] == MANAGED[i + 1..];
        if faults(name).Before? || !Movable(stage, root, name) {
          return false;
        }
        root := root[name := stage[name]];
        stage := stage - {name};
        if faults(name).After? {
          return false;
        }
        installed := installed + [name];
        i := i + 1;
      }
      ok := true;
    }

    method RemoveLoop(faults: Name -> Fault) returns (ok: bool)
      modifies this`root
      ensures (View(), ok) == RemoveAll(old(View()), installed, faults)
    {
      ghost var before := View();
      assert installed[..|installed|] == installed;
      var i := |installed|;
      while i > 0
        invariant 0 <= i <= |installed|
        invariant RemoveAll(before, installed, faults) == RemoveAll(View(), installed[..i], faults)
      {
        i := i - 1;
        var name := installed[i];
        assert installed[..i + 1][..i] == installed[..i];
        if faults(name).Before? || name !in root {
          return false;
        }
        root := root - {name};
        if faults(name).After? {
          return false;
        }
      }
      ok := true;
    }

    method RestoreLoop(faults: Name -> Fault) returns (ok: bool)
      modifies this`root, this`backup
      ensures (View(), ok) == RestoreAll(old(View()), backedUp, faults)
    {
      ghost var before := View();
      assert backedUp[..|backedUp|] == backedUp;
      var i := |backedUp|;
      while i > 0
        invariant 0 <= i <= |backedUp|
        invariant RestoreAll(before, backedUp, faults) == RestoreAll(View(), backedUp[..i], faults)
      {
        i := i - 1;
        var name := backedUp[i];
        assert backedUp[..i + 1][..i] == backedUp[..i];
        if faults(name).Before? || !Movable(backup, root, name) {
          return false;
        }
        root := root[name := backup[name]];
        backup := backup - {name};
        if faults(name).After? {
          return false;
        }
      }
      ok := true;
    }

    method Run(plan: Plan) returns (end: End)
      modifies this
      ensures (View(), end) == Publish(old(View()), plan)
    {
      var ok := BackUpLoop(plan.backup);
      if ok {
        ok := InstallLoop(plan.install);
      }
      if ok && !plan.checkFails {
        stage, backup := map[], map[];
        return Published;
      }
      var undone := RemoveLoop(plan.remove);
      if undone {
        undone := RestoreLoop(plan.restore);
      }
      if !undone {
        return Retained;
      }
      stage, backup := map[], map[];
      end := RolledBack;
    }
  }
}

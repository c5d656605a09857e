/** The workload's durable cancel fences: one file per fenced attempt, and a
    copy of them in memory that every decision reads. */
module CancelFence {
  import opened SandboxTypes

  datatype Fence = Fence(bundle: Bundle, slug: string, appId: string, fencedAt: int, expiresAt: int)

  type Fences = map<AttemptId, Fence>

  datatype Request = Request(attemptId: AttemptId, bundle: Bundle, slug: string, appId: string, expiresAt: int)

  predicate SameIdentity(fence: Fence, request: Request) {
    fence.bundle == request.bundle && fence.slug == request.slug && fence.appId == request.appId
  }

  predicate WellFormed(request: Request, now: int) {
    SafeId(request.attemptId) && SafeId(request.slug) && SafeId(request.appId) && now < request.expiresAt
  }

  /** What installing a fence leaves behind and answers, or None when it throws.
      An attempt already fenced keeps its first fence, expiry included. */
  function Install(fences: Fences, maxEntries: nat, request: Request, now: int): Option<(Fences, Fence)> {
    if !WellFormed(request, now) then None
    else if request.attemptId in fences then
      var existing := fences[request.attemptId];
      if SameIdentity(existing, request) then Some((fences, existing)) else None
    else if |fences| >= maxEntries then None
    else
      var fence := Fence(request.bundle, request.slug, request.appId, now, request.expiresAt);
      Some((fences[request.attemptId := fence], fence))
  }

  predicate Removable(fences: Fences, attemptId: AttemptId, now: int) {
    attemptId in fences && fences[attemptId].expiresAt <= now
  }

  function Remove(fences: Fences, attemptId: AttemptId): Fences {
    map a | a in fences && a != attemptId :: fences[a]
  }

  class FenceStore {
    /** The directory: what survives the process. */
    var files: Fences
    /** The copy in memory. */
    var fences: Fences
    const maxEntries: nat

    ghost predicate Valid()
      reads this
    {
      fences == files && |files| <= maxEntries
    }

    constructor (maxEntries: nat)
      requires maxEntries >= 1
      ensures Valid() && files == map[] && this.maxEntries == maxEntries
    {
      this.maxEntries := maxEntries;
      files, fences := map[], map[];
    }

    /** Reads every fence file back after a restart. */
    method Load()
      requires |files| <= maxEntries
      modifies this`fences
      ensures Valid()
    {
      fences := map[];
      var names := files.Keys;
      while names != {}
        invariant names <= files.Keys
        invariant fences.Keys == files.Keys - names
        invariant forall a :: a in fences ==> fences[a] == files[a]
        decreases names
      {
        var name :| name in names;
        fences := fences[name := files[name]];
        names := names - {name};
      }
    }

    /** The file reaches the disk before the copy in memory changes. */
    method InstallFence(request: Request, now: int) returns (fence: Option<Fence>)
      requires Valid()
      modifies this
      ensures Valid()
      ensures match Install(old(files), maxEntries, request, now)
              case None => fence == None && files == old(files)
              case Some(result) => fence == Some(result.1) && files == result.0
    {
      if !WellFormed(request, now) {
        return None;
      }
      if request.attemptId in fences {
        var existing := fences[request.attemptId];
        return if SameIdentity(existing, request) then Some(existing) else None;
      }
      if |fences| >= maxEntries {
        return None;
      }
      var created := Fence(request.bundle, request.slug, request.appId, now, request.expiresAt);
      files := files[request.attemptId := created];
      fences := fences[request.attemptId := created];
      fence := Some(created);
    }

    method RemoveVerifiedExpired(attemptId: AttemptId, now: int) returns (removed: bool)
      requires Valid()
      modifies this
      ensures Valid()
      ensures removed == Removable(old(files), attemptId, now)
      ensures files == if removed then Remove(old(files), attemptId) else old(files)
    {
      if attemptId !in fences || fences[attemptId].expiresAt > now {
        return false;
      }
      files := files - {attemptId};
      fences := fences - {attemptId};
      assert files == Remove(old(files), attemptId);
      RemoveShrinks(old(files), attemptId);
      removed := true;
    }
  }

  lemma RemoveShrinks(fences: Fences, attemptId: AttemptId)
    ensures |Remove(fences, attemptId)| <= |fences|
  {
    var less := Remove(fences, attemptId);
    assert less.Keys == fences.Keys - {attemptId};
    assert |less| == |less.Keys| && |fences| == |fences.Keys|;
  }

  /** A fence, once installed, answers for exactly the identity it was installed
      for until it is removed, and removing one needs its expiry to have passed. */
  lemma InstallKeepsOthers(fences: Fences, maxEntries: nat, request: Request, now: int, a: AttemptId)
    requires a in fences
    requires Install(fences, maxEntries, request, now).Some?
    ensures a in Install(fences, maxEntries, request, now).value.0
    ensures Install(fences, maxEntries, request, now).value.0[a] == fences[a]
  {
  }
}

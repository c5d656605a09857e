/** What the holder of the setup lock keeps in memory: whether it has released, the
    first ownership failure it saw, and the abort signal its commands watch. */
module SetupLockHandle {
  import opened SandboxTypes

  type Token = nat

  datatype Failure = Changed | WriteFailed | NotOwner

  datatype Handle = Handle(released: bool, failure: Option<Failure>, aborted: bool)

  const FRESH := Handle(false, None, false)

  /** The calls on a lock.  `observed` is the token read from the directory. */
  datatype Call =
    | Assert(observed: Option<Token>)
    | Beat(observed: Option<Token>, written: bool)
    | Release(observed: Option<Token>, renamed: bool)

  /** The first failure is kept, and aborts the signal. */
  function Record(h: Handle, failure: Failure): Handle {
    h.(failure := if h.failure.Some? then h.failure else Some(failure), aborted := true)
  }

  /** The handle after a call, and whether the call returned. */
  function Apply(h: Handle, token: Token, call: Call): (Handle, bool) {
    match call
    case Assert(observed) =>
      if h.released || h.failure.Some? then (h, false)
      else if observed != Some(token) then (Record(h, Changed), false)
      else (h, true)
    case Beat(observed, written) =>
      if h.released then (h, true)
      else if h.failure.Some? then (Record(h, Changed), false)
      else if observed != Some(token) then (Record(h, Changed), false)
      else if !written then (Record(h, WriteFailed), false)
      else (h, true)
    case Release(observed, renamed) =>
      if h.released then (h, true)
      else if h.failure.Some? then (h, false)
      else if observed != Some(token) then (Record(h, NotOwner), false)
      else if !renamed then (h, false)
      else (h.(released := true), true)
  }

  function After(h: Handle, token: Token, calls: seq<Call>): Handle
    decreases |calls|
  {
    if calls == [] then h else After(Apply(h, token, calls[0]).0, token, calls[1..])
  }

  /** A failure goes with the abort, and excludes a release. */
  predicate Valid(h: Handle) {
    (h.failure.Some? <==> h.aborted) && !(h.released && h.failure.Some?)
  }

  lemma {:induction false} ValidStays(h: Handle, token: Token, calls: seq<Call>)
    requires Valid(h)
    ensures Valid(After(h, token, calls))
    decreases |calls|
  {
    if calls != [] {
      ValidStays(Apply(h, token, calls[0]).0, token, calls[1..]);
    }
  }

  /** Once a loss of ownership has been noticed, every later assertion fails, the lock is
      never released, the signal stays aborted and the first failure stays the reason,
      whatever the directory holds by then. */
  lemma {:induction false} LossIsFinal(h: Handle, token: Token, calls: seq<Call>, next: Call)
    requires Valid(h) && h.failure.Some?
    ensures After(h, token, calls) == h
    ensures !Apply(After(h, token, calls), token, next).1 && Apply(After(h, token, calls), token, next).0.aborted
    decreases |calls|
  {
    if calls != [] {
      LossIsFinal(Apply(h, token, calls[0]).0, token, calls[1..], next);
    }
  }

  /** A released lock asserts nothing any more. */
  lemma {:induction false} ReleaseIsFinal(h: Handle, token: Token, calls: seq<Call>, observed: Option<Token>)
    requires Valid(h) && h.released
    ensures After(h, token, calls) == h && !Apply(h, token, Assert(observed)).1
    decreases |calls|
  {
    if calls != [] {
      ReleaseIsFinal(Apply(h, token, calls[0]).0, token, calls[1..], observed);
    }
  }

  /** An assertion succeeds exactly if the record is still the holder's own and no call
      so far has failed on ownership. */
  lemma {:induction false} AssertIsExact(h: Handle, token: Token, observed: Option<Token>)
    requires Valid(h)
    ensures Apply(h, token, Assert(observed)).1 <==> !h.released && !h.aborted && observed == Some(token)
  {
  }

  /** A call that meets a loss of ownership, or cannot write its own record. */
  predicate Fails(token: Token, call: Call) {
    call.observed != Some(token) || (call.Beat? && !call.written)
  }

  /** A release that finds its own record and moves the directory away. */
  predicate Frees(token: Token, call: Call) {
    call.Release? && call.observed == Some(token) && call.renamed
  }

  /** The failure a failing call reports. */
  function Reports(token: Token, call: Call): Failure {
    if call.observed == Some(token) then WriteFailed else if call.Release? then NotOwner else Changed
  }

  /** The first call that fails or frees comes at `i`. */
  ghost predicate First(token: Token, calls: seq<Call>, i: nat) {
    && i < |calls| && (Fails(token, calls[i]) || Frees(token, calls[i]))
    && forall j :: 0 <= j < i ==> !Fails(token, calls[j]) && !Frees(token, calls[j])
  }

  lemma {:induction false} AfterFirst(token: Token, calls: seq<Call>, i: nat)
    requires First(token, calls, i)
    ensures After(FRESH, token, calls) ==
      if Frees(token, calls[i]) then Handle(true, None, false) else Handle(false, Some(Reports(token, calls[i])), true)
    decreases |calls|
  {
    var next := Apply(FRESH, token, calls[0]).0;
    if i == 0 {
      if Frees(token, calls[0]) {
        ReleaseIsFinal(next, token, calls[1..], None);
      } else {
        LossIsFinal(next, token, calls[1..], calls[0]);
      }
    } else {
      assert !Fails(token, calls[0]) && !Frees(token, calls[0]);
      assert forall j :: 0 <= j < |calls[1..]| ==> calls[1..][j] == calls[j + 1];
      AfterFirst(token, calls[1..], i - 1);
    }
  }

  lemma {:induction false} AfterNone(token: Token, calls: seq<Call>)
    requires forall j :: 0 <= j < |calls| ==> !Fails(token, calls[j]) && !Frees(token, calls[j])
    ensures After(FRESH, token, calls) == FRESH
    decreases |calls|
  {
    if calls != [] {
      assert !Fails(token, calls[0]) && !Frees(token, calls[0]);
      assert forall j :: 0 <= j < |calls[1..]| ==> calls[1..][j] == calls[j + 1];
      AfterNone(token, calls[1..]);
    }
  }

  lemma {:induction false} SomeFirst(token: Token, calls: seq<Call>, k: nat) returns (i: nat)
    requires k < |calls| && (Fails(token, calls[k]) || Frees(token, calls[k]))
    ensures First(token, calls, i) && i <= k
    decreases k
  {
    if j :| 0 <= j < k && (Fails(token, calls[j]) || Frees(token, calls[j])) {
      i := SomeFirst(token, calls, j);
    } else {
      i := k;
    }
  }

  /** In every history of calls on a new lock the first one that either met a failure or freed
      the lock decides: the lock is aborted, with the failure that call met, exactly if that
      was a failure, and released exactly if that was the release. */
  lemma {:induction false} FirstDecides(token: Token, calls: seq<Call>)
    ensures var h := After(FRESH, token, calls);
      && (h.aborted <==> exists i: nat :: First(token, calls, i) && Fails(token, calls[i]))
      && (h.released <==> exists i: nat :: First(token, calls, i) && Frees(token, calls[i]))
      && (forall i: nat :: First(token, calls, i) && Fails(token, calls[i]) ==> h.failure == Some(Reports(token, calls[i])))
  {
    if k :| 0 <= k < |calls| && (Fails(token, calls[k]) || Frees(token, calls[k])) {
      var i := SomeFirst(token, calls, k);
      AfterFirst(token, calls, i);
      forall j: nat | First(token, calls, j) ensures j == i {
      }
    } else {
      AfterNone(token, calls);
    }
  }

  /** A call returns exactly if the lock is still held and the call neither met a failure nor,
      if a release, could not move the directory; a heartbeat and a release of a released lock
      return at once. */
  lemma {:induction false} CallIsExact(h: Handle, token: Token, call: Call)
    requires Valid(h)
    ensures Apply(h, token, call).1 <==>
      if h.released then !call.Assert?
      else !h.aborted && !Fails(token, call) && (call.Release? ==> call.renamed)
  {
  }

  class ProductionSetupLock {
    const token: Token
    var released: bool
    var heartbeatFailure: Option<Failure>
    var aborted: bool

    ghost function View(): Handle
      reads this
    {
      Handle(released, heartbeatFailure, aborted)
    }

    constructor (token: Token)
      ensures View() == FRESH && this.token == token
    {
      this.token := token;
      released, heartbeatFailure, aborted := false, None, false;
    }

    method RecordOwnershipFailure(failure: Failure)
      modifies this`heartbeatFailure, this`aborted
      ensures View() == Record(old(View()), failure)
    {
      if heartbeatFailure.None? {
        heartbeatFailure := Some(failure);
      }
      aborted := true;
    }

    method AssertOwned(observed: Option<Token>) returns (ok: bool)
      modifies this`heartbeatFailure, this`aborted
      ensures (View(), ok) == Apply(old(View()), token, Assert(observed))
    {
      if released || heartbeatFailure.Some? {
        return false;
      }
      if observed != Some(token) {
        RecordOwnershipFailure(Changed);
        return false;
      }
      ok := true;
    }

    method Heartbeat(observed: Option<Token>, written: bool) returns (ok: bool)
      modifies this`heartbeatFailure, this`aborted
      ensures (View(), ok) == Apply(old(View()), token, Beat(observed, written))
    {
      if released {
        return true;
      }
      ok := AssertOwned(observed);
      if !ok {
        RecordOwnershipFailure(Changed);
      } else if !written {
        RecordOwnershipFailure(WriteFailed);
        ok := false;
      }
    }

    method ReleaseLock(observed: Option<Token>, renamed: bool) returns (ok: bool)
      modifies this
      ensures (View(), ok) == Apply(old(View()), token, Release(observed, renamed))
    {
      if released {
        return true;
      }
      if heartbeatFailure.Some? {
        return false;
      }
      if observed != Some(token) {
        RecordOwnershipFailure(NotOwner);
        return false;
      }
      if renamed {
        released := true;
      }
      ok := renamed;
    }

    /** A file system mutation under the fence: its result is handed on only if the lock
        was owned before it and after it. */
    method Mutate(before: Option<Token>, after: Option<Token>) returns (began: bool, ok: bool)
      modifies this`heartbeatFailure, this`aborted
      ensures began <==> !old(released) && old(heartbeatFailure).None? && before == Some(token)
      ensures ok <==> began && after == Some(token)
      ensures Valid(old(View())) ==> Valid(View()) && (ok ==> View() == old(View()))
    {
      ok := false;
      began := AssertOwned(before);
      if began {
        ok := AssertOwned(after);
      }
    }
  }
}

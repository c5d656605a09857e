/** Replay protection of signed envelopes: the set of consumed nonces, its append-only
    file, and the compaction of that file at every start. */
module NonceLedger {
  import opened SandboxTypes

  type Nonce = string

  /** How long after its expiry the compaction still keeps a nonce. */
  const SLACK_MS: int := 5_000

  /** Longest validity window of an envelope. */
  const MAX_TTL_MS: int := 600_000

  /** `authentic`: identity, payload hash and signature are right.  `secretFree`: the
      payload carries no credential. */
  datatype Envelope = Envelope(nonce: Nonce, issuedAt: int, expiresAt: int, authentic: bool, secretFree: bool)

  /** A line of the file: an entry whose MAC verifies, or anything else. */
  datatype Line = Entry(expiresAt: int, nonce: Nonce) | Garbled

  /** `torn`: the last line lacks its newline. */
  datatype File = File(lines: seq<Line>, torn: bool)

  /** What an append leaves behind when it fails. */
  datatype Left = Nothing | Part | LineOnly | Whole

  datatype Write = Done | Failed(left: Left)

  datatype Acceptance = Acceptance(envelope: Envelope, at: int)

  /** `memory` is None while the process is down. */
  datatype State = State(now: int, file: File, memory: Option<set<Nonce>>, accepted: seq<Acceptance>)

  datatype Event =
    | Receive(envelope: Envelope, write: Write)
    | Start(compacted: bool)
    | Crash

  function Init(now: int): State {
    State(now, File([], false), None, [])
  }

  // ---- the verifier -------------------------------------------------------

  predicate Fresh(e: Envelope, now: int, skew: int) {
    && e.issuedAt <= now + skew && now - skew <= e.expiresAt
    && e.issuedAt < e.expiresAt <= e.issuedAt + MAX_TTL_MS
  }

  /** The verifier consumes the nonce of `e`. */
  predicate Passes(e: Envelope, now: int, skew: int, consumed: set<Nonce>) {
    Fresh(e, now, skew) && e.authentic && e.nonce !in consumed && e.secretFree
  }

  // ---- the file -----------------------------------------------------------

  /** Text put after a line without newline becomes part of it. */
  function Put(file: File, line: Line, torn: bool): File {
    if file.torn && file.lines != [] then File(file.lines[..|file.lines| - 1] + [Garbled], torn) else File(file.lines + [line], torn)
  }

  function Append(file: File, entry: Line, write: Write): File {
    match write
    case Done => Put(file, entry, false)
    case Failed(Nothing) => file
    case Failed(Part) => Put(file, Garbled, true)
    case Failed(LineOnly) => Put(file, entry, true)
    case Failed(Whole) => Put(file, entry, false)
  }

  predicate Readable(file: File) {
    forall i :: 0 <= i < |file.lines| ==> file.lines[i].Entry?
  }

  /** The entries that the scan keeps: those not expired beyond the slack, the last one
      of a nonce in the place of its first. */
  function Active(lines: seq<Line>, now: int): (kept: seq<Line>)
    ensures forall i :: 0 <= i < |kept| ==> kept[i].Entry?
  {
    if lines == [] then []
    else
      var before := Active(lines[..|lines| - 1], now);
      var last := lines[|lines| - 1];
      if last.Entry? && last.expiresAt >= now - SLACK_MS then Record(before, last) else before
  }

  /** `Map.set` on an insertion-ordered map. */
  function Record(kept: seq<Line>, entry: Line): (r: seq<Line>)
    requires entry.Entry? && forall i :: 0 <= i < |kept| ==> kept[i].Entry?
    ensures forall i :: 0 <= i < |r| ==> r[i].Entry?
  {
    if kept == [] then [entry]
    else if kept[0].nonce == entry.nonce then [entry] + kept[1..]
    else [kept[0]] + Record(kept[1..], entry)
  }

  function Nonces(lines: seq<Line>): set<Nonce> {
    set i | 0 <= i < |lines| && lines[i].Entry? :: lines[i].nonce
  }

  // ---- the state machine --------------------------------------------------

  function ReceiveIn(s: State, e: Envelope, write: Write, skew: int): State {
    if s.memory.None? || !Passes(e, s.now, skew, s.memory.value) then s
    else
      var t := s.(memory := Some(s.memory.value + {e.nonce}), file := Append(s.file, Entry(e.expiresAt, e.nonce), write));
      if write.Done? then t.(accepted := s.accepted + [Acceptance(e, s.now)]) else t
  }

  /** A garbled line stops the start; a crash before the rename changes nothing. */
  function StartIn(s: State, compacted: bool): State {
    if s.memory.Some? || !Readable(s.file) || !compacted then s
    else
      var kept := Active(s.file.lines, s.now);
      s.(file := File(kept, false), memory := Some(Nonces(kept)))
  }

  function Step(s: State, at: int, e: Event, skew: int): State {
    var t := s.(now := at);
    match e
    case Receive(envelope, write) => ReceiveIn(t, envelope, write, skew)
    case Start(compacted) => StartIn(t, compacted)
    case Crash => t.(memory := None)
  }

  datatype Timed = Timed(at: int, event: Event)

  /** The wall clock does not go backwards. */
  predicate Monotone(now: int, run: seq<Timed>)
    decreases |run|
  {
    run == [] || (now <= run[0].at && Monotone(run[0].at, run[1..]))
  }

  function After(s: State, run: seq<Timed>, skew: int): State
    decreases |run|
  {
    if run == [] then s else After(Step(s, run[0].at, run[0].event, skew), run[1..], skew)
  }

  // ---- invariants ---------------------------------------------------------

  /** Expired for longer than the slack. */
  predicate LongGone(e: Envelope, now: int) {
    e.expiresAt < now - SLACK_MS
  }

  /** The nonce of an accepted envelope is on disk, unless the file can never be
      loaded again, and in memory while the process runs. */
  ghost predicate Remembered(e: Envelope, file: File, memory: Option<set<Nonce>>) {
    && (Entry(e.expiresAt, e.nonce) in file.lines || !Readable(file))
    && (memory.Some? ==> e.nonce in memory.value)
  }

  ghost predicate Inv(s: State) {
    && (s.file.torn ==> s.file.lines != [])
    && (s.memory.Some? ==> Nonces(s.file.lines) <= s.memory.value)
    && (forall i, j :: 0 <= i < j < |s.file.lines| && s.file.lines[i].Entry? && s.file.lines[j].Entry? ==>
         s.file.lines[i].nonce != s.file.lines[j].nonce)
    && (forall k :: 0 <= k < |s.accepted| ==>
         s.accepted[k].at <= s.now && (LongGone(s.accepted[k].envelope, s.now) || Remembered(s.accepted[k].envelope, s.file, s.memory)))
  }

  lemma {:induction false} PutKeeps(file: File, entry: Line, torn: bool)
    requires file.torn ==> file.lines != []
    ensures var f := Put(file, entry, torn);
      && f.lines != []
      && (forall line :: line in f.lines ==> line in file.lines || line == entry || line == Garbled)
      && (forall line :: line in file.lines ==> line in f.lines || !Readable(f))
      && (entry in f.lines || !Readable(f))
  {
    var f := Put(file, entry, torn);
    assert f.lines[|f.lines| - 1] == (if file.torn then Garbled else entry);
    forall line | line in file.lines
      ensures line in f.lines || !Readable(f)
    {
      var i :| 0 <= i < |file.lines| && file.lines[i] == line;
      if !file.torn { assert f.lines[i] == line; }
    }
  }

  lemma {:induction false} PutStaysUnique(file: File, entry: Line, torn: bool, consumed: set<Nonce>)
    requires Nonces(file.lines) <= consumed && (entry.Entry? ==> entry.nonce !in consumed)
    requires forall i, j :: 0 <= i < j < |file.lines| && file.lines[i].Entry? && file.lines[j].Entry? ==> file.lines[i].nonce != file.lines[j].nonce
    ensures var lines := Put(file, entry, torn).lines;
      && (forall i, j :: 0 <= i < j < |lines| && lines[i].Entry? && lines[j].Entry? ==> lines[i].nonce != lines[j].nonce)
      && Nonces(lines) <= consumed + (if entry.Entry? then {entry.nonce} else {})
  {
  }

  lemma {:induction false} ReceiveKeeps(s: State, e: Envelope, write: Write, skew: int)
    requires Inv(s)
    ensures Inv(ReceiveIn(s, e, write, skew))
  {
    var t := ReceiveIn(s, e, write, skew);
    if t != s && write != Failed(Nothing) {
      var entry := if write == Failed(Part) then Garbled else Entry(e.expiresAt, e.nonce);
      var torn := write == Failed(Part) || write == Failed(LineOnly);
      assert t.file == Put(s.file, entry, torn);
      PutKeeps(s.file, entry, torn);
      PutStaysUnique(s.file, entry, torn, s.memory.value);
      forall k | 0 <= k < |t.accepted|
        ensures LongGone(t.accepted[k].envelope, t.now) || Remembered(t.accepted[k].envelope, t.file, t.memory)
      {
        if k < |s.accepted| {
          assert t.accepted[k] == s.accepted[k];
          StillUnreadable(s.file, t.file, entry, torn);
        }
      }
    }
  }

  /** Appending never repairs a file. */
  lemma {:induction false} StillUnreadable(file: File, f: File, entry: Line, torn: bool)
    requires f == Put(file, entry, torn)
    ensures !Readable(file) ==> !Readable(f)
  {
    if !Readable(file) {
      var i :| 0 <= i < |file.lines| && !file.lines[i].Entry?;
      assert f.lines[i] == file.lines[i];
    }
  }

  // ---- compaction ---------------------------------------------------------

  ghost predicate Distinct(lines: seq<Line>) {
    forall i, j :: 0 <= i < j < |lines| && lines[i].Entry? && lines[j].Entry? ==> lines[i].nonce != lines[j].nonce
  }

  /** Recording a nonce that is not there appends it. */
  lemma {:induction false} RecordNew(kept: seq<Line>, entry: Line)
    requires entry.Entry? && forall i :: 0 <= i < |kept| ==> kept[i].Entry? && kept[i].nonce != entry.nonce
    ensures Record(kept, entry) == kept + [entry]
    decreases |kept|
  {
    if kept != [] {
      RecordNew(kept[1..], entry);
      assert [kept[0]] + (kept[1..] + [entry]) == kept + [entry];
    }
  }

  /** Of a file with one entry per nonce the scan keeps exactly the entries that have
      not expired beyond the slack, unchanged and in their order. */
  lemma {:induction false} ActiveIsFilter(lines: seq<Line>, now: int)
    requires Distinct(lines) && forall i :: 0 <= i < |lines| ==> lines[i].Entry?
    ensures Distinct(Active(lines, now))
    ensures forall line :: line in Active(lines, now) <==> line in lines && line.expiresAt >= now - SLACK_MS
    decreases |lines|
  {
    if lines != [] {
      var rest, last := lines[..|lines| - 1], lines[|lines| - 1];
      ActiveIsFilter(rest, now);
      var kept := Active(rest, now);
      forall i | 0 <= i < |kept|
        ensures kept[i].nonce != last.nonce
      {
        assert kept[i] in rest;
        var j :| 0 <= j < |rest| && rest[j] == kept[i];
        assert lines[j].nonce != lines[|lines| - 1].nonce;
      }
      if last.expiresAt >= now - SLACK_MS {
        RecordNew(kept, last);
      }
      assert lines == rest + [last];
    }
  }

  lemma {:induction false} StartKeeps(s: State, compacted: bool)
    requires Inv(s)
    ensures Inv(StartIn(s, compacted))
  {
    var t := StartIn(s, compacted);
    if t != s {
      ActiveIsFilter(s.file.lines, s.now);
      forall k | 0 <= k < |t.accepted|
        ensures LongGone(t.accepted[k].envelope, t.now) || Remembered(t.accepted[k].envelope, t.file, t.memory)
      {
        var e := s.accepted[k].envelope;
        if !LongGone(e, s.now) {
          assert Entry(e.expiresAt, e.nonce) in t.file.lines;
          var i :| 0 <= i < |t.file.lines| && t.file.lines[i] == Entry(e.expiresAt, e.nonce);
        }
      }
    }
  }

  lemma {:induction false} StepKeeps(s: State, at: int, e: Event, skew: int)
    requires Inv(s) && s.now <= at
    ensures Inv(Step(s, at, e, skew))
  {
    var t := s.(now := at);
    match e {
      case Receive(envelope, write) => ReceiveKeeps(t, envelope, write, skew);
      case Start(compacted) => StartKeeps(t, compacted);
      case Crash =>
    }
  }

  // ---- at most once -------------------------------------------------------

  /** A nonce is accepted again only after its first envelope has expired for longer
      than the slack. */
  ghost predicate NoncesRest(accepted: seq<Acceptance>) {
    forall i, j :: 0 <= i < j < |accepted| && accepted[i].envelope.nonce == accepted[j].envelope.nonce ==>
      LongGone(accepted[i].envelope, accepted[j].at)
  }

  ghost predicate InTime(accepted: seq<Acceptance>, skew: int) {
    forall k :: 0 <= k < |accepted| ==> Fresh(accepted[k].envelope, accepted[k].at, skew)
  }

  ghost predicate OnceEach(accepted: seq<Acceptance>) {
    forall i, j :: 0 <= i < j < |accepted| ==> accepted[i].envelope != accepted[j].envelope
  }

  lemma {:induction false} StepRests(s: State, at: int, e: Event, skew: int)
    requires Inv(s) && s.now <= at && NoncesRest(s.accepted) && InTime(s.accepted, skew)
    ensures NoncesRest(Step(s, at, e, skew).accepted) && InTime(Step(s, at, e, skew).accepted, skew)
  {
  }

  lemma {:induction false} RunRests(s: State, run: seq<Timed>, skew: int)
    requires Inv(s) && Monotone(s.now, run) && NoncesRest(s.accepted) && InTime(s.accepted, skew)
    ensures NoncesRest(After(s, run, skew).accepted) && InTime(After(s, run, skew).accepted, skew)
    decreases |run|
  {
    if run != [] {
      StepKeeps(s, run[0].at, run[0].event, skew);
      StepRests(s, run[0].at, run[0].event, skew);
      RunRests(Step(s, run[0].at, run[0].event, skew), run[1..], skew);
    }
  }

  /** Over every run with crashes, failed appends and compactions, no envelope is
      accepted twice. */
  ghost predicate ReplaySafe(skew: int) {
    forall now, run :: Monotone(now, run) ==> OnceEach(After(Init(now), run, skew).accepted)
  }

  lemma {:induction false} AcceptedOnce(now: int, run: seq<Timed>, skew: int)
    requires Monotone(now, run) && skew <= SLACK_MS
    ensures OnceEach(After(Init(now), run, skew).accepted)
  {
    RunRests(Init(now), run, skew);
  }

  /** An envelope accepted, forgotten by a compaction just past the slack, and accepted
      again by a more tolerant verifier. */
  lemma {:induction false} TooTolerant(skew: int) returns (run: seq<Timed>)
    requires skew > SLACK_MS
    ensures Monotone(0, run) && !OnceEach(After(Init(0), run, skew).accepted)
  {
    var e := Envelope("n", 0, 1, true, true);
    var again := 2 + SLACK_MS;
    var r4 := [Timed(again, Receive(e, Done))];
    var r3 := [Timed(again, Start(true))] + r4;
    var r2 := [Timed(again, Crash)] + r3;
    var r1 := [Timed(1, Receive(e, Done))] + r2;
    run := [Timed(0, Start(true))] + r1;
    MonotoneOn(again, Timed(again, Receive(e, Done)), []);
    MonotoneOn(again, Timed(again, Start(true)), r4);
    MonotoneOn(1, Timed(again, Crash), r3);
    MonotoneOn(0, Timed(1, Receive(e, Done)), r2);
    MonotoneOn(0, Timed(0, Start(true)), r1);
    var s1 := State(0, File([], false), Some({}), []);
    var s2 := State(1, File([Entry(1, "n")], false), Some({"n"}), [Acceptance(e, 1)]);
    var s3 := State(again, File([Entry(1, "n")], false), None, [Acceptance(e, 1)]);
    var s4 := State(again, File([], false), Some({}), [Acceptance(e, 1)]);
    var s5 := Step(s4, again, Receive(e, Done), skew);
    ForgetsLongGone(again);
    AfterOn(Init(0), Timed(0, Start(true)), r1, skew, s1);
    assert Step(s1, 1, Receive(e, Done), skew).file.lines == [Entry(1, "n")];
    assert {} + {e.nonce} == {"n"} && [] + [Acceptance(e, 1)] == [Acceptance(e, 1)];
    AfterOn(s1, Timed(1, Receive(e, Done)), r2, skew, s2);
    AfterOn(s2, Timed(again, Crash), r3, skew, s3);
    AfterOn(s3, Timed(again, Start(true)), r4, skew, s4);
    AfterOn(s4, Timed(again, Receive(e, Done)), [], skew, s5);
    assert r4 + [] == r4;
    var last := After(Init(0), run, skew).accepted;
    assert last == [Acceptance(e, 1)] + [Acceptance(e, again)];
    assert last[0].envelope == last[1].envelope;
  }

  lemma {:induction false} MonotoneOn(now: int, step: Timed, rest: seq<Timed>)
    requires now <= step.at && Monotone(step.at, rest)
    ensures Monotone(now, [step] + rest)
  {
  }

  lemma {:induction false} AfterOn(s: State, step: Timed, rest: seq<Timed>, skew: int, t: State)
    requires Step(s, step.at, step.event, skew) == t
    ensures After(s, [step] + rest, skew) == After(t, rest, skew)
  {
  }

  lemma {:induction false} ForgetsLongGone(now: int)
    requires 1 < now - SLACK_MS
    ensures Active([Entry(1, "n")], now) == [] && Nonces([]) == {}
  {
  }

  /** The ledger gives replay safety exactly to verifiers that tolerate no more than
      the slack the compaction keeps. */
  lemma {:induction false} SlackIsExact(skew: int)
    ensures ReplaySafe(skew) <==> skew <= SLACK_MS
  {
    if skew <= SLACK_MS {
      forall now, run | Monotone(now, run)
        ensures OnceEach(After(Init(now), run, skew).accepted)
      {
        AcceptedOnce(now, run, skew);
      }
    } else {
      var run := TooTolerant(skew);
    }
  }

  // ---- the ledger itself --------------------------------------------------

  class Ledger {
    /** The file: what survives the process. */
    var lines: seq<Line>
    var torn: bool
    var consumed: set<Nonce>
    const skew: int

    constructor (skew: int)
      ensures lines == [] && !torn && consumed == {} && this.skew == skew
    {
      this.skew := skew;
      lines, torn, consumed := [], false, {};
    }

    /** `loadConsumedNonces`: reads every line, or refuses to start, then replaces the
        file by what it keeps. */
    method Load(now: int) returns (ok: bool)
      modifies this
      ensures ok == Readable(File(old(lines), old(torn)))
      ensures ok ==> lines == Active(old(lines), now) && !torn && consumed == Nonces(lines)
      ensures !ok ==> lines == old(lines) && torn == old(torn)
    {
      var kept: seq<Line> := [];
      var i := 0;
      while i < |lines|
        invariant lines == old(lines) && torn == old(torn)
        invariant 0 <= i <= |lines| && kept == Active(lines[..i], now)
        invariant forall k :: 0 <= k < i ==> lines[k].Entry?
      {
        var line := lines[i];
        if line.Garbled? {
          return false;
        }
        assert lines[..i + 1][..i] == lines[..i];
        if line.expiresAt >= now - SLACK_MS {
          kept := Set(kept, line);
        }
        i := i + 1;
      }
      assert lines[..i] == lines;
      lines, torn := kept, false;
      consumed := set k | 0 <= k < |kept| && kept[k].Entry? :: kept[k].nonce;
      ok := true;
    }

    /** Replaces the entry of a nonce in its place, or adds it at the end. */
    method Set(kept: seq<Line>, entry: Line) returns (r: seq<Line>)
      requires entry.Entry? && forall i :: 0 <= i < |kept| ==> kept[i].Entry?
      ensures r == Record(kept, entry)
    {
      var i := 0;
      while i < |kept| && kept[i].nonce != entry.nonce
        invariant 0 <= i <= |kept|
        invariant Record(kept, entry) == kept[..i] + Record(kept[i..], entry)
      {
        assert kept[..i + 1] == kept[..i] + [kept[i]];
        assert kept[i..][1..] == kept[i + 1..];
        i := i + 1;
      }
      r := if i < |kept| then kept[..i] + [entry] + kept[i + 1..] else kept + [entry];
    }

    /** Verifies and consumes: the nonce is on disk before the command is handed on,
        and a failed append rejects it. */
    method Verify(e: Envelope, now: int, write: Write) returns (accepted: bool)
      modifies this
      ensures accepted == (Passes(e, now, skew, old(consumed)) && write.Done?)
      ensures var before := State(now, File(old(lines), old(torn)), Some(old(consumed)), []);
        var after := ReceiveIn(before, e, write, skew);
        File(lines, torn) == after.file && Some(consumed) == after.memory
      ensures accepted && !old(torn) ==> lines == old(lines) + [Entry(e.expiresAt, e.nonce)]
    {
      accepted := false;
      if e.issuedAt > now + skew || e.expiresAt < now - skew || e.expiresAt <= e.issuedAt || e.expiresAt - e.issuedAt > MAX_TTL_MS {
        return;
      }
      if !e.authentic || e.nonce in consumed || !e.secretFree {
        return;
      }
      consumed := consumed + {e.nonce};
      var file := Append(File(lines, torn), Entry(e.expiresAt, e.nonce), write);
      lines, torn := file.lines, file.torn;
      accepted := write.Done?;
    }
  }
}

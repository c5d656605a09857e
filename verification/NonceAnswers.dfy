/** Which envelopes the verifier takes, exactly: each first one in time, and no other. */
module NonceAnswers {
  import opened SandboxTypes
  import opened NonceLedger

  /** Issued at most the skew ahead of the clock, expired at most the skew ago, valid for
      some time and at most 10 minutes, authentic and without a credential. */
  ghost predicate Acceptable(e: Envelope, now: int, skew: int) {
    && e.issuedAt - now <= skew && now - e.expiresAt <= skew
    && 0 < e.expiresAt - e.issuedAt <= 600_000
    && e.authentic && e.secretFree
  }

  /** What an append puts into the file: a line of its own, whole or in part, with its newline
      unless that is missing; after a line without newline, it spoils that line. */
  ghost predicate Appended(before: File, after: File, e: Envelope, write: Write) {
    var n := |before.lines|;
    if write == Failed(Nothing) then after == before
    else
      && (after.torn <==> write == Failed(Part) || write == Failed(LineOnly))
      && if before.torn && n > 0
         then |after.lines| == n && after.lines[..n - 1] == before.lines[..n - 1] && after.lines[n - 1] == Garbled
         else
           && |after.lines| == n + 1 && after.lines[..n] == before.lines
           && after.lines[n] == if write == Failed(Part) then Garbled else Entry(e.expiresAt, e.nonce)
  }

  /** An envelope is taken exactly if the process is up, it is acceptable and its nonce has
      not been consumed.  Then its nonce is consumed, whatever becomes of the write; it is
      accepted exactly if the write succeeded; and a line for it is all a clean file gets. */
  lemma {:induction false} ReceiptIsExact(s: State, at: int, e: Envelope, write: Write, skew: int)
    ensures var t := Step(s, at, Receive(e, write), skew);
      if s.memory.Some? && Acceptable(e, at, skew) && e.nonce !in s.memory.value
      then
        && t.memory == Some(s.memory.value + {e.nonce})
        && t.accepted == (if write.Done? then s.accepted + [Acceptance(e, at)] else s.accepted)
        && Appended(s.file, t.file, e, write)
      else t == s.(now := at)
  {
  }

  /** A start succeeds exactly if every line is an entry and the compaction reached the disk;
      then memory is what the new file holds, which is what has not long expired. */
  lemma {:induction false} StartIsExact(s: State, at: int, compacted: bool, skew: int)
    requires Inv(s) && s.memory.None?
    ensures var t := Step(s, at, Start(compacted), skew);
      if compacted && forall i :: 0 <= i < |s.file.lines| ==> s.file.lines[i].Entry?
      then
        && !t.file.torn
        && (forall line :: line in t.file.lines <==> line in s.file.lines && line.expiresAt >= at - 5_000)
        && t.memory.Some? && (forall n :: n in t.memory.value <==>
             exists i :: 0 <= i < |s.file.lines| && s.file.lines[i].nonce == n && s.file.lines[i].expiresAt >= at - 5_000)
      else t == s.(now := at)
  {
    if Readable(s.file) {
      ActiveIsFilter(s.file.lines, at);
      var kept := Active(s.file.lines, at);
      forall n | n in Nonces(kept)
        ensures exists i :: 0 <= i < |s.file.lines| && s.file.lines[i].nonce == n && s.file.lines[i].expiresAt >= at - 5_000
      {
        var j :| 0 <= j < |kept| && kept[j].nonce == n;
        assert kept[j] in s.file.lines;
      }
      forall i | 0 <= i < |s.file.lines| && s.file.lines[i].expiresAt >= at - 5_000
        ensures s.file.lines[i].nonce in Nonces(kept)
      {
        assert s.file.lines[i] in kept;
        var j :| 0 <= j < |kept| && kept[j] == s.file.lines[i];
      }
    }
  }

  // ---- nothing is refused as a replay that is none ---------------------------

  /** Some step of the run received an envelope with this nonce. */
  ghost predicate Received(run: seq<Timed>, nonce: Nonce) {
    exists i :: 0 <= i < |run| && run[i].event.Receive? && run[i].event.envelope.nonce == nonce
  }

  /** The nonce is in memory or in the file. */
  ghost predicate Stored(s: State, nonce: Nonce) {
    (s.memory.Some? && nonce in s.memory.value) || nonce in Nonces(s.file.lines)
  }

  lemma {:induction false} StepStores(s: State, at: int, e: Event, skew: int, nonce: Nonce)
    requires Stored(Step(s, at, e, skew), nonce)
    ensures Stored(s, nonce) || (e.Receive? && e.envelope.nonce == nonce)
  {
    if e.Start? {
      ActiveIsOld(s.file.lines, at, nonce);
    } else if e.Receive? && nonce in Nonces(Append(s.file, Entry(e.envelope.expiresAt, e.envelope.nonce), e.write).lines) {
      AppendIsNew(s.file, Entry(e.envelope.expiresAt, e.envelope.nonce), e.write, nonce);
    }
  }

  lemma {:induction false} AppendIsNew(file: File, entry: Line, write: Write, nonce: Nonce)
    requires entry.Entry? && nonce in Nonces(Append(file, entry, write).lines)
    ensures nonce in Nonces(file.lines) || nonce == entry.nonce
  {
    var lines := Append(file, entry, write).lines;
    var i :| 0 <= i < |lines| && lines[i].Entry? && lines[i].nonce == nonce;
    if i < |file.lines| && lines[i] == file.lines[i] {
      assert nonce in Nonces(file.lines);
    }
  }

  lemma {:induction false} RecordIsOld(kept: seq<Line>, entry: Line, nonce: Nonce)
    requires entry.Entry? && forall i :: 0 <= i < |kept| ==> kept[i].Entry?
    requires nonce in Nonces(Record(kept, entry))
    ensures nonce in Nonces(kept) || nonce == entry.nonce
    decreases |kept|
  {
    var r := Record(kept, entry);
    var i :| 0 <= i < |r| && r[i].nonce == nonce;
    if kept != [] {
      if kept[0].nonce == entry.nonce {
        assert i > 0 ==> r[i] == kept[i];
      } else if i > 0 {
        var rest := Record(kept[1..], entry);
        assert rest[i - 1] == r[i];
        assert nonce in Nonces(rest);
        RecordIsOld(kept[1..], entry, nonce);
        if nonce in Nonces(kept[1..]) {
          var j :| 0 <= j < |kept[1..]| && kept[1..][j].nonce == nonce;
          assert kept[j + 1].nonce == nonce;
        }
      }
    }
  }

  lemma {:induction false} ActiveIsOld(lines: seq<Line>, now: int, nonce: Nonce)
    ensures nonce in Nonces(Active(lines, now)) ==> nonce in Nonces(lines)
    decreases |lines|
  {
    if lines != [] && nonce in Nonces(Active(lines, now)) {
      var rest, last := lines[..|lines| - 1], lines[|lines| - 1];
      ActiveIsOld(rest, now, nonce);
      if last.Entry? && last.expiresAt >= now - SLACK_MS {
        RecordIsOld(Active(rest, now), last, nonce);
      }
      if nonce in Nonces(rest) {
        var j :| 0 <= j < |rest| && rest[j].Entry? && rest[j].nonce == nonce;
        assert lines[j] == rest[j];
      } else {
        assert lines[|lines| - 1].nonce == nonce;
      }
    }
  }

  lemma {:induction false} RunStores(s: State, run: seq<Timed>, skew: int, nonce: Nonce)
    requires Stored(After(s, run, skew), nonce)
    ensures Stored(s, nonce) || Received(run, nonce)
    decreases |run|
  {
    if run != [] {
      var t := Step(s, run[0].at, run[0].event, skew);
      RunStores(t, run[1..], skew, nonce);
      if Received(run[1..], nonce) {
        var i :| 0 <= i < |run[1..]| && run[1..][i].event.Receive? && run[1..][i].event.envelope.nonce == nonce;
        assert run[i + 1] == run[1..][i];
      } else {
        StepStores(s, run[0].at, run[0].event, skew, nonce);
      }
    }
  }

  /** After every run that leaves the process up: the first envelope with its nonce is
      accepted if it is acceptable, and an acceptable one is refused only because an
      envelope with its nonce came before. */
  lemma {:induction false} FirstIsAccepted(now: int, run: seq<Timed>, skew: int, at: int, e: Envelope)
    requires After(Init(now), run, skew).memory.Some? && Acceptable(e, at, skew)
    ensures var s := After(Init(now), run, skew); var t := Step(s, at, Receive(e, Done), skew);
      t.accepted == s.accepted + [Acceptance(e, at)] || Received(run, e.nonce)
  {
    var s := After(Init(now), run, skew);
    ReceiptIsExact(s, at, e, Done, skew);
    if e.nonce in s.memory.value {
      RunStores(Init(now), run, skew, e.nonce);
    }
  }
}

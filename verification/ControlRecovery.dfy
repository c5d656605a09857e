/** Jobs against journals, step by step: every step of the control service keeps them
    in order, provided that submits of one attempt are serialised and an attempt
    identifier is used once.  A step is first cut down to the part of the state that
    durability is about; what then remains is one rewrite of one job, or none. */
module ControlRecovery {
  import opened SandboxTypes
  import opened ControlModel
  import opened ControlSafety

  /** The part of the state that durability is about. */
  datatype Data = Data(
    memory: Memory,
    disk: map<AttemptId, Journal>,
    dirty: set<AttemptId>,
    reaped: set<AttemptId>,
    sent: map<nat, Bundle>)

  function DataOf(s: State): Data {
    Data(s.memory, s.disk, s.log.dirty, s.log.reaped, s.log.sent)
  }

  /** `Put` on that part. */
  function Rewrite(d: Data, r: JobRef, job: Job, written: bool): Data {
    var a := job.bundle.attemptId;
    if written
    then d.(memory := Set(d.memory, r, job), disk := d.disk[a := JournalOf(job)], dirty := d.dirty - {a})
    else d.(memory := Set(d.memory, r, job), dirty := d.dirty + {a})
  }

  // ---- the environment ----------------------------------------------------

  /** No submit of an attempt arrives while another one of it waits for health,
      and none for an attempt whose job has been reaped. */
  ghost predicate Serial(s: State, e: Event) {
    e.SubmitArrives? ==>
      && e.bundle.attemptId !in s.log.reaped
      && forall i :: i in s.handlers && s.handlers[i].SubmitWaiting? ==> s.handlers[i].bundle.attemptId != e.bundle.attemptId
  }

  ghost predicate SerialRun(cfg: Config, s: State, run: seq<Timed>)
    decreases |run|
  {
    run == [] ||
    (CanStep(cfg, s, run[0]) && Serial(s, run[0].event) && SerialRun(cfg, Step(cfg, s, run[0]), run[1..]))
  }

  // ---- invariants ---------------------------------------------------------

  /** `r` is the job of an attempt that has not been reaped. */
  ghost predicate Kept(m: Memory, reaped: set<AttemptId>, r: JobRef) {
    Has(m, r) && Get(m, r).bundle.attemptId !in reaped
  }

  /** Every job not reaped is the one its attempt is indexed by. */
  ghost predicate IndexOk(m: Memory, reaped: set<AttemptId>) {
    && IndexSound(m, reaped)
    && (forall n :: n in m.created ==> CreatedOk(m, reaped, n, m.created[n]))
    && (forall a :: a in m.loaded ==> m.loaded[a].bundle.attemptId == a && (a in reaped || InIndex(m, Old(a))))
  }

  ghost predicate IndexSound(m: Memory, reaped: set<AttemptId>) {
    forall a :: a in m.index ==> a !in reaped && Has(m, m.index[a]) && Get(m, m.index[a]).bundle.attemptId == a
  }

  ghost predicate CreatedOk(m: Memory, reaped: set<AttemptId>, n: nat, job: Job) {
    if job.bundle.attemptId in reaped then job.status in {Completed, Cancelled} else InIndex(m, New(n))
  }

  /** A journal is its job's, and up to date unless the last write failed. */
  ghost predicate DiskSync(m: Memory, disk: map<AttemptId, Journal>, dirty: set<AttemptId>) {
    && (forall a :: a in disk ==> a in m.index && Has(m, m.index[a]) && disk[a].bundle == Get(m, m.index[a]).bundle)
    && (forall a :: a in m.index && a !in dirty ==> a in disk && Has(m, m.index[a]) && disk[a] == JournalOf(Get(m, m.index[a])))
  }

  /** One execute request per attempt, and its job is there until it is reaped. */
  ghost predicate SendsOk(m: Memory, sent: map<nat, Bundle>, reaped: set<AttemptId>) {
    && (forall i, j :: i in sent && j in sent && sent[i].attemptId == sent[j].attemptId ==> i == j)
    && (forall n :: n in sent && n in m.created ==> sent[n] == m.created[n].bundle)
    && (forall n :: n in sent && n !in m.created ==> sent[n].attemptId in reaped || sent[n].attemptId in m.loaded)
    && (forall n :: n in sent && sent[n].attemptId !in reaped ==> IndexedAs(m, sent[n]))
  }

  ghost predicate IndexedAs(m: Memory, b: Bundle) {
    b.attemptId in m.index && Has(m, m.index[b.attemptId]) && Get(m, m.index[b.attemptId]).bundle == b
  }

  ghost predicate Tidy(d: Data) {
    IndexOk(d.memory, d.reaped) && DiskSync(d.memory, d.disk, d.dirty) && SendsOk(d.memory, d.sent, d.reaped)
  }

  ghost predicate PcTidy(d: Data, pc: Pc) {
    && (Writes(pc).Some? ==> Kept(d.memory, d.reaped, Writes(pc).value))
    && (pc.SubmitWaiting? ==> pc.bundle.attemptId !in d.memory.index && pc.bundle.attemptId !in d.reaped)
  }

  predicate SameSubmit(p: Pc, q: Pc) {
    p.SubmitWaiting? && q.SubmitWaiting? && p.bundle.attemptId == q.bundle.attemptId
  }

  ghost predicate HandlersTidy(d: Data, handlers: map<nat, Pc>) {
    && (forall i :: i in handlers ==> PcTidy(d, handlers[i]))
    && (forall i, j :: i in handlers && j in handlers && SameSubmit(handlers[i], handlers[j]) ==> i == j)
  }

  ghost predicate Neat(s: State) {
    Tidy(DataOf(s)) && HandlersTidy(DataOf(s), s.handlers)
  }

  ghost predicate Orderly(s: State) {
    Inv(s) && Neat(s)
  }

  // ---- how the durable part may move --------------------------------------

  /** A step other than a restart: jobs make their moves, a journal that changes
      is the job's, and what disappears is a reaped clean terminal job. */
  ghost predicate Moved(d: Data, e: Data) {
    && MemoryMoves(d.memory, e.memory)
    && IndexMoves(d.memory, d.reaped, e.memory.index, e.reaped)
    && DiskMoves(d.disk, e)
    && SendsMove(d.sent, e)
  }

  ghost predicate SendsMove(sent: map<nat, Bundle>, e: Data) {
    && (forall n :: n in sent ==> n in e.sent && e.sent[n] == sent[n])
    && (forall n :: n in e.sent && n !in sent ==> n in e.memory.created && e.memory.created[n].bundle == e.sent[n])
  }

  ghost predicate IndexMoves(m: Memory, reaped: set<AttemptId>, index: map<AttemptId, JobRef>, now: set<AttemptId>) {
    && reaped <= now
    && (forall a :: a in m.index ==> a in now || (a in index && index[a] == m.index[a]))
    && (forall a :: a in now && a !in reaped ==> a in m.index && Has(m, m.index[a]) && Clean(Get(m, m.index[a])))
  }

  ghost predicate DiskMoves(disk: map<AttemptId, Journal>, e: Data) {
    && (forall a :: a in disk ==> a in e.reaped || a in e.disk)
    && (forall a :: a in e.disk ==> (a in disk && e.disk[a] == disk[a]) || Fresh(e, a))
  }

  ghost predicate Fresh(d: Data, a: AttemptId) {
    a in d.disk && a in d.memory.index && Has(d.memory, d.memory.index[a]) && d.disk[a] == JournalOf(Get(d.memory, d.memory.index[a]))
  }

  predicate Clean(job: Job) {
    !job.repaired && job.status in {Completed, Cancelled}
  }

  lemma {:induction false} Unmoved(d: Data)
    ensures Moved(d, d)
  {
  }

  lemma {:induction false} KeptIsIndexed(d: Data, r: JobRef)
    requires Tidy(d) && Kept(d.memory, d.reaped, r)
    ensures InIndex(d.memory, r)
  {
  }

  lemma {:induction false} SetMoves(m: Memory, r: JobRef, job: Job)
    requires Has(m, r) && JobMoves(r, Get(m, r), job)
    ensures MemoryMoves(m, Set(m, r, job))
    ensures Set(m, r, job).index == m.index && Set(m, r, job).created.Keys == m.created.Keys
  {
  }

  /** The jobs move, and none is added. */
  ghost predicate SameJobs(m: Memory, k: Memory) {
    MemoryMoves(m, k) && k.index == m.index && k.created.Keys == m.created.Keys
  }

  lemma {:induction false} IndexStays(m: Memory, k: Memory, reaped: set<AttemptId>)
    requires IndexOk(m, reaped) && SameJobs(m, k)
    ensures IndexOk(k, reaped)
  {
  }

  lemma {:induction false} SendsStay(m: Memory, k: Memory, sent: map<nat, Bundle>, reaped: set<AttemptId>)
    requires SendsOk(m, sent, reaped) && SameJobs(m, k)
    ensures SendsOk(k, sent, reaped)
  {
    forall n | n in sent && sent[n].attemptId !in reaped
      ensures IndexedAs(k, sent[n])
    {
      assert IndexedAs(m, sent[n]);
    }
  }

  lemma {:induction false} SyncStays(d: Data, r: JobRef, job: Job, written: bool)
    requires DiskSync(d.memory, d.disk, d.dirty) && InIndex(d.memory, r) && job.bundle == Get(d.memory, r).bundle
    requires forall a :: a in d.memory.index ==> Has(d.memory, d.memory.index[a]) && Get(d.memory, d.memory.index[a]).bundle.attemptId == a
    ensures var e := Rewrite(d, r, job, written); DiskSync(e.memory, e.disk, e.dirty)
  {
    var m, k := d.memory, Set(d.memory, r, job);
    forall a | a in m.index
      ensures Has(k, m.index[a]) && Get(k, m.index[a]) == (if m.index[a] == r then job else Get(m, m.index[a]))
    {
    }
  }

  lemma {:induction false} RewriteKeeps(d: Data, r: JobRef, job: Job, written: bool)
    requires Tidy(d) && Kept(d.memory, d.reaped, r) && JobMoves(r, Get(d.memory, r), job)
    ensures Tidy(Rewrite(d, r, job, written))
  {
    KeptIsIndexed(d, r);
    SetMoves(d.memory, r, job);
    IndexStays(d.memory, Set(d.memory, r, job), d.reaped);
    SendsStay(d.memory, Set(d.memory, r, job), d.sent, d.reaped);
    SyncStays(d, r, job, written);
  }

  lemma {:induction false} RewriteMoves(d: Data, r: JobRef, job: Job, written: bool)
    requires Tidy(d) && Kept(d.memory, d.reaped, r) && JobMoves(r, Get(d.memory, r), job)
    ensures Moved(d, Rewrite(d, r, job, written))
  {
    KeptIsIndexed(d, r);
    SetMoves(d.memory, r, job);
    assert Get(Set(d.memory, r, job), r) == job;
  }

  // ---- steps --------------------------------------------------------------

  ghost predicate Good(s: State, t: State) {
    Neat(t) && Moved(DataOf(s), DataOf(t))
  }

  lemma {:induction false} PcStaysTidy(d: Data, e: Data, pc: Pc)
    requires PcTidy(d, pc) && SameJobs(d.memory, e.memory) && e.reaped == d.reaped
    ensures PcTidy(e, pc)
  {
  }

  /** Only the handler `id` changes, and it does not become a submit. */
  ghost predicate OneHandler(e: Data, h: map<nat, Pc>, k: map<nat, Pc>, id: nat) {
    && (forall i :: i in k && i != id ==> i in h && k[i] == h[i])
    && (id in k ==> (id in h && k[id] == h[id]) || (PcTidy(e, k[id]) && !k[id].SubmitWaiting?))
  }

  lemma {:induction false} HandlersStayTidy(d: Data, e: Data, h: map<nat, Pc>, k: map<nat, Pc>, id: nat)
    requires HandlersTidy(d, h) && SameJobs(d.memory, e.memory) && e.reaped == d.reaped && OneHandler(e, h, k, id)
    ensures HandlersTidy(e, k)
  {
    forall i | i in k
      ensures PcTidy(e, k[i])
    {
      if i in h && k[i] == h[i] {
        PcStaysTidy(d, e, h[i]);
      }
    }
  }

  /** A step that leaves jobs and journals alone. */
  lemma {:induction false} StillGood(s: State, t: State, id: nat)
    requires Neat(s) && DataOf(t) == DataOf(s) && OneHandler(DataOf(t), s.handlers, t.handlers, id)
    ensures Good(s, t)
  {
    SelfMoves(s.memory);
    HandlersStayTidy(DataOf(s), DataOf(t), s.handlers, t.handlers, id);
    Unmoved(DataOf(s));
  }

  /** A step that rewrites one job and its journal. */
  lemma {:induction false} RewriteGood(s: State, t: State, id: nat, r: JobRef, job: Job, written: bool)
    requires Neat(s) && DataOf(t) == Rewrite(DataOf(s), r, job, written)
    requires Kept(s.memory, s.log.reaped, r) && JobMoves(r, Get(s.memory, r), job)
    requires OneHandler(DataOf(t), s.handlers, t.handlers, id)
    ensures Good(s, t)
  {
    RewriteKeeps(DataOf(s), r, job, written);
    RewriteMoves(DataOf(s), r, job, written);
    SetMoves(s.memory, r, job);
    HandlersStayTidy(DataOf(s), DataOf(t), s.handlers, t.handlers, id);
  }

  /** A job read back at start-up never waits or runs again. */
  ghost predicate LateJob(m: Memory, r: JobRef)
    requires Has(m, r)
  {
    r.Old? ==> m.loaded[r.a].status !in {Accepted, Running}
  }

  /** The same, in the forms the steps have. */
  lemma {:induction false} RewriteQuietly(s: State, t: State, r: JobRef, job: Job, written: bool)
    requires Neat(s) && DataOf(t) == Rewrite(DataOf(s), r, job, written)
    requires Kept(s.memory, s.log.reaped, r) && JobMoves(r, Get(s.memory, r), job)
    requires t.handlers == s.handlers
    ensures Good(s, t)
  {
    RewriteGood(s, t, s.nextHandler, r, job, written);
  }

  lemma {:induction false} RewriteThenMove(s: State, t: State, id: nat, pc: Pc, r: JobRef, job: Job, written: bool)
    requires Neat(s) && DataOf(t) == Rewrite(DataOf(s), r, job, written)
    requires Kept(s.memory, s.log.reaped, r) && JobMoves(r, Get(s.memory, r), job)
    requires t.handlers == s.handlers - {id} || t.handlers == s.handlers[id := pc]
    requires Writes(pc).None? && !pc.SubmitWaiting?
    ensures Good(s, t)
  {
    RewriteGood(s, t, id, r, job, written);
  }

  lemma {:induction false} StillThenMove(s: State, t: State, id: nat, pc: Pc)
    requires Neat(s) && DataOf(t) == DataOf(s)
    requires t.handlers == s.handlers || t.handlers == s.handlers - {id} || t.handlers == s.handlers[id := pc]
    requires PcTidy(DataOf(s), pc) && !pc.SubmitWaiting?
    ensures Good(s, t)
  {
    StillGood(s, t, id);
  }

  lemma {:induction false} CancelledMoves(r: JobRef, job: Job, now: int, proof: Proof)
    requires r.Old? ==> job.status !in {Accepted, Running}
    ensures JobMoves(r, job, CancelledJob(job, now, proof))
  {
  }

  /** The handler left behind by the cancel tail writes nothing. */
  lemma {:induction false} CommitCancelGood(cfg: Config, s: State, q: State, id: nat, r: JobRef, proof: Proof, written: bool)
    requires Neat(s) && DataOf(q) == DataOf(s) && q.handlers == s.handlers
    requires Kept(s.memory, s.log.reaped, r) && LateJob(s.memory, r)
    ensures Good(s, CommitCancel(cfg, q, id, r, proof, written))
  {
    var job := Get(s.memory, r);
    CancelledMoves(r, job, q.now, proof);
    var t := CommitCancel(cfg, q, id, r, proof, written);
    CommitCancelData(cfg, q, id, r, proof, written);
    RewriteThenMove(s, t, id, CancelSettling(r), r, CancelledJob(job, q.now, proof), written);
  }

  lemma {:induction false} CommitCancelData(cfg: Config, s: State, id: nat, r: JobRef, proof: Proof, written: bool)
    requires Has(s.memory, r)
    ensures var t := CommitCancel(cfg, s, id, r, proof, written);
      && DataOf(t) == Rewrite(DataOf(s), r, CancelledJob(Get(s.memory, r), s.now, proof), written)
      && (t.handlers == s.handlers - {id} || t.handlers == s.handlers[id := CancelSettling(r)])
  {
  }

  /** A cancel request that has to wait changes no job. */
  lemma {:induction false} CancelWaits(cfg: Config, s: State, a: AttemptId, bundle: Bundle, written: bool) returns (pc: Pc)
    requires a in s.memory.index && Has(s.memory, s.memory.index[a]) && Get(s.memory, s.memory.index[a]).bundle == bundle
    requires var job := Get(s.memory, s.memory.index[a]); !Settled(job.status) || Unclean(job)
    ensures var t := CancelRequest(cfg, s, a, bundle, written);
      && DataOf(t) == DataOf(s)
      && t.handlers == s.handlers[s.nextHandler := pc] && !pc.SubmitWaiting? && Writes(pc) == Some(s.memory.index[a])
  {
    var r := s.memory.index[a];
    pc := if Unclean(Get(s.memory, r)) then RepairSettling(r) else CancelFencing(r);
  }

  lemma {:induction false} CancelCommits(cfg: Config, s: State, a: AttemptId, bundle: Bundle, written: bool)
    requires a in s.memory.index && Has(s.memory, s.memory.index[a]) && Get(s.memory, s.memory.index[a]).bundle == bundle
    requires var job := Get(s.memory, s.memory.index[a]); Settled(job.status) && !Unclean(job)
    ensures var r := s.memory.index[a]; var q := s.(nextHandler := s.nextHandler + 1);
      && DataOf(q) == DataOf(s) && q.handlers == s.handlers
      && CancelRequest(cfg, s, a, bundle, written) == CommitCancel(cfg, q, s.nextHandler, r, Get(s.memory, r).proof, written)
  {
  }

  lemma {:induction false} CancelIgnored(cfg: Config, s: State, a: AttemptId, bundle: Bundle, written: bool)
    requires a in s.memory.index ==> Has(s.memory, s.memory.index[a])
    requires a !in s.memory.index || Get(s.memory, s.memory.index[a]).bundle != bundle
    ensures CancelRequest(cfg, s, a, bundle, written) == s
  {
  }

  lemma {:induction false} CancelGood(cfg: Config, s: State, a: AttemptId, bundle: Bundle, written: bool)
    requires Neat(s) && (a in s.memory.index ==> Kept(s.memory, s.log.reaped, s.memory.index[a]) && LateJob(s.memory, s.memory.index[a]))
    ensures Good(s, CancelRequest(cfg, s, a, bundle, written))
  {
    var t := CancelRequest(cfg, s, a, bundle, written);
    if a !in s.memory.index || Get(s.memory, s.memory.index[a]).bundle != bundle {
      CancelIgnored(cfg, s, a, bundle, written);
      StillGood(s, t, s.nextHandler);
    } else {
      CancelIndexedGood(cfg, s, t, a, bundle, written);
    }
  }

  lemma {:induction false} CancelIndexedGood(cfg: Config, s: State, t: State, a: AttemptId, bundle: Bundle, written: bool)
    requires Neat(s) && a in s.memory.index && Kept(s.memory, s.log.reaped, s.memory.index[a]) && LateJob(s.memory, s.memory.index[a])
    requires Get(s.memory, s.memory.index[a]).bundle == bundle && t == CancelRequest(cfg, s, a, bundle, written)
    ensures Good(s, t)
  {
    var r := s.memory.index[a];
    var job := Get(s.memory, r);
    if Settled(job.status) && !Unclean(job) {
      CancelCommits(cfg, s, a, bundle, written);
      CommitCancelGood(cfg, s, s.(nextHandler := s.nextHandler + 1), s.nextHandler, r, job.proof, written);
    } else {
      var pc := CancelWaits(cfg, s, a, bundle, written);
      StillThenMove(s, t, s.nextHandler, pc);
    }
  }

  lemma {:induction false} FenceOfCancelGood(cfg: Config, s: State, id: nat, r: JobRef, acked: bool, written: bool)
    requires Neat(s) && Kept(s.memory, s.log.reaped, r) && LateJob(s.memory, r)
    ensures Good(s, FenceOfCancel(cfg, s, id, r, acked, written))
  {
    if acked {
      CommitCancelGood(cfg, s, Observe(s, FenceAcked(Get(s.memory, r).bundle)), id, r, ByFence(Observed(s)), written);
    } else {
      StillGood(s, Drop(s, id), id);
    }
  }

  /** The second journal write of a repair repeats the first. */
  lemma {:induction false} RepairWritesTwice(d: Data, r: JobRef, job: Job, now: int, proof: Proof, rewritten: bool)
    requires Has(d.memory, r)
    ensures var repaired := RepairedJob(job, now, proof); var last := CancelledJob(repaired, now, proof);
      var e := Rewrite(Rewrite(d, r, repaired, true), r, last, rewritten); var f := Rewrite(d, r, last, true);
      e == if rewritten then f else f.(dirty := f.dirty + {job.bundle.attemptId})
  {
  }

  lemma {:induction false} DirtyMore(d: Data, e: Data, a: AttemptId)
    requires Tidy(e) && Moved(d, e)
    ensures Tidy(e.(dirty := e.dirty + {a})) && Moved(d, e.(dirty := e.dirty + {a}))
  {
  }

  lemma {:induction false} CommitRepairData(cfg: Config, s: State, id: nat, r: JobRef, ack: nat, empty: nat, rewritten: bool)
    requires Has(s.memory, r)
    ensures var t := CommitRepair(cfg, s, id, r, ack, empty, true, rewritten);
      var job := Get(s.memory, r); var proof := ByRepair(ack, empty, Observed(s));
      var f := Rewrite(DataOf(s), r, CancelledJob(RepairedJob(job, s.now, proof), s.now, proof), true);
      && DataOf(t) == (if rewritten then f else f.(dirty := f.dirty + {job.bundle.attemptId}))
      && (t.handlers == s.handlers - {id} || t.handlers == s.handlers[id := CancelSettling(r)])
  {
    var job := Get(s.memory, r);
    var q := Observe(s, AppAbsent(job.bundle.slug));
    var repaired := RepairedJob(job, s.now, ByRepair(ack, empty, Observed(s)));
    CommitCancelData(cfg, Put(q, r, repaired, true), id, r, repaired.proof, rewritten);
    RepairWritesTwice(DataOf(s), r, job, s.now, repaired.proof, rewritten);
  }

  lemma {:induction false} RepairMoves(r: JobRef, job: Job, now: int, proof: Proof)
    requires Broken(job)
    ensures JobMoves(r, job, CancelledJob(RepairedJob(job, now, proof), now, proof))
  {
  }

  lemma {:induction false} RepairRewrites(d: Data, r: JobRef, job: Job, rewritten: bool) returns (e: Data)
    requires Tidy(d) && Kept(d.memory, d.reaped, r) && JobMoves(r, Get(d.memory, r), job)
    ensures var f := Rewrite(d, r, job, true); e == if rewritten then f else f.(dirty := f.dirty + {job.bundle.attemptId})
    ensures Tidy(e) && Moved(d, e) && SameJobs(d.memory, e.memory) && e.reaped == d.reaped
  {
    var f := Rewrite(d, r, job, true);
    e := if rewritten then f else f.(dirty := f.dirty + {job.bundle.attemptId});
    RewriteKeeps(d, r, job, true);
    RewriteMoves(d, r, job, true);
    DirtyMore(d, f, job.bundle.attemptId);
    SetMoves(d.memory, r, job);
  }

  lemma {:induction false} CommitRepairGood(cfg: Config, s: State, id: nat, r: JobRef, ack: nat, empty: nat, rewritten: bool)
    requires Neat(s) && Kept(s.memory, s.log.reaped, r) && Broken(Get(s.memory, r))
    ensures Good(s, CommitRepair(cfg, s, id, r, ack, empty, true, rewritten))
  {
    var t := CommitRepair(cfg, s, id, r, ack, empty, true, rewritten);
    var job := Get(s.memory, r);
    var proof := ByRepair(ack, empty, Observed(s));
    CommitRepairData(cfg, s, id, r, ack, empty, rewritten);
    RepairMoves(r, job, s.now, proof);
    var e := RepairRewrites(DataOf(s), r, CancelledJob(RepairedJob(job, s.now, proof), s.now, proof), rewritten);
    HandlersStayTidy(DataOf(s), e, s.handlers, t.handlers, id);
  }

  /** The repaired copy could not be journalled: nothing happened. */
  lemma {:induction false} RepairRefusedGood(cfg: Config, s: State, id: nat, r: JobRef, ack: nat, empty: nat, rewritten: bool)
    requires Neat(s) && Has(s.memory, r)
    ensures Good(s, CommitRepair(cfg, s, id, r, ack, empty, false, rewritten))
  {
    var t := CommitRepair(cfg, s, id, r, ack, empty, false, rewritten);
    var d := DataOf(s);
    var a := Get(s.memory, r).bundle.attemptId;
    assert DataOf(t) == d.(dirty := d.dirty + {a}) && t.handlers == s.handlers - {id};
    Unmoved(d);
    DirtyMore(d, d, a);
    SelfMoves(s.memory);
    HandlersStayTidy(d, DataOf(t), s.handlers, t.handlers, id);
  }

  lemma {:induction false} RepairClearedGood(cfg: Config, s: State, e: Event)
    requires Neat(s) && Enabled(cfg, s, e) && e.RepairCleared?
    requires var r := s.handlers[e.id].job; Kept(s.memory, s.log.reaped, r) && Broken(Get(s.memory, r))
    ensures Good(s, React(cfg, s, e))
  {
    var pc := s.handlers[e.id];
    if !e.ok {
      StillGood(s, Drop(s, e.id), e.id);
    } else if e.written {
      CommitRepairGood(cfg, s, e.id, pc.job, pc.ack, pc.empty, e.rewritten);
    } else {
      RepairRefusedGood(cfg, s, e.id, pc.job, pc.ack, pc.empty, e.rewritten);
    }
  }

  /** The events that touch no job and only move one handler. */
  predicate Waiting(e: Event) {
    || e.RepairSettled? || e.RepairFenced? || e.RepairEmptied? || e.CancelSettled?
    || e.HealthArrives? || e.HealthAsks? || e.HealthFenced? || e.HealthProbed? || e.HealthPicks?
  }

  function HandlerOf(s: State, e: Event): nat
    requires Waiting(e)
  {
    if e.HealthArrives? then s.nextHandler else e.id
  }

  /** What a waiting handler will write it already had to write, or it is indexed. */
  lemma {:induction false} WaitingMoves(cfg: Config, s: State, e: Event)
    requires Enabled(cfg, s, e) && Waiting(e)
    ensures var t := React(cfg, s, e); var id := HandlerOf(s, e);
      && DataOf(t) == DataOf(s)
      && (forall i :: i in t.handlers && i != id ==> i in s.handlers && t.handlers[i] == s.handlers[i])
      && (id in t.handlers ==> (id in s.handlers && t.handlers[id] == s.handlers[id]) || WritesNoMore(s, t.handlers[id], id))
  {
  }

  ghost predicate WritesNoMore(s: State, pc: Pc, id: nat) {
    !pc.SubmitWaiting? && (Writes(pc).None? || InIndex(s.memory, Writes(pc).value) || (id in s.handlers && Writes(s.handlers[id]) == Writes(pc)))
  }

  lemma {:induction false} WaitingGood(cfg: Config, s: State, e: Event)
    requires Neat(s) && Enabled(cfg, s, e) && Waiting(e)
    ensures Good(s, React(cfg, s, e))
  {
    var t, id := React(cfg, s, e), HandlerOf(s, e);
    WaitingMoves(cfg, s, e);
    if id in t.handlers && WritesNoMore(s, t.handlers[id], id) {
      NoMoreIsTidy(s, t.handlers[id], id);
    }
    StillGood(s, t, id);
  }

  lemma {:induction false} NoMoreIsTidy(s: State, pc: Pc, id: nat)
    requires Tidy(DataOf(s)) && HandlersTidy(DataOf(s), s.handlers) && WritesNoMore(s, pc, id)
    ensures PcTidy(DataOf(s), pc)
  {
  }

  lemma {:induction false} RecoverData(s: State, id: nat, fenced: map<AttemptId, nat>, empty: nat, r: JobRef, wasFailed: bool, absent: bool, written: bool)
    requires Has(s.memory, r)
    ensures var t := Recover(s, id, fenced, empty, r, wasFailed, absent, written); var job := Get(s.memory, r);
      && t.handlers == s.handlers[id := HealthPicking(fenced, empty)]
      && if absent && job.bundle.attemptId in fenced
         then DataOf(t) == Rewrite(DataOf(s), r, RecoveredJob(job, s.now, wasFailed, ByRecovery(fenced[job.bundle.attemptId], empty, Observed(s))), written)
         else DataOf(t) == DataOf(s)
  {
  }

  lemma {:induction false} RecoveredMoves(r: JobRef, job: Job, now: int, wasFailed: bool, proof: Proof)
    requires r.Old? && Recovering(job)
    ensures JobMoves(r, job, RecoveredJob(job, now, wasFailed, proof))
  {
  }

  lemma {:induction false} RecoverGood(s: State, id: nat, pc: Pc, absent: bool, written: bool)
    requires Neat(s) && pc.HealthClearing? && Kept(s.memory, s.log.reaped, pc.job)
    requires pc.job.Old? && Recovering(Get(s.memory, pc.job))
    ensures Good(s, Recover(s, id, pc.fenced, pc.empty, pc.job, pc.wasFailed, absent, written))
  {
    RecoverData(s, id, pc.fenced, pc.empty, pc.job, pc.wasFailed, absent, written);
    RecoverFrom(s, Recover(s, id, pc.fenced, pc.empty, pc.job, pc.wasFailed, absent, written), id, pc, absent, written);
  }

  lemma {:induction false} RecoverFrom(s: State, t: State, id: nat, pc: Pc, absent: bool, written: bool)
    requires Neat(s) && pc.HealthClearing? && Kept(s.memory, s.log.reaped, pc.job)
    requires pc.job.Old? && Recovering(Get(s.memory, pc.job))
    requires t.handlers == s.handlers[id := HealthPicking(pc.fenced, pc.empty)]
    requires var job := Get(s.memory, pc.job);
      if absent && job.bundle.attemptId in pc.fenced
      then DataOf(t) == Rewrite(DataOf(s), pc.job,
             RecoveredJob(job, s.now, pc.wasFailed, ByRecovery(pc.fenced[job.bundle.attemptId], pc.empty, Observed(s))), written)
      else DataOf(t) == DataOf(s)
    ensures Good(s, t)
  {
    var job := Get(s.memory, pc.job);
    if absent && job.bundle.attemptId in pc.fenced {
      var proof := ByRecovery(pc.fenced[job.bundle.attemptId], pc.empty, Observed(s));
      RecoveredMoves(pc.job, job, s.now, pc.wasFailed, proof);
      RewriteThenMove(s, t, id, HealthPicking(pc.fenced, pc.empty), pc.job, RecoveredJob(job, s.now, pc.wasFailed, proof), written);
    } else {
      StillThenMove(s, t, id, HealthPicking(pc.fenced, pc.empty));
    }
  }

  // ---- the run of a job ---------------------------------------------------

  /** The job being run: not finished, not repaired. */
  ghost predicate UnderWay(m: Memory, n: nat) {
    n in m.created && m.created[n].status in {Running, CleanupPending} && !m.created[n].repaired
  }

  lemma {:induction false} ConcludedMoves(n: nat, job: Job, outcome: Outcome, proof: Proof, now: int)
    requires job.status in {Running, CleanupPending} && !job.repaired
    ensures JobMoves(New(n), job, Concluded(job, outcome, proof, now))
  {
  }

  lemma {:induction false} FinishRunData(s: State, n: nat, outcome: Outcome, proof: Proof, written: bool)
    requires n in s.memory.created
    ensures var t := FinishRun(s, n, outcome, proof, written);
      t.handlers == s.handlers && DataOf(t) == Rewrite(DataOf(s), New(n), Concluded(s.memory.created[n], outcome, proof, s.now), written)
  {
  }

  lemma {:induction false} UnderWayIsKept(s: State, n: nat)
    requires Neat(s) && UnderWay(s.memory, n)
    ensures Kept(s.memory, s.log.reaped, New(n))
  {
  }

  lemma {:induction false} FinishRunGood(s: State, q: State, n: nat, outcome: Outcome, proof: Proof, written: bool)
    requires Neat(s) && UnderWay(s.memory, n)
    requires DataOf(q) == DataOf(s) && q.handlers == s.handlers
    ensures n in q.memory.created && Good(s, FinishRun(q, n, outcome, proof, written))
  {
    var job := s.memory.created[n];
    FinishRunData(q, n, outcome, proof, written);
    UnderWayIsKept(s, n);
    ConcludedMoves(n, job, outcome, proof, q.now);
    RewriteQuietly(s, FinishRun(q, n, outcome, proof, written), New(n), Concluded(job, outcome, proof, q.now), written);
  }

  lemma {:induction false} ConsiderGood(s: State, q: State, n: nat, reply: Reply, replyAt: nat, written: bool)
    requires Neat(s) && UnderWay(s.memory, n)
    requires DataOf(q) == DataOf(s) && q.handlers == s.handlers
    ensures n in q.memory.created && Good(s, Consider(q, n, reply, replyAt, written))
  {
    match PlanFor(reply) {
      case Conclude(outcome) => FinishRunGood(s, q, n, outcome, ByReply(replyAt), written);
      case _ => StillGood(s, Consider(q, n, reply, replyAt, written), s.nextHandler);
    }
  }

  lemma {:induction false} RunGood(cfg: Config, s: State, e: Event)
    requires Neat(s) && Enabled(cfg, s, e)
    requires (e.RunReplied? || e.RunFenced?) && UnderWay(s.memory, s.queue.run.job)
    ensures Good(s, React(cfg, s, e))
  {
    var pc := s.queue.run;
    var bundle := s.memory.created[pc.job].bundle;
    match e {
      case RunReplied(reply, written) =>
        if reply.TransportError? {
          FinishRunGood(s, s, pc.job, Errored, Unproved, written);
        } else if pc.fencing {
          StillGood(s, React(cfg, s, e), s.nextHandler);
        } else {
          ConsiderGood(s, Observe(s, WorkloadReplied(bundle, reply)), pc.job, reply, Observed(s), written);
        }
      case RunFenced(ok, written) =>
        if ok {
          ConsiderGood(s, Observe(s, FenceAcked(bundle)), pc.job, pc.reply, pc.replyAt, written);
        } else {
          FinishRunGood(s, s, pc.job, Errored, Unproved, written);
        }
    }
  }

  lemma {:induction false} ProveGood(s: State, ok: bool, written: bool)
    requires Neat(s) && s.queue.run.Proving? && UnderWay(s.memory, s.queue.run.job)
    ensures Good(s, ProveRun(s, ok, written))
  {
    var p := Proved(s, ok);
    ProvedData(s, ok);
    FinishRunGood(s, p.0, s.queue.run.job, p.1, p.2, written);
  }

  lemma {:induction false} ProvedData(s: State, ok: bool)
    requires s.queue.run.Proving? && s.queue.run.job in s.memory.created
    ensures DataOf(Proved(s, ok).0) == DataOf(s) && Proved(s, ok).0.handlers == s.handlers
  {
  }

  // ---- submits, sends, the reaper and the restart --------------------------

  lemma {:induction false} SubmitGood(cfg: Config, s: State, bundle: Bundle)
    requires Neat(s) && Serial(s, SubmitArrives(bundle))
    ensures Good(s, Submit(cfg, s, bundle))
  {
    Unmoved(DataOf(s));
    var t := Submit(cfg, s, bundle);
    assert DataOf(t) == DataOf(s);
    if t != s {
      assert t.handlers == s.handlers[s.nextHandler := SubmitWaiting(bundle)];
    }
  }

  /** `d` with a new job for an attempt it does not know. */
  function Enrolled(d: Data, n: nat, job: Job): Data {
    d.(memory := d.memory.(created := d.memory.created[n := job], index := d.memory.index[job.bundle.attemptId := New(n)]))
  }

  ghost predicate Unknown(d: Data, a: AttemptId) {
    a !in d.memory.index && a !in d.reaped
  }

  lemma {:induction false} EnrolledIndex(d: Data, n: nat, job: Job)
    requires Tidy(d) && n !in d.memory.created && Unknown(d, job.bundle.attemptId)
    ensures IndexOk(Enrolled(d, n, job).memory, d.reaped)
  {
    var m, k := d.memory, Enrolled(d, n, job).memory;
    forall i | i in m.created
      ensures CreatedOk(k, d.reaped, i, k.created[i])
    {
      assert CreatedOk(m, d.reaped, i, m.created[i]);
    }
    assert IndexSound(k, d.reaped) by {
      forall a | a in m.index
        ensures Has(k, m.index[a]) && Get(k, m.index[a]) == Get(m, m.index[a])
      {
      }
    }
  }

  lemma {:induction false} EnrolledSends(d: Data, n: nat, job: Job)
    requires Tidy(d) && n !in d.memory.created && n !in d.sent && Unknown(d, job.bundle.attemptId)
    ensures SendsOk(Enrolled(d, n, job).memory, d.sent, d.reaped)
  {
    forall k | k in d.sent && d.sent[k].attemptId !in d.reaped
      ensures IndexedAs(Enrolled(d, n, job).memory, d.sent[k])
    {
      assert IndexedAs(d.memory, d.sent[k]);
    }
  }

  /** The new job's first journal write. */
  function FirstWrite(d: Data, job: Job, written: bool): Data {
    var a := job.bundle.attemptId;
    if written then d.(disk := d.disk[a := JournalOf(job)], dirty := d.dirty - {a}) else d.(dirty := d.dirty + {a})
  }

  lemma {:induction false} EnrolledSync(d: Data, n: nat, job: Job, written: bool)
    requires DiskSync(d.memory, d.disk, d.dirty) && n !in d.memory.created && Unknown(d, job.bundle.attemptId)
    requires IndexSound(d.memory, d.reaped)
    ensures var e := FirstWrite(Enrolled(d, n, job), job, written); DiskSync(e.memory, e.disk, e.dirty)
  {
    EnrolledGets(d, n, job);
  }

  lemma {:induction false} EnrolledGets(d: Data, n: nat, job: Job)
    requires IndexSound(d.memory, d.reaped) && n !in d.memory.created
    ensures var m, k := d.memory, Enrolled(d, n, job).memory;
      forall a :: a in m.index ==> Has(k, m.index[a]) && Get(k, m.index[a]) == Get(m, m.index[a])
  {
  }

  lemma {:induction false} EnrolledMoves(d: Data, n: nat, job: Job, written: bool)
    requires n !in d.memory.created && Unknown(d, job.bundle.attemptId)
    ensures Moved(d, FirstWrite(Enrolled(d, n, job), job, written))
  {
    assert MemoryMoves(d.memory, Enrolled(d, n, job).memory);
  }

  lemma {:induction false} EnrolledHandlers(d: Data, e: Data, n: nat, job: Job, h: map<nat, Pc>, id: nat)
    requires Tidy(d) && HandlersTidy(d, h) && n !in d.memory.created
    requires id in h && h[id].SubmitWaiting? && h[id].bundle == job.bundle
    requires e.memory == Enrolled(d, n, job).memory && e.reaped == d.reaped
    ensures HandlersTidy(e, h - {id})
  {
    forall i | i in h - {id}
      ensures PcTidy(e, h[i])
    {
      assert PcTidy(d, h[i]) && !SameSubmit(h[i], h[id]);
    }
  }

  lemma {:induction false} ContinueSubmitData(s: State, id: nat, bundle: Bundle, ready: bool, written: bool)
    ensures var t := ContinueSubmit(s, id, bundle, ready, written);
      && t.handlers == s.handlers - {id}
      && DataOf(t) == if ready
         then FirstWrite(Enrolled(DataOf(s), s.nextJob, NewJob(bundle, s.now, written)), NewJob(bundle, s.now, written), written)
         else DataOf(s)
  {
  }

  lemma {:induction false} ContinueSubmitGood(s: State, t: State, id: nat, bundle: Bundle, ready: bool, written: bool)
    requires Neat(s) && s.nextJob !in s.memory.created && s.nextJob !in s.log.sent
    requires id in s.handlers && s.handlers[id] == SubmitWaiting(bundle)
    requires t == ContinueSubmit(s, id, bundle, ready, written)
    ensures Good(s, t)
  {
    ContinueSubmitData(s, id, bundle, ready, written);
    if ready {
      assert PcTidy(DataOf(s), s.handlers[id]);
      SubmitEnrols(DataOf(s), s.nextJob, NewJob(bundle, s.now, written), written, s.handlers, id);
    } else {
      StillGood(s, t, id);
    }
  }

  lemma {:induction false} SubmitEnrols(d: Data, n: nat, job: Job, written: bool, h: map<nat, Pc>, id: nat)
    requires Tidy(d) && HandlersTidy(d, h) && n !in d.memory.created && n !in d.sent
    requires id in h && h[id].SubmitWaiting? && h[id].bundle == job.bundle && Unknown(d, job.bundle.attemptId)
    ensures var e := FirstWrite(Enrolled(d, n, job), job, written); Tidy(e) && Moved(d, e) && HandlersTidy(e, h - {id})
  {
    EnrolledIndex(d, n, job);
    EnrolledSends(d, n, job);
    EnrolledSync(d, n, job, written);
    EnrolledMoves(d, n, job, written);
    EnrolledHandlers(d, FirstWrite(Enrolled(d, n, job), job, written), n, job, h, id);
  }

  /** A request of an attempt not sent before: nobody else is indexed by it. */
  lemma {:induction false} SendIsFirst(d: Data, n: nat)
    requires Tidy(d) && n in d.memory.created && n !in d.sent && d.memory.created[n].bundle.attemptId !in d.reaped
    ensures Tidy(d.(sent := d.sent[n := d.memory.created[n].bundle]))
  {
    var a := d.memory.created[n].bundle.attemptId;
    assert d.memory.index[a] == New(n);
    forall k | k in d.sent
      ensures d.sent[k].attemptId != a
    {
      if k in d.memory.created {
        assert CreatedOk(d.memory, d.reaped, k, d.memory.created[k]);
      }
    }
    forall k | k in d.sent && d.sent[k].attemptId !in d.reaped
      ensures IndexedAs(d.memory, d.sent[k])
    {
    }
    assert IndexedAs(d.memory, d.memory.created[n].bundle);
  }

  lemma {:induction false} StartNextData(cfg: Config, s: State, written: bool)
    requires s.queue.waiting != [] && s.queue.waiting[0] in s.memory.created
    ensures var t := StartNext(cfg, s, written);
      var n := s.queue.waiting[0]; var job := s.memory.created[n];
      var e := Rewrite(DataOf(s), New(n), job.(status := Running, updatedAt := s.now), written);
      && t.handlers == s.handlers
      && DataOf(t) == if job.status == Cancelled then DataOf(s)
                      else if written then e.(sent := e.sent[n := job.bundle]) else e
  {
  }

  lemma {:induction false} RunningMoves(n: nat, job: Job, now: int)
    requires job.status == Accepted && !job.repaired
    ensures JobMoves(New(n), job, job.(status := Running, updatedAt := now))
  {
  }

  lemma {:induction false} SendMoves(d: Data, e: Data, n: nat, b: Bundle)
    requires Moved(d, e) && e.sent == d.sent && n !in d.sent && n in e.memory.created && e.memory.created[n].bundle == b
    ensures Moved(d, e.(sent := e.sent[n := b]))
  {
  }

  lemma {:induction false} RunNextGood(cfg: Config, s: State, t: State, written: bool)
    requires Neat(s) && s.queue.waiting != []
    requires var n := s.queue.waiting[0];
      && n in s.memory.created && n !in s.log.sent && !s.memory.created[n].repaired
      && s.memory.created[n].status in {Accepted, Cancelled}
    requires s.memory.created[s.queue.waiting[0]].status == Accepted && t == StartNext(cfg, s, written)
    ensures Good(s, t)
  {
    var n := s.queue.waiting[0];
    StartNextData(cfg, s, written);
    RunNextFrom(s, t, n, written);
  }

  lemma {:induction false} RunNextFrom(s: State, t: State, n: nat, written: bool)
    requires Neat(s) && n in s.memory.created && n !in s.log.sent && s.memory.created[n].status == Accepted && !s.memory.created[n].repaired
    requires t.handlers == s.handlers
    requires var job := s.memory.created[n]; var e := Rewrite(DataOf(s), New(n), job.(status := Running, updatedAt := s.now), written);
      DataOf(t) == if written then e.(sent := e.sent[n := job.bundle]) else e
    ensures Good(s, t)
  {
    var d, job := DataOf(s), s.memory.created[n];
    var running := job.(status := Running, updatedAt := s.now);
    var e := Rewrite(d, New(n), running, written);
    AcceptedIsKept(s, n);
    RunningMoves(n, job, s.now);
    RewriteKeeps(d, New(n), running, written);
    RewriteMoves(d, New(n), running, written);
    SetMoves(s.memory, New(n), running);
    HandlersStayTidy(d, DataOf(t), s.handlers, t.handlers, s.nextHandler);
    if written {
      SendIsFirst(e, n);
      SendMoves(d, e, n, job.bundle);
    }
  }

  lemma {:induction false} AcceptedIsKept(s: State, n: nat)
    requires Neat(s) && n in s.memory.created && s.memory.created[n].status == Accepted
    ensures Kept(s.memory, s.log.reaped, New(n))
  {
  }

  /** `d` without the attempt `a`. */
  function Forgotten(d: Data, a: AttemptId): Data {
    d.(memory := d.memory.(index := d.memory.index - {a}), disk := d.disk - {a}, reaped := d.reaped + {a})
  }

  lemma {:induction false} ForgottenIndex(d: Data, a: AttemptId)
    requires Tidy(d) && a in d.memory.index && Has(d.memory, d.memory.index[a]) && Clean(Get(d.memory, d.memory.index[a]))
    ensures IndexOk(Forgotten(d, a).memory, Forgotten(d, a).reaped)
  {
  }

  lemma {:induction false} ForgottenSends(d: Data, a: AttemptId)
    requires Tidy(d) && a in d.memory.index
    ensures SendsOk(Forgotten(d, a).memory, d.sent, Forgotten(d, a).reaped)
  {
    forall k | k in d.sent && d.sent[k].attemptId !in Forgotten(d, a).reaped
      ensures IndexedAs(Forgotten(d, a).memory, d.sent[k])
    {
      assert IndexedAs(d.memory, d.sent[k]);
    }
  }

  lemma {:induction false} ForgottenSync(d: Data, a: AttemptId)
    requires DiskSync(d.memory, d.disk, d.dirty)
    ensures var e := Forgotten(d, a); DiskSync(e.memory, e.disk, e.dirty)
  {
  }

  lemma {:induction false} ForgottenMoves(d: Data, a: AttemptId)
    requires a in d.memory.index && Has(d.memory, d.memory.index[a]) && Clean(Get(d.memory, d.memory.index[a]))
    ensures Moved(d, Forgotten(d, a))
  {
    assert MemoryMoves(d.memory, Forgotten(d, a).memory);
  }

  lemma {:induction false} ForgottenHandlers(d: Data, a: AttemptId, h: map<nat, Pc>)
    requires Tidy(d) && HandlersTidy(d, h) && a in d.memory.index && !Busy(h, d.memory.index[a])
    ensures HandlersTidy(Forgotten(d, a), h)
  {
    forall i | i in h
      ensures PcTidy(Forgotten(d, a), h[i])
    {
      assert PcTidy(d, h[i]);
      if Writes(h[i]).Some? {
        KeptIsIndexed(d, Writes(h[i]).value);
      }
    }
  }

  lemma {:induction false} ExpiredMoves(cfg: Config, r: JobRef, job: Job, now: int)
    requires Stale(cfg, job, now) && (r.Old? ==> job.status !in {Accepted, Running})
    ensures JobMoves(r, job, ExpiredJob(job, now))
  {
  }

  lemma {:induction false} ReapData(cfg: Config, s: State, a: AttemptId, r: JobRef, written: bool)
    requires Has(s.memory, r)
    ensures var t := ReapJob(cfg, s, a, r, written); var job := Get(s.memory, r);
      && t.handlers == s.handlers
      && DataOf(t) == if Stale(cfg, job, s.now) then Rewrite(DataOf(s), r, ExpiredJob(job, s.now), written)
                      else if Reapable(cfg, job, s.now) then Forgotten(DataOf(s), a) else DataOf(s)
  {
  }

  lemma {:induction false} ReapGood(cfg: Config, s: State, t: State, a: AttemptId, written: bool)
    requires Neat(s) && a in s.memory.index && Kept(s.memory, s.log.reaped, s.memory.index[a]) && LateJob(s.memory, s.memory.index[a])
    requires Reapable(cfg, Get(s.memory, s.memory.index[a]), s.now) ==> !Busy(s.handlers, s.memory.index[a])
    requires t == ReapJob(cfg, s, a, s.memory.index[a], written)
    ensures Good(s, t)
  {
    var r := s.memory.index[a];
    ReapData(cfg, s, a, r, written);
    ReapFrom(cfg, s, t, a, r, written);
  }

  lemma {:induction false} ReapFrom(cfg: Config, s: State, t: State, a: AttemptId, r: JobRef, written: bool)
    requires Neat(s) && a in s.memory.index && s.memory.index[a] == r && Kept(s.memory, s.log.reaped, r) && LateJob(s.memory, r)
    requires Reapable(cfg, Get(s.memory, r), s.now) ==> !Busy(s.handlers, r)
    requires var job := Get(s.memory, r);
      && t.handlers == s.handlers
      && DataOf(t) == if Stale(cfg, job, s.now) then Rewrite(DataOf(s), r, ExpiredJob(job, s.now), written)
                      else if Reapable(cfg, job, s.now) then Forgotten(DataOf(s), a) else DataOf(s)
    ensures Good(s, t)
  {
    var job := Get(s.memory, r);
    if Stale(cfg, job, s.now) {
      ExpiredMoves(cfg, r, job, s.now);
      RewriteQuietly(s, t, r, ExpiredJob(job, s.now), written);
    } else if Reapable(cfg, job, s.now) {
      ForgottenIndex(DataOf(s), a);
      ForgottenSends(DataOf(s), a);
      ForgottenSync(DataOf(s), a);
      ForgottenMoves(DataOf(s), a);
      ForgottenHandlers(DataOf(s), a, s.handlers);
    } else {
      StillThenMove(s, t, s.nextHandler, CancelSettling(r));
    }
  }

  lemma {:induction false} RestartedIndex(s: State)
    requires IndexSound(s.memory, s.log.reaped) && DiskSync(s.memory, s.disk, s.log.dirty)
    ensures IndexOk(Restarted(s).memory, s.log.reaped)
  {
    forall a | a in s.disk
      ensures s.disk[a].bundle.attemptId == a && a !in s.log.reaped
    {
    }
  }

  lemma {:induction false} RestartedSync(s: State)
    requires Tidy(DataOf(s))
    ensures var t := Restarted(s); DiskSync(t.memory, t.disk, {})
  {
  }

  lemma {:induction false} RestartedSends(s: State)
    requires Tidy(DataOf(s)) && SentOk(s.log, s.nextJob, s.disk)
    ensures SendsOk(Restarted(s).memory, s.log.sent, s.log.reaped)
  {
    var k := Restarted(s).memory;
    forall n | n in s.log.sent && s.log.sent[n].attemptId !in s.log.reaped
      ensures IndexedAs(k, s.log.sent[n])
    {
      assert IndexedAs(s.memory, s.log.sent[n]);
      assert k.index[s.log.sent[n].attemptId] == Old(s.log.sent[n].attemptId);
    }
  }

  lemma {:induction false} RestartedTidy(s: State)
    requires Tidy(DataOf(s)) && SentOk(s.log, s.nextJob, s.disk)
    ensures Neat(Restarted(s))
  {
    RestartedIndex(s);
    RestartedSync(s);
    RestartedSends(s);
  }

  // ---- every step ---------------------------------------------------------

  /** What the invariants say of the job a suspended handler will write. */
  lemma {:induction false} HandlerFacts(s: State, id: nat)
    requires Orderly(s) && id in s.handlers && Writes(s.handlers[id]).Some?
    ensures var r := Writes(s.handlers[id]).value;
      && Kept(s.memory, s.log.reaped, r) && LateJob(s.memory, r)
      && (s.handlers[id].RepairClearing? ==> Broken(Get(s.memory, r)))
      && (s.handlers[id].HealthClearing? ==> r.Old? && Recovering(Get(s.memory, r)))
  {
    assert PcOk(s.memory, s.log.facts, s.handlers[id]);
    assert PcTidy(DataOf(s), s.handlers[id]);
  }

  lemma {:induction false} IndexFacts(s: State, a: AttemptId)
    requires Orderly(s) && a in s.memory.index
    ensures Kept(s.memory, s.log.reaped, s.memory.index[a]) && LateJob(s.memory, s.memory.index[a])
  {
  }

  lemma {:induction false} RunFacts(s: State)
    requires Inv(s)
    ensures !s.queue.run.Resting? ==> UnderWay(s.memory, s.queue.run.job)
    ensures s.queue.waiting != [] ==> var n := s.queue.waiting[0];
      && n in s.memory.created && n !in s.log.sent
      && s.memory.created[n].status in {Accepted, Cancelled}
      && (s.memory.created[n].status == Accepted ==> !s.memory.created[n].repaired)
    ensures s.nextJob !in s.memory.created && s.nextJob !in s.log.sent
  {
  }

  lemma {:induction false} StartNextGood(cfg: Config, s: State, written: bool)
    requires Orderly(s) && s.queue.waiting != [] && s.queue.waiting[0] in s.memory.created
    ensures Good(s, StartNext(cfg, s, written))
  {
    RunFacts(s);
    var t := StartNext(cfg, s, written);
    if s.memory.created[s.queue.waiting[0]].status == Accepted {
      RunNextGood(cfg, s, t, written);
    } else {
      StartNextData(cfg, s, written);
      StillThenMove(s, t, s.nextHandler, HealthFencing(map[], None));
    }
  }

  predicate RunEvent(e: Event) {
    e.RunNext? || e.RunReplied? || e.RunFenced? || e.RunProved?
  }

  lemma {:induction false} RunEventGood(cfg: Config, s: State, e: Event)
    requires Orderly(s) && Enabled(cfg, s, e) && RunEvent(e)
    ensures Good(s, React(cfg, s, e))
  {
    RunFacts(s);
    match e {
      case RunNext(written) => StartNextGood(cfg, s, written);
      case RunReplied(_, _) => RunGood(cfg, s, e);
      case RunFenced(_, _) => RunGood(cfg, s, e);
      case RunProved(ok, written) => ProveGood(s, ok, written);
    }
  }

  lemma {:induction false} ReactGood(cfg: Config, s: State, e: Event)
    requires Orderly(s) && Enabled(cfg, s, e) && Serial(s, e) && !e.Restart?
    ensures Good(s, React(cfg, s, e))
  {
    if Waiting(e) {
      WaitingGood(cfg, s, e);
    } else if RunEvent(e) {
      RunEventGood(cfg, s, e);
    } else {
      match e {
        case SubmitArrives(bundle) => SubmitGood(cfg, s, bundle);
        case SubmitContinues(id, ready, written) =>
          RunFacts(s);
          ContinueSubmitGood(s, React(cfg, s, e), id, s.handlers[id].bundle, ready, written);
        case CancelArrives(a, bundle, written) =>
          if a in s.memory.index { IndexFacts(s, a); }
          CancelGood(cfg, s, a, bundle, written);
        case CancelFenced(id, acked, written) => HandlerFacts(s, id); FenceOfCancelGood(cfg, s, id, s.handlers[id].job, acked, written);
        case RepairCleared(id, _, _, _) => HandlerFacts(s, id); RepairClearedGood(cfg, s, e);
        case HealthCleared(id, absent, written) => HandlerFacts(s, id); RecoverGood(s, id, s.handlers[id], absent, written);
        case Reap(a, written) => IndexFacts(s, a); ReapGood(cfg, s, React(cfg, s, e), a, written);
      }
    }
  }

  lemma {:induction false} StepOrderly(cfg: Config, s: State, step: Timed)
    requires Orderly(s) && CanStep(cfg, s, step) && Serial(s, step.event)
    ensures Orderly(Step(cfg, s, step))
    ensures !step.event.Restart? ==> Moved(DataOf(s), DataOf(Step(cfg, s, step)))
  {
    var t := s.(now := step.at);
    StepKeeps(cfg, s, step);
    SelfMoves(s.memory);
    QuietStep(s, t);
    if step.event.Restart? {
      RestartedTidy(t);
    } else {
      ReactGood(cfg, t, step.event);
    }
  }
}

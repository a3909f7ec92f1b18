/**
 * One run of one job: claim, the loop over its sources under the chunk budget, and the
 * roll-up. `World` owns the shared rows; a run may end by dying at any await, and between
 * awaits the API may cancel the job or tombstone the space.
 */
module ProcessIngestion {
  import opened Common
  import opened JobStore
  import opened Tables
  import opened Pipeline
  import opened ResumedRuns
  import opened SourceRows
  import Usage

  const MAX_CHUNKS_PER_INVOCATION := 8
  const SOURCE_RETRY_ATTEMPTS := 3
  const JOB_LEASE_MS := 5 * 60_000

  datatype Message = Message(jobId: string, org: int, user: int, space: int, sourceIds: seq<int>)

  datatype RunOutcome =
    | Processed | SkippedTerminal | SkippedNotFound | SkippedInFlight | RetryTransient | RequeueIncomplete

  /** The final status write: whether it was applied, and the result it carried. */
  datatype RollUp = RollUp(applied: bool, status: Status, failedIds: seq<int>)

  /** `Died` is an exception escaping the run, or the worker being evicted. */
  datatype RunResult =
    | Ran(outcome: RunOutcome, chunksProcessed: nat, rollUp: Option<RollUp>)
    | Died

  predicate SourceSettled(sources: map<int, SourceRow>, sid: int) {
    sid in sources ==> !Unsettled(sources[sid].status)
  }

  predicate Scoped(msg: Message, row: SourceRow) {
    InTenant(row, msg.org, msg.space)
  }

  /** Every listed source that exists belongs to the message's tenant, as its producer checked. */
  ghost predicate InScope(msg: Message, sources: map<int, SourceRow>) {
    forall sid :: sid in msg.sourceIds && sid in sources ==> Scoped(msg, sources[sid])
  }

  /** The listed occurrences whose row is failed, in list order. */
  function FailedOf(ids: seq<int>, sources: map<int, SourceRow>): seq<int> {
    if ids == [] then []
    else
      var last := ids[|ids| - 1];
      FailedOf(ids[..|ids| - 1], sources) +
      if last in sources && sources[last].status.Broken? then [last] else []
  }

  /** Chunks a source still has to go through before it is settled. */
  function Left(sources: map<int, SourceRow>, d: Db, sizes: map<int, nat>, sid: int): nat {
    if sid !in sources || sid !in sizes || !Unsettled(sources[sid].status) then 0
    else if sizes[sid] > MAX_CHUNKS_PER_SOURCE || Checkpoint(d, sid) > sizes[sid] then 0
    else sizes[sid] - Checkpoint(d, sid)
  }

  ghost function TotalLeft(sources: map<int, SourceRow>, d: Db, sizes: map<int, nat>, ids: set<int>): nat {
    if exists sid :: sid in ids
    then
      var sid :| sid in ids;
      Left(sources, d, sizes, sid) + TotalLeft(sources, d, sizes, ids - {sid})
    else 0
  }

  /** What is stored of source `sid` is what some attempts committed, chunk by chunk. */
  ghost predicate Resumable(d: Db, sid: int, n: nat) {
    exists log :: Progress(d, sid, log, n)
  }

  /** The source is stored whole: every chunk has what some attempt yielded for it, all indexed, and no other row. */
  ghost predicate StoredWhole(d: Db, sid: int, n: nat) {
    exists log :: |log| == n && Complete(d, sid, log)
  }

  /** `n` is the source's number of chunks. */
  ghost predicate SourceOk(d: Db, sid: int, status: ExtractionStatus, n: nat) {
    Checkpoint(d, sid) <= n && Resumable(d, sid, n) && (status.Done? ==> StoredWhole(d, sid, n))
  }

  ghost predicate AllOk(d: Db, sources: map<int, SourceRow>, sizes: map<int, nat>) {
    forall sid :: sid in sources ==> sid in sizes && SourceOk(d, sid, sources[sid].status, sizes[sid])
  }

  predicate IsBroken(sources: map<int, SourceRow>, sid: int) {
    sid in sources && sources[sid].status == Broken
  }

  /**
   * The roll-up tells the truth about every listed source: all of them are settled, the
   * failed ones are listed, and the job is completed exactly when none of them failed and
   * failed exactly when there were sources and every one of them did.
   */
  ghost predicate RollUpSound(r: RollUp, ids: seq<int>, sources: map<int, SourceRow>) {
    && (forall k :: 0 <= k < |ids| && ids[k] in sources ==> sources[ids[k]].status in {Done, Broken})
    && r.failedIds == FailedOf(ids, sources)
    && (forall sid :: sid in r.failedIds <==> sid in ids && IsBroken(sources, sid))
    && (r.status == Completed <==> forall k :: 0 <= k < |ids| ==> !IsBroken(sources, ids[k]))
    && (r.status == Failed <==> ids != [] && forall k :: 0 <= k < |ids| ==> IsBroken(sources, ids[k]))
    && r.status in {Completed, Failed, Partial}
  }

  /** The failed occurrences are as many as the listed ones exactly when every listed source failed. */
  lemma {:induction false} FailedOfCounts(ids: seq<int>, sources: map<int, SourceRow>)
    ensures |FailedOf(ids, sources)| <= |ids|
    ensures |FailedOf(ids, sources)| == 0 <==> forall k :: 0 <= k < |ids| ==> !IsBroken(sources, ids[k])
    ensures |FailedOf(ids, sources)| == |ids| <==> forall k :: 0 <= k < |ids| ==> IsBroken(sources, ids[k])
  {
    if ids != [] {
      var n := |ids| - 1;
      FailedOfCounts(ids[..n], sources);
      assert forall k :: 0 <= k < n ==> ids[..n][k] == ids[k];
      assert ids[n] == ids[|ids| - 1];
    }
  }

  /** The failed ids are exactly the listed sources whose row is failed. */
  lemma {:induction false} FailedOfMembers(ids: seq<int>, sources: map<int, SourceRow>, sid: int)
    ensures sid in FailedOf(ids, sources) <==> sid in ids && IsBroken(sources, sid)
  {
    if ids != [] {
      FailedOfMembers(ids[..|ids| - 1], sources, sid);
    }
  }

  lemma AttemptLeavesOther(d0: Db, d1: Db, sid: int, facts: seq<seq<Fact>>, budget: int, r: Pipeline.Outcome,
                           other: int, status: ExtractionStatus, n: nat)
    requires Attempt(d0, d1, sid, facts, budget, r) && Consistent(d1) && other != sid
    requires SourceOk(d0, other, status, n)
    ensures SourceOk(d1, other, status, n) && Checkpoint(d1, other) == Checkpoint(d0, other)
  {
    var from := PlanBatch(|facts|, Checkpoint(d0, sid), budget).start;
    assert Kept(d1, sid, from) == Kept(d0, sid, from);
    assert Checkpoint(d0, other) == Checkpoint(Kept(d0, sid, from), other);
    assert Checkpoint(d1, other) == Checkpoint(Kept(d1, sid, from), other);
    var log :| Progress(d0, other, log, n);
    forall q | 0 <= q < |log| ensures Holds(d1, other, q, log[q]) {
      KeptHolds(d0, d1, sid, from, other, q, log[q]);
    }
    forall c | c in d1.chunks ensures !InTail(d1.chunks[c], other, n) {
      if InTail(d1.chunks[c], other, n) {
        KeptChunkRow(d0, d1, sid, from, c);
      }
    }
    assert Progress(d1, other, log, n);
    if status.Done? {
      var whole :| |whole| == n && Complete(d0, other, whole);
      KeptComplete(d0, d1, sid, from, other, whole);
    }
  }

  /** Whatever the earlier attempts yielded, and whatever this one does. */
  lemma AttemptKeepsSourceOk(d0: Db, d1: Db, sid: int, facts: seq<seq<Fact>>, budget: int, r: Pipeline.Outcome,
                             status: ExtractionStatus)
    requires Attempt(d0, d1, sid, facts, budget, r) && Consistent(d1) && TailEmpty(d1, sid, |facts|)
    requires SourceOk(d0, sid, status, |facts|) && !status.Done?
    ensures SourceOk(d1, sid, status, |facts|)
    ensures r.Finished? && r.remaining == 0 ==> StoredWhole(d1, sid, |facts|)
  {
    var log :| Progress(d0, sid, log, |facts|);
    var next := AttemptKeepsProgress(d0, d1, sid, Event(budget, facts, r), log, |facts|);
    if r.Finished? && r.remaining == 0 {
      assert Complete(d1, sid, log + facts[|log|..]);
    }
  }

  lemma {:induction false} TotalLeftUpdate(
      s0: map<int, SourceRow>, d0: Db, s1: map<int, SourceRow>, d1: Db, sizes: map<int, nat>,
      ids: set<int>, sid: int)
    requires forall o :: o in ids && o != sid ==> Left(s1, d1, sizes, o) == Left(s0, d0, sizes, o)
    ensures sid in ids ==>
              TotalLeft(s1, d1, sizes, ids) - Left(s1, d1, sizes, sid)
              == TotalLeft(s0, d0, sizes, ids) - Left(s0, d0, sizes, sid)
    ensures sid !in ids ==> TotalLeft(s1, d1, sizes, ids) == TotalLeft(s0, d0, sizes, ids)
  {
    if o :| o in ids {
      TotalLeftPick(s0, d0, sizes, ids, o);
      TotalLeftPick(s1, d1, sizes, ids, o);
      TotalLeftUpdate(s0, d0, s1, d1, sizes, ids - {o}, sid);
    }
  }

  lemma {:induction false} TotalLeftPick(
      s: map<int, SourceRow>, d: Db, sizes: map<int, nat>, ids: set<int>, sid: int)
    requires sid in ids
    ensures TotalLeft(s, d, sizes, ids) == Left(s, d, sizes, sid) + TotalLeft(s, d, sizes, ids - {sid})
  {
    var o :| o in ids && TotalLeft(s, d, sizes, ids) ==
                         Left(s, d, sizes, o) + TotalLeft(s, d, sizes, ids - {o});
    if o != sid {
      TotalLeftPick(s, d, sizes, ids - {o}, sid);
      TotalLeftPick(s, d, sizes, ids - {sid}, o);
      assert ids - {o} - {sid} == ids - {sid} - {o};
    }
  }

  lemma {:induction false} FailedOfSame(ids: seq<int>, s0: map<int, SourceRow>, s1: map<int, SourceRow>)
    requires forall k :: 0 <= k < |ids| ==>
               (ids[k] in s0 <==> ids[k] in s1) && (ids[k] in s0 ==> s0[ids[k]].status == s1[ids[k]].status)
    ensures FailedOf(ids, s0) == FailedOf(ids, s1)
  {
    if ids != [] {
      FailedOfSame(ids[..|ids| - 1], s0, s1);
    }
  }

  lemma RollUpIsSound(r: RollUp, ids: seq<int>, sources: map<int, SourceRow>)
    requires forall k :: 0 <= k < |ids| ==> SourceSettled(sources, ids[k])
    requires r.failedIds == FailedOf(ids, sources) && r.status == StatusOf(|r.failedIds|, |ids|)
    ensures RollUpSound(r, ids, sources)
  {
    FailedOfCounts(ids, sources);
    forall sid ensures sid in r.failedIds <==> sid in ids && IsBroken(sources, sid) {
      FailedOfMembers(ids, sources, sid);
    }
  }

  /** How one turn of the source loop ended. */
  datatype Turn =
    | AlreadySettled(failed: bool)
    | SourceDone(processed: nat)
    | BatchDone(processed: nat)
    | StoppedMidSource
    | TransientFailure
    | PermanentFailure
    | TurnDied

  /**
   * How the attempts decide the turn: one that finished, a cancellation, three retryable
   * failures in a row, or one permanent failure. A turn without attempts found the source settled.
   */
  ghost predicate Judged(t: Turn, tries: seq<Pipeline.Outcome>) {
    && (t.AlreadySettled? ==> tries == [])
    && (t.SourceDone? || t.BatchDone? ==>
          tries != [] && tries[|tries| - 1].Finished? && tries[|tries| - 1].processed == t.processed
          && (t.SourceDone? <==> tries[|tries| - 1].remaining == 0))
    && (t.StoppedMidSource? ==> tries != [] && tries[|tries| - 1] == Threw(JobCancelled))
    && (t.TransientFailure? ==> tries == [Threw(Retryable), Threw(Retryable), Threw(Retryable)])
    && (t.PermanentFailure? ==> tries != [] && tries[|tries| - 1] == Threw(Permanent))
  }

  lemma JudgedBefore(t: Turn)
    requires t.AlreadySettled? || t.TurnDied?
    ensures Judged(t, [])
  {
  }

  /** `r` is how the last of the attempts ended. */
  lemma JudgedAfter(t: Turn, tries: seq<Pipeline.Outcome>, r: Pipeline.Outcome)
    requires 1 <= |tries| <= 3 && tries[|tries| - 1] == r && !t.AlreadySettled?
    requires forall k :: 0 <= k < |tries| - 1 ==> tries[k] == Threw(Retryable)
    requires r == Threw(Retryable) ==> |tries| == 3
    requires t.BatchDone? ==> r.Finished? && r.remaining > 0 && t.processed == r.processed
    requires t.SourceDone? ==> r.Finished? && r.remaining == 0 && t.processed == r.processed
    requires t.StoppedMidSource? ==> r == Threw(JobCancelled)
    requires t.TransientFailure? ==> r == Threw(Retryable)
    requires t.PermanentFailure? ==> r == Threw(Permanent)
    ensures Judged(t, tries)
  {
  }

  function ChunksOf(t: Turn): nat {
    if t.SourceDone? || t.BatchDone? then t.processed else 0
  }

  /** What an outcome tells its caller about the job row and the space at the moment it is returned. */
  predicate JobAfter(outcome: RunOutcome, row: Option<JobRow>, spaceDeleted: bool) {
    match outcome
    case Processed => Settled(row) || spaceDeleted
    case SkippedTerminal => row.Some? && IsTerminal(row.value.status)
    case SkippedNotFound => row.None?
    case SkippedInFlight => row.Some? && row.value.status.Processing?
    case RetryTransient => Settled(row) || row == Some(JobRow(Pending, None))
    case RequeueIncomplete => Settled(row) || row == Some(JobRow(Pending, None))
  }

  function StatusOf(failed: nat, all: nat): Status {
    if failed == 0 then Completed else if failed == all then Failed else Partial
  }

  /** What a run's result may say, given the row and the space at the moment it is returned. */
  predicate Truthful(outcome: RunOutcome, chunks: nat, row: Option<JobRow>, spaceDeleted: bool) {
    && JobAfter(outcome, row, spaceDeleted)
    && chunks <= MAX_CHUNKS_PER_INVOCATION
    && (outcome.RequeueIncomplete? ==> chunks == MAX_CHUNKS_PER_INVOCATION)
  }

  /**
   * The run's counters: next index, failed ids, sources completed and failed by this run,
   * transient failures, chunks used, budget reached.
   */
  datatype Loop = Loop(
    i: nat, failed: seq<int>, completed: seq<int>, newlyFailed: seq<int>, transient: nat, chunks: nat, budgetHit: bool)

  function AfterTurn(l: Loop, t: Turn, sid: int): Loop {
    match t
    case AlreadySettled(broken) => l.(i := l.i + 1, failed := if broken then l.failed + [sid] else l.failed)
    case SourceDone(processed) => l.(i := l.i + 1, completed := l.completed + [sid], chunks := l.chunks + processed)
    case BatchDone(processed) => l.(chunks := l.chunks + processed, budgetHit := true)
    case StoppedMidSource => l.(i := l.i + 1)
    case TransientFailure => l.(i := l.i + 1, transient := l.transient + 1)
    case PermanentFailure => l.(i := l.i + 1, failed := l.failed + [sid], newlyFailed := l.newlyFailed + [sid])
    case TurnDied => l
  }

  /** The chunks the turns of a run went through. */
  function ChunksIn(turns: seq<Turn>): nat {
    if turns == [] then 0 else ChunksIn(turns[..|turns| - 1]) + ChunksOf(turns[|turns| - 1])
  }

  /** The counters are those of these turns. */
  predicate Counts(l: Loop, turns: seq<Turn>) {
    && l.chunks == ChunksIn(turns) && (l.transient > 0 <==> TransientFailure in turns)
    && (!l.budgetHit ==> l.i == |turns|)
  }

  lemma CountsNext(l: Loop, turns: seq<Turn>, t: Turn, sid: int)
    requires Counts(l, turns) && !l.budgetHit && !t.TurnDied?
    ensures Counts(AfterTurn(l, t, sid), turns + [t])
  {
    assert (turns + [t])[..|turns|] == turns;
  }

  /**
   * The turns of a run decide its outcome: it hands the job back for a retry only after a
   * transient failure, and neither continues nor rolls up after one; it rolls up only once
   * every one of the `n` listed sources has had its turn; and it reports the chunks of its turns.
   */
  predicate Explains(turns: seq<Turn>, r: RunResult, n: nat) {
    r.Ran? ==>
      && (r.outcome.RetryTransient? ==> TransientFailure in turns)
      && (r.outcome.RequeueIncomplete? || r.rollUp.Some? ==> TransientFailure !in turns)
      && (r.rollUp.Some? ==> |turns| == n)
      && (r.outcome.SkippedTerminal? || r.outcome.SkippedNotFound? || r.outcome.SkippedInFlight? ==> turns == [])
      && r.chunksProcessed == ChunksIn(turns)
  }

  lemma DiedExplains(turns: seq<Turn>, n: nat)
    ensures Explains(turns, Died, n)
  {
  }

  lemma LoopExplains(l: Loop, turns: seq<Turn>, r: RunResult, n: nat)
    requires Counts(l, turns) && (r.Ran? ==> r.chunksProcessed == l.chunks)
    requires r.Ran? ==>
               || r == Ran(Processed, l.chunks, None)
               || (r.outcome.RetryTransient? && r.rollUp.None? && l.transient > 0)
               || (&& l.transient == 0 && (l.budgetHit || l.i == n) && (r.rollUp.Some? <==> !l.budgetHit)
                   && r.outcome == if l.budgetHit then RequeueIncomplete else Processed)
    ensures Explains(turns, r, n)
  {
  }

  /** Every source already passed is settled, and `failed` lists exactly its failed occurrences. */
  predicate Passed(ids: seq<int>, l: Loop, sources: map<int, SourceRow>) {
    && l.i <= |ids|
    && (forall k :: 0 <= k < l.i ==> SourceSettled(sources, ids[k]))
    && l.failed == FailedOf(ids[..l.i], sources)
  }

  function Listed(ids: seq<int>): set<int> {
    set sid | sid in ids
  }

  /** A status write restricted to the message's scope. */
  function Marked(sources: map<int, SourceRow>, msg: Message, sid: int, status: ExtractionStatus): map<int, SourceRow> {
    if sid in sources && Scoped(msg, sources[sid]) then sources[sid := sources[sid].(status := status)] else sources
  }

  /** What one turn may do to the source rows. */
  ghost predicate TurnEffect(s0: map<int, SourceRow>, s1: map<int, SourceRow>, msg: Message, sid: int, t: Turn) {
    && StatusOnly(s0, s1)
    && (forall o :: o in s1 && o != sid ==> s1[o] == s0[o])
    && (SourceSettled(s0, sid) || (sid in s1 && !Scoped(msg, s1[sid])) ==> s1 == s0)
    && (t.AlreadySettled? <==> SourceSettled(s0, sid) && !t.TurnDied?)
    && (t.AlreadySettled? ==> (t.failed <==> sid in s1 && s1[sid].status.Broken?))
    && (sid in s1 && Scoped(msg, s1[sid]) && t.SourceDone? ==> s1[sid].status.Done?)
    && (sid in s1 && Scoped(msg, s1[sid]) && t.PermanentFailure? ==> s1[sid].status.Broken?)
    && (Became(s0, s1, Done, sid) ==> t.SourceDone? || t.TurnDied?)
    && (Became(s0, s1, Broken, sid) ==> t.PermanentFailure? || t.TurnDied?)
  }

  /** The final status write of a turn, if any. */
  predicate WritesFor(t: Turn, written: Option<ExtractionStatus>) {
    match t
    case AlreadySettled(_) => false
    case SourceDone(_) => written == Some(Done)
    case PermanentFailure => written == Some(Broken)
    case TurnDied => written.None? || written.value.Done? || written.value.Broken?
    case _ => written.None?
  }

  lemma EffectKeepsRows(s0: map<int, SourceRow>, s1: map<int, SourceRow>, msg: Message, sid: int, t: Turn)
    requires TurnEffect(s0, s1, msg, sid, t)
    ensures StatusOnly(s0, s1) && SettledStay(s0, s1) && forall o :: o in s1 && o != sid ==> s1[o] == s0[o]
    ensures InScope(msg, s1) <==> InScope(msg, s0)
  {
  }

  lemma NoEffect(s0: map<int, SourceRow>, msg: Message, sid: int)
    ensures TurnEffect(s0, s0, msg, sid, TurnDied)
    ensures SourceSettled(s0, sid) ==>
              TurnEffect(s0, s0, msg, sid, AlreadySettled(sid in s0 && s0[sid].status.Broken?))
  {
  }

  lemma MarksHaveEffect(s0: map<int, SourceRow>, msg: Message, sid: int, t: Turn, written: Option<ExtractionStatus>)
    requires !SourceSettled(s0, sid) && WritesFor(t, written)
    ensures var s1 := Marked(s0, msg, sid, Running);
            TurnEffect(s0, if written.Some? then Marked(s1, msg, sid, written.value) else s1, msg, sid, t)
  {
  }

  lemma MarkedKeeps(s: map<int, SourceRow>, msg: Message, sid: int, status: ExtractionStatus, d: Db,
                    sizes: map<int, nat>)
    ensures var s1 := Marked(s, msg, sid, status);
            && s1.Keys == s.Keys
            && (sid in s ==> (Scoped(msg, s1[sid]) <==> Scoped(msg, s[sid])))
            && (sid in s && Scoped(msg, s[sid]) ==> s1[sid].status == status)
            && (!(sid in s && Scoped(msg, s[sid])) ==> s1 == s)
  {
  }

  /* ---- what a run meters ---- */

  /** The source entered this status between the two states. */
  predicate Became(s0: map<int, SourceRow>, s1: map<int, SourceRow>, status: ExtractionStatus, sid: int) {
    sid in s0 && sid in s1 && s0[sid].status != status && s1[sid].status == status
  }

  predicate SettledStay(s0: map<int, SourceRow>, s1: map<int, SourceRow>) {
    s1.Keys == s0.Keys &&
    forall sid :: sid in s0 && !Unsettled(s0[sid].status) ==> s1[sid].status == s0[sid].status
  }

  /** Sources that are not listed keep their status. */
  predicate OnlyListed(s0: map<int, SourceRow>, s1: map<int, SourceRow>, ids: seq<int>) {
    forall sid :: sid in s0 && sid in s1 && sid !in ids ==> s1[sid].status == s0[sid].status
  }

  /** The two lists are exactly what the run has completed and given up on since `s0`. */
  ghost predicate Tracked(s0: map<int, SourceRow>, s1: map<int, SourceRow>, msg: Message, completed: seq<int>,
                          failed: seq<int>)
  {
    && StatusOnly(s0, s1) && SettledStay(s0, s1) && OnlyListed(s0, s1, msg.sourceIds)
    && (forall sid :: sid in s1 ==> (Became(s0, s1, Done, sid) <==> sid in completed && Scoped(msg, s1[sid])))
    && (forall sid :: sid in s1 ==> (Became(s0, s1, Broken, sid) <==> sid in failed && Scoped(msg, s1[sid])))
  }

  /**
   * Whether a run got to recording its usage, whether that transaction committed, and the
   * sources it gave up on; those it merely cancelled on its way out are not among them.
   */
  datatype Meter = Meter(reached: bool, committed: bool, gaveUp: set<int>)

  function GaveUp(sources: map<int, SourceRow>, msg: Message, failed: seq<int>): set<int> {
    set sid | sid in failed && sid in sources && Scoped(msg, sources[sid])
  }

  /** The counter row each source is counted on, as completed or as failed. */
  function CountedAs(l: Usage.Ledger, status: ExtractionStatus): map<int, Usage.Key> {
    if status.Done? then l.completions else l.failures
  }

  predicate Pays(m: Meter, status: ExtractionStatus, sid: int) {
    m.committed && (status.Broken? ==> sid in m.gaveUp)
  }

  /** The source is newly counted in this status if and only if it newly entered it and the run pays for it. */
  ghost predicate Metered(l0: Usage.Ledger, l1: Usage.Ledger, m: Meter, status: ExtractionStatus, sid: int) {
    var c0, c1 := CountedAs(l0, status), CountedAs(l1, status);
    && (sid in c0 ==> sid in c1 && c1[sid] == c0[sid])
    && (sid in c1 <==> sid in c0 || (Pays(m, status, sid) && Became(l0.sources, l1.sources, status, sid)))
  }

  ghost predicate EffectOn(l0: Usage.Ledger, l1: Usage.Ledger, m: Meter, sid: int) {
    && (sid in l0.sources <==> sid in l1.sources)
    && (sid in l0.sources && !Unsettled(l0.sources[sid].status) ==>
          l1.sources[sid].status == l0.sources[sid].status)
    && Metered(l0, l1, m, Done, sid) && Metered(l0, l1, m, Broken, sid)
    && (sid in m.gaveUp ==> Became(l0.sources, l1.sources, Broken, sid))
  }

  /**
   * What one run does to metering: settled sources keep their status, counted ones stay
   * counted on their row, and what is newly counted is exactly what the run completed and
   * gave up on if its recording committed, and nothing otherwise.
   */
  ghost predicate RunEffect(l0: Usage.Ledger, l1: Usage.Ledger, m: Meter) {
    forall sid :: EffectOn(l0, l1, m, sid)
  }

  lemma TrackedNext(s0: map<int, SourceRow>, s1: map<int, SourceRow>, s2: map<int, SourceRow>, msg: Message,
                    completed: seq<int>, failed: seq<int>, t: Turn, sid: int)
    requires Tracked(s0, s1, msg, completed, failed) && TurnEffect(s1, s2, msg, sid, t) && !t.TurnDied?
    requires sid in msg.sourceIds
    ensures Tracked(s0, s2, msg, if t.SourceDone? then completed + [sid] else completed,
                    if t.PermanentFailure? then failed + [sid] else failed)
  {
    var completed' := if t.SourceDone? then completed + [sid] else completed;
    var failed' := if t.PermanentFailure? then failed + [sid] else failed;
    forall o | o in s2
      ensures Became(s0, s2, Done, o) <==> o in completed' && Scoped(msg, s2[o])
      ensures Became(s0, s2, Broken, o) <==> o in failed' && Scoped(msg, s2[o])
    {
      assert o != sid ==> (o in completed' <==> o in completed) && (o in failed' <==> o in failed);
    }
  }

  lemma TrackedKeeps(s0: map<int, SourceRow>, s1: map<int, SourceRow>, s2: map<int, SourceRow>, msg: Message,
                     completed: seq<int>, failed: seq<int>, t: Turn, sid: int)
    requires Tracked(s0, s1, msg, completed, failed) && TurnEffect(s1, s2, msg, sid, t) && sid in msg.sourceIds
    ensures StatusOnly(s0, s2) && SettledStay(s0, s2) && OnlyListed(s0, s2, msg.sourceIds)
  {
  }

  /** Recording right after the loop has the run's metering effect. */
  lemma RecordHasEffect(l0: Usage.Ledger, l: Usage.Ledger, msg: Message, completed: seq<int>, failed: seq<int>,
                        key: Usage.Key, input: Usage.Input)
    requires Tracked(l0.sources, l.sources, msg, completed, failed) && l == l0.(sources := l.sources)
    requires Usage.FlagsAgree(l) && key.org == msg.org && key.space == msg.space
    requires input.completedIds == completed && input.failedIds == failed
    ensures var l' := Usage.Record(l, key, input);
            && RunEffect(l0, l', Meter(true, true, GaveUp(l.sources, msg, failed)))
            && FlagsOnly(l.sources, l'.sources)
  {
    hide Usage.Record, Usage.FlagsAgree;
    Usage.RecordCounts(l, key, input);
    var l' := Usage.Record(l, key, input);
    forall sid ensures EffectOn(l0, l', Meter(true, true, GaveUp(l.sources, msg, failed)), sid) {
      assert Usage.Selected(l, key, sid) <==> sid in l.sources && Scoped(msg, l.sources[sid]);
      FlagsKeepStatus(l.sources, l'.sources, sid);
      hide FlagsOnly;
    }
  }

  /** Without a recording nothing is counted. */
  lemma NotRecorded(l: Usage.Ledger, s1: map<int, SourceRow>, m: Meter)
    requires SettledStay(l.sources, s1) && !m.committed
    requires forall sid :: sid in m.gaveUp ==> Became(l.sources, s1, Broken, sid)
    ensures RunEffect(l, l.(sources := s1), m)
  {
  }

  /** Cancelling what is left completes nothing, and counts nothing. */
  lemma CancelKeepsEffect(l0: Usage.Ledger, l1: Usage.Ledger, s2: map<int, SourceRow>, m: Meter)
    requires RunEffect(l0, l1, m) && SettledStay(l1.sources, s2)
    requires forall sid :: sid in s2 && s2[sid].status.Done? ==> l1.sources[sid].status.Done?
    ensures RunEffect(l0, l1.(sources := s2), m)
  {
    forall sid ensures EffectOn(l0, l1.(sources := s2), m, sid) {
      assert EffectOn(l0, l1, m, sid);
    }
  }

  lemma FlagsKeepStatus(s0: map<int, SourceRow>, s1: map<int, SourceRow>, sid: int)
    requires FlagsOnly(s0, s1)
    ensures sid in s0 <==> sid in s1
    ensures sid in s0 ==> s1[sid].status == s0[sid].status
  {
    assert sid in s0.Keys <==> sid in s1.Keys;
    if sid in s0 {
      assert s1[sid] == s0[sid].(completionRecorded := s1[sid].completionRecorded,
                                 failureRecorded := s1[sid].failureRecorded);
    }
  }

  /** The flags a recording sets are invisible to everything that goes by statuses. */
  lemma FlagsKeep(s0: map<int, SourceRow>, s1: map<int, SourceRow>, d: Db, sizes: map<int, nat>,
                  ids: seq<int>)
    requires FlagsOnly(s0, s1) && AllOk(d, s0, sizes)
    ensures AllOk(d, s1, sizes) && TotalLeft(s1, d, sizes, Listed(ids)) <= TotalLeft(s0, d, sizes, Listed(ids))
    ensures FailedOf(ids, s1) == FailedOf(ids, s0)
    ensures forall k :: 0 <= k < |ids| ==> (SourceSettled(s1, ids[k]) <==> SourceSettled(s0, ids[k]))
  {
    hide SourceOk, TotalLeft, FailedOf, FlagsOnly;
    forall sid ensures (sid in s0 <==> sid in s1) && (sid in s0 ==> s1[sid].status == s0[sid].status) {
      FlagsKeepStatus(s0, s1, sid);
    }
    forall o ensures Left(s1, d, sizes, o) <= Left(s0, d, sizes, o) {
      FlagsKeepStatus(s0, s1, o);
    }
    TotalLeftMonotone(s0, s1, d, sizes, Listed(ids));
    forall k | 0 <= k < |ids|
      ensures (ids[k] in s0 <==> ids[k] in s1) && (ids[k] in s0 ==> s0[ids[k]].status == s1[ids[k]].status)
    {
      FlagsKeepStatus(s0, s1, ids[k]);
    }
    FailedOfSame(ids, s0, s1);
  }

  class World {
    const jobs: JobTable
    const store: Store
    /** Per source, how many chunks it is cut into. */
    const sizes: map<int, nat>
    /** The source rows, and what was metered for them. */
    const usage: Usage.UsageDb
    var deletedSpaces: set<int>
    /** How many of the run's own awaited calls have failed so far, its death included. */
    ghost var faults: nat

    constructor (jobs: JobTable, store: Store, usage: Usage.UsageDb, sizes: map<int, nat>)
      ensures this.jobs == jobs && this.store == store && this.usage == usage && this.sizes == sizes
      ensures deletedSpaces == {}
    {
      this.jobs, this.store, this.usage, this.sizes, deletedSpaces := jobs, store, usage, sizes, {};
      faults := 0;
    }

    ghost predicate Valid()
      reads store`db, store`serial, usage`sources
    {
      store.Valid() && AllOk(store.db, usage.sources, sizes)
    }

    /** The usage counters agree with what was counted. */
    ghost predicate Balanced()
      reads usage
    {
      Usage.Conserved(usage.Value())
    }

    ghost function Remaining(ids: seq<int>): nat
      reads store`db, store`serial, usage`sources
    {
      TotalLeft(usage.sources, store.db, sizes, Listed(ids))
    }

    /** Any awaited call may fail, and the worker may die at any of them. */
    method Succeeds() returns (ok: bool)
      modifies this`faults
      ensures faults == if ok then old(faults) else old(faults) + 1
    {
      ok := *;
      faults := if ok then faults else faults + 1;
    }

    /** Cancellation or a tombstone; a failed check, with `checked` false, reads as "keep going". */
    method ShouldStop(msg: Message) returns (stop: bool, ghost checked: bool)
      requires HeldOrSettled(jobs.Row(msg.jobId))
      modifies jobs, this`deletedSpaces, this`faults
      ensures HeldOrSettled(jobs.Row(msg.jobId))
      ensures old(Settled(jobs.Row(msg.jobId))) ==> Settled(jobs.Row(msg.jobId))
      ensures old(deletedSpaces) <= deletedSpaces
      ensures faults == if checked then old(faults) else old(faults) + 1
      ensures var row := jobs.Row(msg.jobId);
              stop <==> checked && ((row.Some? && row.value.status.Cancelled?) || msg.space in deletedSpaces)
    {
      jobs.Interfere(msg.jobId);
      if * {
        deletedSpaces := deletedSpaces + {msg.space};
      }
      var ok := Succeeds();
      checked := ok;
      if !ok {
        return false, checked;
      }
      var row := jobs.Row(msg.jobId);
      stop := (row.Some? && row.value.status.Cancelled?) || msg.space in deletedSpaces;
    }

    method MarkSource(msg: Message, sid: int, status: ExtractionStatus)
      requires Valid() && (status.Done? && sid in usage.sources ==> StoredWhole(store.db, sid, sizes[sid]))
      modifies usage`sources
      ensures Valid() && usage.sources == Marked(old(usage.sources), msg, sid, status)
    {
      if sid in usage.sources && Scoped(msg, usage.sources[sid]) {
        usage.sources := usage.sources[sid := usage.sources[sid].(status := status)];
      }
    }

    /** Settles the listed sources that are not settled yet; rows an earlier run finished keep their status. */
    method MarkUnprocessedSourcesCancelled(msg: Message, ids: seq<int>)
      requires Valid()
      modifies usage`sources
      ensures Valid() && usage.sources.Keys == old(usage.sources).Keys
      ensures forall sid :: sid in usage.sources ==>
                var row := old(usage.sources)[sid];
                usage.sources[sid] == if sid in ids && Scoped(msg, row) && row.status in {Waiting, Running}
                                      then row.(status := Broken) else row
    {
      usage.sources := map sid | sid in usage.sources ::
        var row := usage.sources[sid];
        if sid in ids && Scoped(msg, row) && Unsettled(row.status) then row.(status := Broken) else row;
    }

    /** What the providers yield for the chunks of a source; it differs from attempt to attempt. */
    method Extract(n: nat) returns (facts: seq<seq<Fact>>)
      ensures |facts| == n
    {
      facts := [];
      while |facts| < n
        invariant |facts| <= n
      {
        var list: seq<Fact> := *;
        facts := facts + [list];
      }
    }

    /** Up to three attempts at one source, retrying only retryable failures; `tries` is how each of them ended. */
    method IngestWithRetries(msg: Message, sid: int, budget: nat)
      returns (r: Pipeline.Outcome, ghost tries: seq<Pipeline.Outcome>)
      requires Valid() && sid in usage.sources && Unsettled(usage.sources[sid].status) && budget > 0
      requires HeldOrSettled(jobs.Row(msg.jobId))
      modifies jobs, store
      ensures Valid() && HeldOrSettled(jobs.Row(msg.jobId))
      ensures old(Settled(jobs.Row(msg.jobId))) ==> Settled(jobs.Row(msg.jobId))
      ensures r == Threw(JobCancelled) ==> Settled(jobs.Row(msg.jobId))
      ensures 1 <= |tries| <= 3 && tries[|tries| - 1] == r
      ensures forall k :: 0 <= k < |tries| - 1 ==> tries[k] == Threw(Retryable)
      ensures r == Threw(Retryable) ==> |tries| == 3
      ensures old(store.faults) <= store.faults && sid in sizes
      ensures r.Threw? ==> old(store.faults) < store.faults || sizes[sid] > 500 || r == Threw(JobCancelled)
      ensures forall o :: o in usage.sources && o != sid ==> Checkpoint(store.db, o) == Checkpoint(old(store.db), o)
      ensures r.Finished? ==> r.processed <= budget && (r.remaining > 0 ==> r.processed == budget)
      ensures r.Finished? && r.remaining == 0 ==> StoredWhole(store.db, sid, sizes[sid])
      ensures store.reliable && r.Threw? ==> Checkpoint(store.db, sid) == Checkpoint(old(store.db), sid)
      ensures store.reliable && r.Finished? ==>
                Left(usage.sources, old(store.db), sizes, sid) == r.processed + r.remaining
      ensures store.reliable && r.Finished? && r.remaining > 0 ==>
                Left(usage.sources, store.db, sizes, sid) == r.remaining
    {
      var attempt := 1;
      tries := [];
      while true
        invariant 1 <= attempt <= SOURCE_RETRY_ATTEMPTS && |tries| == attempt - 1
        invariant forall k :: 0 <= k < |tries| ==> tries[k] == Threw(Retryable)
        invariant old(store.faults) <= store.faults
        invariant Valid() && HeldOrSettled(jobs.Row(msg.jobId))
        invariant old(Settled(jobs.Row(msg.jobId))) ==> Settled(jobs.Row(msg.jobId))
        invariant forall o :: o in usage.sources && o != sid ==> Checkpoint(store.db, o) == Checkpoint(old(store.db), o)
        invariant store.reliable ==> Checkpoint(store.db, sid) == Checkpoint(old(store.db), sid)
        decreases SOURCE_RETRY_ATTEMPTS - attempt
      {
        ghost var before := store.db;
        var facts := Extract(sizes[sid]);
        r := store.IngestSource(sid, facts, budget, 3, jobs, msg.jobId);
        tries := tries + [r];
        forall o | o in usage.sources
          ensures SourceOk(store.db, o, usage.sources[o].status, sizes[o])
          ensures o != sid ==> Checkpoint(store.db, o) == Checkpoint(before, o)
        {
          if o == sid {
            AttemptKeepsSourceOk(before, store.db, sid, facts, budget, r, usage.sources[sid].status);
          } else {
            AttemptLeavesOther(before, store.db, sid, facts, budget, r, o, usage.sources[o].status, sizes[o]);
          }
        }
        if r.Finished? {
          AttemptKeepsSourceOk(before, store.db, sid, facts, budget, r, usage.sources[sid].status);
          return;
        }
        if r.failure != Retryable || attempt == SOURCE_RETRY_ATTEMPTS {
          return;
        }
        attempt := attempt + 1;
      }
    }

    /** The per-source progress write, which is also a heartbeat. */
    method StampProgress(msg: Message)
      requires HeldOrSettled(jobs.Row(msg.jobId))
      modifies jobs
      ensures HeldOrSettled(jobs.Row(msg.jobId))
      ensures old(Settled(jobs.Row(msg.jobId))) ==> Settled(jobs.Row(msg.jobId))
    {
      var now: int := *;
      var _ := jobs.UpdateJobStatus(msg.jobId, Processing, now);
    }

    /** Hands the job back for another delivery, unless it was settled meanwhile. */
    method HandBack(msg: Message)
      requires HeldOrSettled(jobs.Row(msg.jobId))
      modifies jobs
      ensures JobAfter(RetryTransient, jobs.Row(msg.jobId), false)
      ensures JobAfter(RequeueIncomplete, jobs.Row(msg.jobId), false)
    {
      jobs.Interfere(msg.jobId);
      var _ := jobs.ResetJobForRetry(msg.jobId);
    }

    /** One turn of the source loop: the settled check, the progress write, the attempts, the status write. */
    method ProcessSource(msg: Message, sid: int, budget: nat) returns (t: Turn, ghost tries: seq<Pipeline.Outcome>)
      requires Valid() && 0 < budget && HeldOrSettled(jobs.Row(msg.jobId))
      modifies jobs, store, usage`sources, this`faults
      ensures Valid() && HeldOrSettled(jobs.Row(msg.jobId))
      ensures old(Settled(jobs.Row(msg.jobId))) ==> Settled(jobs.Row(msg.jobId))
      ensures TurnEffect(old(usage.sources), usage.sources, msg, sid, t)
      ensures forall o :: o in usage.sources && o != sid ==> Checkpoint(store.db, o) == Checkpoint(old(store.db), o)
      ensures t.AlreadySettled? ==> store.db == old(store.db)
      ensures Judged(t, tries)
      ensures old(faults) <= faults && old(store.faults) <= store.faults
      ensures t.TurnDied? || t.TransientFailure? || t.PermanentFailure? ==>
                || old(faults) < faults || old(store.faults) < store.faults
                || (sid in sizes && sizes[sid] > 500)
      ensures t.StoppedMidSource? ==> Settled(jobs.Row(msg.jobId))
      ensures ChunksOf(t) <= budget && (t.BatchDone? ==> t.processed == budget)
      ensures store.reliable && !t.TurnDied? && (sid in usage.sources ==> Scoped(msg, usage.sources[sid])) ==>
        Left(usage.sources, store.db, sizes, sid) + ChunksOf(t) <= Left(old(usage.sources), old(store.db), sizes, sid)
    {
      hide Valid, AllOk, SourceOk, Complete, Consistent, TurnEffect, Marked, Judged;
      ghost var s0 := usage.sources;
      tries := [];
      JudgedBefore(TurnDied);
      NoEffect(s0, msg, sid);
      var alive := Succeeds();
      if !alive {
        return TurnDied, tries;
      }
      if SourceSettled(usage.sources, sid) {
        JudgedBefore(AlreadySettled(sid in usage.sources && usage.sources[sid].status.Broken?));
        return AlreadySettled(sid in usage.sources && usage.sources[sid].status.Broken?), tries;
      }
      t, tries := AttemptSource(msg, sid, budget);
    }

    /** The turn of a source that is not settled yet. */
    method AttemptSource(msg: Message, sid: int, budget: nat) returns (t: Turn, ghost tries: seq<Pipeline.Outcome>)
      requires Valid() && 0 < budget && HeldOrSettled(jobs.Row(msg.jobId)) && !SourceSettled(usage.sources, sid)
      modifies jobs, store, usage`sources, this`faults
      ensures Valid() && HeldOrSettled(jobs.Row(msg.jobId))
      ensures old(Settled(jobs.Row(msg.jobId))) ==> Settled(jobs.Row(msg.jobId))
      ensures TurnEffect(old(usage.sources), usage.sources, msg, sid, t)
      ensures forall o :: o in usage.sources && o != sid ==> Checkpoint(store.db, o) == Checkpoint(old(store.db), o)
      ensures !t.AlreadySettled? && Judged(t, tries)
      ensures old(faults) <= faults && old(store.faults) <= store.faults
      ensures t.TurnDied? || t.TransientFailure? || t.PermanentFailure? ==>
                || old(faults) < faults || old(store.faults) < store.faults
                || (sid in sizes && sizes[sid] > 500)
      ensures t.StoppedMidSource? ==> Settled(jobs.Row(msg.jobId))
      ensures ChunksOf(t) <= budget && (t.BatchDone? ==> t.processed == budget)
      ensures store.reliable && !t.TurnDied? && (sid in usage.sources ==> Scoped(msg, usage.sources[sid])) ==>
        Left(usage.sources, store.db, sizes, sid) + ChunksOf(t) <= Left(old(usage.sources), old(store.db), sizes, sid)
    {
      hide Valid, AllOk, SourceOk, Complete, Consistent, TurnEffect, Marked, Judged;
      ghost var s0 := usage.sources;
      tries := [];
      JudgedBefore(TurnDied);
      NoEffect(s0, msg, sid);
      StampProgress(msg);
      var alive := Succeeds();
      if !alive {
        return TurnDied, tries;
      }
      MarkSource(msg, sid, Running);
      MarkedKeeps(s0, msg, sid, Running, store.db, sizes);
      alive := Succeeds();
      if !alive {
        MarksHaveEffect(s0, msg, sid, TurnDied, None);
        return TurnDied, tries;
      }
      ghost var s1, d1 := usage.sources, store.db;
      var r;
      r, tries := IngestWithRetries(msg, sid, budget);
      ghost var written;
      t, written := SettleSource(msg, sid, r);
      JudgedAfter(t, tries, r);
      MarksHaveEffect(s0, msg, sid, t, written);
      if written.Some? {
        MarkedKeeps(s1, msg, sid, written.value, store.db, sizes);
      }
    }

    /** The status write that follows the attempts, if there is one. */
    method SettleSource(msg: Message, sid: int, r: Pipeline.Outcome)
      returns (t: Turn, ghost written: Option<ExtractionStatus>)
      requires Valid()
      requires sid in usage.sources && r.Finished? && r.remaining == 0 ==> StoredWhole(store.db, sid, sizes[sid])
      modifies usage`sources, this`faults
      ensures Valid() && WritesFor(t, written)
      ensures usage.sources ==
              if written.Some? then Marked(old(usage.sources), msg, sid, written.value) else old(usage.sources)
      ensures t.BatchDone? <==> r.Finished? && r.remaining > 0
      ensures t.SourceDone? ==> r.Finished? && r.remaining == 0
      ensures t.BatchDone? || t.SourceDone? ==> t.processed == r.processed
      ensures t.StoppedMidSource? <==> r == Threw(JobCancelled)
      ensures t.TransientFailure? <==> r == Threw(Retryable)
      ensures t.PermanentFailure? ==> r == Threw(Permanent)
      ensures old(faults) <= faults && (t.TurnDied? && r != Threw(Crashed) ==> old(faults) < faults)
      ensures r == Threw(Permanent) ==> t.PermanentFailure? || t.TurnDied?
    {
      written := None;
      var alive;
      match r {
        case Finished(processed, remaining) =>
          if remaining > 0 {
            return BatchDone(processed), None;
          }
          alive := Succeeds();
          if !alive {
            return TurnDied, None;
          }
          MarkSource(msg, sid, Done);
          alive := Succeeds();
          if !alive {
            return TurnDied, Some(Done);
          }
          return SourceDone(processed), Some(Done);
        case Threw(JobCancelled) =>
          return StoppedMidSource, None;
        case Threw(Crashed) =>
          return TurnDied, None;
        case Threw(Retryable) =>
          return TransientFailure, None;
        case Threw(Permanent) =>
          alive := Succeeds();
          if !alive {
            return TurnDied, None;
          }
          MarkSource(msg, sid, Broken);
          alive := Succeeds();
          if !alive {
            return TurnDied, Some(Broken);
          }
          return PermanentFailure, Some(Broken);
      }
    }

    /** The loop's own bookkeeping is right about the sources already passed, and about what it completed since `s0`. */
    ghost predicate LoopInv(msg: Message, l: Loop, stopped: bool, s0: map<int, SourceRow>)
      reads jobs, usage`sources
    {
      && l.i <= |msg.sourceIds| && l.chunks <= MAX_CHUNKS_PER_INVOCATION
      && (l.budgetHit ==> l.chunks == MAX_CHUNKS_PER_INVOCATION)
      && HeldOrSettled(jobs.Row(msg.jobId)) && (stopped ==> Settled(jobs.Row(msg.jobId)))
      && Tracked(s0, usage.sources, msg, l.completed, l.newlyFailed)
      && (InScope(msg, usage.sources) && l.transient == 0 && !stopped && !l.budgetHit ==>
            Passed(msg.sourceIds, l, usage.sources))
    }

    /** No listed source is over the size a job accepts. */
    ghost predicate WithinLimits(msg: Message) {
      forall sid :: sid in msg.sourceIds && sid in sizes ==> sizes[sid] <= 500
    }

    /** One turn of the loop with its bookkeeping; `stopped` notes a mid-source cancellation. */
    method Advance(msg: Message, l: Loop, ghost stopped: bool, ghost s0: map<int, SourceRow>)
      returns (next: Option<Loop>, ghost stoppedNow: bool, ghost turn: Turn)
      requires Valid() && LoopInv(msg, l, stopped, s0)
      requires l.i < |msg.sourceIds| && l.chunks < MAX_CHUNKS_PER_INVOCATION && !l.budgetHit
      modifies jobs, store, usage`sources, this`faults
      ensures Valid() && StatusOnly(s0, usage.sources) && SettledStay(s0, usage.sources)
      ensures OnlyListed(s0, usage.sources, msg.sourceIds)
      ensures HeldOrSettled(jobs.Row(msg.jobId))
      ensures next.Some? ==> LoopInv(msg, next.value, stoppedNow, s0)
      ensures old(faults) <= faults && old(store.faults) <= store.faults
      ensures WithinLimits(msg) && faults == old(faults) && store.faults == old(store.faults) ==>
                next.Some? && next.value.transient == l.transient
      ensures next.Some? ==> next.value.i == if next.value.budgetHit then l.i else l.i + 1
      ensures next.Some? ==> !turn.TurnDied? && next.value == AfterTurn(l, turn, msg.sourceIds[l.i])
      ensures next.Some? && store.reliable && InScope(msg, usage.sources) ==>
                Remaining(msg.sourceIds) + next.value.chunks <= old(Remaining(msg.sourceIds)) + l.chunks
    {
      hide AllOk, SourceOk, TotalLeft, TurnEffect, Passed, Left, Tracked, SettledStay, OnlyListed;
      var ids := msg.sourceIds;
      ghost var s1, d1 := usage.sources, store.db;
      var made, _ := ProcessSource(msg, ids[l.i], MAX_CHUNKS_PER_INVOCATION - l.chunks);
      turn := made;
      EffectKeepsRows(s1, usage.sources, msg, ids[l.i], turn);
      TrackedKeeps(s0, s1, usage.sources, msg, l.completed, l.newlyFailed, turn, ids[l.i]);
      TurnRemaining(s1, d1, usage.sources, store.db, ids, l.i);
      stoppedNow := stopped || turn.StoppedMidSource?;
      if made.TurnDied? {
        return None, stoppedNow, turn;
      }
      TrackedNext(s0, s1, usage.sources, msg, l.completed, l.newlyFailed, turn, ids[l.i]);
      next := Some(AfterTurn(l, made, ids[l.i]));
      if InScope(msg, usage.sources) && !stoppedNow && next.value.transient == 0 && !next.value.budgetHit {
        PassedNext(ids, s1, usage.sources, msg, l, turn);
      }
    }

    /** Visits the listed sources in order until the list, the budget or the run's licence is used up. */
    method SourceLoop(msg: Message)
      returns (l: Option<Loop>, halted: bool, ghost stopped: bool, ghost turns: seq<Turn>)
      requires Valid() && HeldOrSettled(jobs.Row(msg.jobId))
      modifies jobs, store, usage`sources, this`deletedSpaces, this`faults
      ensures Valid() && old(deletedSpaces) <= deletedSpaces && HeldOrSettled(jobs.Row(msg.jobId))
      ensures StatusOnly(old(usage.sources), usage.sources) && SettledStay(old(usage.sources), usage.sources)
      ensures OnlyListed(old(usage.sources), usage.sources, msg.sourceIds)
      ensures l.Some? ==> LoopInv(msg, l.value, stopped, old(usage.sources))
      ensures l.Some? ==> Counts(l.value, turns)
      ensures old(faults) <= faults && old(store.faults) <= store.faults
      ensures WithinLimits(msg) && faults == old(faults) && store.faults == old(store.faults) ==>
                l.Some? && l.value.transient == 0
      ensures l.Some? && halted ==> Settled(jobs.Row(msg.jobId)) || msg.space in deletedSpaces
      ensures l.Some? && !halted ==> l.value.budgetHit || l.value.i == |msg.sourceIds|
      ensures l.Some? && store.reliable && InScope(msg, usage.sources) ==>
                Remaining(msg.sourceIds) + l.value.chunks <= old(Remaining(msg.sourceIds))
    {
      hide AllOk, SourceOk, TotalLeft;
      var cur := Loop(0, [], [], [], 0, 0, false);
      ghost var s0 := usage.sources;
      stopped := false;
      turns := [];
      while cur.i < |msg.sourceIds| && !cur.budgetHit
        invariant Valid() && old(deletedSpaces) <= deletedSpaces
        invariant LoopInv(msg, cur, stopped, s0) && Counts(cur, turns)
        invariant old(faults) <= faults && old(store.faults) <= store.faults
        invariant WithinLimits(msg) && faults == old(faults) && store.faults == old(store.faults) ==> cur.transient == 0
        invariant store.reliable && InScope(msg, usage.sources) ==>
                    Remaining(msg.sourceIds) + cur.chunks <= old(Remaining(msg.sourceIds))
        decreases |msg.sourceIds| - cur.i, !cur.budgetHit
      {
        var stop, _ := ShouldStop(msg);
        if stop {
          return Some(cur), true, stopped, turns;
        }
        if cur.chunks >= MAX_CHUNKS_PER_INVOCATION {
          cur := cur.(budgetHit := true);
        } else {
          var next;
          ghost var turn;
          next, stopped, turn := Advance(msg, cur, stopped, s0);
          if next.None? {
            return None, false, stopped, turns;
          }
          CountsNext(cur, turns, turn, msg.sourceIds[cur.i]);
          turns := turns + [turn];
          cur := next.value;
        }
      }
      return Some(cur), false, stopped, turns;
    }

    /** The best-effort roll-up: its transaction may fail, and the run goes on either way. */
    method RecordBestEffort(msg: Message, l: Loop)
      returns (ghost committed: bool, ghost key: Usage.Key, ghost input: Usage.Input)
      modifies usage, this`faults
      ensures faults == if committed then old(faults) else old(faults) + 1
      ensures key.org == msg.org && key.user == msg.user && key.space == msg.space
      ensures input.completedIds == l.completed && input.failedIds == l.newlyFailed
      ensures usage.Value() ==
              if committed then Usage.Record(old(usage.Value()), key, input) else old(usage.Value())
    {
      var today: int, tokens: int := *, *;
      var scope := Usage.Key(msg.org, msg.user, msg.space, today);
      key, input := scope, Usage.Input(tokens, l.completed, l.newlyFailed);
      var ok := Succeeds();
      committed := ok;
      if !ok {
        return;
      }
      usage.RecordIngestionUsage(scope, Usage.Input(tokens, l.completed, l.newlyFailed));
    }

    /**
     * Records what the run completed and failed, if it did either. Only flags of source rows
     * change, so whatever goes by statuses is as it was.
     */
    method MeterRun(msg: Message, l: Loop, evenIfOnlyFailed: bool, ghost l0: Usage.Ledger)
      returns (ghost m: Meter)
      requires Valid() && Balanced() && Tracked(l0.sources, usage.sources, msg, l.completed, l.newlyFailed)
      requires usage.Value() == l0.(sources := usage.sources)
      modifies usage, this`faults
      ensures old(faults) <= faults && (m.reached && !m.committed ==> old(faults) < faults)
      ensures Valid() && Balanced() && FlagsOnly(old(usage.sources), usage.sources)
      ensures RunEffect(l0, usage.Value(), m) && m.gaveUp == GaveUp(old(usage.sources), msg, l.newlyFailed)
      ensures OnlyListed(l0.sources, usage.sources, msg.sourceIds)
      ensures m.reached <==> l.completed != [] || (evenIfOnlyFailed && l.newlyFailed != [])
      ensures m.committed ==> m.reached
      ensures Remaining(msg.sourceIds) <= old(Remaining(msg.sourceIds))
      ensures FailedOf(msg.sourceIds, usage.sources) == FailedOf(msg.sourceIds, old(usage.sources))
      ensures forall k :: 0 <= k < |msg.sourceIds| ==>
                var sid := msg.sourceIds[k];
                SourceSettled(usage.sources, sid) <==> SourceSettled(old(usage.sources), sid)
    {
      hide Usage.Conserved, Usage.Record, AllOk, RunEffect;
      ghost var before := usage.Value();
      ghost var gaveUp := GaveUp(usage.sources, msg, l.newlyFailed);
      NotRecorded(l0, usage.sources, Meter(true, false, gaveUp));
      NotRecorded(l0, usage.sources, Meter(false, false, gaveUp));
      Usage.FlagsOnlyItself(usage.sources);
      m := Meter(false, false, gaveUp);
      if l.completed != [] || (evenIfOnlyFailed && l.newlyFailed != []) {
        ghost var committed, key, input := RecordBestEffort(msg, l);
        m := Meter(true, committed, gaveUp);
        if committed {
          Usage.ConservedFlags(before);
          RecordHasEffect(l0, before, msg, l.completed, l.newlyFailed, key, input);
          Usage.RecordConserves(before, key, input);
        }
      }
      FlagsKeep(old(usage.sources), usage.sources, store.db, sizes, msg.sourceIds);
    }

    /**
     * The whole run of one delivery or one direct call, with its metering. Whatever way it
     * ends, it counts exactly what it completed and gave up on if its recording committed. It
     * gets to record unless it ends for a transient failure or has nothing to record; stopped
     * between two sources it needs a completed one for that, whatever it gave up on.
     */
    method Run(msg: Message) returns (r: RunResult, ghost m: Meter, ghost turns: seq<Turn>)
      requires Valid() && Balanced()
      modifies jobs, store, usage, this`deletedSpaces, this`faults
      ensures Valid() && Balanced() && old(deletedSpaces) <= deletedSpaces
      ensures r.Ran? ==> Truthful(r.outcome, r.chunksProcessed, jobs.Row(msg.jobId), msg.space in deletedSpaces)
      ensures Explains(turns, r, |msg.sourceIds|)
      ensures old(faults) <= faults && old(store.faults) <= store.faults
      ensures WithinLimits(msg) && faults == old(faults) && store.faults == old(store.faults) ==>
                r.Ran? && !r.outcome.RetryTransient? && (m.reached ==> m.committed)
      ensures r.Ran? ==> r.chunksProcessed <= 8 && (r.outcome.RequeueIncomplete? ==> r.chunksProcessed == 8)
      ensures r.Ran? && r.rollUp.Some? && r.rollUp.value.applied ==>
                jobs.Row(msg.jobId).Some? && jobs.Row(msg.jobId).value.status == r.rollUp.value.status
      ensures r.Ran? && r.rollUp.Some? && r.rollUp.value.applied && InScope(msg, usage.sources) ==>
                RollUpSound(r.rollUp.value, msg.sourceIds, usage.sources)
      ensures store.reliable && r.Ran? && InScope(msg, usage.sources) ==>
                Remaining(msg.sourceIds) + r.chunksProcessed <= old(Remaining(msg.sourceIds))
      ensures RunEffect(old(usage.Value()), usage.Value(), m)
      ensures OnlyListed(old(usage.sources), usage.sources, msg.sourceIds)
      ensures m.committed ==> m.reached
      ensures r.Ran? && !r.outcome.Processed? && !r.outcome.RequeueIncomplete? ==> !m.reached
      ensures r.Ran? && (r.outcome.Processed? || r.outcome.RequeueIncomplete?) && !m.reached ==>
                && (forall sid :: !Became(old(usage.sources), usage.sources, Done, sid))
                && (m.gaveUp == {} || (r.outcome.Processed? && r.rollUp.None?))
      ensures r.Ran? && (r.outcome.RequeueIncomplete? || r.rollUp.Some?) ==>
                forall sid :: sid in m.gaveUp <==> Became(old(usage.sources), usage.sources, Broken, sid)
    {
      hide AllOk, SourceOk, TotalLeft, RunEffect, RollUpSound, Usage.Conserved;
      m := Meter(false, false, {});
      NotRecorded(usage.Value(), usage.sources, m);
      turns := [];
      var alive := Succeeds();
      if !alive {
        return Died, m, turns;
      }
      var now: int := *;
      var claim := jobs.ClaimJob(msg.jobId, now, JOB_LEASE_MS);
      match claim {
        case NotFound => return Ran(SkippedNotFound, 0, None), m, turns;
        case InFlight => return Ran(SkippedInFlight, 0, None), m, turns;
        case Terminal => return Ran(SkippedTerminal, 0, None), m, turns;
        case Claimed =>
      }
      r, m, turns := RunClaimed(msg);
    }

    /** The run once its claim is won. */
    method RunClaimed(msg: Message) returns (r: RunResult, ghost m: Meter, ghost turns: seq<Turn>)
      requires Valid() && Balanced() && HeldOrSettled(jobs.Row(msg.jobId))
      modifies jobs, store, usage, this`deletedSpaces, this`faults
      ensures Valid() && Balanced() && old(deletedSpaces) <= deletedSpaces
      ensures r.Ran? ==> Truthful(r.outcome, r.chunksProcessed, jobs.Row(msg.jobId), msg.space in deletedSpaces)
      ensures Explains(turns, r, |msg.sourceIds|)
      ensures old(faults) <= faults && old(store.faults) <= store.faults
      ensures WithinLimits(msg) && faults == old(faults) && store.faults == old(store.faults) ==>
                r.Ran? && !r.outcome.RetryTransient? && (m.reached ==> m.committed)
      ensures r.Ran? ==> r.chunksProcessed <= 8 && (r.outcome.RequeueIncomplete? ==> r.chunksProcessed == 8)
      ensures r.Ran? && r.rollUp.Some? && r.rollUp.value.applied ==>
                jobs.Row(msg.jobId).Some? && jobs.Row(msg.jobId).value.status == r.rollUp.value.status
      ensures r.Ran? && r.rollUp.Some? && r.rollUp.value.applied && InScope(msg, usage.sources) ==>
                RollUpSound(r.rollUp.value, msg.sourceIds, usage.sources)
      ensures store.reliable && r.Ran? && InScope(msg, usage.sources) ==>
                Remaining(msg.sourceIds) + r.chunksProcessed <= old(Remaining(msg.sourceIds))
      ensures RunEffect(old(usage.Value()), usage.Value(), m)
      ensures OnlyListed(old(usage.sources), usage.sources, msg.sourceIds)
      ensures m.committed ==> m.reached
      ensures r.Ran? && !r.outcome.Processed? && !r.outcome.RequeueIncomplete? ==> !m.reached
      ensures r.Ran? && (r.outcome.Processed? || r.outcome.RequeueIncomplete?) && !m.reached ==>
                && (forall sid :: !Became(old(usage.sources), usage.sources, Done, sid))
                && (m.gaveUp == {} || (r.outcome.Processed? && r.rollUp.None?))
      ensures r.Ran? && (r.outcome.RequeueIncomplete? || r.rollUp.Some?) ==>
                forall sid :: sid in m.gaveUp <==> Became(old(usage.sources), usage.sources, Broken, sid)
    {
      hide AllOk, SourceOk, TotalLeft, RunEffect, RollUpSound, Passed, Usage.Conserved, Usage.Record, Explains, Counts;
      m := Meter(false, false, {});
      ghost var l0 := usage.Value();
      var end, halted;
      ghost var stopped;
      end, halted, stopped, turns := SourceLoop(msg);
      Usage.StatusOnlyConserves(l0, usage.sources);
      NotRecorded(l0, usage.sources, m);
      if end.None? {
        DiedExplains(turns, |msg.sourceIds|);
        return Died, m, turns;
      }
      var l := end.value;
      if halted {
        r, m := Halt(msg, l, l0);
        LoopExplains(l, turns, r, |msg.sourceIds|);
        return;
      }
      if l.transient > 0 {
        r := Died;
        var alive := Succeeds();
        if alive {
          HandBack(msg);
          r := Ran(RetryTransient, l.chunks, None);
        }
        LoopExplains(l, turns, r, |msg.sourceIds|);
        return;
      }
      r, m := Conclude(msg, l, stopped, l0);
      LoopExplains(l, turns, r, |msg.sourceIds|);
    }

    /** No listed source of the tenant from index `i` on is left waiting or running. */
    ghost predicate NoneWaits(msg: Message, i: nat)
      reads usage`sources
      requires i <= |msg.sourceIds|
    {
      forall sid :: sid in msg.sourceIds[i..] && sid in usage.sources && Scoped(msg, usage.sources[sid]) ==>
        usage.sources[sid].status in {Done, Broken}
    }

    /** The stop between two sources: record what was completed, then settle the rest. */
    method Halt(msg: Message, l: Loop, ghost l0: Usage.Ledger) returns (r: RunResult, ghost m: Meter)
      requires Valid() && Balanced() && Tracked(l0.sources, usage.sources, msg, l.completed, l.newlyFailed)
      requires usage.Value() == l0.(sources := usage.sources)
      requires l.i <= |msg.sourceIds| && l.chunks <= MAX_CHUNKS_PER_INVOCATION
      requires Settled(jobs.Row(msg.jobId)) || msg.space in deletedSpaces
      modifies usage, this`faults
      ensures Valid() && Balanced()
      ensures r.Died? || r == Ran(Processed, l.chunks, None)
      ensures old(faults) <= faults
      ensures faults == old(faults) ==> r.Ran? && (m.reached ==> m.committed) && NoneWaits(msg, l.i)
      ensures RunEffect(l0, usage.Value(), m) && m.gaveUp == GaveUp(old(usage.sources), msg, l.newlyFailed)
      ensures OnlyListed(l0.sources, usage.sources, msg.sourceIds)
      ensures (m.committed ==> m.reached) && (m.reached <==> l.completed != [])
      ensures Remaining(msg.sourceIds) <= old(Remaining(msg.sourceIds))
      ensures InScope(msg, usage.sources) <==> InScope(msg, old(usage.sources))
      ensures forall sid :: Became(l0.sources, usage.sources, Done, sid) <==>
                            Became(l0.sources, old(usage.sources), Done, sid)
    {
      hide AllOk, SourceOk, TotalLeft, Usage.Conserved, RunEffect, Tracked, GaveUp, FailedOf, SourceSettled;
      m := MeterRun(msg, l, false, l0);
      ghost var l1 := usage.Value();
      var alive := Succeeds();
      if !alive {
        return Died, m;
      }
      CancelRest(msg, l.i);
      Usage.StatusOnlyConserves(l1, usage.sources);
      CancelKeepsEffect(l0, l1, usage.sources, m);
      r := Ran(Processed, l.chunks, None);
    }

    /** The end of the list or of the budget: record, then hand the job back or write its final status. */
    method Conclude(msg: Message, l: Loop, ghost stopped: bool, ghost l0: Usage.Ledger)
      returns (r: RunResult, ghost m: Meter)
      requires Valid() && Balanced() && LoopInv(msg, l, stopped, l0.sources)
      requires usage.Value() == l0.(sources := usage.sources)
      requires l.transient == 0 && (l.budgetHit || l.i == |msg.sourceIds|)
      modifies jobs, usage, this`faults
      ensures Valid() && Balanced() && FlagsOnly(old(usage.sources), usage.sources)
      ensures r.Ran? ==> r.chunksProcessed == l.chunks
      ensures old(faults) <= faults && (faults == old(faults) ==> r.Ran? && (m.reached ==> m.committed))
      ensures r.Ran? ==> r.outcome == if l.budgetHit then RequeueIncomplete else Processed
      ensures r.Ran? ==> (r.rollUp.Some? <==> !l.budgetHit)
      ensures r.Ran? ==> JobAfter(r.outcome, jobs.Row(msg.jobId), false)
      ensures r.Ran? && r.rollUp.Some? && r.rollUp.value.applied ==>
                jobs.Row(msg.jobId).Some? && jobs.Row(msg.jobId).value.status == r.rollUp.value.status
      ensures r.Ran? && r.rollUp.Some? && r.rollUp.value.applied && InScope(msg, usage.sources) ==>
                RollUpSound(r.rollUp.value, msg.sourceIds, usage.sources)
      ensures RunEffect(l0, usage.Value(), m) && m.gaveUp == GaveUp(old(usage.sources), msg, l.newlyFailed)
      ensures OnlyListed(l0.sources, usage.sources, msg.sourceIds)
      ensures (m.committed ==> m.reached) && (m.reached <==> l.completed != [] || l.newlyFailed != [])
      ensures Remaining(msg.sourceIds) <= old(Remaining(msg.sourceIds))
    {
      hide AllOk, SourceOk, TotalLeft, Usage.Conserved, RunEffect, Tracked, RollUpSound, FailedOf, IsBroken;
      m := MeterRun(msg, l, true, l0);
      var alive := Succeeds();
      if !alive {
        return Died, m;
      }
      if l.budgetHit {
        HandBack(msg);
        return Ran(RequeueIncomplete, l.chunks, None), m;
      }
      jobs.Interfere(msg.jobId);
      assert msg.sourceIds[..|msg.sourceIds|] == msg.sourceIds;
      var status := StatusOf(|l.failed|, |msg.sourceIds|);
      var now: int := *;
      var applied := jobs.UpdateJobStatus(msg.jobId, status, now);
      r := Ran(Processed, l.chunks, Some(RollUp(applied, status, l.failed)));
      if InScope(msg, usage.sources) && !stopped {
        RollUpIsSound(r.rollUp.value, msg.sourceIds, usage.sources);
      }
    }

    /** The cancellation path settles what this run did not get to, unless that write itself fails. */
    method CancelRest(msg: Message, i: nat)
      requires Valid() && i <= |msg.sourceIds|
      modifies usage`sources, this`faults
      ensures old(faults) <= faults && (faults == old(faults) ==> NoneWaits(msg, i))
      ensures Valid() && StatusOnly(old(usage.sources), usage.sources) && SettledStay(old(usage.sources), usage.sources)
      ensures OnlyListed(old(usage.sources), usage.sources, msg.sourceIds)
      ensures forall sid :: sid in usage.sources && usage.sources[sid].status.Done? ==>
                old(usage.sources)[sid].status.Done?
      ensures Remaining(msg.sourceIds) <= old(Remaining(msg.sourceIds))
    {
      hide AllOk, SourceOk, TotalLeft;
      var alive := Succeeds();
      if alive {
        MarkUnprocessedSourcesCancelled(msg, msg.sourceIds[i..]);
        forall sid | sid in msg.sourceIds[i..] && sid in usage.sources && Scoped(msg, usage.sources[sid])
          ensures usage.sources[sid].status in {Done, Broken}
        {
          var status := old(usage.sources)[sid].status;
          assert status.Waiting? || status.Running? || status.Done? || status.Broken?;
        }
        TotalLeftMonotone(old(usage.sources), usage.sources, store.db, sizes, Listed(msg.sourceIds));
      }
    }

    /** A turn that touched only `ids[i]` moves the remaining work by what it did to that source. */
    lemma TurnRemaining(s0: map<int, SourceRow>, d0: Db, s1: map<int, SourceRow>, d1: Db, ids: seq<int>, i: nat)
      requires i < |ids| && s0.Keys == s1.Keys
      requires forall o :: o in s1 && o != ids[i] ==> s1[o] == s0[o] && Checkpoint(d1, o) == Checkpoint(d0, o)
      ensures TotalLeft(s1, d1, sizes, Listed(ids)) - Left(s1, d1, sizes, ids[i])
              == TotalLeft(s0, d0, sizes, Listed(ids)) - Left(s0, d0, sizes, ids[i])
    {
      TotalLeftUpdate(s0, d0, s1, d1, sizes, Listed(ids), ids[i]);
    }
  }

  /** A turn that leaves no work behind for its source adds exactly that source to the passed ones. */
  lemma PassedNext(ids: seq<int>, s0: map<int, SourceRow>, s1: map<int, SourceRow>, msg: Message, l: Loop, t: Turn)
    requires l.i < |ids| && Passed(ids, l, s0) && TurnEffect(s0, s1, msg, ids[l.i], t)
    requires ids[l.i] in s1 ==> Scoped(msg, s1[ids[l.i]])
    requires t.AlreadySettled? || t.SourceDone? || t.PermanentFailure?
    ensures Passed(ids, AfterTurn(l, t, ids[l.i]), s1)
  {
    var next := AfterTurn(l, t, ids[l.i]);
    assert ids[..next.i][..l.i] == ids[..l.i] && ids[..next.i][l.i] == ids[l.i];
    forall k | 0 <= k < l.i
      ensures (ids[k] in s0 <==> ids[k] in s1) && (ids[k] in s0 ==> s0[ids[k]] == s1[ids[k]])
    {
      assert SourceSettled(s0, ids[k]);
      assert !t.AlreadySettled? ==> ids[k] != ids[l.i];
    }
    FailedOfSame(ids[..l.i], s0, s1);
  }

  lemma {:induction false} TotalLeftMonotone(
      s0: map<int, SourceRow>, s1: map<int, SourceRow>, d: Db, sizes: map<int, nat>, ids: set<int>)
    requires forall o :: Left(s1, d, sizes, o) <= Left(s0, d, sizes, o)
    ensures TotalLeft(s1, d, sizes, ids) <= TotalLeft(s0, d, sizes, ids)
  {
    if o :| o in ids {
      TotalLeftPick(s0, d, sizes, ids, o);
      TotalLeftPick(s1, d, sizes, ids, o);
      TotalLeftMonotone(s0, s1, d, sizes, ids - {o});
    }
  }

  /** No job has more than five hundred chunks to go through per listed source. */
  lemma {:induction false} TotalLeftBound(
      s: map<int, SourceRow>, d: Db, sizes: map<int, nat>, ids: set<int>)
    ensures TotalLeft(s, d, sizes, ids) <= MAX_CHUNKS_PER_SOURCE * |ids|
  {
    if o :| o in ids {
      TotalLeftPick(s, d, sizes, ids, o);
      TotalLeftBound(s, d, sizes, ids - {o});
    }
  }
}

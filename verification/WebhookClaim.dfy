/**
 * Deliveries of one webhook id: insert the event row, claim it, dispatch, and release the
 * claim when the dispatch fails. Deliveries interleave at every await and may die anywhere.
 */
module WebhookClaim {
  import opened Common

  /** The event row: its serial id, and whether `processed_at` is set. */
  datatype EventRow = EventRow(id: int, processed: bool)

  datatype Phase =
    | Arrived
    | Stored
    | Dispatching(rowId: int)
    | Invalidating(rowId: int)
    | Releasing(rowId: int)

  /** `applied` counts the dispatches that took effect, in full or in part. */
  datatype State = State(row: Option<EventRow>, nextId: int, workers: map<int, Phase>, applied: nat)

  /**
   * `DispatchFails` is a dispatch that changed nothing. In `DispatchFailsLate` a statement
   * committed and then a later one failed, or its own reply was lost; `InvalidationFails`
   * comes after a dispatch that returned. Each of the three makes the handler release the
   * claim. A handler may also die anywhere: in `CrashLate` it dies while dispatching, after a
   * statement committed; a `Crash` adds no effect. `Prune` is the retention sweep.
   */
  datatype Action =
    | Arrive(w: int)
    | Insert(w: int)
    | Claim(w: int)
    | DispatchOk(w: int)
    | DispatchFails(w: int)
    | DispatchFailsLate(w: int)
    | Answer(w: int)
    | InvalidationFails(w: int)
    | Release(w: int)
    | Crash(w: int)
    | CrashLate(w: int)
    | Prune

  predicate In(s: State, w: int, a: Action) {
    && w in s.workers
    && match a
       case Insert(_) => s.workers[w].Arrived?
       case Claim(_) => s.workers[w].Stored?
       case DispatchOk(_) => s.workers[w].Dispatching?
       case DispatchFails(_) => s.workers[w].Dispatching?
       case DispatchFailsLate(_) => s.workers[w].Dispatching?
       case CrashLate(_) => s.workers[w].Dispatching?
       case Answer(_) => s.workers[w].Invalidating?
       case InvalidationFails(_) => s.workers[w].Invalidating?
       case Release(_) => s.workers[w].Releasing?
       case _ => true
  }

  predicate Enabled(s: State, a: Action) {
    match a
    case Arrive(w) => w !in s.workers
    case Prune => s.row.Some? && s.row.value.processed
    case _ => In(s, a.w, a)
  }

  predicate Claimable(s: State) {
    s.row.Some? && !s.row.value.processed
  }

  function Step(s: State, a: Action): State
    requires Enabled(s, a)
  {
    match a
    case Arrive(w) => s.(workers := s.workers[w := Arrived])
    case Insert(w) =>
      if s.row.Some? then s.(workers := s.workers[w := Stored])
      else s.(row := Some(EventRow(s.nextId, false)), nextId := s.nextId + 1, workers := s.workers[w := Stored])
    case Claim(w) =>
      if Claimable(s)
      then s.(row := Some(s.row.value.(processed := true)), workers := s.workers[w := Dispatching(s.row.value.id)])
      else s.(workers := s.workers - {w})
    case DispatchOk(w) => s.(workers := s.workers[w := Invalidating(s.workers[w].rowId)], applied := s.applied + 1)
    case DispatchFails(w) => s.(workers := s.workers[w := Releasing(s.workers[w].rowId)])
    case DispatchFailsLate(w) =>
      s.(workers := s.workers[w := Releasing(s.workers[w].rowId)], applied := s.applied + 1)
    case Answer(w) => s.(workers := s.workers - {w})
    case InvalidationFails(w) => s.(workers := s.workers[w := Releasing(s.workers[w].rowId)])
    case Release(w) =>
      var released := s.(workers := s.workers - {w});
      if s.row.Some? && s.row.value.id == s.workers[w].rowId
      then released.(row := Some(s.row.value.(processed := false))) else released
    case Crash(w) => s.(workers := s.workers - {w})
    case CrashLate(w) => s.(workers := s.workers - {w}, applied := s.applied + 1)
    case Prune => s.(row := None)
  }

  predicate Reaches(s: State, acts: seq<Action>, t: State)
    decreases |acts|
  {
    if acts == [] then t == s
    else Enabled(s, acts[0]) && Reaches(Step(s, acts[0]), acts[1..], t)
  }

  predicate Start(s: State) {
    s.row.None? && s.workers == map[] && s.applied == 0
  }

  predicate Holding(p: Phase) {
    p.Dispatching? || p.Invalidating? || p.Releasing?
  }

  /** At most one delivery holds the claim, and while one does the row says processed. */
  ghost predicate Exclusive(s: State) {
    && (forall v, w :: v in s.workers && w in s.workers && Holding(s.workers[v]) && Holding(s.workers[w]) ==> v == w)
    && (forall w :: w in s.workers && Holding(s.workers[w]) ==>
          s.row == Some(EventRow(s.workers[w].rowId, true)))
  }

  /**
   * The event was applied at most once, and once it was, the row stays processed and nobody
   * is dispatching or releasing.
   */
  ghost predicate AppliedOnce(s: State) {
    && s.applied <= 1
    && (s.applied == 1 ==>
          && s.row.Some? && s.row.value.processed
          && (forall w :: w in s.workers ==> !s.workers[w].Dispatching? && !s.workers[w].Releasing?))
    && (s.applied == 0 ==> forall w :: w in s.workers ==> !s.workers[w].Invalidating?)
  }

  /** A failure that comes after an effect. */
  predicate FailsLate(a: Action) {
    a.DispatchFailsLate? || a.InvalidationFails?
  }

  lemma StepKeepsExclusive(s: State, a: Action)
    requires Exclusive(s) && Enabled(s, a) && !a.Prune?
    ensures Exclusive(Step(s, a))
  {
  }

  lemma StepKeepsAppliedOnce(s: State, a: Action)
    requires Exclusive(s) && AppliedOnce(s) && Enabled(s, a) && !a.Prune?
    ensures AppliedOnce(Step(s, a)) <==> !FailsLate(a)
  {
    var t := Step(s, a);
    if FailsLate(a) {
      assert t.workers[a.w].Releasing?;
    } else if a.DispatchOk? || a.CrashLate? {
      assert s.applied == 0;
      forall w | w in t.workers ensures !t.workers[w].Dispatching? && !t.workers[w].Releasing? {
        assert w != a.w ==> !Holding(s.workers[w]);
      }
    }
  }

  /** Within retention at most one dispatch of an event is in flight, in every interleaving. */
  lemma {:induction false} AtMostOneInFlight(s: State, acts: seq<Action>, t: State, v: int, w: int)
    requires Start(s) && Reaches(s, acts, t) && forall a :: a in acts ==> !a.Prune?
    requires v in t.workers && t.workers[v].Dispatching? && w in t.workers && t.workers[w].Dispatching?
    ensures v == w && t.row.Some? && t.row.value.processed
  {
    ExclusiveAlong(s, acts, t);
  }

  lemma {:induction false} ExclusiveAlong(s: State, acts: seq<Action>, t: State)
    requires Exclusive(s) && Reaches(s, acts, t) && forall a :: a in acts ==> !a.Prune?
    ensures Exclusive(t)
    decreases |acts|
  {
    if acts != [] {
      StepKeepsExclusive(s, acts[0]);
      ExclusiveAlong(Step(s, acts[0]), acts[1..], t);
    }
  }

  /** A dispatch that took effect is never repeated unless something failed after the effect. */
  lemma {:induction false} AppliedAtMostOnce(s: State, acts: seq<Action>, t: State)
    requires Exclusive(s) && AppliedOnce(s) && Reaches(s, acts, t)
    requires forall a :: a in acts ==> !a.Prune? && !FailsLate(a)
    ensures AppliedOnce(t) && s.applied <= t.applied <= 1
    decreases |acts|
  {
    if acts != [] {
      assert acts[0] in acts;
      StepKeepsExclusive(s, acts[0]);
      StepKeepsAppliedOnce(s, acts[0]);
      AppliedAtMostOnce(Step(s, acts[0]), acts[1..], t);
    }
  }

  /** In general the repeats are paid for by failures after an effect, one each. */
  function LateFailures(acts: seq<Action>): nat {
    if acts == [] then 0 else (if FailsLate(acts[0]) then 1 else 0) + LateFailures(acts[1..])
  }

  /** With `spare` late failures so far: at their limit the event can be applied no more. */
  ghost predicate Covered(s: State, spare: nat) {
    && s.applied <= 1 + spare
    && (s.applied == 1 + spare ==>
          && s.row.Some? && s.row.value.processed
          && (forall w :: w in s.workers ==> !s.workers[w].Dispatching? && !s.workers[w].Releasing?))
  }

  lemma StepKeepsCovered(s: State, a: Action, spare: nat)
    requires Exclusive(s) && Covered(s, spare) && Enabled(s, a) && !a.Prune?
    ensures Covered(Step(s, a), spare + if FailsLate(a) then 1 else 0)
  {
  }

  lemma {:induction false} RepeatsArePaidFor(s: State, acts: seq<Action>, t: State, spare: nat)
    requires Exclusive(s) && Covered(s, spare) && Reaches(s, acts, t) && forall a :: a in acts ==> !a.Prune?
    ensures t.applied <= 1 + spare + LateFailures(acts)
    decreases |acts|
  {
    if acts != [] {
      assert acts[0] in acts;
      var paid := if FailsLate(acts[0]) then 1 else 0;
      StepKeepsExclusive(s, acts[0]);
      StepKeepsCovered(s, acts[0], spare);
      RepeatsArePaidFor(Step(s, acts[0]), acts[1..], t, spare + paid);
    }
  }

  /**
   * Each kind of late failure does repeat the event: after the release the next delivery
   * applies it again.
   */
  lemma {:induction false} LateFailureRepeats(s: State, w: int, v: int, fails: Action)
    requires Exclusive(s) && v in s.workers && s.workers[v].Stored? && w in s.workers
    requires fails == DispatchFailsLate(w) || fails == InvalidationFails(w)
    requires Enabled(s, fails)
    ensures exists t :: Reaches(s, [fails, Release(w), Claim(v), DispatchOk(v)], t)
              && t.applied == s.applied + if fails.DispatchFailsLate? then 2 else 1
  {
    var s1 := Step(s, fails);
    var s2 := Step(s1, Release(w));
    var s3 := Step(s2, Claim(v));
    Four(s, [fails, Release(w), Claim(v), DispatchOk(v)], Step(s3, DispatchOk(v)));
  }

  /* ---- claims nobody holds ---- */

  /** The row says processed and nobody is at work on it: the holder of the claim answered, or died. */
  ghost predicate Closed(s: State) {
    && s.row.Some? && s.row.value.processed
    && (forall w :: w in s.workers ==> !Holding(s.workers[w]))
  }

  /** The death of a delivery closes the event exactly when that delivery held the claim. */
  lemma DeathClosesIffHolding(s: State, a: Action)
    requires Exclusive(s) && !Closed(s) && Enabled(s, a) && (a.Crash? || a.CrashLate?)
    ensures Closed(Step(s, a)) <==> Holding(s.workers[a.w])
  {
    if !Holding(s.workers[a.w]) && s.row.Some? && s.row.value.processed {
      var w :| w in s.workers && Holding(s.workers[w]);
      assert w in Step(s, a).workers;
    }
  }

  /** The claim has no lease: once nobody holds it, no later delivery applies the event. */
  lemma {:induction false} ClosedStays(s: State, acts: seq<Action>, t: State)
    requires Closed(s) && Reaches(s, acts, t) && forall a :: a in acts ==> !a.Prune?
    ensures Closed(t) && t.applied == s.applied
    decreases |acts|
  {
    if acts != [] {
      assert acts[0] in acts;
      var t1 := Step(s, acts[0]);
      assert Closed(t1) && t1.applied == s.applied;
      ClosedStays(t1, acts[1..], t);
    }
  }

  /** The action takes effect on the organisation, in full or in part. */
  predicate TakesEffect(a: Action) {
    a.DispatchOk? || a.DispatchFailsLate? || a.CrashLate?
  }

  lemma {:induction false} AppliedIffEffect(s: State, acts: seq<Action>, t: State)
    requires Reaches(s, acts, t)
    ensures s.applied <= t.applied
    ensures t.applied == s.applied <==> forall a :: a in acts ==> !TakesEffect(a)
    decreases |acts|
  {
    if acts != [] {
      assert acts[0] in acts;
      assert forall a :: a in acts <==> a == acts[0] || a in acts[1..];
      AppliedIffEffect(Step(s, acts[0]), acts[1..], t);
    }
  }

  /**
   * An event whose claim nobody holds any more stays unapplied for ever if and only if no
   * dispatch took effect before.
   */
  lemma {:induction false} UnappliedForeverIffNoEffect(
      start: State, before: seq<Action>, s: State, after: seq<Action>, t: State)
    requires Start(start) && Reaches(start, before, s) && Closed(s) && Reaches(s, after, t)
    requires forall a :: a in after ==> !a.Prune?
    ensures Closed(t)
    ensures t.applied == 0 <==> forall a :: a in before ==> !TakesEffect(a)
  {
    AppliedIffEffect(start, before, s);
    ClosedStays(s, after, t);
  }

  /** The failing input: the first delivery claims the event and dies; nothing was applied, nothing ever will be. */
  lemma {:induction false} OrphanIsReachable(s: State, w: int)
    requires Start(s)
    ensures exists t :: Reaches(s, [Arrive(w), Insert(w), Claim(w), Crash(w)], t) && Closed(t) && t.applied == 0
    ensures exists t :: Reaches(s, [Arrive(w), Insert(w), Claim(w), CrashLate(w)], t) && Closed(t) && t.applied == 1
  {
    var s1 := Step(s, Arrive(w));
    var s2 := Step(s1, Insert(w));
    var s3 := Step(s2, Claim(w));
    Four(s, [Arrive(w), Insert(w), Claim(w), Crash(w)], Step(s3, Crash(w)));
    Four(s, [Arrive(w), Insert(w), Claim(w), CrashLate(w)], Step(s3, CrashLate(w)));
  }

  lemma Four(s: State, acts: seq<Action>, t: State)
    requires |acts| == 4 && Enabled(s, acts[0])
    requires var s1 := Step(s, acts[0]);
             Enabled(s1, acts[1]) && (var s2 := Step(s1, acts[1]);
             Enabled(s2, acts[2]) && (var s3 := Step(s2, acts[2]);
             Enabled(s3, acts[3]) && t == Step(s3, acts[3])))
    ensures Reaches(s, acts, t)
  {
    var s1 := Step(s, acts[0]);
    var s2 := Step(s1, acts[1]);
    var s3 := Step(s2, acts[2]);
    assert acts[1..][1..] == acts[2..] && acts[2..][1..] == acts[3..] && acts[3..][1..] == [];
    assert Reaches(s3, acts[3..], t);
    assert Reaches(s2, acts[2..], t);
    assert Reaches(s1, acts[1..], t);
  }
}

/**
 * Mutual exclusion of the two triggers. The claim carries no owner token: ownership is only
 * the start time of a `processing` row. The state machine below runs any number of workers
 * against one row; `live` holds the workers that won a claim and have neither ended nor
 * died, each with the time of its last `processing` stamp.
 */
module Lease {
  import opened Common
  import opened JobStore

  datatype State = State(row: Option<JobRow>, now: int, live: map<int, int>)

  /**
   * `StrayReset` is the fast path's failure handler running for a worker that never won the
   * claim: the handler resets by job id whenever its run threw.
   */
  datatype Action =
    | Tick(elapsed: nat)
    | TryClaim(worker: int)
    | Beat(worker: int)
    | Finish(worker: int, status: Status)
    | Release(worker: int)
    | Crash(worker: int)
    | StrayReset
    | ApiCancel
    | Sweep

  /** The action is one some worker, the API or the clock can take in this state. */
  predicate Enabled(s: State, a: Action) {
    match a
    case TryClaim(w) => w !in s.live
    case Beat(w) => w in s.live
    case Finish(w, status) => w in s.live && IsTerminal(status)
    case Release(w) => w in s.live
    case Crash(w) => w in s.live
    case _ => true
  }

  ghost predicate Unowned(s: State) {
    forall w :: w !in s.live
  }

  predicate ClaimSucceeds(s: State, lease: nat) {
    s.row.Some? && Claimable(s.row.value, s.now, lease)
  }

  function Step(s: State, a: Action, lease: nat): State {
    match a
    case Tick(d) => s.(now := s.now + d)
    case TryClaim(w) =>
      if ClaimSucceeds(s, lease)
      then s.(row := Apply(s.row, Claim(s.now, lease)), live := s.live[w := s.now])
      else s
    case Beat(w) =>
      var row := Apply(s.row, Update(Processing, s.now));
      if Settled(s.row) then s else s.(row := row, live := s.live[w := s.now])
    case Finish(w, status) => s.(row := Apply(s.row, Update(status, s.now)), live := s.live - {w})
    case Release(w) => s.(row := Apply(s.row, Reset), live := s.live - {w})
    case Crash(w) => s.(live := s.live - {w})
    case StrayReset => s.(row := Apply(s.row, Reset))
    case ApiCancel => s.(row := Apply(s.row, Cancel))
    case Sweep => s.(row := Apply(s.row, Prune))
  }

  function Exec(s: State, acts: seq<Action>, lease: nat): State
    decreases |acts|
  {
    if acts == [] then s else Exec(Step(s, acts[0], lease), acts[1..], lease)
  }

  predicate Legal(s: State, acts: seq<Action>, lease: nat)
    decreases |acts|
  {
    acts == [] || (Enabled(s, acts[0]) && Legal(Step(s, acts[0], lease), acts[1..], lease))
  }

  /** Every live worker of an unsettled job stamped the row at most one lease ago. */
  predicate Beating(s: State, lease: nat) {
    s.row.Some? && s.row.value.status.Processing? ==>
      forall w :: w in s.live ==> s.now - s.live[w] <= lease
  }

  predicate AlwaysBeating(s: State, acts: seq<Action>, lease: nat)
    decreases |acts|
  {
    Beating(s, lease) && (acts == [] || AlwaysBeating(Step(s, acts[0], lease), acts[1..], lease))
  }

  ghost predicate Start(s: State) {
    Unowned(s) && s.row.Some? && s.row.value == JobRow(Pending, None)
  }

  /** At most one live worker, and while the job is unsettled its stamp is the one on the row. */
  ghost predicate Exclusive(s: State) {
    && Stamped(s.row)
    && (forall v, w :: v in s.live && w in s.live ==> v == w)
    && (forall w :: w in s.live && !Settled(s.row) ==> s.row.value == JobRow(Processing, Some(s.live[w])))
  }

  /**
   * While a worker is live, another claim goes through exactly when the job is unsettled and
   * that worker has let more than a lease pass since its last stamp.
   */
  lemma ClaimStealsIffLeaseLapsed(s: State, w: int, lease: nat)
    requires Exclusive(s) && w in s.live
    ensures ClaimSucceeds(s, lease) <==> !Settled(s.row) && s.now - s.live[w] > lease
    ensures ClaimSucceeds(s, lease) ==> !Beating(s, lease)
  {
  }

  /** Every action keeps exclusive ownership, provided workers beat and only owners reset. */
  lemma StepKeepsExclusive(s: State, a: Action, lease: nat)
    requires Exclusive(s) && Enabled(s, a) && Beating(s, lease)
    requires a.StrayReset? ==> Unowned(s) || !(s.row.Some? && s.row.value.status.Processing?)
    ensures Exclusive(Step(s, a, lease))
    ensures a.TryClaim? && ClaimSucceeds(s, lease) ==> Unowned(s)
  {
  }

  /**
   * Over every run of claims, heartbeats, crashes, resets, cancellations and sweeps, at most
   * one worker owns the job and no claim succeeds while another worker is live, as long as
   * every live worker beats within the lease and no worker resets a job it did not claim.
   */
  lemma {:induction false} MutualExclusion(s: State, acts: seq<Action>, k: nat, lease: nat)
    requires Start(s) && Legal(s, acts, lease) && AlwaysBeating(s, acts, lease) && StrayReset !in acts
    requires k <= |acts|
    ensures Exclusive(Exec(s, acts[..k], lease))
    ensures k < |acts| && acts[k].TryClaim? && ClaimSucceeds(Exec(s, acts[..k], lease), lease) ==>
              Unowned(Exec(s, acts[..k], lease))
  {
    ExclusiveAlong(s, acts, k, lease);
  }

  lemma {:induction false} ExclusiveAlong(s: State, acts: seq<Action>, k: nat, lease: nat)
    requires Exclusive(s) && Legal(s, acts, lease) && AlwaysBeating(s, acts, lease) && StrayReset !in acts
    requires k <= |acts|
    ensures Exclusive(Exec(s, acts[..k], lease))
    ensures k < |acts| && acts[k].TryClaim? && ClaimSucceeds(Exec(s, acts[..k], lease), lease) ==>
              Unowned(Exec(s, acts[..k], lease))
    decreases k
  {
    if acts != [] {
      StepKeepsExclusive(s, acts[0], lease);
    }
    if k > 0 {
      assert acts[..k][0] == acts[0] && acts[..k][1..] == acts[1..][..k - 1];
      ExclusiveAlong(Step(s, acts[0], lease), acts[1..], k - 1, lease);
    }
  }

  /**
   * The failure handler of the fast path is harmless exactly when no other worker owns the
   * job. When one does, it hands the row to the next claimant and two workers are live.
   */
  lemma StrayResetSafeIffUnowned(s: State, thief: int, lease: nat)
    requires Exclusive(s) && thief !in s.live
    ensures Exclusive(Step(s, StrayReset, lease)) <==> Unowned(s) || Settled(s.row)
    ensures !Unowned(s) && !Settled(s.row) ==>
              var after := Exec(s, [StrayReset, TryClaim(thief)], lease);
              |after.live| == 2 && thief in after.live
  {
    if !Unowned(s) {
      var w :| w in s.live;
      if !Settled(s.row) {
        var reset := Step(s, StrayReset, lease);
        assert reset.row == Some(JobRow(Pending, None)) && w in reset.live;
        var acts := [StrayReset, TryClaim(thief)];
        assert acts[1..] == [TryClaim(thief)] && acts[1..][1..] == [];
        var after := Step(reset, TryClaim(thief), lease);
        assert Exec(s, acts, lease) == Exec(reset, acts[1..], lease) == after;
        assert forall v :: v in s.live.Keys <==> v == w;
        assert after.live.Keys == {w, thief};
        assert |after.live.Keys| == 2;
      }
    }
  }
}

/**
 * Many runs, seen from one source: the runs that list it, one after another, each known only
 * by the metering effect `World.Run` is proved to have on it. Runs of other jobs may overlap
 * them at will; what those do to other sources is left open.
 */
module MeteredRuns {
  import opened SourceRows
  import opened ProcessIngestion
  import Usage

  /**
   * `JobRun` is a run that lists the source, from its start to its end. `Between` is any
   * stretch without one: the source may arrive, or be settled as failed from outside.
   */
  datatype Event = JobRun(m: Meter) | Between

  predicate Has(l: Usage.Ledger, status: ExtractionStatus, sid: int) {
    sid in l.sources && l.sources[sid].status == status
  }

  predicate Counts(l: Usage.Ledger, status: ExtractionStatus, sid: int) {
    sid in CountedAs(l, status)
  }

  predicate SameCount(l0: Usage.Ledger, l1: Usage.Ledger, status: ExtractionStatus, sid: int) {
    var c0, c1 := CountedAs(l0, status), CountedAs(l1, status);
    (sid in c0 <==> sid in c1) && (sid in c0 ==> c1[sid] == c0[sid])
  }

  ghost predicate Follows(l0: Usage.Ledger, e: Event, l1: Usage.Ledger, sid: int) {
    match e
    case JobRun(m) => EffectOn(l0, l1, m, sid)
    case Between =>
      && SameCount(l0, l1, Done, sid) && SameCount(l0, l1, Broken, sid)
      && (Has(l0, Done, sid) <==> Has(l1, Done, sid)) && (Has(l0, Broken, sid) ==> Has(l1, Broken, sid))
      && (sid !in l0.sources && sid in l1.sources ==> Unsettled(l1.sources[sid].status))
  }

  ghost predicate History(ls: seq<Usage.Ledger>, es: seq<Event>, sid: int) {
    && |ls| == |es| + 1
    && (forall k :: 0 <= k < |es| ==> Follows(ls[k], es[k], ls[k + 1], sid))
  }

  /** What `World.Run` is proved to do is such a run for every listed source and nothing to any other. */
  lemma RunsFollow(l0: Usage.Ledger, l1: Usage.Ledger, m: Meter, ids: seq<int>, sid: int)
    requires RunEffect(l0, l1, m) && OnlyListed(l0.sources, l1.sources, ids)
    ensures Follows(l0, JobRun(m), l1, sid)
    ensures sid !in ids ==> Follows(l0, Between, l1, sid)
  {
    assert EffectOn(l0, l1, m, sid);
  }

  lemma {:induction false} FinalStays(
      ls: seq<Usage.Ledger>, es: seq<Event>, status: ExtractionStatus, sid: int, j: nat, k: nat)
    requires History(ls, es, sid) && status in {Done, Broken} && j <= k < |ls| && Has(ls[j], status, sid)
    ensures Has(ls[k], status, sid) && (Counts(ls[k], status, sid) <==> Counts(ls[j], status, sid))
    decreases k - j
  {
    if j < k {
      FinalStays(ls, es, status, sid, j, k - 1);
      assert Follows(ls[k - 1], es[k - 1], ls[k], sid);
    }
  }

  /** A source counted once is counted for ever, on the same row. */
  lemma {:induction false} CountedStays(
      ls: seq<Usage.Ledger>, es: seq<Event>, status: ExtractionStatus, sid: int, j: nat, k: nat)
    requires History(ls, es, sid) && status in {Done, Broken} && j <= k < |ls| && Counts(ls[j], status, sid)
    ensures Counts(ls[k], status, sid) && CountedAs(ls[k], status)[sid] == CountedAs(ls[j], status)[sid]
    decreases k - j
  {
    if j < k {
      CountedStays(ls, es, status, sid, j, k - 1);
      assert Follows(ls[k - 1], es[k - 1], ls[k], sid);
    }
  }

  /** Until a source is settled no run counts it. */
  lemma {:induction false} NotCountedBefore(
      ls: seq<Usage.Ledger>, es: seq<Event>, status: ExtractionStatus, sid: int, k: nat)
    requires History(ls, es, sid) && status in {Done, Broken} && k < |ls| && !Counts(ls[0], status, sid)
    requires forall j :: 0 <= j <= k ==> !Has(ls[j], status, sid)
    ensures !Counts(ls[k], status, sid)
  {
    if k > 0 {
      NotCountedBefore(ls, es, status, sid, k - 1);
      assert Follows(ls[k - 1], es[k - 1], ls[k], sid);
      assert !Has(ls[k], status, sid);
    }
  }

  lemma {:induction false} FirstTime(
      ls: seq<Usage.Ledger>, es: seq<Event>, status: ExtractionStatus, sid: int, n: nat) returns (k: nat)
    requires History(ls, es, sid) && status in {Done, Broken} && n < |ls|
    requires Has(ls[n], status, sid) && !Has(ls[0], status, sid)
    ensures k < n && Has(ls[k + 1], status, sid) && forall j :: 0 <= j <= k ==> !Has(ls[j], status, sid)
  {
    if Has(ls[n - 1], status, sid) {
      k := FirstTime(ls, es, status, sid, n - 1);
    } else {
      k := n - 1;
      forall j | 0 <= j <= k ensures !Has(ls[j], status, sid) {
        if Has(ls[j], status, sid) {
          FinalStays(ls, es, status, sid, j, k);
        }
      }
    }
  }

  /**
   * A completed source is metered as completed if and only if the run that completed it got
   * to its recording and the recording committed. A failed one is metered as failed if and
   * only if moreover that run gave up on it: neither a cancellation nor anything outside the
   * runs is metered. The source enters its final status once, no earlier run counts it, and
   * no later one makes up for it.
   */
  lemma {:induction false} MeteredIffItsRunCommitted(
      ls: seq<Usage.Ledger>, es: seq<Event>, status: ExtractionStatus, sid: int) returns (k: nat)
    requires History(ls, es, sid) && status in {Done, Broken}
    requires !Has(ls[0], status, sid) && !Counts(ls[0], status, sid) && Has(ls[|es|], status, sid)
    ensures k < |es| && Became(ls[k].sources, ls[k + 1].sources, status, sid)
    ensures forall j :: 0 <= j < |es| && Became(ls[j].sources, ls[j + 1].sources, status, sid) ==> j == k
    ensures status.Done? ==> es[k].JobRun?
    ensures Counts(ls[|es|], status, sid) <==> es[k].JobRun? && Pays(es[k].m, status, sid)
  {
    k := FirstTime(ls, es, status, sid, |es|);
    NotCountedBefore(ls, es, status, sid, k);
    assert Follows(ls[k], es[k], ls[k + 1], sid);
    FinalStays(ls, es, status, sid, k + 1, |es|);
    forall j | 0 <= j < |es| && Became(ls[j].sources, ls[j + 1].sources, status, sid) ensures j == k {
      if j > k {
        FinalStays(ls, es, status, sid, k + 1, j);
      }
    }
  }
}

/**
 * The consumer's slice of the job store: the compare-and-swap claim, the guarded status
 * write that doubles as the lease heartbeat, and the guarded reset.
 *
 * A database statement is one atomic step. `Apply` says what each statement does to
 * one row; `JobTable` performs the statements in place and is proved against `Apply`.
 */
module JobStore {
  import opened Common

  datatype Status = Pending | Processing | Completed | Partial | Failed | Cancelled

  datatype JobRow = JobRow(status: Status, startedAt: Option<int>)

  datatype ClaimResult = Claimed | Terminal | NotFound | InFlight

  /** One statement against one job row. `Cancel` is the API's cancellation, `Prune` the retention sweep. */
  datatype Statement =
    | Claim(claimNow: int, lease: int)
    | Update(status: Status, updateNow: int)
    | Reset
    | Cancel
    | Prune

  predicate IsTerminal(s: Status) {
    s.Completed? || s.Partial? || s.Failed? || s.Cancelled?
  }

  /** Nothing is left to do for the job: its row is gone or carries a terminal status. */
  predicate Settled(row: Option<JobRow>) {
    row.None? || IsTerminal(row.value.status)
  }

  /** The `WHERE` of the claim. A `NULL` start time compares as unknown, hence as false. */
  predicate Claimable(row: JobRow, now: int, lease: int) {
    || row.status.Pending?
    || (row.status.Processing? && row.startedAt.Some? && row.startedAt.value < now - lease)
  }

  function Apply(row: Option<JobRow>, st: Statement): Option<JobRow> {
    if row.None? then None
    else
      var r := row.value;
      match st
      case Claim(now, lease) => if Claimable(r, now, lease) then Some(JobRow(Processing, Some(now))) else row
      case Update(status, now) =>
        if IsTerminal(r.status) then row
        else Some(JobRow(status, if status.Processing? then Some(now) else r.startedAt))
      case Reset => if r.status.Processing? then Some(JobRow(Pending, None)) else row
      case Cancel => if IsTerminal(r.status) then row else Some(r.(status := Cancelled))
      case Prune => if IsTerminal(r.status) then None else row
  }

  function ApplyAll(row: Option<JobRow>, sts: seq<Statement>): Option<JobRow>
    decreases |sts|
  {
    if sts == [] then row else ApplyAll(Apply(row, sts[0]), sts[1..])
  }

  /** A `processing` row always carries a start time, so an expired lease is always visible. */
  predicate Stamped(row: Option<JobRow>) {
    row.Some? && row.value.status.Processing? ==> row.value.startedAt.Some?
  }

  /** No history of claims, heartbeats, resets and cancellations moves a job out of a terminal status. */
  lemma {:induction false} TerminalIsAbsorbing(row: JobRow, sts: seq<Statement>)
    requires row.status in {Completed, Partial, Failed, Cancelled}
    ensures ApplyAll(Some(row), sts) == (if Prune in sts then None else Some(row))
  {
    if sts != [] {
      assert Apply(Some(row), sts[0]) == if sts[0] == Prune then None else Some(row);
      if sts[0] == Prune {
        AbsentIsAbsorbing(sts[1..]);
      } else {
        TerminalIsAbsorbing(row, sts[1..]);
        assert Prune in sts <==> Prune in sts[1..];
      }
    }
  }

  /** A job whose row is gone never comes back. */
  lemma {:induction false} AbsentIsAbsorbing(sts: seq<Statement>)
    ensures ApplyAll(None, sts) == None
  {
    if sts != [] {
      AbsentIsAbsorbing(sts[1..]);
    }
  }

  /** Once settled, settled after every further history; this is what makes an acknowledgement final. */
  lemma {:induction false} SettledIsStable(row: Option<JobRow>, sts: seq<Statement>)
    requires Settled(row)
    ensures Settled(ApplyAll(row, sts))
  {
    if row.None? {
      AbsentIsAbsorbing(sts);
    } else {
      TerminalIsAbsorbing(row.value, sts);
    }
  }

  /** Every history keeps the start time of a `processing` row non-null. */
  lemma {:induction false} ProcessingStaysStamped(row: Option<JobRow>, sts: seq<Statement>)
    requires Stamped(row)
    ensures Stamped(ApplyAll(row, sts))
    decreases |sts|
  {
    if sts != [] {
      ProcessingStaysStamped(Apply(row, sts[0]), sts[1..]);
    }
  }

  /** What the rest of the system may do to a row while one worker owns it. */
  predicate Environment(before: Option<JobRow>, after: Option<JobRow>) {
    if Settled(before) then Settled(after) && (after.Some? ==> after == before)
    else after == before || after == Some(before.value.(status := Cancelled)) || after == None
  }

  class JobTable {
    var rows: map<string, JobRow>

    constructor ()
      ensures rows == map[]
    {
      rows := map[];
    }

    function Row(id: string): Option<JobRow>
      reads this
    {
      if id in rows then Some(rows[id]) else None
    }

    /** Every row other than `id` is as it was. */
    twostate predicate OthersUnchanged(id: string)
      reads this
    {
      forall other :: other != id ==>
        (other in rows <==> other in old(rows)) && (other in rows ==> rows[other] == old(rows)[other])
    }

    method ClaimJob(id: string, now: int, lease: int) returns (result: ClaimResult)
      modifies this
      ensures Row(id) == Apply(old(Row(id)), Claim(now, lease)) && OthersUnchanged(id)
      ensures result == NotFound <==> old(Row(id)).None?
      ensures result == Claimed <==>
                && old(Row(id)).Some?
                && (|| old(Row(id)).value.status == Pending
                    || (&& old(Row(id)).value.status == Processing
                        && old(Row(id)).value.startedAt.Some? && now - old(Row(id)).value.startedAt.value > lease))
      ensures result == Terminal <==>
                old(Row(id)).Some? && old(Row(id)).value.status in {Completed, Partial, Failed, Cancelled}
      ensures result == Claimed ==> Row(id) == Some(JobRow(Processing, Some(now)))
      ensures result != Claimed ==> rows == old(rows)
    {
      if id !in rows {
        return NotFound;
      }
      if Claimable(rows[id], now, lease) {
        rows := rows[id := JobRow(Processing, Some(now))];
        return Claimed;
      }
      return if IsTerminal(rows[id].status) then Terminal else InFlight;
    }

    method UpdateJobStatus(id: string, status: Status, now: int) returns (applied: bool)
      modifies this
      ensures Row(id) == Apply(old(Row(id)), Update(status, now)) && OthersUnchanged(id)
      ensures applied <==> !old(Settled(Row(id)))
      ensures applied <==> old(Row(id)).Some? && old(Row(id)).value.status in {Pending, Processing}
      ensures applied ==>
                var started := if status == Processing then Some(now) else old(Row(id)).value.startedAt;
                Row(id) == Some(JobRow(status, started))
    {
      if id !in rows || IsTerminal(rows[id].status) {
        return false;
      }
      var started := if status.Processing? then Some(now) else rows[id].startedAt;
      rows := rows[id := JobRow(status, started)];
      return true;
    }

    method ResetJobForRetry(id: string) returns (reset: bool)
      modifies this
      ensures Row(id) == Apply(old(Row(id)), Reset) && OthersUnchanged(id)
      ensures reset <==> old(Row(id)).Some? && old(Row(id)).value.status == Processing
      ensures reset ==> Row(id) == Some(JobRow(Pending, None))
    {
      if id !in rows || !rows[id].status.Processing? {
        return false;
      }
      rows := rows[id := JobRow(Pending, None)];
      return true;
    }

    /** Anything the API or the retention sweep may do between two awaits of the owning worker. */
    method Interfere(id: string)
      modifies this
      ensures Environment(old(Row(id)), Row(id)) && OthersUnchanged(id)
    {
      if id in rows {
        if !IsTerminal(rows[id].status) {
          if * {
            rows := rows[id := rows[id].(status := Cancelled)];
          }
        }
        if IsTerminal(rows[id].status) {
          if * {
            rows := rows - {id};
          }
        }
      }
    }
  }
}

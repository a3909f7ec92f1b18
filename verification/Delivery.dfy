/**
 * The queue consumer: what a delivery does with the outcome of its run, and the state
 * machine of one job's messages, deliveries and row under every interleaving.
 */
module Delivery {
  import opened Common
  import opened JobStore
  import opened Pipeline
  import opened ProcessIngestion

  const MAX_JOB_CONTINUATIONS := 800

  datatype Decision = AckNow | RetryLater | Continue

  /** Ack, retry on the failure budget, or publish a continuation and then ack. */
  function Decide(outcome: RunOutcome, chunksProcessed: nat, continuationCount: nat, hasProducer: bool): Decision {
    match outcome
    case SkippedInFlight => RetryLater
    case RetryTransient => RetryLater
    case RequeueIncomplete =>
      if hasProducer && chunksProcessed > 0 && continuationCount + 1 <= MAX_JOB_CONTINUATIONS
      then Continue else RetryLater
    case _ => AckNow
  }

  /* ---- the consumer, effect by effect ---- */

  datatype Disposition = Acked | Retried | Abandoned

  /** The unacknowledged messages of one job by message id, each with its continuation count. */
  class Broker {
    var queue: map<int, nat>
    var nextId: int
    /** How many publishes have failed, and how many consumers have died over a message. */
    ghost var faults: nat

    ghost predicate Valid()
      reads this
    {
      forall id :: id in queue ==> id < nextId
    }

    constructor (first: nat)
      ensures Valid() && queue == map[0 := first] && nextId == 1 && faults == 0
    {
      queue, nextId, faults := map[0 := first], 1, 0;
    }

    /** A failed publish may still have put the message on the queue. */
    method Publish(count: nat) returns (ok: bool)
      requires Valid()
      modifies this
      ensures Valid() && old(nextId) <= nextId
      ensures queue == old(queue) || queue == old(queue)[old(nextId) := count]
      ensures ok ==> queue == old(queue)[old(nextId) := count]
      ensures faults == if ok then old(faults) else old(faults) + 1
    {
      ok := *;
      faults := if ok then faults else faults + 1;
      if !ok {
        if * {
          return;
        }
      }
      queue, nextId := queue[nextId := count], nextId + 1;
    }

    /** A consumer may die at any await, over whatever it holds. */
    method Survives() returns (alive: bool)
      requires Valid()
      modifies this`faults
      ensures Valid() && faults == if alive then old(faults) else old(faults) + 1
    {
      alive := *;
      faults := if alive then faults else faults + 1;
    }

    method Ack(id: int)
      requires Valid()
      modifies this
      ensures Valid() && queue == old(queue) - {id} && nextId == old(nextId) && faults == old(faults)
    {
      queue := queue - {id};
    }
  }

  /**
   * One delivery of message `id`. At every exit, including the ones a crash produces, the
   * job is settled, its space is gone, this message is still queued, or a continuation is.
   * Outcomes with nothing left to do are acknowledged, polls and transient failures retried,
   * and a run out of budget is continued unless that is refused or the publish fails.
   */
  method HandleIngestionDelivery(world: World, broker: Broker, msg: Message, id: int, hasProducer: bool)
    returns (d: Disposition, run: RunResult)
    requires world.Valid() && world.Balanced() && broker.Valid() && id in broker.queue
    modifies world.usage, world`deletedSpaces, world`faults, world.jobs, world.store, broker
    ensures world.Valid() && world.Balanced() && broker.Valid()
    ensures forall o :: o in old(broker.queue) && o != id ==>
              o in broker.queue && broker.queue[o] == old(broker.queue)[o]
    ensures d != Acked ==> id in broker.queue
    ensures d == Acked ==>
              && id !in broker.queue && run.Ran?
              && (|| Settled(world.jobs.Row(msg.jobId))
                  || msg.space in world.deletedSpaces
                  || (old(broker.nextId) in broker.queue
                      && broker.queue[old(broker.nextId)] == old(broker.queue)[id] + 1))
    ensures run.Died? ==> d != Acked
    ensures d == Abandoned ==> broker.faults > old(broker.faults)
    ensures run.Ran? && (run.outcome.Processed? || run.outcome.SkippedTerminal? || run.outcome.SkippedNotFound?) ==>
              d != Retried
    ensures run.Ran? && (run.outcome.SkippedInFlight? || run.outcome.RetryTransient?) ==> d != Acked
    ensures run.Ran? && run.outcome.RequeueIncomplete? && d == Acked ==> old(broker.nextId) in broker.queue
    ensures run.Ran? && run.outcome.RequeueIncomplete? && d == Retried ==>
              !hasProducer || run.chunksProcessed == 0 || old(broker.queue)[id] >= 800
              || broker.faults > old(broker.faults)
    ensures forall o :: o in broker.queue && o !in old(broker.queue) ==>
              && run.Ran? && run.outcome.RequeueIncomplete? && run.chunksProcessed > 0 && hasProducer
              && o == old(broker.nextId) && broker.queue[o] == old(broker.queue)[id] + 1 <= 800
  {
    ghost var meter: Meter;
    ghost var turns;
    run, meter, turns := world.Run(msg);
    var alive := broker.Survives();
    if !alive {
      return Abandoned, run;
    }
    if run.Died? {
      return Retried, run;
    }
    var count := broker.queue[id];
    match Decide(run.outcome, run.chunksProcessed, count, hasProducer) {
      case RetryLater =>
        return Retried, run;
      case AckNow =>
        broker.Ack(id);
        return Acked, run;
      case Continue =>
        var ok := broker.Publish(count + 1);
        if !ok {
          return Retried, run;
        }
        alive := broker.Survives();
        if !alive {
          return Abandoned, run;
        }
        broker.Ack(id);
        return Acked, run;
    }
  }

  /* ---- every interleaving of deliveries, direct runs, cancellations and crashes ---- */

  /** A consumer holding message `id`: running, decided on an outcome, or done publishing. */
  datatype Worker =
    | Handling(id: int, count: nat)
    | Decided(id: int, count: nat, outcome: RunOutcome, chunks: nat)
    | Published(id: int)

  /** `left` is the chunks the job still has to go through. */
  datatype State = State(
    row: Option<JobRow>,
    spaceDeleted: bool,
    queue: map<int, nat>,
    nextId: int,
    deadLettered: bool,
    workers: map<int, Worker>,
    left: nat,
    hasProducer: bool)

  /**
   * `OnRow` is any statement any worker, the fast path, the API or the sweep may issue
   * against the job row. `Redo` is work undone by a crash between the last checkpoint and
   * the completion mark.
   */
  datatype Action =
    | Deliver(worker: int, id: int)
    | OnRow(statement: Statement)
    | DeleteSpace
    | Work(chunks: nat)
    | Redo(chunks: nat)
    | Return(worker: int, outcome: RunOutcome, chunks: nat)
    | Ack(worker: int)
    | Retry(worker: int)
    | Publish(worker: int)
    | PublishFails(worker: int, stored: bool)
    | AckPublished(worker: int)
    | DeadLetter(id: int)
    | Crash(worker: int)

  ghost predicate Enabled(s: State, a: Action) {
    match a
    case Deliver(w, id) => w !in s.workers && id in s.queue
    case Work(chunks) => chunks <= s.left
    case Return(w, outcome, chunks) =>
      && w in s.workers && s.workers[w].Handling?
      && Truthful(outcome, chunks, s.row, s.spaceDeleted)
      && chunks <= s.left
    case Ack(w) => Deciding(s, w, AckNow)
    case Retry(w) => Deciding(s, w, RetryLater)
    case Publish(w) => Deciding(s, w, Continue)
    case PublishFails(w, _) => Deciding(s, w, Continue)
    case AckPublished(w) => w in s.workers && s.workers[w].Published?
    case DeadLetter(id) => id in s.queue
    case _ => true
  }

  predicate Deciding(s: State, w: int, d: Decision) {
    && w in s.workers && s.workers[w].Decided?
    && Decide(s.workers[w].outcome, s.workers[w].chunks, s.workers[w].count, s.hasProducer) == d
  }

  function Step(s: State, a: Action): State
    requires Enabled(s, a)
  {
    match a
    case Deliver(w, id) => s.(workers := s.workers[w := Handling(id, s.queue[id])])
    case OnRow(st) => s.(row := Apply(s.row, st))
    case DeleteSpace => s.(spaceDeleted := true)
    case Work(chunks) => s.(left := s.left - chunks)
    case Redo(chunks) => s.(left := s.left + chunks)
    case Return(w, outcome, chunks) =>
      s.(workers := s.workers[w := Decided(s.workers[w].id, s.workers[w].count, outcome, chunks)],
         left := s.left - chunks)
    case Ack(w) => s.(queue := s.queue - {s.workers[w].id}, workers := s.workers - {w})
    case Retry(w) => s.(workers := s.workers - {w})
    case Publish(w) =>
      s.(queue := s.queue[s.nextId := s.workers[w].count + 1], nextId := s.nextId + 1,
         workers := s.workers[w := Published(s.workers[w].id)])
    case PublishFails(w, stored) =>
      if stored
      then s.(queue := s.queue[s.nextId := s.workers[w].count + 1], nextId := s.nextId + 1, workers := s.workers - {w})
      else s.(workers := s.workers - {w})
    case AckPublished(w) => s.(queue := s.queue - {s.workers[w].id}, workers := s.workers - {w})
    case DeadLetter(id) => s.(queue := s.queue - {id}, deadLettered := true)
    case Crash(w) => s.(workers := s.workers - {w})
  }

  ghost predicate Start(s: State) {
    && s.row == Some(JobRow(Pending, None)) && !s.spaceDeleted && !s.deadLettered
    && s.queue == map[0 := 0] && s.nextId == 1 && s.workers == map[]
  }

  ghost predicate Reaches(s: State, acts: seq<Action>, t: State)
    decreases |acts|
  {
    if acts == [] then t == s
    else Enabled(s, acts[0]) && Reaches(Step(s, acts[0]), acts[1..], t)
  }

  /** Message `id` is on the queue and no consumer is about to acknowledge it for a continuation. */
  ghost predicate Outstanding(s: State, id: int) {
    id in s.queue && forall w :: w in s.workers && s.workers[w].Published? ==> s.workers[w].id != id
  }

  ghost predicate NotLost(s: State) {
    Settled(s.row) || s.spaceDeleted || s.deadLettered || exists id :: id in s.queue
  }

  ghost predicate Durable(s: State) {
    && (forall id :: id in s.queue ==> id < s.nextId)
    && (forall w :: w in s.workers ==> s.workers[w].id < s.nextId)
    && (forall w :: w in s.workers && Deciding(s, w, AckNow) ==> Settled(s.row) || s.spaceDeleted)
    && (Settled(s.row) || s.spaceDeleted || s.deadLettered || exists id :: Outstanding(s, id))
  }

  lemma StepKeepsDurable(s: State, a: Action)
    requires Durable(s) && Enabled(s, a)
    ensures Durable(Step(s, a))
  {
    var t := Step(s, a);
    if a.OnRow? && Settled(s.row) {
      SettledIsStable(s.row, [a.statement]);
      assert ApplyAll(s.row, [a.statement]) == ApplyAll(t.row, []) == t.row;
    }
    if !Settled(s.row) && !s.spaceDeleted && !s.deadLettered {
      var id :| Outstanding(s, id);
      if a.Publish? || (a.PublishFails? && a.stored) {
        assert Outstanding(t, s.nextId);
      } else if !a.Ack? && !a.DeadLetter? {
        assert Outstanding(t, id);
      }
    }
  }

  /**
   * No job is lost: in every state any interleaving reaches, the job is settled, its space
   * is tombstoned, a copy of its message is unacknowledged, or a copy was dead-lettered.
   */
  lemma {:induction false} NoLostJob(s: State, acts: seq<Action>, t: State)
    requires Start(s) && Reaches(s, acts, t)
    ensures NotLost(t)
  {
    assert Outstanding(s, 0);
    DurableAlong(s, acts, t);
    if !Settled(t.row) && !t.spaceDeleted && !t.deadLettered {
      var id :| Outstanding(t, id);
    }
  }

  lemma {:induction false} DurableAlong(s: State, acts: seq<Action>, t: State)
    requires Durable(s) && Reaches(s, acts, t)
    ensures Durable(t)
    decreases |acts|
  {
    if acts != [] {
      StepKeepsDurable(s, acts[0]);
      DurableAlong(Step(s, acts[0]), acts[1..], t);
    }
  }

  /** A continuation count never claims more batches than the work already done can pay for. */
  ghost predicate Paid(s: State, total: nat) {
    && (forall id :: id in s.queue ==> MAX_CHUNKS_PER_INVOCATION * s.queue[id] + s.left <= total)
    && (forall w :: w in s.workers && s.workers[w].Handling? ==>
          MAX_CHUNKS_PER_INVOCATION * s.workers[w].count + s.left <= total)
    && (forall w :: w in s.workers && s.workers[w].Decided? && s.workers[w].outcome.RequeueIncomplete? ==>
          && MAX_CHUNKS_PER_INVOCATION * (s.workers[w].count + 1) + s.left <= total
          && s.workers[w].chunks == MAX_CHUNKS_PER_INVOCATION)
  }

  lemma StepKeepsPaid(s: State, a: Action, total: nat)
    requires Paid(s, total) && Enabled(s, a) && !a.Redo?
    ensures Paid(Step(s, a), total) && Step(s, a).left <= s.left
  {
  }

  lemma {:induction false} PaidAlong(s: State, acts: seq<Action>, t: State, total: nat)
    requires Paid(s, total) && Reaches(s, acts, t) && forall a :: a in acts ==> !a.Redo?
    ensures Paid(t, total) && t.left <= s.left
    decreases |acts|
  {
    if acts != [] {
      StepKeepsPaid(s, acts[0], total);
      PaidAlong(Step(s, acts[0]), acts[1..], t, total);
    }
  }

  /**
   * While no crash undoes work, a job of at most ten sources of at most five hundred chunks
   * is continued at most 625 times: every published count k has 8k chunks already done, and
   * neither refusal of the consumer ever applies to a run that ran out of budget.
   */
  lemma {:induction false} ContinuationsAreBounded(s: State, acts: seq<Action>, t: State, w: int)
    requires Start(s) && s.hasProducer && s.left <= 10 * 500
    requires Reaches(s, acts, t) && forall a :: a in acts ==> !a.Redo?
    ensures forall id :: id in t.queue ==>
              8 * t.queue[id] <= s.left - t.left && t.queue[id] <= 625
    ensures w in t.workers && t.workers[w].Decided? && t.workers[w].outcome.RequeueIncomplete? ==>
              Deciding(t, w, Continue)
  {
    PaidAlong(s, acts, t, s.left);
    ProducerIsFixed(s, acts, t);
  }

  lemma {:induction false} ProducerIsFixed(s: State, acts: seq<Action>, t: State)
    requires Reaches(s, acts, t)
    ensures t.hasProducer == s.hasProducer
    decreases |acts|
  {
    if acts != [] {
      ProducerIsFixed(Step(s, acts[0]), acts[1..], t);
    }
  }
}

/** The polling processor: one tick claims a batch, runs handlers and marks every event. */
module OutboxProcessor {
  import opened Prelude
  import opened OutboxModel
  import opened OutboxMemory
  import opened OutboxProtocol
  import opened OutboxRuns

  /** A handler's answer may depend on the outside world, given to it as a number. */
  datatype Handler = Handler(run: (QueuedEvent, int) -> Option<string>)

  /** What the surroundings supply while one event is handled: world, clock and random draw. */
  datatype Reading = Reading(world: int, now: Time, jitter: Time)

  function OutcomeOf(handlers: map<string, Handler>, e: QueuedEvent, r: Reading): Outcome {
    if e.eventType !in handlers then Unhandled
    else
      match handlers[e.eventType].run(e, r.world)
      case None => Succeeded
      case Some(err) => Failed(err)
  }

  /** The rows once every event of `batch` is marked, in order. */
  function MarkAll(rows: Rows, handlers: map<string, Handler>, batch: seq<QueuedEvent>, readings: seq<Reading>): Rows
    requires |batch| <= |readings|
    decreases |batch|
  {
    if batch == [] then rows
    else
      MarkAll(MarkRows(rows, batch[0], OutcomeOf(handlers, batch[0], readings[0]), readings[0].now, readings[0].jitter),
              handlers, batch[1..], readings[1..])
  }

  /** The rows after one tick. */
  ghost function TickRows(rows: Rows, handlers: map<string, Handler>, n: nat, at: Time, readings: seq<Reading>): Rows
    requires WellKeyed(rows) && n <= |readings|
  {
    var batch := ClaimBatch(rows, n, at);
    MarkAll(ClaimRows(rows, Ids(batch)), handlers, batch, readings)
  }

  class Processor {
    const repo: Repository
    const batchSize: nat
    var handlers: map<string, Handler>

    constructor (repo: Repository, batchSize: int)
      ensures this.repo == repo && handlers == map[]
      ensures this.batchSize == if batchSize <= 0 then 50 else batchSize
    {
      this.repo := repo;
      this.batchSize := if batchSize <= 0 then 50 else batchSize;
      this.handlers := map[];
    }

    method Register(eventType: string, h: Option<Handler>)
      modifies this
      ensures handlers == if eventType == "" || h.None? then old(handlers) else old(handlers)[eventType := h.value]
    {
      if eventType == "" || h.None? {
        return;
      }
      handlers := handlers[eventType := h.value];
    }

    /** `at` is the clock when the batch is claimed; `readings` serve its events in turn. */
    method Tick(at: Time, readings: seq<Reading>)
      requires repo.Valid() && batchSize <= |readings|
      modifies repo.events.Values
      ensures repo.Valid()
      ensures repo.Rows() == TickRows(old(repo.Rows()), handlers, batchSize, at, readings)
    {
      hide ClaimBatch, ClaimRows, MarkRows, OutcomeOf;
      var batch := repo.LockPendingBatch(batchSize, at);
      ghost var expected := MarkAll(repo.Rows(), handlers, batch, readings);
      for i := 0 to |batch|
        invariant repo.Valid()
        invariant MarkAll(repo.Rows(), handlers, batch[i..], readings[i..]) == expected
      {
        assert batch[i..][1..] == batch[i + 1..] && readings[i..][1..] == readings[i + 1..];
        MarkOne(batch[i], readings[i]);
      }
    }

    method MarkOne(e: QueuedEvent, r: Reading)
      requires repo.Valid()
      modifies repo.events.Values
      ensures repo.Valid()
      ensures repo.Rows() == MarkRows(old(repo.Rows()), e, OutcomeOf(handlers, e, r), r.now, r.jitter)
    {
      if e.eventType !in handlers {
        repo.MarkProcessed(e.eventID, r.now);
        return;
      }
      var answer := handlers[e.eventType].run(e, r.world);
      if answer.Some? {
        var nextCount := e.retryCount + 1;
        if nextCount >= MAX_RETRIES {
          repo.MarkFailedPermanent(e.eventID, r.now, answer.value);
          return;
        }
        repo.MarkRetry(e.eventID, nextCount, r.now + Backoff(nextCount) + r.jitter, answer.value);
        return;
      }
      repo.MarkProcessed(e.eventID, r.now);
    }
  }

  /** Go's `backoff`, with its two clamps and the shift. */
  method ComputeBackoff(retry: int) returns (d: Time)
    ensures d == Backoff(retry)
    ensures SECOND <= d <= 32 * SECOND
  {
    var r := retry;
    if r < 1 {
      r := 1;
    }
    if r > 6 {
      r := 6;
    }
    BackoffTable();
    d := Shift(r - 1) * SECOND;
  }

  // ---------------------------------------------------------------- a tick, event by event

  /** Marking events with distinct ids decides each row by its own handler alone. */
  lemma {:induction false} MarkAllPointwise(
      rows: Rows, handlers: map<string, Handler>, batch: seq<QueuedEvent>, readings: seq<Reading>, id: string)
    requires |batch| <= |readings| && id in rows
    requires forall i, j :: 0 <= i < j < |batch| ==> batch[i].eventID != batch[j].eventID
    ensures var rows' := MarkAll(rows, handlers, batch, readings);
            && rows'.Keys == rows.Keys
            && ((forall i :: 0 <= i < |batch| ==> batch[i].eventID != id) ==> rows'[id] == rows[id])
            && (forall i :: 0 <= i < |batch| && batch[i].eventID == id ==>
                  rows'[id] == MarkRows(map[id := rows[id]], batch[i], OutcomeOf(handlers, batch[i], readings[i]),
                                        readings[i].now, readings[i].jitter)[id])
    decreases |batch|
  {
    if batch != [] {
      var e, r := batch[0], readings[0];
      var mid := MarkRows(rows, e, OutcomeOf(handlers, e, r), r.now, r.jitter);
      MarkAllPointwise(mid, handlers, batch[1..], readings[1..], id);
      forall i | 0 < i < |batch| ensures batch[i] == batch[1..][i - 1] && readings[i] == readings[1..][i - 1] {}
    }
  }

  // ---------------------------------------------------------------- a tick is a run

  /** The steps a worker takes to finish `batch`. */
  function FinishSteps(w: nat, handlers: map<string, Handler>, batch: seq<QueuedEvent>, readings: seq<Reading>): seq<Step>
    requires |batch| <= |readings|
    decreases |batch|
  {
    if batch == [] then []
    else
      var (e, r) := (batch[0], readings[0]);
      (if e.eventType in handlers then [Step.Handle(w, handlers[e.eventType].run(e, r.world))] else [])
      + [Advance(r.now), Step.Mark(w, r.now, r.jitter)] + FinishSteps(w, handlers, batch[1..], readings[1..])
  }

  /** The clock does not go back and every draw is within its bound. */
  ghost predicate ReadingsFit(clock: Time, batch: seq<QueuedEvent>, readings: seq<Reading>) {
    && |batch| <= |readings|
    && (batch != [] ==> clock <= readings[0].now)
    && (forall i, j :: 0 <= i < j < |batch| ==> readings[i].now <= readings[j].now)
    && (forall i :: 0 <= i < |batch| ==> 0 <= readings[i].jitter <= MaxJitter(batch[i].retryCount + 1))
  }

  lemma HandleStep(s: State, w: nat, handlers: map<string, Handler>, r: Reading) returns (s1: State)
    requires Inv(s) && Busy(s, w) && s.workers[w].outcome == Unhandled && s.registered == handlers.Keys
    ensures var e := s.workers[w].batch[0];
            && Inv(s1) && s1.rows == s.rows && s1.clock == s.clock && s1.registered == s.registered
            && w in s1.workers && s1.workers[w].batch == s.workers[w].batch && s1.workers[w].outcome == OutcomeOf(handlers, e, r)
            && (if e.eventType in handlers then
                  var step := Step.Handle(w, handlers[e.eventType].run(e, r.world));
                  Enabled(s, step) && s1 == Apply(s, step)
                else s1 == s)
  {
    hide History, HistoryOf, Holds, Exclusive, Backoff, MaxJitter;
    var e := s.workers[w].batch[0];
    s1 := s;
    if e.eventType in handlers {
      var step := Step.Handle(w, handlers[e.eventType].run(e, r.world));
      StepKeepsInv(s, step);
      s1 := Apply(s, step);
    }
  }

  lemma AdvanceAndMark(s: State, w: nat, r: Reading) returns (s2: State, s3: State)
    requires Inv(s) && Busy(s, w) && s.clock <= r.now
    requires s.workers[w].outcome == Unhandled ==> s.workers[w].batch[0].eventType !in s.registered
    requires 0 <= r.jitter <= MaxJitter(s.workers[w].batch[0].retryCount + 1)
    ensures WellKeyed(s.rows) && Enabled(s, Advance(r.now)) && s2 == Apply(s, Advance(r.now)) && Inv(s2)
    ensures WellKeyed(s2.rows) && Enabled(s2, Step.Mark(w, r.now, r.jitter)) && s3 == Apply(s2, Step.Mark(w, r.now, r.jitter)) && Inv(s3)
    ensures s3.rows == MarkRows(s.rows, s.workers[w].batch[0], s.workers[w].outcome, r.now, r.jitter)
    ensures w in s3.workers && s3.workers[w].batch == s.workers[w].batch[1..] && s3.workers[w].outcome == Unhandled
    ensures s3.clock == r.now && s3.registered == s.registered
  {
    hide History, HistoryOf, Holds, Exclusive, MaxJitter;
    StepKeepsInv(s, Advance(r.now));
    s2 := Apply(s, Advance(r.now));
    StepKeepsInv(s2, Step.Mark(w, r.now, r.jitter));
    s3 := Apply(s2, Step.Mark(w, r.now, r.jitter));
  }

  lemma FitRest(clock: Time, batch: seq<QueuedEvent>, readings: seq<Reading>)
    requires batch != [] && ReadingsFit(clock, batch, readings)
    ensures clock <= readings[0].now && 0 <= readings[0].jitter <= MaxJitter(batch[0].retryCount + 1)
    ensures ReadingsFit(readings[0].now, batch[1..], readings[1..])
  {
    hide MaxJitter;
  }

  /** From the claimed batch on, the protocol's steps produce exactly the marked rows. */
  lemma {:induction false} FinishIsRun(
      s: State, w: nat, handlers: map<string, Handler>, batch: seq<QueuedEvent>, readings: seq<Reading>)
    requires Inv(s) && w in s.workers && s.workers[w].batch == batch && s.workers[w].outcome == Unhandled
    requires s.registered == handlers.Keys && ReadingsFit(s.clock, batch, readings)
    ensures var steps := FinishSteps(w, handlers, batch, readings);
            && IsRun(s, steps)
            && StateAt(s, steps, |steps|).rows == MarkAll(s.rows, handlers, batch, readings)
    decreases |batch|
  {
    hide Enabled, Inv, Apply, MarkRows, MaxJitter;
    if batch != [] {
      var e, r := batch[0], readings[0];
      FitRest(s.clock, batch, readings);
      var s1 := HandleStep(s, w, handlers, r);
      var s2, s3 := AdvanceAndMark(s1, w, r);
      var rest := FinishSteps(w, handlers, batch[1..], readings[1..]);
      FinishIsRun(s3, w, handlers, batch[1..], readings[1..]);
      hide ReadingsFit;
      RunStep(s2, Step.Mark(w, r.now, r.jitter), rest);
      RunStep(s1, Advance(r.now), [Step.Mark(w, r.now, r.jitter)] + rest);
      var tail := [Advance(r.now)] + ([Step.Mark(w, r.now, r.jitter)] + rest);
      assert tail == [Advance(r.now), Step.Mark(w, r.now, r.jitter)] + rest;
      if e.eventType in handlers {
        var step := Step.Handle(w, handlers[e.eventType].run(e, r.world));
        RunStep(s, step, tail);
        assert FinishSteps(w, handlers, batch, readings) == [step] + tail;
      } else {
        assert FinishSteps(w, handlers, batch, readings) == tail;
      }
    }
  }

  /** The protocol steps of one whole tick of worker `w`. */
  ghost function TickSteps(s: State, w: nat, handlers: map<string, Handler>, n: nat, at: Time, readings: seq<Reading>): seq<Step>
    requires WellKeyed(s.rows) && n <= |readings|
  {
    var batch := ClaimBatch(s.rows, n, at);
    [Advance(at), Step.Claim(w, Pick(n, at, {}), batch)] + FinishSteps(w, handlers, batch, readings)
  }

  lemma AdvanceAndClaim(s: State, w: nat, n: nat, at: Time) returns (s1: State, s2: State)
    requires Inv(s) && !Busy(s, w) && s.clock <= at
    ensures WellKeyed(s.rows) && Enabled(s, Advance(at)) && s1 == Apply(s, Advance(at)) && Inv(s1)
    ensures var (batch, step) := (ClaimBatch(s.rows, n, at), Step.Claim(w, Pick(n, at, {}), ClaimBatch(s.rows, n, at)));
            && WellKeyed(s1.rows) && Enabled(s1, step) && s2 == Apply(s1, step) && Inv(s2)
            && s2.rows == ClaimRows(s.rows, Ids(batch)) && s2.clock == at && s2.registered == s.registered
            && w in s2.workers && s2.workers[w].batch == batch && s2.workers[w].outcome == Unhandled
  {
    var batch := ClaimBatch(s.rows, n, at);
    var pick := Pick(n, at, {});
    assert Candidates(s.rows, pick) == Due(s.rows, at);
    FirstIsClaim(s.rows, pick);
    hide ClaimBatch, Candidates, History, HistoryOf, Holds, Exclusive, IsClaim;
    StepKeepsInv(s, Advance(at));
    s1 := Apply(s, Advance(at));
    StepKeepsInv(s1, Step.Claim(w, pick, batch));
    s2 := Apply(s1, Step.Claim(w, pick, batch));
  }

  /**
   A tick of an idle worker is a run of the multi-worker protocol with the same effect on the
   rows, so everything proved of runs holds of ticks.
   */
  lemma TickIsRun(s: State, w: nat, handlers: map<string, Handler>, n: nat, at: Time, readings: seq<Reading>)
    requires Inv(s) && !Busy(s, w) && s.registered == handlers.Keys && s.clock <= at && n <= |readings|
    requires ReadingsFit(at, ClaimBatch(s.rows, n, at), readings)
    ensures var steps := TickSteps(s, w, handlers, n, at, readings);
            && IsRun(s, steps)
            && StateAt(s, steps, |steps|).rows == TickRows(s.rows, handlers, n, at, readings)
  {
    hide ClaimBatch, ReadingsFit, Inv, Enabled, Apply;
    var s1, s2 := AdvanceAndClaim(s, w, n, at);
    var batch := ClaimBatch(s.rows, n, at);
    FinishIsRun(s2, w, handlers, batch, readings);
    var rest := FinishSteps(w, handlers, batch, readings);
    var claim := Step.Claim(w, Pick(n, at, {}), batch);
    RunStep(s1, claim, rest);
    RunStep(s, Advance(at), [claim] + rest);
    assert TickSteps(s, w, handlers, n, at, readings) == [Advance(at)] + ([claim] + rest);
  }
}

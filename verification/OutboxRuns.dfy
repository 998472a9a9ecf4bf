/** What every run of the outbox protocol guarantees. */
module OutboxRuns {
  import opened Prelude
  import opened OutboxModel
  import opened OutboxProtocol

  /** Every step is enabled when it is taken. */
  ghost predicate IsRun(s: State, steps: seq<Step>)
    requires Inv(s)
    decreases |steps|
  {
    steps == [] ||
    (Enabled(s, steps[0]) && (StepKeepsInv(s, steps[0]); IsRun(Apply(s, steps[0]), steps[1..])))
  }

  /** The state after the first `k` steps. */
  ghost function StateAt(s: State, steps: seq<Step>, k: nat): (s': State)
    requires Inv(s) && IsRun(s, steps) && k <= |steps|
    ensures Inv(s')
    decreases k
  {
    if k == 0 then s
    else StepKeepsInv(s, steps[0]); StateAt(Apply(s, steps[0]), steps[1..], k - 1)
  }

  /** One more step in front of a run. */
  lemma RunStep(s: State, step: Step, rest: seq<Step>)
    requires Inv(s) && Enabled(s, step) && Inv(Apply(s, step)) && IsRun(Apply(s, step), rest)
    ensures IsRun(s, [step] + rest)
    ensures StateAt(s, [step] + rest, 1 + |rest|) == StateAt(Apply(s, step), rest, |rest|)
  {
    hide Enabled, Apply, Inv;
    assert ([step] + rest)[1..] == rest;
  }

  function StatusOf(rows: Rows, id: string): Option<Status> {
    if id in rows then Some(rows[id].status) else None
  }

  /** The event's status after the first `k` steps. */
  ghost function StatusAt(s: State, steps: seq<Step>, k: nat, id: string): Option<Status>
    requires Inv(s) && IsRun(s, steps) && k <= |steps|
  {
    StatusOf(StateAt(s, steps, k).rows, id)
  }

  // ---------------------------------------------------------------- one event, whole run

  predicate Final(status: Status) { status == Processed || status == FailedPermanent }

  /** What a step may do to a row: nothing once it is final, and never to its identity. */
  ghost predicate RowEvolves(s: State, s': State, id: string)
    requires id in s.rows && id in s.attempts
  {
    && id in s'.rows && id in s'.attempts
    && s.attempts[id] <= s'.attempts[id]
    && s.rows[id].event.retryCount <= s'.rows[id].event.retryCount
    && s'.rows[id].event == s.rows[id].event.(retryCount := s'.rows[id].event.retryCount,
                                              availableAt := s'.rows[id].event.availableAt)
    && (Final(s.rows[id].status) ==> s'.rows[id] == s.rows[id] && s'.attempts[id] == s.attempts[id])
  }

  lemma StepEvolves(s: State, step: Step, id: string)
    requires Inv(s) && Enabled(s, step) && id in s.rows
    ensures RowEvolves(s, Apply(s, step), id)
  {
    hide Backoff, MaxJitter, History, HistoryOf, Exclusive;
    match step
    case Claim(w, pick, batch) =>
      ClaimedAreDue(s, pick, batch);
    case Handle(w, err) =>
      assert Holds(s, w, 0);
    case Mark(w, at, jitter) =>
      assert Holds(s, w, 0);
    case _ =>
  }

  /**
   Over any run no inserted event is lost or changes identity, processed and failed_permanent
   rows never change again, RetryCount never goes down, and the log of handler calls only grows.
   */
  lemma {:induction false} RunEvolves(s: State, steps: seq<Step>, k: nat, id: string)
    requires Inv(s) && IsRun(s, steps) && k <= |steps| && id in s.rows
    ensures RowEvolves(s, StateAt(s, steps, k), id)
    decreases k
  {
    hide History, HistoryOf, Holds, Exclusive, RowEvolves;
    if k == 0 {
      assert RowEvolves(s, s, id) by { RowStays(s, id); }
    } else {
      StepEvolves(s, steps[0], id);
      StepKeepsInv(s, steps[0]);
      var s' := Apply(s, steps[0]);
      RowIsThere(s, s', id);
      RunEvolves(s', steps[1..], k - 1, id);
      RowEvolvesTransitive(s, s', StateAt(s, steps, k), id);
    }
  }

  lemma RowStays(s: State, id: string)
    requires id in s.rows && id in s.attempts
    ensures RowEvolves(s, s, id)
  {
  }

  lemma RowIsThere(s: State, t: State, id: string)
    requires id in s.rows && id in s.attempts && RowEvolves(s, t, id)
    ensures id in t.rows && id in t.attempts
  {
  }

  lemma RowEvolvesTransitive(s: State, t: State, u: State, id: string)
    requires id in s.rows && id in s.attempts && RowEvolves(s, t, id)
    requires id in t.rows && id in t.attempts && RowEvolves(t, u, id)
    ensures RowEvolves(s, u, id)
  {
  }

  /** The rows after some inserts, one after the other. */
  function InsertAll(rows: Rows, ps: seq<InsertParams>): Rows {
    if ps == [] then rows else InsertRow(InsertAll(rows, ps[..|ps| - 1]), ps[|ps| - 1])
  }

  /**
   The runs insert fresh ids only. The in-memory Insert also accepts a used id: through any number of inserts a
   final row stays final exactly when none of them uses its id, and then it stays as it is; otherwise it is pending
   again with no retries, as inserted last.
   */
  lemma {:induction false} InsertsKeepFinalIffOtherIds(rows: Rows, ps: seq<InsertParams>, id: string)
    requires id in rows && Final(rows[id].status)
    ensures id in InsertAll(rows, ps)
    ensures Final(InsertAll(rows, ps)[id].status) <==> forall i :: 0 <= i < |ps| ==> ps[i].eventID != id
    ensures var row := InsertAll(rows, ps)[id];
            if Final(row.status) then row == rows[id] else row.status == Pending && row.event.retryCount == 0
    decreases |ps|
  {
    if ps != [] {
      var n := |ps| - 1;
      InsertsKeepFinalIffOtherIds(rows, ps[..n], id);
      assert forall i :: 0 <= i < n ==> ps[..n][i] == ps[i];
    }
  }

  /** A mark always finds its event in status processing, held by no other worker. */
  lemma MarkHitsProcessing(s: State, w: nat, at: Time, jitter: Time, v: nat, i: int)
    requires Inv(s) && Enabled(s, Mark(w, at, jitter))
    ensures var e := s.workers[w].batch[0];
            && e.eventID in s.rows && s.rows[e.eventID].status == Processing && s.rows[e.eventID].event == e
            && (At(s, v, i, e.eventID) ==> v == w && i == 0)
  {
    assert Holds(s, w, 0) && At(s, w, 0, s.workers[w].batch[0].eventID);
  }

  /** A claim never takes an event some worker still holds. */
  lemma ClaimTakesUnheld(s: State, w: nat, pick: Pick, batch: seq<QueuedEvent>, v: nat, i: int, id: string)
    requires Inv(s) && Enabled(s, Claim(w, pick, batch)) && id in Ids(batch)
    ensures !At(s, v, i, id)
  {
    ClaimedAreDue(s, pick, batch);
    assert Holds(s, v, i);
  }

  /**
   The handler is called at most once per (event, RetryCount): a call made now is for a
   RetryCount no earlier call of this event was made for, and there are never more than ten.
   */
  lemma HandledOncePerRetryCount(s: State, w: nat, err: Option<string>, k: nat)
    requires Inv(s) && Enabled(s, Handle(w, err))
    ensures var e := s.workers[w].batch[0];
            && e.eventID in s.attempts
            && (k < |s.attempts[e.eventID]| ==> s.attempts[e.eventID][k].retryCount == k < e.retryCount)
            && |s.attempts[e.eventID]| < MAX_RETRIES
            && e.availableAt <= s.clock
  {
    assert Holds(s, w, 0) && HistoryOf(s, s.workers[w].batch[0].eventID);
  }

  // ---------------------------------------------------------------- retry budget

  function Sum(d: seq<Time>): Time {
    if d == [] then 0 else Sum(d[..|d| - 1]) + d[|d| - 1]
  }

  function BackoffSum(n: nat): Time {
    if n == 0 then 0 else BackoffSum(n - 1) + Backoff(n)
  }

  lemma BackoffTable()
    ensures Backoff(1) == SECOND && Backoff(2) == 2 * SECOND && Backoff(3) == 4 * SECOND
    ensures Backoff(4) == 8 * SECOND && Backoff(5) == 16 * SECOND
    ensures forall r :: r >= 6 ==> Backoff(r) == 32 * SECOND
  {
    assert Shift(1) == 2 && Shift(2) == 4 && Shift(3) == 8;
    assert Shift(4) == 2 * Shift(3) && Shift(5) == 2 * Shift(4);
  }

  lemma BackoffSumOfNine()
    ensures BackoffSum(9) == 159 * SECOND
  {
    BackoffTable();
    assert BackoffSum(3) == 7 * SECOND;
    assert BackoffSum(6) == BackoffSum(3) + Backoff(4) + Backoff(5) + Backoff(6);
    assert BackoffSum(9) == BackoffSum(6) + Backoff(7) + Backoff(8) + Backoff(9);
  }

  lemma BackoffIsAtLeastASecond(r: int)
    ensures Backoff(r) >= SECOND
    ensures MaxJitter(r) * 4 == Backoff(r)
  {
    BackoffTable();
    if r < 1 { assert Backoff(r) == Backoff(1); }
  }

  lemma {:induction false} DelaysSum(d: seq<Time>)
    requires forall k :: 0 <= k < |d| ==> DelayInRange(k + 1, d[k])
    ensures BackoffSum(|d|) <= Sum(d)
    ensures 4 * Sum(d) <= 5 * BackoffSum(|d|)
    decreases |d|
  {
    if d != [] {
      var k := |d| - 1;
      DelaysSum(d[..k]);
      assert DelayInRange(k + 1, d[k]);
      BackoffIsAtLeastASecond(k + 1);
    }
  }

  lemma {:induction false} AttemptsSpanDelays(a: seq<Attempt>, d: seq<Time>)
    requires |a| == |d| + 1
    requires forall j, k :: 0 <= j < |a| - 1 && k == j + 1 ==> a[j].at + d[j] <= a[k].at
    ensures a[0].at + Sum(d) <= a[|d|].at
    decreases |d|
  {
    if d != [] {
      var k := |d| - 1;
      AttemptsSpanDelays(a[..|a| - 1], d[..k]);
      assert a[k].at + d[k] <= a[k + 1].at;
    }
  }

  /**
   An event that ends failed_permanent was handled exactly ten times, each time without success;
   the nine delays chosen for it add up to 159 s to 198.75 s, and the last call came at least
   their sum after the first.
   */
  lemma FailedPermanentMeansTenAttempts(s: State, id: string)
    requires Inv(s) && id in s.rows && s.rows[id].status == FailedPermanent
    ensures var (a, d) := (s.attempts[id], s.delays[id]);
            && |a| == 10 && |d| == 9 && s.rows[id].event.retryCount == 9
            && (forall k :: 0 <= k < 10 ==> a[k].failed && a[k].retryCount == k)
            && 159 * SECOND <= Sum(d) && 100 * Sum(d) <= 19875 * SECOND
            && a[0].at + Sum(d) <= a[9].at
  {
    assert HistoryOf(s, id);
    hide DelayInRange, Backoff;
    var (a, d) := (s.attempts[id], s.delays[id]);
    DelaysSum(d);
    BackoffSumOfNine();
    AttemptsSpanDelays(a, d);
  }

  /**
   While it is pending, RetryCount is the number of calls made, all of which failed; and an event
   whose calls all failed can only end failed_permanent, or processed for want of a handler.
   */
  lemma RetryCountCountsFailures(s: State, id: string)
    requires Inv(s) && id in s.rows
    ensures |s.attempts[id]| <= MAX_RETRIES
    ensures s.rows[id].status == Pending ==> s.rows[id].event.retryCount == |s.attempts[id]|
    ensures forall k :: 0 <= k < s.rows[id].event.retryCount ==> s.attempts[id][k].failed
    ensures Final(s.rows[id].status) && s.rows[id].event.eventType in s.registered ==>
              (s.rows[id].status == FailedPermanent <==> forall k :: 0 <= k < |s.attempts[id]| ==> s.attempts[id][k].failed)
  {
    assert HistoryOf(s, id);
    hide DelayInRange;
  }
}

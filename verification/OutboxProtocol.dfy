/**
 Several workers over one outbox: every repository call is one atomic step, workers
 interleave freely, read one non-decreasing clock, and may crash between any two steps.
 A clock reading may be older than the step that uses it, a claim may skip rows that another
 transaction has locked, and a mark may be lost, since its error is discarded.
 The state carries a log of the handler calls made and of the delays chosen for each event.
 */
module OutboxProtocol {
  import opened Prelude
  import opened OutboxModel

  const MAX_RETRIES := 10

  /** `1 << n`. */
  function Shift(n: nat): nat {
    if n == 0 then 1 else 2 * Shift(n - 1)
  }

  /** Exponential delay before retry number `retry`: 1, 2, 4, 8, 16 and from then on 32 seconds. */
  function Backoff(retry: int): Time {
    var r := if retry < 1 then 1 else if retry > 6 then 6 else retry;
    Shift(r - 1) * SECOND
  }

  /** The largest extra delay: a quarter of the base. */
  function MaxJitter(retry: int): Time {
    Max(Backoff(retry) / 4, 1)
  }

  // ---------------------------------------------------------------- state and steps

  datatype Outcome = Unhandled | Succeeded | Failed(err: string)

  /** What a worker still has to do: the head of `batch` is current, and its last step was at `since`. */
  datatype Worker = Worker(batch: seq<QueuedEvent>, outcome: Outcome, since: Time)

  /** How a claim selects: its batch size, its clock reading and the rows it finds locked. */
  datatype Pick = Pick(n: nat, at: Time, locked: set<string>)

  datatype Attempt = Attempt(retryCount: int, at: Time, failed: bool)

  datatype State = State(
    rows: Rows, workers: map<nat, Worker>, clock: Time, registered: set<string>,
    attempts: map<string, seq<Attempt>>, delays: map<string, seq<Time>>)

  datatype Step =
    | Advance(to: Time)
    | Insert(p: InsertParams)
    | Claim(w: nat, pick: Pick, batch: seq<QueuedEvent>)
    | Handle(w: nat, err: Option<string>)
    | Mark(w: nat, at: Time, jitter: Time)
    | MarkLost(w: nat)
    | Crash(w: nat)

  /** The rows a claim selects from. */
  function Candidates(rows: Rows, pick: Pick): (ids: set<string>)
    ensures ids <= rows.Keys
  {
    Unlocked(rows, pick.at, pick.locked)
  }

  /** `batch` is the claim that `pick` selects, in some order. */
  ghost predicate IsClaim(rows: Rows, pick: Pick, batch: seq<QueuedEvent>)
    requires WellKeyed(rows)
  {
    && CopiesOf(rows, batch)
    && Ids(batch) == Ids(FirstOf(rows, Candidates(rows, pick), pick.n))
    && (forall i, j :: 0 <= i < j < |batch| ==> batch[i].eventID != batch[j].eventID)
  }

  lemma FirstIsClaim(rows: Rows, pick: Pick)
    requires WellKeyed(rows)
    ensures IsClaim(rows, pick, FirstOf(rows, Candidates(rows, pick), pick.n))
  {
    SortedIdsSize(rows, Listing(rows, Candidates(rows, pick)));
  }

  /** Worker `w` has a current event. */
  predicate Busy(s: State, w: nat) {
    w in s.workers && s.workers[w].batch != []
  }

  /** The handler of the worker's current event has returned, or there is none. */
  predicate ReadyToMark(s: State, w: nat) {
    Busy(s, w) && (s.workers[w].outcome == Unhandled ==> s.workers[w].batch[0].eventType !in s.registered)
  }

  ghost predicate Enabled(s: State, step: Step)
    requires WellKeyed(s.rows)
  {
    match step
    case Advance(to) => s.clock <= to
    case Insert(p) => p.eventID !in s.rows
    case Claim(w, pick, batch) => !Busy(s, w) && pick.at <= s.clock && IsClaim(s.rows, pick, batch)
    case Handle(w, _) =>
      Busy(s, w) && s.workers[w].outcome == Unhandled && s.workers[w].batch[0].eventType in s.registered
    case Mark(w, at, jitter) =>
      && ReadyToMark(s, w)
      && s.workers[w].since <= at <= s.clock
      && 0 <= jitter <= MaxJitter(s.workers[w].batch[0].retryCount + 1)
    case MarkLost(w) => ReadyToMark(s, w)
    case Crash(w) => w in s.workers
  }

  /** The mark a worker issues for event `e` once its handler has returned `outcome`. */
  function MarkRows(rows: Rows, e: QueuedEvent, outcome: Outcome, now: Time, jitter: Time): Rows {
    match outcome
    case Failed(err) =>
      var next := e.retryCount + 1;
      if next >= MAX_RETRIES then MarkFailedRow(rows, e.eventID, now, err)
      else MarkRetryRow(rows, e.eventID, next, now + Backoff(next) + jitter, err)
    case _ => MarkProcessedRow(rows, e.eventID, now)
  }

  /** What a mark leaves of the row `was`, column by column. */
  ghost predicate Marked(was: Row, row: Row, outcome: Outcome, now: Time, jitter: Time) {
    var (e, next) := (was.event, was.event.retryCount + 1);
    match outcome
    case Failed(err) =>
      && row.lastError == err
      && (if next < 10 then
            && row.status == Pending && row.processedAt == was.processedAt
            && row.event == e.(retryCount := next, availableAt := now + Backoff(next) + jitter)
          else row.status == FailedPermanent && row.processedAt == Some(now) && row.event == e)
    case _ => row.status == Processed && row.processedAt == Some(now) && row.event == e && row.lastError == was.lastError
  }

  lemma MarkWrites(rows: Rows, e: QueuedEvent, outcome: Outcome, now: Time, jitter: Time)
    requires e.eventID in rows && rows[e.eventID].event == e
    ensures var rows' := MarkRows(rows, e, outcome, now, jitter);
            OthersStay(rows, rows', e.eventID) && e.eventID in rows'
            && Marked(rows[e.eventID], rows'[e.eventID], outcome, now, jitter)
  {
    hide Backoff;
  }

  function Snoc<T>(m: map<string, seq<T>>, id: string, x: T): map<string, seq<T>> {
    m[id := (if id in m then m[id] else []) + [x]]
  }

  ghost function Apply(s: State, step: Step): State
    requires WellKeyed(s.rows) && Enabled(s, step)
  {
    match step
    case Advance(to) => s.(clock := to)
    case Insert(p) =>
      s.(rows := InsertRow(s.rows, p), attempts := s.attempts[p.eventID := []], delays := s.delays[p.eventID := []])
    case Claim(w, _, batch) =>
      s.(rows := ClaimRows(s.rows, Ids(batch)), workers := s.workers[w := Worker(batch, Unhandled, s.clock)])
    case Handle(w, err) =>
      var e := s.workers[w].batch[0];
      var outcome := if err.None? then Succeeded else Failed(err.value);
      s.(workers := s.workers[w := Worker(s.workers[w].batch, outcome, s.clock)],
         attempts := Snoc(s.attempts, e.eventID, Attempt(e.retryCount, s.clock, err.Some?)))
    case Mark(w, at, jitter) =>
      var e := s.workers[w].batch[0];
      var outcome := s.workers[w].outcome;
      var next := e.retryCount + 1;
      s.(rows := MarkRows(s.rows, e, outcome, at, jitter),
         workers := s.workers[w := Worker(s.workers[w].batch[1..], Unhandled, s.clock)],
         delays := if outcome.Failed? && next < MAX_RETRIES then Snoc(s.delays, e.eventID, Backoff(next) + jitter)
                   else s.delays)
    case MarkLost(w) =>
      s.(workers := s.workers[w := Worker(s.workers[w].batch[1..], Unhandled, s.clock)])
    case Crash(w) => s.(workers := s.workers - {w})
  }

  function Init(clock: Time, registered: set<string>): State {
    State(map[], map[], clock, registered, map[], map[])
  }

  // ---------------------------------------------------------------- invariant

  /** The delay chosen before retry number `retry` is the backoff plus at most a quarter. */
  predicate DelayInRange(retry: int, d: Time) {
    Backoff(retry) <= d <= Backoff(retry) + MaxJitter(retry)
  }

  /**
   The life of one event: the k-th handler call was for RetryCount k, every call but the
   last failed, each one waited for the delay chosen after the one before, and the status
   says how far it got.
   */
  ghost predicate History(row: Row, a: seq<Attempt>, d: seq<Time>, clock: Time, registered: set<string>) {
    var rc := row.event.retryCount;
    && 0 <= rc < MAX_RETRIES
    && rc == |d| <= |a| <= rc + 1
    && (forall k :: 0 <= k < |a| ==> a[k].retryCount == k && a[k].at <= clock)
    && (forall k :: 0 <= k < rc ==> a[k].failed && DelayInRange(k + 1, d[k]))
    && (forall j, k :: 0 <= j < |a| - 1 && k == j + 1 ==> a[j].at + d[j] <= a[k].at)
    && (rc > 0 ==> a[rc - 1].at + d[rc - 1] <= row.event.availableAt)
    && (row.status == Pending ==> |a| == rc)
    && (row.status != Pending ==> row.event.availableAt <= clock)
    && (row.status == Processed ==> if |a| == rc then row.event.eventType !in registered else !a[rc].failed)
    && (row.status == FailedPermanent ==> rc == MAX_RETRIES - 1 && |a| == MAX_RETRIES && a[rc].failed)
  }

  ghost predicate HistoryOf(s: State, id: string)
    requires id in s.rows && s.rows.Keys == s.attempts.Keys == s.delays.Keys
  {
    History(s.rows[id], s.attempts[id], s.delays[id], s.clock, s.registered)
  }

  /** The i-th event worker `w` holds is being processed, and its log agrees with `w`'s progress. */
  ghost predicate Holds(s: State, w: nat, i: int) {
    w in s.workers && 0 <= i < |s.workers[w].batch| ==>
      var e := s.workers[w].batch[i];
      && e.eventID in s.rows && e.eventID in s.attempts
      && s.rows[e.eventID].status == Processing && s.rows[e.eventID].event == e
      && var a := s.attempts[e.eventID];
      if i > 0 || s.workers[w].outcome == Unhandled then |a| == e.retryCount
      else
        && |a| == e.retryCount + 1 && |a| > 0
        && a[|a| - 1].failed == s.workers[w].outcome.Failed? && a[|a| - 1].at <= s.workers[w].since
  }

  /** The event at place `i` of worker `w`'s batch. */
  predicate At(s: State, w: nat, i: int, id: string) {
    w in s.workers && 0 <= i < |s.workers[w].batch| && s.workers[w].batch[i].eventID == id
  }

  /** No event is in two places of the workers' batches. */
  ghost predicate Exclusive(s: State) {
    forall w, v, i, j, id :: At(s, w, i, id) && At(s, v, j, id) ==> w == v && i == j
  }

  ghost predicate Logged(s: State) {
    && WellKeyed(s.rows)
    && s.rows.Keys == s.attempts.Keys == s.delays.Keys
    && (forall id :: id in s.rows ==> HistoryOf(s, id))
  }

  ghost predicate Held(s: State) {
    && (forall w, i :: Holds(s, w, i))
    && (forall w :: w in s.workers ==> s.workers[w].since <= s.clock)
    && (forall w :: w in s.workers && s.workers[w].batch == [] ==> s.workers[w].outcome == Unhandled)
    && Exclusive(s)
  }

  ghost predicate Inv(s: State) { Logged(s) && Held(s) }

  lemma InitInv(clock: Time, registered: set<string>)
    ensures Inv(Init(clock, registered))
  {
  }

  // What one step does to the history of the event it touches.

  lemma LaterHistory(row: Row, a: seq<Attempt>, d: seq<Time>, clock: Time, registered: set<string>, to: Time)
    requires History(row, a, d, clock, registered) && clock <= to
    ensures History(row, a, d, to, registered)
  {
    hide DelayInRange;
  }

  lemma NewHistory(p: InsertParams, clock: Time, registered: set<string>)
    ensures History(InsertRow(map[], p)[p.eventID], [], [], clock, registered)
  {
  }

  lemma ClaimedHistory(row: Row, a: seq<Attempt>, d: seq<Time>, clock: Time, registered: set<string>)
    requires History(row, a, d, clock, registered)
    requires row.status == Pending && row.event.availableAt <= clock
    ensures History(row.(status := Processing), a, d, clock, registered)
  {
    hide DelayInRange;
  }

  lemma HandledHistory(row: Row, a: seq<Attempt>, d: seq<Time>, clock: Time, registered: set<string>, failed: bool)
    requires History(row, a, d, clock, registered)
    requires row.status == Processing && |a| == row.event.retryCount
    ensures History(row, a + [Attempt(row.event.retryCount, clock, failed)], d, clock, registered)
  {
    hide DelayInRange;
  }

  lemma ProcessedHistory(row: Row, a: seq<Attempt>, d: seq<Time>, clock: Time, registered: set<string>, at: Option<Time>)
    requires History(row, a, d, clock, registered) && row.status == Processing
    requires if |a| == row.event.retryCount then row.event.eventType !in registered else !a[|a| - 1].failed
    ensures History(row.(status := Processed, processedAt := at), a, d, clock, registered)
  {
    hide DelayInRange;
  }

  lemma FailedHistory(row: Row, a: seq<Attempt>, d: seq<Time>, clock: Time, registered: set<string>,
                      at: Option<Time>, err: string)
    requires History(row, a, d, clock, registered) && row.status == Processing
    requires row.event.retryCount + 1 >= MAX_RETRIES && |a| == row.event.retryCount + 1 && a[|a| - 1].failed
    ensures History(row.(status := FailedPermanent, lastError := err, processedAt := at), a, d, clock, registered)
  {
    hide DelayInRange;
  }

  lemma RetriedHistory(row: Row, a: seq<Attempt>, d: seq<Time>, clock: Time, registered: set<string>,
                       at: Time, delay: Time, err: string)
    requires History(row, a, d, clock, registered) && row.status == Processing
    requires row.event.retryCount + 1 < MAX_RETRIES && |a| == row.event.retryCount + 1 && a[|a| - 1].failed
    requires DelayInRange(row.event.retryCount + 1, delay) && a[|a| - 1].at <= at
    ensures var event := row.event.(retryCount := row.event.retryCount + 1, availableAt := at + delay);
            History(row.(status := Pending, lastError := err, event := event), a, d + [delay], clock, registered)
  {
    hide DelayInRange;
  }

  lemma ClaimedAreDue(s: State, pick: Pick, batch: seq<QueuedEvent>)
    requires WellKeyed(s.rows) && pick.at <= s.clock && IsClaim(s.rows, pick, batch)
    ensures Ids(batch) <= Candidates(s.rows, pick) <= Due(s.rows, s.clock)
  {
    forall id | id in Ids(batch) ensures id in Candidates(s.rows, pick) {
      TakenExactlyTheLeast(s.rows, Candidates(s.rows, pick), pick.n, id);
    }
  }

  lemma ClaimKeepsLog(s: State, w: nat, pick: Pick, batch: seq<QueuedEvent>)
    requires Logged(s) && Enabled(s, Claim(w, pick, batch))
    ensures Logged(Apply(s, Claim(w, pick, batch)))
  {
    hide IsClaim, History;
    ClaimedAreDue(s, pick, batch);
    var s' := Apply(s, Claim(w, pick, batch));
    forall id | id in s.rows ensures HistoryOf(s', id) {
      assert HistoryOf(s, id);
      if id in Ids(batch) { ClaimedHistory(s.rows[id], s.attempts[id], s.delays[id], s.clock, s.registered); }
    }
  }

  lemma ClaimKeepsHeld(s: State, w: nat, pick: Pick, batch: seq<QueuedEvent>)
    requires Inv(s) && Enabled(s, Claim(w, pick, batch))
    ensures Held(Apply(s, Claim(w, pick, batch)))
  {
    ClaimedAreDue(s, pick, batch);
    hide IsClaim, Candidates, History, HistoryOf;
    var s' := Apply(s, Claim(w, pick, batch));
    forall v, i ensures Holds(s', v, i) {
      ClaimKeepsHolds(s, w, pick, batch, v, i);
    }
    forall x, v, i, j, id | At(s', x, i, id) && At(s', v, j, id) ensures x == v && i == j {
      ClaimKeepsExclusive(s, w, pick, batch, x, v, i, j, id);
    }
  }

  lemma ClaimKeepsExclusive(s: State, w: nat, pick: Pick, batch: seq<QueuedEvent>, x: nat, v: nat, i: int, j: int, id: string)
    requires Inv(s) && Enabled(s, Claim(w, pick, batch)) && Ids(batch) <= Due(s.rows, s.clock)
    requires At(Apply(s, Claim(w, pick, batch)), x, i, id) && At(Apply(s, Claim(w, pick, batch)), v, j, id)
    ensures x == v && i == j
  {
    hide FirstOf, Candidates, History, HistoryOf;
    assert Holds(s, x, i) && Holds(s, v, j);
    if x == w { assert batch[i].eventID in Ids(batch); } else { assert At(s, x, i, id); }
    if v == w { assert batch[j].eventID in Ids(batch); } else { assert At(s, v, j, id); }
  }

  lemma ClaimKeepsHolds(s: State, w: nat, pick: Pick, batch: seq<QueuedEvent>, v: nat, i: int)
    requires Inv(s) && Enabled(s, Claim(w, pick, batch)) && Ids(batch) <= Due(s.rows, s.clock)
    ensures Holds(Apply(s, Claim(w, pick, batch)), v, i)
  {
    hide FirstOf, Candidates, DelayInRange, Exclusive;
    assert Holds(s, v, i);
    if v == w && 0 <= i < |batch| {
      assert batch[i].eventID in Ids(batch) && HistoryOf(s, batch[i].eventID);
    }
  }

  /** A step that only touches event `id`'s row and log. */
  lemma OneEventKeepsLog(s: State, s': State, id: string)
    requires Logged(s) && id in s.rows
    requires s'.clock == s.clock && s'.registered == s.registered
    requires s'.rows.Keys == s'.attempts.Keys == s'.delays.Keys == s.rows.Keys
    requires forall x :: x in s.rows && x != id ==>
                           s'.rows[x] == s.rows[x] && s'.attempts[x] == s.attempts[x] && s'.delays[x] == s.delays[x]
    requires s'.rows[id].event.eventID == id && HistoryOf(s', id)
    ensures Logged(s')
  {
    hide History;
    forall x | x in s.rows && x != id ensures HistoryOf(s', x) {
      assert HistoryOf(s, x);
    }
  }

  lemma HandleKeepsLog(s: State, w: nat, err: Option<string>)
    requires Inv(s) && Enabled(s, Handle(w, err))
    ensures Logged(Apply(s, Handle(w, err)))
  {
    hide History, Exclusive;
    var s' := Apply(s, Handle(w, err));
    var id := s.workers[w].batch[0].eventID;
    assert Holds(s, w, 0) && HistoryOf(s, id);
    HandledHistory(s.rows[id], s.attempts[id], s.delays[id], s.clock, s.registered, err.Some?);
    OneEventKeepsLog(s, s', id);
  }

  lemma HandleKeepsHeld(s: State, w: nat, err: Option<string>)
    requires Inv(s) && Enabled(s, Handle(w, err))
    ensures Held(Apply(s, Handle(w, err)))
  {
    hide History, HistoryOf;
    var s' := Apply(s, Handle(w, err));
    var id := s.workers[w].batch[0].eventID;
    assert At(s, w, 0, id);
    forall v, i ensures Holds(s', v, i) {
      assert Holds(s, v, i) && Holds(s, w, 0);
      assert At(s, v, i, id) ==> v == w && i == 0;
    }
    forall x, v, i, j, y | At(s', x, i, y) && At(s', v, j, y) ensures x == v && i == j {
      assert At(s, x, i, y) && At(s, v, j, y);
    }
  }

  lemma MarkedHistory(row: Row, a: seq<Attempt>, d: seq<Time>, clock: Time, registered: set<string>,
                      outcome: Outcome, at: Time, jitter: Time)
    requires History(row, a, d, clock, registered) && row.status == Processing
    requires if outcome == Unhandled then |a| == row.event.retryCount && row.event.eventType !in registered
             else |a| == row.event.retryCount + 1 && a[|a| - 1].failed == outcome.Failed? && a[|a| - 1].at <= at
    requires 0 <= jitter <= MaxJitter(row.event.retryCount + 1)
    ensures var id, next := row.event.eventID, row.event.retryCount + 1;
            History(MarkRows(map[id := row], row.event, outcome, at, jitter)[id], a,
                    if outcome.Failed? && next < MAX_RETRIES then d + [Backoff(next) + jitter] else d,
                    clock, registered)
  {
    var next := row.event.retryCount + 1;
    assert DelayInRange(next, Backoff(next) + jitter);
    hide DelayInRange, Backoff, MaxJitter;
    match outcome
    case Failed(err) =>
      if next >= MAX_RETRIES {
        FailedHistory(row, a, d, clock, registered, Some(at), err);
      } else {
        RetriedHistory(row, a, d, clock, registered, at, Backoff(next) + jitter, err);
        assert at + Backoff(next) + jitter == at + (Backoff(next) + jitter);
      }
    case _ => ProcessedHistory(row, a, d, clock, registered, Some(at));
  }

  lemma MarkKeepsLog(s: State, w: nat, at: Time, jitter: Time)
    requires Inv(s) && Enabled(s, Mark(w, at, jitter))
    ensures Logged(Apply(s, Mark(w, at, jitter)))
  {
    hide Exclusive, History, Backoff, MaxJitter;
    var s' := Apply(s, Mark(w, at, jitter));
    var id := s.workers[w].batch[0].eventID;
    assert Holds(s, w, 0) && HistoryOf(s, id);
    MarkedHistory(s.rows[id], s.attempts[id], s.delays[id], s.clock, s.registered, s.workers[w].outcome, at, jitter);
    OneEventKeepsLog(s, s', id);
  }

  lemma MarkKeepsHeld(s: State, w: nat, at: Time, jitter: Time)
    requires Inv(s) && Enabled(s, Mark(w, at, jitter))
    ensures Held(Apply(s, Mark(w, at, jitter)))
  {
    hide History, HistoryOf, Backoff;
    var s' := Apply(s, Mark(w, at, jitter));
    var id := s.workers[w].batch[0].eventID;
    assert At(s, w, 0, id);
    forall v, i ensures Holds(s', v, i) {
      var k := if v == w then i + 1 else i;
      assert Holds(s, v, k);
      assert At(s, v, k, id) ==> v == w && k == 0;
    }
    forall x, v, i, j, y | At(s', x, i, y) && At(s', v, j, y) ensures x == v && i == j {
      assert At(s, x, if x == w then i + 1 else i, y);
      assert At(s, v, if v == w then j + 1 else j, y);
    }
  }

  lemma OtherStepKeepsLog(s: State, step: Step)
    requires Logged(s) && Enabled(s, step) && (step.Advance? || step.Insert? || step.Crash? || step.MarkLost?)
    ensures Logged(Apply(s, step))
  {
    hide History, IsClaim, Backoff;
    var s' := Apply(s, step);
    if step.Insert? { NewHistory(step.p, s.clock, s.registered); }
    forall id | id in s.rows ensures HistoryOf(s', id) {
      assert HistoryOf(s, id);
      LaterHistory(s.rows[id], s.attempts[id], s.delays[id], s.clock, s.registered, s'.clock);
    }
  }

  lemma OtherStepKeepsHeld(s: State, step: Step)
    requires Inv(s) && Enabled(s, step) && (step.Advance? || step.Insert? || step.Crash?)
    ensures Held(Apply(s, step))
  {
    hide History, HistoryOf;
    var s' := Apply(s, step);
    forall v, i ensures Holds(s', v, i) {
      assert Holds(s, v, i);
    }
    forall x, v, i, j, y | At(s', x, i, y) && At(s', v, j, y) ensures x == v && i == j {
      assert At(s, x, i, y) && At(s, v, j, y);
    }
  }

  lemma MarkLostKeepsHeld(s: State, w: nat)
    requires Inv(s) && Enabled(s, MarkLost(w))
    ensures Held(Apply(s, MarkLost(w)))
  {
    hide History, HistoryOf;
    var s' := Apply(s, MarkLost(w));
    forall v, i ensures Holds(s', v, i) {
      assert Holds(s, v, if v == w then i + 1 else i);
    }
    forall x, v, i, j, y | At(s', x, i, y) && At(s', v, j, y) ensures x == v && i == j {
      assert At(s, x, if x == w then i + 1 else i, y);
      assert At(s, v, if v == w then j + 1 else j, y);
    }
  }

  /** Every step keeps the invariant, whichever worker takes it. */
  lemma StepKeepsInv(s: State, step: Step)
    requires Inv(s) && Enabled(s, step)
    ensures Inv(Apply(s, step))
  {
    hide Logged, Held;
    match step
    case Claim(w, pick, batch) =>
      ClaimKeepsLog(s, w, pick, batch);
      ClaimKeepsHeld(s, w, pick, batch);
    case Handle(w, err) =>
      HandleKeepsLog(s, w, err);
      HandleKeepsHeld(s, w, err);
    case Mark(w, at, jitter) =>
      MarkKeepsLog(s, w, at, jitter);
      MarkKeepsHeld(s, w, at, jitter);
    case MarkLost(w) =>
      OtherStepKeepsLog(s, step);
      MarkLostKeepsHeld(s, w);
    case _ =>
      OtherStepKeepsLog(s, step);
      OtherStepKeepsHeld(s, step);
  }
}

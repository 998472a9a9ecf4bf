/** How long a due event waits to be claimed. */
module OutboxWait {
  import opened Prelude
  import opened OutboxModel
  import opened OutboxProtocol
  import opened OutboxRuns

  function PendingIds(rows: Rows): set<string> {
    set id | id in rows && rows[id].status == Pending
  }

  /** How many pending events sort before `id`. */
  ghost function Rank(rows: Rows, id: string): nat
    requires id in rows
  {
    |Ahead(rows, PendingIds(rows), id)|
  }

  predicate Waiting(s: State, id: string) {
    id in s.rows && s.rows[id].status == Pending && s.rows[id].event.availableAt <= s.clock
  }

  // ---------------------------------------------------------------- what helps and what delays

  /** A claim that could take event `e`: read late enough, and `e` is not locked. */
  predicate Able(step: Step, e: QueuedEvent) {
    step.Claim? && e.availableAt <= step.pick.at && e.eventID !in step.pick.locked
  }

  /** ... and that finds nothing else locked either. */
  predicate Plain(step: Step, e: QueuedEvent) { Able(step, e) && step.pick.locked == {} }

  /** How many events such a claim could take. */
  function Room(step: Step, e: QueuedEvent): nat { if Able(step, e) then step.pick.n else 0 }

  /** How many events the able claims among the first `k` steps could take. */
  function Capacity(steps: seq<Step>, k: nat, e: QueuedEvent): nat
    requires k <= |steps|
  {
    if k == 0 then 0 else Room(steps[0], e) + Capacity(steps[1..], k - 1, e)
  }

  function Claims(steps: seq<Step>, k: nat): nat
    requires k <= |steps|
  {
    if k == 0 then 0 else (if steps[0].Claim? then 1 else 0) + Claims(steps[1..], k - 1)
  }

  /** The event a step makes pending: an inserted one, or one whose failure is retried. */
  function Newcomer(s: State, step: Step): Option<QueuedEvent> {
    match step
    case Insert(p) => Some(InsertRow(map[], p)[p.eventID].event)
    case Mark(w, at, jitter) =>
      if Busy(s, w) && s.workers[w].outcome.Failed? then
        var e := s.workers[w].batch[0];
        var next := e.retryCount + 1;
        if next >= MAX_RETRIES then None
        else Some(e.(retryCount := next, availableAt := at + Backoff(next) + jitter))
      else None
    case _ => None
  }

  /** The step lets an event in ahead of `e`. */
  predicate Overtakes(s: State, step: Step, e: QueuedEvent) {
    Newcomer(s, step).Some? && Before(Newcomer(s, step).value, e)
  }

  /** How many events the first `k` steps let in ahead of `e`. */
  ghost function Overtakers(s: State, steps: seq<Step>, k: nat, e: QueuedEvent): nat
    requires Inv(s) && IsRun(s, steps) && k <= |steps|
    decreases k
  {
    if k == 0 then 0
    else
      StepKeepsInv(s, steps[0]);
      (if Overtakes(s, steps[0], e) then 1 else 0) + Overtakers(Apply(s, steps[0]), steps[1..], k - 1, e)
  }

  /**
   A retried event is due at least a second after the clock reading of its mark, so it overtakes nothing
   that was due by that reading.
   */
  lemma RetriesReenterLater(s: State, w: nat, at: Time, jitter: Time, e: QueuedEvent)
    requires Inv(s) && Enabled(s, Step.Mark(w, at, jitter))
    ensures var newcomer := Newcomer(s, Step.Mark(w, at, jitter));
            newcomer.Some? ==> newcomer.value.availableAt >= at + SECOND
    ensures e.availableAt <= at ==> !Overtakes(s, Step.Mark(w, at, jitter), e)
  {
    hide Inv, Backoff, MaxJitter;
    BackoffIsAtLeastASecond(s.workers[w].batch[0].retryCount + 1);
  }

  lemma StatusAtShifts(s: State, steps: seq<Step>, k: nat, id: string)
    requires Inv(s) && IsRun(s, steps) && k <= |steps| && steps != []
    ensures Inv(Apply(s, steps[0])) && IsRun(Apply(s, steps[0]), steps[1..])
    ensures k == 0 ==> StatusAt(s, steps, k, id) == StatusOf(s.rows, id)
    ensures k == 1 ==> StatusAt(s, steps, k, id) == StatusOf(Apply(s, steps[0]).rows, id)
    ensures k > 0 ==> StatusAt(s, steps, k, id) == StatusAt(Apply(s, steps[0]), steps[1..], k - 1, id)
  {
    StepKeepsInv(s, steps[0]);
  }

  lemma FirstStep(s: State, steps: seq<Step>, id: string)
    requires Inv(s) && IsRun(s, steps) && steps != []
    ensures WellKeyed(s.rows) && Enabled(s, steps[0])
    ensures Inv(Apply(s, steps[0])) && IsRun(Apply(s, steps[0]), steps[1..])
    ensures StatusAt(s, steps, 0, id) == StatusOf(s.rows, id)
    ensures StatusAt(s, steps, 1, id) == StatusOf(Apply(s, steps[0]).rows, id)
  {
    StatusAtShifts(s, steps, 0, id);
    StatusAtShifts(s, steps, 1, id);
  }

  /** The event is pending through the first `k` steps, and step `k` takes it. */
  ghost predicate TakenBy(s: State, steps: seq<Step>, k: nat, id: string)
    requires Inv(s) && IsRun(s, steps)
  {
    && k < |steps| && steps[k].Claim?
    && (forall j :: 0 <= j <= k ==> StatusAt(s, steps, j, id) == Some(Pending))
    && StatusAt(s, steps, k + 1, id) == Some(Processing)
  }

  lemma TakenByShifts(s: State, steps: seq<Step>, k: nat, id: string)
    requires Inv(s) && IsRun(s, steps) && steps != [] && Inv(Apply(s, steps[0]))
    requires StatusOf(s.rows, id) == Some(Pending)
    requires IsRun(Apply(s, steps[0]), steps[1..]) && TakenBy(Apply(s, steps[0]), steps[1..], k, id)
    ensures TakenBy(s, steps, k + 1, id)
  {
    assert WellKeyed(s.rows) && Enabled(s, steps[0]);
    hide Inv, Enabled, Apply, IsRun, StatusAt;
    forall j | 0 <= j <= k + 1 ensures StatusAt(s, steps, j, id) == Some(Pending) {
      PendingShifts(s, steps, k, j, id);
    }
    StatusAtShifts(s, steps, k + 2, id);
  }

  lemma PendingShifts(s: State, steps: seq<Step>, k: nat, j: nat, id: string)
    requires Inv(s) && IsRun(s, steps) && steps != [] && Inv(Apply(s, steps[0])) && j <= k + 1
    requires StatusOf(s.rows, id) == Some(Pending)
    requires IsRun(Apply(s, steps[0]), steps[1..]) && TakenBy(Apply(s, steps[0]), steps[1..], k, id)
    ensures j <= |steps| && StatusAt(s, steps, j, id) == Some(Pending)
  {
    assert WellKeyed(s.rows) && Enabled(s, steps[0]);
    hide Inv, Enabled, Apply, IsRun, StatusAt;
    StatusAtShifts(s, steps, j, id);
  }

  // ---------------------------------------------------------------- one step

  lemma WaitingRankIsDueRank(rows: Rows, at: Time, id: string)
    requires id in rows && rows[id].event.availableAt <= at
    ensures Ahead(rows, PendingIds(rows), id) == Ahead(rows, Due(rows, at), id)
  {
  }

  lemma AheadGrows(rows: Rows, ids: set<string>, id: string, x: string)
    requires ids <= rows.Keys && id in ids && x in ids && Before(rows[id].event, rows[x].event)
    ensures |Ahead(rows, ids, id)| <= |Ahead(rows, ids, x)|
  {
    forall y | y in Ahead(rows, ids, id) ensures y in Ahead(rows, ids, x) {
      BeforeTransitive(rows[y].event, rows[id].event, rows[x].event);
    }
    SubsetSize(Ahead(rows, ids, id), Ahead(rows, ids, x));
  }

  /** What is taken, when `id` itself is not, sorts before it. */
  lemma TakenAreAhead(rows: Rows, ids: set<string>, n: nat, id: string)
    requires WellKeyed(rows) && ids <= rows.Keys && id in ids && |Ahead(rows, ids, id)| >= n
    ensures Ids(FirstOf(rows, ids, n)) <= Ahead(rows, ids, id) && |Ids(FirstOf(rows, ids, n))| == n
  {
    TakenSize(rows, ids, n);
    SubsetSize(Ahead(rows, ids, id), ids);
    forall x | x in Ids(FirstOf(rows, ids, n)) ensures x in Ahead(rows, ids, id) {
      TakenExactlyTheLeast(rows, ids, n, x);
      BeforeIsTotal(rows[x].event, rows[id].event);
      if Before(rows[id].event, rows[x].event) {
        AheadGrows(rows, ids, id, x);
      }
    }
  }

  /** Taking some rows lowers the rank of another by the number of those ahead of it. */
  lemma ClaimRemovesAhead(rows: Rows, ids: set<string>, id: string)
    requires id in rows && ids <= PendingIds(rows)
    ensures Rank(ClaimRows(rows, ids), id) <= Rank(rows, id)
    ensures ids <= Ahead(rows, PendingIds(rows), id) ==> Rank(ClaimRows(rows, ids), id) == Rank(rows, id) - |ids|
  {
    var rows' := ClaimRows(rows, ids);
    assert Ahead(rows', PendingIds(rows'), id) == Ahead(rows, PendingIds(rows), id) - ids;
    SubsetSize(Ahead(rows, PendingIds(rows), id) - ids, Ahead(rows, PendingIds(rows), id));
  }

  lemma ClaimedIds(s: State, w: nat, pick: Pick, batch: seq<QueuedEvent>)
    requires Inv(s) && Enabled(s, Claim(w, pick, batch))
    ensures WellKeyed(s.rows) && Ids(batch) == Ids(FirstOf(s.rows, Candidates(s.rows, pick), pick.n))
    ensures Ids(batch) <= PendingIds(s.rows)
  {
    ClaimedAreDue(s, pick, batch);
  }

  /** Whether a claim takes a waiting event, and its rank afterwards if not. */
  lemma ClaimLowersRank(s: State, w: nat, pick: Pick, batch: seq<QueuedEvent>, id: string)
    requires Inv(s) && Enabled(s, Claim(w, pick, batch)) && Waiting(s, id)
    ensures var (step, e) := (Claim(w, pick, batch), s.rows[id].event);
            var s' := Apply(s, step);
            && (id in Ids(batch) ==> id in s'.rows && s'.rows[id].status == Processing && Able(step, e))
            && (Able(step, e) && Rank(s.rows, id) < pick.n ==> id in Ids(batch))
            && (Plain(step, e) && Rank(s.rows, id) >= pick.n ==> id !in Ids(batch))
            && (id !in Ids(batch) ==>
                  && Waiting(s', id) && s'.rows[id] == s.rows[id]
                  && Rank(s'.rows, id) <= Rank(s.rows, id)
                  && (Able(step, e) ==> Rank(s'.rows, id) == Rank(s.rows, id) - pick.n))
  {
    hide IsClaim, Rank, Ahead, FirstOf, History, HistoryOf, Holds, Exclusive;
    ClaimedIds(s, w, pick, batch);
    assert s.rows[id].event.eventID == id;
    ClaimTakesById(s.rows, pick, id);
    ClaimRemovesAhead(s.rows, Ids(batch), id);
  }

  lemma ClaimTakesById(rows: Rows, pick: Pick, id: string)
    requires WellKeyed(rows) && id in rows && rows[id].status == Pending
    ensures var taken := Ids(FirstOf(rows, Candidates(rows, pick), pick.n));
            var able := rows[id].event.availableAt <= pick.at && id !in pick.locked;
            && (id in taken ==> able)
            && (able && Rank(rows, id) < pick.n ==> id in taken)
            && (able && pick.locked == {} && Rank(rows, id) >= pick.n ==> id !in taken)
            && (able && id !in taken ==> taken <= Ahead(rows, PendingIds(rows), id) && |taken| == pick.n)
  {
    hide FirstOf;
    var cands := Candidates(rows, pick);
    TakenExactlyTheLeast(rows, cands, pick.n, id);
    if id in cands {
      var (some, all) := (Ahead(rows, cands, id), Ahead(rows, PendingIds(rows), id));
      WaitingRankIsDueRank(rows, pick.at, id);
      SubsetSize(some, all);
      assert pick.locked == {} ==> some == all;
      if |some| >= pick.n { TakenAreAhead(rows, cands, pick.n, id); }
    }
  }

  /** A step that is no claim changes a waiting event's rank exactly by the newcomer it lets in ahead. */
  lemma OtherStepRank(s: State, step: Step, id: string)
    requires Inv(s) && Enabled(s, step) && Waiting(s, id) && !step.Claim?
    ensures var s' := Apply(s, step);
            && Waiting(s', id) && s'.rows[id] == s.rows[id]
            && Rank(s'.rows, id) == Rank(s.rows, id) + if Overtakes(s, step, s.rows[id].event) then 1 else 0
  {
    hide History, HistoryOf, Holds, Exclusive, Backoff, MaxJitter, Rank, Before;
    match step
    case Insert(p) =>
      NewRowRank(s.rows, Apply(s, step).rows, p.eventID, id);
    case Mark(w, at, jitter) =>
      MarkRank(s, w, at, jitter, id);
    case _ =>
  }

  lemma MarkRank(s: State, w: nat, at: Time, jitter: Time, id: string)
    requires Inv(s) && Enabled(s, Step.Mark(w, at, jitter)) && Waiting(s, id)
    ensures var step := Step.Mark(w, at, jitter);
            var s' := Apply(s, step);
            && Waiting(s', id) && s'.rows[id] == s.rows[id]
            && Rank(s'.rows, id) == Rank(s.rows, id) + if Overtakes(s, step, s.rows[id].event) then 1 else 0
  {
    hide Rank, Before, Overtakes, History, HistoryOf, Holds, Exclusive, Backoff, MaxJitter, MarkRows;
    var step := Step.Mark(w, at, jitter);
    MarkChangesOneRow(s, w, at, jitter);
    var x := s.workers[w].batch[0].eventID;
    NewRowRank(s.rows, Apply(s, step).rows, x, id);
    MarkOvertakes(s, w, at, jitter, s.rows[id].event);
  }

  lemma MarkChangesOneRow(s: State, w: nat, at: Time, jitter: Time)
    requires Inv(s) && Enabled(s, Step.Mark(w, at, jitter))
    ensures var (x, s') := (s.workers[w].batch[0].eventID, Apply(s, Step.Mark(w, at, jitter)));
            && x in s.rows && s.rows[x].status == Processing && s'.rows.Keys == s.rows.Keys && s'.clock == s.clock
            && forall y :: y in s.rows && y != x ==> s'.rows[y] == s.rows[y]
  {
    hide History, HistoryOf, Exclusive, Backoff, MaxJitter;
    assert Holds(s, w, 0);
  }

  lemma MarkOvertakes(s: State, w: nat, at: Time, jitter: Time, e: QueuedEvent)
    requires Inv(s) && Enabled(s, Step.Mark(w, at, jitter))
    ensures var (x, s') := (s.workers[w].batch[0].eventID, Apply(s, Step.Mark(w, at, jitter)));
            x in s'.rows && (Overtakes(s, Step.Mark(w, at, jitter), e) <==> s'.rows[x].status == Pending && Before(s'.rows[x].event, e))
  {
    hide History, HistoryOf, Exclusive, Backoff, MaxJitter, Before;
    assert Holds(s, w, 0);
  }

  lemma PendingPlus(rows: Rows, rows': Rows, x: string)
    requires x in rows' && rows'.Keys == rows.Keys + {x} && (x in rows ==> rows[x].status != Pending)
    requires forall y :: y in rows && y != x ==> rows'[y] == rows[y]
    ensures PendingIds(rows') == PendingIds(rows) + if rows'[x].status == Pending then {x} else {}
    ensures x !in PendingIds(rows) && PendingIds(rows) <= rows.Keys && PendingIds(rows) <= rows'.Keys
  {
  }

  lemma AheadSame(rows: Rows, rows': Rows, ids: set<string>, id: string)
    requires id in rows && id in rows' && ids <= rows.Keys && ids <= rows'.Keys && rows'[id] == rows[id]
    requires forall y :: y in ids ==> rows'[y] == rows[y]
    ensures Ahead(rows', ids, id) == Ahead(rows, ids, id)
  {
    hide Before;
  }

  lemma AheadPlus(rows: Rows, ids: set<string>, x: string, id: string)
    requires id in rows && x in rows && ids <= rows.Keys && x !in ids
    ensures Ahead(rows, ids + {x}, id) == Ahead(rows, ids, id) + if Before(rows[x].event, rows[id].event) then {x} else {}
    ensures x !in Ahead(rows, ids, id)
  {
    hide Before;
  }

  /** Only row `x` changes, and it was not pending. */
  lemma NewRowRank(rows: Rows, rows': Rows, x: string, id: string)
    requires id in rows && x in rows' && x != id && rows'.Keys == rows.Keys + {x}
    requires x in rows ==> rows[x].status != Pending
    requires forall y :: y in rows && y != x ==> rows'[y] == rows[y]
    ensures Rank(rows', id)
            == Rank(rows, id) + if rows'[x].status == Pending && Before(rows'[x].event, rows[id].event) then 1 else 0
  {
    hide Before, Ahead, PendingIds;
    var ids := PendingIds(rows);
    PendingPlus(rows, rows', x);
    AheadSame(rows, rows', ids, id);
    AheadPlus(rows', ids, x, id);
  }

  /** One step of a waiting event: taken by an able claim, or its rank is accounted for. */
  lemma WaitingStep(s: State, step: Step, id: string)
    requires Inv(s) && Enabled(s, step) && Waiting(s, id)
    ensures var (s', e) := (Apply(s, step), s.rows[id].event);
            var overtaken := if Overtakes(s, step, e) then 1 else 0;
            && id in s'.rows
            && (s'.rows[id].status == Processing ==> Able(step, e))
            && (Able(step, e) && Rank(s.rows, id) < step.pick.n ==> s'.rows[id].status == Processing)
            && (Plain(step, e) && Rank(s.rows, id) >= step.pick.n ==> s'.rows[id].status != Processing)
            && (s'.rows[id].status != Processing ==>
                  && Waiting(s', id) && s'.rows[id] == s.rows[id]
                  && Rank(s'.rows, id) + Room(step, e) <= Rank(s.rows, id) + overtaken
                  && (step.Claim? ==> overtaken == 0)
                  && (!step.Claim? || Able(step, e) ==> Rank(s'.rows, id) + Room(step, e) == Rank(s.rows, id) + overtaken))
  {
    hide Rank, Before, History, HistoryOf, Holds, Exclusive, Backoff, MaxJitter, IsClaim;
    if step.Claim? {
      ClaimLowersRank(s, step.w, step.pick, step.batch, id);
    } else {
      OtherStepRank(s, step, id);
    }
  }

  // ---------------------------------------------------------------- bounded wait

  /** No claim finds anything locked or is read too early. */
  ghost predicate AllPlain(steps: seq<Step>, e: QueuedEvent) {
    forall j :: 0 <= j < |steps| && steps[j].Claim? ==> Plain(steps[j], e)
  }

  /**
   In any run a waiting event is taken at the latest by the claim with which the capacity of the claims able to
   take it exceeds its rank plus the number of events let in ahead of it. If every claim is plain, it is taken by
   exactly that claim.
   */
  lemma {:induction false} BoundedWait(s: State, steps: seq<Step>, id: string, m: nat) returns (k: nat)
    requires Inv(s) && IsRun(s, steps) && Waiting(s, id) && m <= |steps|
    requires Capacity(steps, m, s.rows[id].event) > Rank(s.rows, id) + Overtakers(s, steps, m, s.rows[id].event)
    ensures var e := s.rows[id].event;
            && k < m && TakenBy(s, steps, k, id) && Able(steps[k], e)
            && Capacity(steps, k, e) <= Rank(s.rows, id) + Overtakers(s, steps, k, e)
            && (AllPlain(steps, e) ==> Rank(s.rows, id) + Overtakers(s, steps, k, e) < Capacity(steps, k + 1, e))
    decreases m
  {
    hide Inv, Enabled, Rank, Apply, Before, IsRun, StatusAt, Plain, Able, Room, Overtakes, AllPlain;
    var e := s.rows[id].event;
    RoomOf(steps[0], e);
    PlainRest(steps, e);
    var step, rest := steps[0], steps[1..];
    FirstStep(s, steps, id);
    var s' := Apply(s, step);
    WaitingStep(s, step, id);
    OneStepCounts(s, steps, e);
    if s'.rows[id].status == Processing {
      k := 0;
      TakenAtOnce(s, steps, id);
    } else {
      CountsShift(s, steps, m, e);
      k := BoundedWait(s', rest, id, m - 1);
      TakenByShifts(s, steps, k, id);
      CountsShift(s, steps, k + 1, e);
      CapacityShifts(steps, k + 2, e);
      k := k + 1;
    }
  }

  lemma OneStepCounts(s: State, steps: seq<Step>, e: QueuedEvent)
    requires Inv(s) && IsRun(s, steps) && steps != []
    ensures Capacity(steps, 0, e) == 0 && Capacity(steps, 1, e) == Room(steps[0], e) && Overtakers(s, steps, 0, e) == 0
  {
    hide Inv, IsRun, Able;
  }

  lemma CapacityShifts(steps: seq<Step>, k: nat, e: QueuedEvent)
    requires 0 < k <= |steps|
    ensures Capacity(steps, k, e) == Room(steps[0], e) + Capacity(steps[1..], k - 1, e)
  {
  }

  lemma CountsShift(s: State, steps: seq<Step>, k: nat, e: QueuedEvent)
    requires Inv(s) && IsRun(s, steps) && 0 < k <= |steps|
    ensures WellKeyed(s.rows) && Enabled(s, steps[0])
    ensures Inv(Apply(s, steps[0])) && IsRun(Apply(s, steps[0]), steps[1..])
    ensures Capacity(steps, k, e) == Room(steps[0], e) + Capacity(steps[1..], k - 1, e)
    ensures Overtakers(s, steps, k, e)
            == (if Overtakes(s, steps[0], e) then 1 else 0) + Overtakers(Apply(s, steps[0]), steps[1..], k - 1, e)
  {
    StepKeepsInv(s, steps[0]);
    hide Able, Overtakes, Apply, Enabled;
  }

  lemma PlainRest(steps: seq<Step>, e: QueuedEvent)
    requires steps != []
    ensures AllPlain(steps, e) ==> AllPlain(steps[1..], e) && (steps[0].Claim? ==> Plain(steps[0], e))
  {
    hide Plain;
  }

  lemma RoomOf(step: Step, e: QueuedEvent)
    ensures step.Claim? && Able(step, e) ==> Room(step, e) == step.pick.n
    ensures !Able(step, e) ==> Room(step, e) == 0
    ensures Plain(step, e) ==> Able(step, e)
    ensures Able(step, e) ==> step.Claim?
  {
  }

  lemma TakenAtOnce(s: State, steps: seq<Step>, id: string)
    requires Inv(s) && IsRun(s, steps) && steps != [] && steps[0].Claim?
    requires StatusOf(s.rows, id) == Some(Pending) && StatusAt(s, steps, 1, id) == Some(Processing)
    ensures TakenBy(s, steps, 0, id)
  {
    hide Inv, IsRun, StatusAt, StateAt;
    StatusAtShifts(s, steps, 0, id);
  }

  // ---------------------------------------------------------------- ticks of equal size

  /** Everything inserted during the run sorts after event `e`, and no mark was read before `e` was due. */
  ghost predicate NobodyCutsIn(steps: seq<Step>, e: QueuedEvent) {
    forall k :: 0 <= k < |steps| ==>
                  && (steps[k].Insert? ==> Before(e, InsertRow(map[], steps[k].p)[steps[k].p.eventID].event))
                  && (steps[k].Mark? ==> e.availableAt <= steps[k].at)
  }

  lemma {:induction false} NoOvertakers(s: State, steps: seq<Step>, k: nat, e: QueuedEvent)
    requires Inv(s) && IsRun(s, steps) && k <= |steps| && NobodyCutsIn(steps, e)
    ensures Overtakers(s, steps, k, e) == 0
    decreases k
  {
    hide Inv, Apply, Overtakes, Enabled;
    if k > 0 {
      var step := steps[0];
      CountsShift(s, steps, k, e);
      assert forall j :: 0 <= j < |steps| - 1 ==> steps[1..][j] == steps[j + 1];
      NoOvertakers(Apply(s, step), steps[1..], k - 1, e);
      NotOvertaken(s, step, e);
    }
  }

  lemma NotOvertaken(s: State, step: Step, e: QueuedEvent)
    requires Inv(s) && Enabled(s, step)
    requires step.Insert? ==> Before(e, InsertRow(map[], step.p)[step.p.eventID].event)
    requires step.Mark? ==> e.availableAt <= step.at
    ensures !Overtakes(s, step, e)
  {
    hide Inv, Enabled, Before;
    if step.Insert? {
      BeforeIsTotal(e, InsertRow(map[], step.p)[step.p.eventID].event);
    } else if step.Mark? {
      RetriesReenterLater(s, step.w, step.at, step.jitter, e);
    }
  }

  ghost predicate AllAble(steps: seq<Step>, n: nat, e: QueuedEvent) {
    forall j :: 0 <= j < |steps| && steps[j].Claim? ==> steps[j].pick.n == n && Able(steps[j], e)
  }

  lemma {:induction false} CapacityOfEqualClaims(steps: seq<Step>, k: nat, n: nat, e: QueuedEvent)
    requires k <= |steps| && AllAble(steps, n, e)
    ensures Capacity(steps, k, e) == n * Claims(steps, k)
    decreases k
  {
    hide Able;
    if k > 0 {
      RoomOf(steps[0], e);
      hide Room;
      assert forall j :: 0 <= j < |steps| - 1 ==> steps[1..][j] == steps[j + 1];
      CapacityOfEqualClaims(steps[1..], k - 1, n, e);
    }
  }

  /** When nobody cuts in, plain batches of one size `n` take the event with claim number `rank / n + 1`. */
  lemma {:induction false} BoundedWaitInTicks(s: State, steps: seq<Step>, id: string, n: nat) returns (k: nat)
    requires Inv(s) && IsRun(s, steps) && Waiting(s, id) && n > 0
    requires NobodyCutsIn(steps, s.rows[id].event) && AllPlain(steps, s.rows[id].event)
    requires forall j :: 0 <= j < |steps| && steps[j].Claim? ==> steps[j].pick.n == n
    requires Claims(steps, |steps|) >= Rank(s.rows, id) / n + 1
    ensures k < |steps| && Claims(steps, k) == Rank(s.rows, id) / n
    ensures TakenBy(s, steps, k, id)
  {
    var (e, r) := (s.rows[id].event, Rank(s.rows, id));
    NoOvertakers(s, steps, |steps|, e);
    AllAreAble(steps, n, e);
    hide Inv, NobodyCutsIn, Rank, Able, AllPlain, TakenBy, IsRun, Capacity, Claims, Overtakers;
    EnoughCapacity(steps, n, e, r);
    k := BoundedWait(s, steps, id, |steps|);
    NoOvertakers(s, steps, k, e);
    TickNumber(steps, k, n, e, r);
  }

  lemma AllAreAble(steps: seq<Step>, n: nat, e: QueuedEvent)
    requires AllPlain(steps, e) && forall j :: 0 <= j < |steps| && steps[j].Claim? ==> steps[j].pick.n == n
    ensures AllAble(steps, n, e)
  {
    hide Plain, Able;
    forall j | 0 <= j < |steps| && steps[j].Claim? ensures Able(steps[j], e) { RoomOf(steps[j], e); }
  }

  lemma EnoughCapacity(steps: seq<Step>, n: nat, e: QueuedEvent, r: nat)
    requires n > 0 && AllAble(steps, n, e) && Claims(steps, |steps|) >= r / n + 1
    ensures Capacity(steps, |steps|, e) > r
  {
    hide Able, Capacity, Claims;
    CapacityOfEqualClaims(steps, |steps|, n, e);
    QuotientBound(r, n, Claims(steps, |steps|));
  }

  lemma TickNumber(steps: seq<Step>, k: nat, n: nat, e: QueuedEvent, r: nat)
    requires n > 0 && AllAble(steps, n, e) && k < |steps|
    requires Capacity(steps, k, e) <= r < Capacity(steps, k + 1, e)
    ensures Claims(steps, k) == r / n
  {
    hide Able, Capacity, Claims;
    CapacityOfEqualClaims(steps, k, n, e);
    CapacityOfEqualClaims(steps, k + 1, n, e);
    ClaimsSnoc(steps, k);
    DivUnique(r, n, Claims(steps, k));
  }

  lemma {:induction false} ClaimsSnoc(steps: seq<Step>, k: nat)
    requires k < |steps|
    ensures Claims(steps, k + 1) == Claims(steps, k) + if steps[k].Claim? then 1 else 0
    decreases k
  {
    if k > 0 { ClaimsSnoc(steps[1..], k - 1); }
  }

  lemma QuotientBound(r: nat, n: nat, c: nat)
    requires n > 0 && c >= r / n + 1
    ensures n * c > r
  {
    assert n * c >= n * (r / n + 1) by { MulMonotone(n, r / n + 1, c); }
  }

  // ---------------------------------------------------------------- without the bound on newcomers

  /** The run makes `m` plain claims of `n` events, and the event is still pending. */
  ghost predicate Starves(s: State, steps: seq<Step>, id: string, n: nat, m: nat)
    requires Inv(s) && id in s.rows
  {
    && IsRun(s, steps) && AllPlain(steps, s.rows[id].event)
    && (forall j :: 0 <= j < |steps| && steps[j].Claim? ==> steps[j].pick.n == n)
    && Claims(steps, |steps|) == m && StatusAt(s, steps, |steps|, id) == Some(Pending)
  }

  lemma StarvesLater(s: State, step: Step, rest: seq<Step>, id: string, n: nat, m: nat)
    requires Inv(s) && Enabled(s, step) && Inv(Apply(s, step)) && id in s.rows
    requires id in Apply(s, step).rows && Apply(s, step).rows[id] == s.rows[id]
    requires Starves(Apply(s, step), rest, id, n, m)
    requires step.Claim? ==> Plain(step, s.rows[id].event) && step.pick.n == n
    ensures Starves(s, [step] + rest, id, n, if step.Claim? then m + 1 else m)
  {
    hide Inv, Enabled, Apply, IsRun, StateAt, Plain;
    RunStep(s, step, rest);
    assert ([step] + rest)[1..] == rest;
    assert forall j :: 0 < j < |[step] + rest| ==> ([step] + rest)[j] == rest[j - 1];
  }

  /**
   An event can wait for ever: from any state in which it waits, for every batch size and every number `m`, some
   run makes `m` claims of that size, each able to take it, and takes others. `j` events are still to be let in.
   */
  lemma {:induction false} CanWaitForEver(s: State, id: string, n: nat, m: nat, j: nat) returns (steps: seq<Step>)
    requires Inv(s) && Waiting(s, id) && Rank(s.rows, id) + j >= n
    ensures Starves(s, steps, id, n, m)
    decreases m, j
  {
    hide Inv, Rank, Enabled, Apply, Plain, Starves, IsRun;
    if m == 0 {
      steps := [];
      StarvesNow(s, id, n);
    } else if j > 0 {
      var step := LetOneIn(s, id);
      var rest := CanWaitForEver(Apply(s, step), id, n, m, j - 1);
      StarvesLater(s, step, rest, id, n, m);
      steps := [step] + rest;
    } else {
      var step := TakeOthers(s, id, n);
      var rest := CanWaitForEver(Apply(s, step), id, n, m - 1, n);
      StarvesLater(s, step, rest, id, n, m - 1);
      steps := [step] + rest;
    }
  }

  lemma StarvesNow(s: State, id: string, n: nat)
    requires Inv(s) && Waiting(s, id)
    ensures Starves(s, [], id, n, 0)
  {
    hide Inv;
  }

  /** Inserting an event that is due earlier. */
  lemma LetOneIn(s: State, id: string) returns (step: Step)
    requires Inv(s) && Waiting(s, id)
    ensures WellKeyed(s.rows) && Enabled(s, step) && !step.Claim?
    ensures var s' := Apply(s, step);
            Inv(s') && Waiting(s', id) && s'.rows[id] == s.rows[id] && Rank(s'.rows, id) == Rank(s.rows, id) + 1
  {
    hide Rank;
    var x := UnusedString(s.rows.Keys);
    step := Insert(InsertParams(x, "", "", "", "", s.rows[id].event.availableAt - 1));
    StepKeepsInv(s, step);
    OtherStepRank(s, step, id);
  }

  /** An idle worker claims `n` events, all of them ahead. */
  lemma TakeOthers(s: State, id: string, n: nat) returns (step: Step)
    requires Inv(s) && Waiting(s, id) && Rank(s.rows, id) >= n
    ensures WellKeyed(s.rows) && Enabled(s, step) && step.Claim? && step.pick.n == n && Plain(step, s.rows[id].event)
    ensures var s' := Apply(s, step); Inv(s') && Waiting(s', id) && s'.rows[id] == s.rows[id]
  {
    hide Rank, History, HistoryOf, Holds, Exclusive;
    var w := UnusedNat(s.workers.Keys);
    var pick := Pick(n, s.clock, {});
    var batch := FirstOf(s.rows, Candidates(s.rows, pick), n);
    FirstIsClaim(s.rows, pick);
    step := Claim(w, pick, batch);
    hide IsClaim, FirstOf;
    StepKeepsInv(s, step);
    ClaimLowersRank(s, w, pick, batch, id);
  }
}

/**
 The outbox column by column: which parameter, error text and time ends up where, in what order a
 batch comes, and which handler an inserted event reaches.
 */
module OutboxLaws {
  import opened Prelude
  import opened OutboxModel
  import opened OutboxProtocol
  import opened OutboxRuns
  import opened OutboxProcessor

  // ---------------------------------------------------------------- the claim order

  /** `a` is a proper prefix of `b`, or has the smaller character at the first difference. */
  ghost predicate Lexicographic(a: string, b: string) {
    exists n :: 0 <= n <= |a| && n < |b| && a[..n] == b[..n] && (n == |a| || a[n] < b[n])
  }

  lemma {:induction false} StrLessIsLexicographic(a: string, b: string)
    ensures StrLess(a, b) <==> Lexicographic(a, b)
    decreases |a|
  {
    if b != "" && a != "" {
      StrLessIsLexicographic(a[1..], b[1..]);
      if StrLess(a, b) {
        if a[0] < b[0] {
          assert a[..0] == b[..0];
        } else {
          var n :| 0 <= n <= |a[1..]| && n < |b[1..]| && a[1..][..n] == b[1..][..n] && (n == |a[1..]| || a[1..][n] < b[1..][n]);
          assert a[..n + 1] == [a[0]] + a[1..][..n] && b[..n + 1] == [b[0]] + b[1..][..n];
        }
      }
      if Lexicographic(a, b) {
        var n :| 0 <= n <= |a| && n < |b| && a[..n] == b[..n] && (n == |a| || a[n] < b[n]);
        if n > 0 {
          assert a[0] == a[..n][0] == b[..n][0] == b[0];
          assert a[1..][..n - 1] == a[..n][1..] && b[1..][..n - 1] == b[..n][1..];
          assert 0 <= n - 1 <= |a[1..]| && (n - 1 == |a[1..]| || a[1..][n - 1] < b[1..][n - 1]);
        }
      }
    } else if b != "" {
      assert a[..0] == b[..0];
    }
  }

  /** A batch is in the order of due times, and of event ids where these are equal; all of it is pending and due. */
  lemma BatchIsInOrder(rows: Rows, n: nat, now: Time, i: nat, j: nat)
    requires WellKeyed(rows) && i < j < |ClaimBatch(rows, n, now)|
    ensures var (a, b) := (ClaimBatch(rows, n, now)[i], ClaimBatch(rows, n, now)[j]);
            && (a.availableAt < b.availableAt || (a.availableAt == b.availableAt && Lexicographic(a.eventID, b.eventID)))
            && a.eventID in rows && rows[a.eventID].event == a && rows[a.eventID].status == Pending && a.availableAt <= now
  {
    var all := Listing(rows, Due(rows, now));
    assert Before(all[i], all[j]);
    StrLessIsLexicographic(all[i].eventID, all[j].eventID);
  }

  // ---------------------------------------------------------------- what a mark writes

  /** The worker's mark writes the columns of its own event, and leaves every other row. */
  lemma MarkStepWrites(s: State, w: nat, at: Time, jitter: Time)
    requires Inv(s) && Enabled(s, Mark(w, at, jitter))
    ensures var (id, t) := (s.workers[w].batch[0].eventID, Apply(s, Mark(w, at, jitter)));
            && id in s.rows && id in t.rows && s.rows[id].event == s.workers[w].batch[0]
            && OthersStay(s.rows, t.rows, id) && Marked(s.rows[id], t.rows[id], s.workers[w].outcome, at, jitter)
  {
    assert Holds(s, w, 0);
    hide History, HistoryOf, Exclusive, Backoff, MaxJitter, MarkRows, Marked, OthersStay;
    MarkWrites(s.rows, s.workers[w].batch[0], s.workers[w].outcome, at, jitter);
  }

  // ---------------------------------------------------------------- what an inserted event becomes

  lemma {:induction false} EnabledAt(s: State, steps: seq<Step>, k: nat)
    requires Inv(s) && IsRun(s, steps) && k < |steps|
    ensures Enabled(StateAt(s, steps, k), steps[k])
    ensures StateAt(s, steps, k).registered == s.registered
    decreases k
  {
    hide Held, HistoryOf, Enabled, Apply;
    if k > 0 {
      StepKeepsInv(s, steps[0]);
      SameHandlers(s, steps[0]);
      EnabledAt(Apply(s, steps[0]), steps[1..], k - 1);
    }
  }

  lemma SameHandlers(s: State, step: Step)
    requires Inv(s) && Enabled(s, step)
    ensures Apply(s, step).registered == s.registered
  {
    hide Backoff, MarkRows, Exclusive, History, HistoryOf, Held;
  }

  lemma InsertWrites(s: State, p: InsertParams)
    requires Inv(s) && Enabled(s, Insert(p))
    ensures var t := Apply(s, Insert(p));
            && OthersStay(s.rows, t.rows, p.eventID)
            && p.eventID in t.rows && p.eventID in t.attempts && IsOf(t.rows[p.eventID].event, p)
  {
  }

  /** The row of an inserted event is the inserted one, however far the run goes on. */
  lemma {:induction false} InsertedStays(s: State, steps: seq<Step>, j: nat, k: nat, p: InsertParams)
    requires Inv(s) && IsRun(s, steps) && j < k <= |steps| && steps[j] == Insert(p)
    ensures var u := StateAt(s, steps, k);
            p.eventID in u.rows && IsOf(u.rows[p.eventID].event, p) && u.registered == s.registered
    decreases j
  {
    hide Held, HistoryOf, Enabled, Apply, IsOf, OthersStay;
    StepKeepsInv(s, steps[0]);
    SameHandlers(s, steps[0]);
    var t := Apply(s, steps[0]);
    if j == 0 {
      InsertWrites(s, p);
      hide RowEvolves;
      RunEvolves(t, steps[1..], k - 1, p.eventID);
      StaysInserted(t, StateAt(t, steps[1..], k - 1), p);
      SameHandlersAt(t, steps[1..], k - 1);
    } else {
      InsertedStays(t, steps[1..], j - 1, k - 1, p);
    }
  }

  lemma StaysInserted(t: State, u: State, p: InsertParams)
    requires p.eventID in t.rows && p.eventID in t.attempts && IsOf(t.rows[p.eventID].event, p) && RowEvolves(t, u, p.eventID)
    ensures p.eventID in u.rows && IsOf(u.rows[p.eventID].event, p)
  {
  }

  lemma {:induction false} SameHandlersAt(s: State, steps: seq<Step>, k: nat)
    requires Inv(s) && IsRun(s, steps) && k <= |steps|
    ensures StateAt(s, steps, k).registered == s.registered
    decreases k
  {
    hide Held, HistoryOf, Enabled, Apply;
    if k > 0 {
      StepKeepsInv(s, steps[0]);
      SameHandlers(s, steps[0]);
      SameHandlersAt(Apply(s, steps[0]), steps[1..], k - 1);
    }
  }

  /**
   Every handler call made for an inserted event gets the inserted event type, aggregate and payload, and its event type has a
   handler: it is dispatched on the type it was inserted with.
   */
  lemma HandledAsInserted(s: State, steps: seq<Step>, j: nat, k: nat, p: InsertParams, w: nat, err: Option<string>)
    requires Inv(s) && IsRun(s, steps) && j < k < |steps| && steps[j] == Insert(p) && steps[k] == Handle(w, err)
    ensures var u := StateAt(s, steps, k);
            && Busy(u, w)
            && (u.workers[w].batch[0].eventID == p.eventID ==>
                  IsOf(u.workers[w].batch[0], p) && p.eventType in s.registered)
  {
    EnabledAt(s, steps, k);
    InsertedStays(s, steps, j, k, p);
    assert Holds(StateAt(s, steps, k), w, 0);
    hide History, HistoryOf, Exclusive, StateAt, IsRun;
  }

  /** An inserted event whose type has a handler ends processed only by a call that succeeded. */
  lemma ProcessedByItsHandler(s: State, steps: seq<Step>, j: nat, k: nat, p: InsertParams)
    requires Inv(s) && IsRun(s, steps) && j < k <= |steps| && steps[j] == Insert(p) && p.eventType in s.registered
    requires StatusAt(s, steps, k, p.eventID) == Some(Processed)
    ensures var u := StateAt(s, steps, k);
            && p.eventID in u.attempts
            && var a := u.attempts[p.eventID];
            |a| > 0 && !a[|a| - 1].failed && (forall i :: 0 <= i < |a| - 1 ==> a[i].failed)
  {
    InsertedStays(s, steps, j, k, p);
    assert HistoryOf(StateAt(s, steps, k), p.eventID);
    hide StateAt, IsRun, DelayInRange, Held;
  }

  // ---------------------------------------------------------------- one tick

  lemma BatchIsOfRows(rows: Rows, n: nat, now: Time)
    requires WellKeyed(rows)
    ensures var batch := ClaimBatch(rows, n, now);
            && CopiesOf(rows, batch)
            && (forall i, j :: 0 <= i < j < |batch| ==> batch[i].eventID != batch[j].eventID)
  {
    SortedIdsSize(rows, ClaimBatch(rows, n, now));
  }

  /**
   What one tick does to an event of its batch: no handler for its type, or one that succeeds, processes it; one that
   fails puts its error text down and puts it off, and the tenth time for good.
   */
  lemma TickDispatches(rows: Rows, handlers: map<string, Handler>, n: nat, at: Time, readings: seq<Reading>, i: nat)
    requires WellKeyed(rows) && n <= |readings| && i < |ClaimBatch(rows, n, at)|
    ensures var (e, r) := (ClaimBatch(rows, n, at)[i], readings[i]);
            && e.eventID in rows && rows[e.eventID].event == e && e.eventID in TickRows(rows, handlers, n, at, readings)
            && var outcome :=
                 if e.eventType !in handlers then Unhandled
                 else if handlers[e.eventType].run(e, r.world).None? then Succeeded
                 else Failed(handlers[e.eventType].run(e, r.world).value);
            Marked(rows[e.eventID], TickRows(rows, handlers, n, at, readings)[e.eventID], outcome, r.now, r.jitter)
  {
    var batch := ClaimBatch(rows, n, at);
    BatchIsOfRows(rows, n, at);
    hide ClaimBatch, Backoff, MarkRows, MarkAll, OthersStay, WellKeyed;
    var claimed := ClaimRows(rows, Ids(batch));
    var (e, r) := (batch[i], readings[i]);
    var id := e.eventID;
    MarkAllPointwise(claimed, handlers, batch, readings, id);
    MarkWrites(map[id := claimed[id]], e, OutcomeOf(handlers, e, r), r.now, r.jitter);
  }
}

/**
 The outbox table: its rows, the order in which due events are claimed, and the
 effect of each repository operation as a function on rows.
 Both repositories (in memory and MySQL) are instances of these functions.
 */
module OutboxModel {
  import opened Prelude

  datatype QueuedEvent = QueuedEvent(
    eventID: string, aggregateType: string, aggregateID: string,
    eventType: string, payload: string, retryCount: int, availableAt: Time)

  datatype InsertParams = InsertParams(
    eventID: string, aggregateType: string, aggregateID: string,
    eventType: string, payload: string, availableAt: Time)

  datatype Status = Pending | Processing | Processed | FailedPermanent

  datatype Row = Row(event: QueuedEvent, status: Status, lastError: string, processedAt: Option<Time>)

  type Rows = map<string, Row>

  ghost predicate WellKeyed(rows: Rows) {
    forall id :: id in rows ==> rows[id].event.eventID == id
  }

  // ---------------------------------------------------------------- order

  /** Go's `<` on strings: lexicographic. */
  predicate StrLess(a: string, b: string) {
    b != "" && (a == "" || a[0] < b[0] || (a[0] == b[0] && StrLess(a[1..], b[1..])))
  }

  lemma {:induction false} StrLessTrichotomy(a: string, b: string)
    ensures a != b ==> StrLess(a, b) || StrLess(b, a)
    ensures !(StrLess(a, b) && StrLess(b, a))
    decreases |a|
  {
    if a != "" && b != "" {
      StrLessTrichotomy(a[1..], b[1..]);
      assert a == [a[0]] + a[1..] && b == [b[0]] + b[1..];
    }
  }

  lemma {:induction false} StrLessTransitive(a: string, b: string, c: string)
    requires StrLess(a, b) && StrLess(b, c)
    ensures StrLess(a, c)
    decreases |a|
  {
    if a != "" && a[0] == b[0] && b[0] == c[0] {
      StrLessTransitive(a[1..], b[1..], c[1..]);
    }
  }

  /** Claim order: earlier due time first, ties by event id. */
  predicate Before(a: QueuedEvent, b: QueuedEvent) {
    a.availableAt < b.availableAt || (a.availableAt == b.availableAt && StrLess(a.eventID, b.eventID))
  }

  lemma BeforeIsTotal(a: QueuedEvent, b: QueuedEvent)
    ensures a.eventID != b.eventID ==> Before(a, b) || Before(b, a)
    ensures !(Before(a, b) && Before(b, a))
    ensures !Before(a, a)
  {
    StrLessTrichotomy(a.eventID, b.eventID);
    StrLessTrichotomy(a.eventID, a.eventID);
  }

  lemma BeforeTransitive(a: QueuedEvent, b: QueuedEvent, c: QueuedEvent)
    requires Before(a, b) && Before(b, c)
    ensures Before(a, c)
  {
    if a.availableAt == b.availableAt == c.availableAt {
      StrLessTransitive(a.eventID, b.eventID, c.eventID);
    }
  }

  ghost predicate Sorted(es: seq<QueuedEvent>) {
    forall i, j :: 0 <= i < j < |es| ==> Before(es[i], es[j])
  }

  /** Every event of `es` is a copy of its row. */
  ghost predicate CopiesOf(rows: Rows, es: seq<QueuedEvent>) {
    forall i :: 0 <= i < |es| ==> es[i].eventID in rows && rows[es[i].eventID].event == es[i]
  }

  /** `es` lists exactly the rows `ids`, in claim order. */
  ghost predicate Lists(rows: Rows, ids: set<string>, es: seq<QueuedEvent>) {
    && Sorted(es)
    && CopiesOf(rows, es)
    && (forall i :: 0 <= i < |es| ==> es[i].eventID in ids)
    && (forall id :: id in ids ==> id in rows && rows[id].event in es)
  }

  function Ids(es: seq<QueuedEvent>): set<string> {
    set i | 0 <= i < |es| :: es[i].eventID
  }

  /** Those of `ids` that sort before row `id`. */
  ghost function Ahead(rows: Rows, ids: set<string>, id: string): set<string>
    requires id in rows && ids <= rows.Keys
  {
    set x | x in ids && Before(rows[x].event, rows[id].event)
  }

  lemma {:induction false} SortedIdsSize(rows: Rows, es: seq<QueuedEvent>)
    requires CopiesOf(rows, es) && Sorted(es)
    ensures |Ids(es)| == |es|
    ensures forall i, j :: 0 <= i < j < |es| ==> es[i].eventID != es[j].eventID
    decreases |es|
  {
    forall i, j | 0 <= i < j < |es| ensures es[i].eventID != es[j].eventID {
      assert Before(es[i], es[j]);
      BeforeIsTotal(es[i], es[i]);
    }
    if es != [] {
      var k := |es| - 1;
      SortedIdsSize(rows, es[..k]);
      assert Ids(es) == Ids(es[..k]) + {es[k].eventID};
    }
  }

  /** The i-th event listed is the one with exactly i of the listed rows ahead of it. */
  lemma {:induction false} RankIsPosition(rows: Rows, ids: set<string>, es: seq<QueuedEvent>, i: nat)
    requires WellKeyed(rows) && ids <= rows.Keys && Lists(rows, ids, es) && i < |es|
    ensures Ahead(rows, ids, es[i].eventID) == Ids(es[..i])
    ensures |Ahead(rows, ids, es[i].eventID)| == i
  {
    var ahead := Ahead(rows, ids, es[i].eventID);
    forall x | x in ahead ensures x in Ids(es[..i]) {
      var j :| 0 <= j < |es| && es[j] == rows[x].event;
      if i <= j { BeforeIsTotal(es[i], es[j]); }
      assert es[..i][j].eventID == x;
    }
    forall x | x in Ids(es[..i]) ensures x in ahead {
      var j :| 0 <= j < i && es[..i][j].eventID == x;
      assert Before(es[j], es[i]);
    }
    SortedIdsSize(rows, es[..i]);
  }

  /** So the listing is unique: it does not depend on how the rows were collected. */
  lemma {:induction false} ListingIsUnique(rows: Rows, ids: set<string>, es: seq<QueuedEvent>, fs: seq<QueuedEvent>)
    requires WellKeyed(rows) && ids <= rows.Keys && Lists(rows, ids, es) && Lists(rows, ids, fs)
    ensures es == fs
  {
    SortedIdsSize(rows, es);
    SortedIdsSize(rows, fs);
    ListedIds(rows, ids, es);
    ListedIds(rows, ids, fs);
    forall i | 0 <= i < |es| ensures es[i] == fs[i] {
      assert es[i].eventID in ids && rows[es[i].eventID].event in fs;
      var j :| 0 <= j < |fs| && fs[j] == es[i];
      RankIsPosition(rows, ids, es, i);
      RankIsPosition(rows, ids, fs, j);
    }
  }

  lemma {:induction false} ListedIds(rows: Rows, ids: set<string>, es: seq<QueuedEvent>)
    requires WellKeyed(rows) && Lists(rows, ids, es)
    ensures Ids(es) == ids
  {
    forall id | id in ids ensures id in Ids(es) {
      var j :| 0 <= j < |es| && es[j] == rows[id].event;
      assert es[j].eventID == id;
    }
  }

  /** The first row of a non-empty set. */
  ghost function First(rows: Rows, ids: set<string>): (m: string)
    requires WellKeyed(rows) && ids <= rows.Keys && ids != {}
    ensures m in ids && forall x :: x in ids && x != m ==> Before(rows[m].event, rows[x].event)
    decreases |ids|
  {
    var x :| x in ids;
    if ids == {x} then x
    else
      var rest := ids - {x};
      assert |rest| < |ids|;
      assert ids == rest + {x};
      var m := First(rows, rest);
      assert Before(rows[x].event, rows[m].event) || Before(rows[m].event, rows[x].event) by {
        BeforeIsTotal(rows[x].event, rows[m].event);
      }
      if Before(rows[m].event, rows[x].event) then m
      else
        assert forall y :: y in ids && y != x ==> Before(rows[x].event, rows[y].event) by {
          forall y | y in ids && y != x ensures Before(rows[x].event, rows[y].event) {
            if y != m { BeforeTransitive(rows[x].event, rows[m].event, rows[y].event); }
          }
        }
        x
  }

  /** The rows `ids` in claim order. */
  ghost function Listing(rows: Rows, ids: set<string>): (es: seq<QueuedEvent>)
    requires WellKeyed(rows) && ids <= rows.Keys
    ensures Lists(rows, ids, es)
    decreases |ids|
  {
    if ids == {} then []
    else
      var m := First(rows, ids);
      assert |ids - {m}| < |ids|;
      [rows[m].event] + Listing(rows, ids - {m})
  }

  // ---------------------------------------------------------------- operations

  /** The two tables agree on every row but that of `id`. */
  ghost predicate OthersStay(rows: Rows, rows': Rows, id: string) {
    forall x :: x != id ==> (x in rows <==> x in rows') && (x in rows ==> rows'[x] == rows[x])
  }

  /** The event is the inserted one; only its retry count and due time may be others. */
  ghost predicate IsOf(e: QueuedEvent, p: InsertParams) {
    && e.eventID == p.eventID && e.eventType == p.eventType && e.payload == p.payload
    && e.aggregateType == p.aggregateType && e.aggregateID == p.aggregateID
  }

  function InsertRow(rows: Rows, p: InsertParams): Rows {
    rows[p.eventID := Row(
      QueuedEvent(p.eventID, p.aggregateType, p.aggregateID, p.eventType, p.payload, 0, p.availableAt),
      Pending, "", None)]
  }

  function Due(rows: Rows, now: Time): set<string> {
    set id | id in rows && rows[id].status == Pending && rows[id].event.availableAt <= now
  }

  /** The due events that no other transaction has locked. */
  function Unlocked(rows: Rows, now: Time, locked: set<string>): set<string> {
    Due(rows, now) - locked
  }

  /** The `n` first of the rows `ids`, in claim order. */
  ghost function FirstOf(rows: Rows, ids: set<string>, n: nat): (es: seq<QueuedEvent>)
    requires WellKeyed(rows) && ids <= rows.Keys
    ensures |es| <= n
  {
    var all := Listing(rows, ids);
    all[..Min(n, |all|)]
  }

  /** All due events, in claim order. */
  ghost function ClaimOrder(rows: Rows, now: Time): seq<QueuedEvent>
    requires WellKeyed(rows)
  {
    Listing(rows, Due(rows, now))
  }

  /** The `n` first due events, in claim order. */
  ghost function ClaimBatch(rows: Rows, n: nat, now: Time): (es: seq<QueuedEvent>)
    requires WellKeyed(rows)
    ensures |es| <= n
  {
    FirstOf(rows, Due(rows, now), n)
  }

  function ClaimRows(rows: Rows, ids: set<string>): Rows {
    map id | id in rows :: if id in ids then rows[id].(status := Processing) else rows[id]
  }

  function MarkProcessedRow(rows: Rows, id: string, at: Time): Rows {
    if id in rows then rows[id := rows[id].(status := Processed, processedAt := Some(at))] else rows
  }

  function MarkRetryRow(rows: Rows, id: string, retryCount: int, nextAt: Time, lastErr: string): Rows {
    if id in rows then
      rows[id := rows[id].(status := Pending, lastError := lastErr,
      event := rows[id].event.(retryCount := retryCount, availableAt := nextAt))]
    else rows
  }

  function MarkFailedRow(rows: Rows, id: string, at: Time, lastErr: string): Rows {
    if id in rows then rows[id := rows[id].(status := FailedPermanent, lastError := lastErr, processedAt := Some(at))]
    else rows
  }

  /**
   Without sorting: of the candidate rows exactly those are taken that fewer than `n` candidates
   sort before. This is the batch as a set, whatever order it is returned in.
   */
  lemma {:induction false} TakenExactlyTheLeast(rows: Rows, ids: set<string>, n: nat, id: string)
    requires WellKeyed(rows) && ids <= rows.Keys
    ensures id in Ids(FirstOf(rows, ids, n)) <==> id in ids && |Ahead(rows, ids, id)| < n
  {
    var all := Listing(rows, ids);
    var batch := FirstOf(rows, ids, n);
    if id in ids {
      var i :| 0 <= i < |all| && all[i] == rows[id].event;
      RankIsPosition(rows, ids, all, i);
      if i < |batch| { assert batch[i].eventID == id; }
    }
    if id in Ids(batch) {
      var j :| 0 <= j < |batch| && batch[j].eventID == id;
      assert all[j].eventID == id;
      RankIsPosition(rows, ids, all, j);
    }
  }

  /** As many candidates are taken as the batch size allows, each once. */
  lemma {:induction false} TakenSize(rows: Rows, ids: set<string>, n: nat)
    requires WellKeyed(rows) && ids <= rows.Keys
    ensures |FirstOf(rows, ids, n)| == |Ids(FirstOf(rows, ids, n))| == Min(n, |ids|)
  {
    var all := Listing(rows, ids);
    ListedIds(rows, ids, all);
    SortedIdsSize(rows, all);
    SortedIdsSize(rows, FirstOf(rows, ids, n));
  }

  /** A claim that skips locked rows takes exactly the least of the due rows that are not locked. */
  lemma UnlockedLeastAreClaimed(rows: Rows, n: nat, now: Time, locked: set<string>, id: string)
    requires WellKeyed(rows)
    ensures Unlocked(rows, now, locked) <= rows.Keys
    ensures id in Ids(FirstOf(rows, Unlocked(rows, now, locked), n)) <==>
            id in Due(rows, now) && id !in locked && |Ahead(rows, Due(rows, now), id) - locked| < n
  {
    var ids := Unlocked(rows, now, locked);
    TakenExactlyTheLeast(rows, ids, n, id);
    if id in ids { assert Ahead(rows, ids, id) == Ahead(rows, Due(rows, now), id) - locked; }
  }

  /** A due event is claimed exactly when fewer than `n` due events sort before it. */
  lemma {:induction false} ClaimedExactlyTheLeast(rows: Rows, n: nat, now: Time, id: string)
    requires WellKeyed(rows)
    ensures id in Ids(ClaimBatch(rows, n, now)) <==>
            id in Due(rows, now) && |Ahead(rows, Due(rows, now), id)| < n
  {
    TakenExactlyTheLeast(rows, Due(rows, now), n, id);
  }

  /** A claim takes as many due events as the batch size allows, each once. */
  lemma {:induction false} ClaimBatchSize(rows: Rows, n: nat, now: Time)
    requires WellKeyed(rows)
    ensures |ClaimBatch(rows, n, now)| == |Ids(ClaimBatch(rows, n, now))| == Min(n, |Due(rows, now)|)
  {
    TakenSize(rows, Due(rows, now), n);
  }

  /** What a claim leaves behind: exactly the claimed rows change, and only in status. */
  lemma {:induction false} ClaimFlipsOnlyTheBatch(rows: Rows, n: nat, now: Time, id: string)
    requires WellKeyed(rows) && id in rows
    ensures var rows' := ClaimRows(rows, Ids(ClaimBatch(rows, n, now)));
            && rows'.Keys == rows.Keys
            && rows'[id].event == rows[id].event
            && (rows'[id] != rows[id] <==> id in Ids(ClaimBatch(rows, n, now)))
            && (rows'[id] != rows[id] ==> rows[id].status == Pending && rows'[id].status == Processing)
  {
    ClaimedExactlyTheLeast(rows, n, now, id);
  }
}

/** The in-memory outbox repository: a map of mutable records, updated in place. */
module OutboxMemory {
  import opened Prelude
  import opened OutboxModel

  class Item {
    var event: QueuedEvent
    var status: Status
    var lastError: string
    var processedAt: Option<Time>

    constructor (event: QueuedEvent)
      ensures AsRow() == Row(event, Pending, "", None)
    {
      this.event, status, lastError, processedAt := event, Pending, "", None;
    }

    function AsRow(): Row
      reads this
    {
      Row(event, status, lastError, processedAt)
    }
  }

  /** The events the collected records stand for. */
  function Events(items: seq<Item>): (es: seq<QueuedEvent>)
    reads items
    ensures |es| == |items| && forall i :: 0 <= i < |items| ==> es[i] == items[i].event
  {
    seq(|items|, i requires 0 <= i < |items| reads items => items[i].event)
  }

  class Repository {
    var events: map<string, Item>

    ghost predicate Valid()
      reads this, events.Values
    {
      forall id :: id in events ==> events[id].event.eventID == id
    }

    /** The table this repository holds. */
    function Rows(): (rows: Rows)
      reads this, events.Values
      ensures Valid() ==> WellKeyed(rows)
    {
      map id | id in events :: events[id].AsRow()
    }

    constructor ()
      ensures Valid() && Rows() == map[]
    {
      events := map[];
    }

    method Insert(p: InsertParams)
      requires Valid()
      modifies this
      ensures Valid()
      ensures Rows() == InsertRow(old(Rows()), p)
      ensures OthersStay(old(Rows()), Rows(), p.eventID) && p.eventID in events
      ensures var it := events[p.eventID];
              && IsOf(it.event, p) && it.event.retryCount == 0 && it.event.availableAt == p.availableAt
              && it.status == Pending && it.lastError == "" && it.processedAt == None
      ensures forall x :: x in events.Values ==> x in old(events.Values) || fresh(x)
    {
      var it := new Item(QueuedEvent(p.eventID, p.aggregateType, p.aggregateID, p.eventType, p.payload, 0, p.availableAt));
      events := events[p.eventID := it];
    }

    /** The filter loop, in whatever order the map is walked. */
    method CollectDue(now: Time) returns (all: seq<Item>)
      requires Valid()
      ensures forall i :: 0 <= i < |all| ==> all[i].event.eventID in events && events[all[i].event.eventID] == all[i]
      ensures forall i, j :: 0 <= i < j < |all| ==> all[i] != all[j]
      ensures forall id :: id in Due(Rows(), now) <==> id in events && events[id] in all
      ensures forall id :: id in events ==>
                             (events[id] in all <==> events[id].status == Pending && events[id].event.availableAt <= now)
    {
      all := [];
      var todo := events.Keys;
      while todo != {}
        invariant todo <= events.Keys
        invariant forall i :: 0 <= i < |all| ==>
                                var id := all[i].event.eventID;
                                id in events && events[id] == all[i] && id !in todo && id in Due(Rows(), now)
        invariant forall i, j :: 0 <= i < j < |all| ==> all[i] != all[j]
        invariant forall id :: id in Due(Rows(), now) && id !in todo ==> events[id] in all
      {
        var id :| id in todo;
        todo := todo - {id};
        var it := events[id];
        if it.status == Pending && it.event.availableAt <= now {
          all := all + [it];
        }
      }
    }

    /** `sort.Slice` by due time, then event id. */
    method SortItems(all: seq<Item>) returns (sorted: seq<Item>)
      requires forall i, j :: 0 <= i < j < |all| ==> all[i].event.eventID != all[j].event.eventID
      ensures Sorted(Events(sorted))
      ensures forall it :: it in sorted <==> it in all
    {
      sorted := [];
      for k := 0 to |all|
        invariant Sorted(Events(sorted))
        invariant forall it :: it in sorted <==> it in all[..k]
      {
        forall i | 0 <= i < |sorted| ensures sorted[i].event.eventID != all[k].event.eventID {
          assert sorted[i] in all[..k];
        }
        sorted := InsertSorted(sorted, all[k]);
        assert all[..k + 1] == all[..k] + [all[k]];
      }
      assert all[..|all|] == all;
    }

    method InsertSorted(sorted: seq<Item>, it: Item) returns (out: seq<Item>)
      requires Sorted(Events(sorted))
      requires forall i :: 0 <= i < |sorted| ==> sorted[i].event.eventID != it.event.eventID
      ensures Sorted(Events(out))
      ensures forall x :: x in out <==> x == it || x in sorted
    {
      var k := |sorted|;
      while k > 0 && Before(it.event, sorted[k - 1].event)
        invariant 0 <= k <= |sorted|
        invariant forall i :: k <= i < |sorted| ==> Before(it.event, sorted[i].event)
      {
        k := k - 1;
      }
      out := sorted[..k] + [it] + sorted[k..];
      PlacedInOrder(Events(sorted), it.event, k);
      assert Events(out) == Events(sorted)[..k] + [it.event] + Events(sorted)[k..];
    }

    /** Filter, then sort: the due records in claim order. */
    method DueInOrder(now: Time) returns (all: seq<Item>)
      requires Valid()
      ensures Events(all) == ClaimOrder(Rows(), now)
      ensures forall i :: 0 <= i < |all| ==> all[i].event.eventID in events && events[all[i].event.eventID] == all[i]
    {
      var found := CollectDue(now);
      all := SortItems(found);
      forall i | 0 <= i < |all|
        ensures all[i].event.eventID in Due(Rows(), now) && events[all[i].event.eventID] == all[i]
      {
        assert all[i] in found;
      }
      forall id | id in Due(Rows(), now) ensures Rows()[id].event in Events(all) {
        var i :| 0 <= i < |all| && all[i] == events[id];
        assert Events(all)[i] == Rows()[id].event;
      }
      ListingIsUnique(Rows(), Due(Rows(), now), Events(all), Listing(Rows(), Due(Rows(), now)));
    }

    /** Claims the first `batchSize` due events and flips exactly those to processing. */
    method LockPendingBatch(batchSize: nat, now: Time) returns (out: seq<QueuedEvent>)
      requires Valid()
      modifies events.Values
      ensures Valid()
      ensures out == ClaimBatch(old(Rows()), batchSize, now)
      ensures Rows() == ClaimRows(old(Rows()), Ids(out))
    {
      ghost var rows := Rows();
      var all := DueInOrder(now);
      assert Rows() == rows;
      out := ClaimFirst(all, if batchSize > |all| then |all| else batchSize);
    }

    method ClaimFirst(all: seq<Item>, n: nat) returns (out: seq<QueuedEvent>)
      requires Valid() && n <= |all|
      requires forall i :: 0 <= i < |all| ==> all[i].event.eventID in events && events[all[i].event.eventID] == all[i]
      modifies events.Values
      ensures Valid()
      ensures out == old(Events(all))[..n]
      ensures Rows() == ClaimRows(old(Rows()), Ids(out))
    {
      ghost var rows, listed := Rows(), Events(all);
      out := [];
      for i := 0 to n
        invariant out == listed[..i]
        invariant forall j :: 0 <= j < |all| ==> all[j].event == listed[j]
        invariant Valid() && Rows() == ClaimRows(rows, Ids(out))
      {
        IdsSnoc(listed, i);
        ClaimRowsTwice(rows, Ids(out), {listed[i].eventID});
        Claim(all[i]);
        out := out + [all[i].event];
      }
    }

    method Claim(it: Item)
      requires Valid() && it.event.eventID in events && events[it.event.eventID] == it
      modifies it`status
      ensures Valid() && Rows() == ClaimRows(old(Rows()), {it.event.eventID})
    {
      it.status := Processing;
    }

    method MarkProcessed(eventID: string, processedAt: Time)
      requires Valid()
      modifies events.Values
      ensures Valid() && Rows() == MarkProcessedRow(old(Rows()), eventID, processedAt)
      ensures OthersStay(old(Rows()), Rows(), eventID)
      ensures eventID in events ==>
                var it := events[eventID];
                && it.status == Processed && it.processedAt == Some(processedAt)
                && it.event == old(it.event) && it.lastError == old(it.lastError)
    {
      if eventID in events {
        var it := events[eventID];
        it.status := Processed;
        it.processedAt := Some(processedAt);
      }
    }

    method MarkRetry(eventID: string, retryCount: int, nextAt: Time, lastErr: string)
      requires Valid()
      modifies events.Values
      ensures Valid() && Rows() == MarkRetryRow(old(Rows()), eventID, retryCount, nextAt, lastErr)
      ensures OthersStay(old(Rows()), Rows(), eventID)
      ensures eventID in events ==>
                var it := events[eventID];
                && it.status == Pending && it.lastError == lastErr && it.processedAt == old(it.processedAt)
                && it.event.retryCount == retryCount && it.event.availableAt == nextAt
                && it.event == old(it.event).(retryCount := retryCount, availableAt := nextAt)
    {
      if eventID in events {
        var it := events[eventID];
        it.status := Pending;
        it.event := it.event.(retryCount := retryCount, availableAt := nextAt);
        it.lastError := lastErr;
      }
    }

    method MarkFailedPermanent(eventID: string, at: Time, lastErr: string)
      requires Valid()
      modifies events.Values
      ensures Valid() && Rows() == MarkFailedRow(old(Rows()), eventID, at, lastErr)
      ensures OthersStay(old(Rows()), Rows(), eventID)
      ensures eventID in events ==>
                var it := events[eventID];
                && it.status == FailedPermanent && it.lastError == lastErr && it.processedAt == Some(at)
                && it.event == old(it.event)
    {
      if eventID in events {
        var it := events[eventID];
        it.status := FailedPermanent;
        it.lastError := lastErr;
        it.processedAt := Some(at);
      }
    }
  }

  lemma IdsSnoc(es: seq<QueuedEvent>, i: nat)
    requires i < |es|
    ensures Ids(es[..i + 1]) == Ids(es[..i]) + {es[i].eventID}
  {
    assert es[..i + 1] == es[..i] + [es[i]];
    forall id | id in Ids(es[..i]) ensures id in Ids(es[..i + 1]) {
      var j :| 0 <= j < i && es[..i][j].eventID == id;
      assert es[..i + 1][j].eventID == id;
    }
    assert es[..i + 1][i].eventID == es[i].eventID;
  }

  lemma ClaimRowsTwice(rows: Rows, a: set<string>, b: set<string>)
    ensures ClaimRows(ClaimRows(rows, a), b) == ClaimRows(rows, a + b)
  {
  }

  /** Placing an event after everything it does not precede keeps the order. */
  lemma PlacedInOrder(es: seq<QueuedEvent>, e: QueuedEvent, k: nat)
    requires Sorted(es) && k <= |es|
    requires forall i :: 0 <= i < |es| ==> es[i].eventID != e.eventID
    requires forall i :: k <= i < |es| ==> Before(e, es[i])
    requires k > 0 ==> !Before(e, es[k - 1])
    ensures Sorted(es[..k] + [e] + es[k..])
  {
    forall i | 0 <= i < k ensures Before(es[i], e) {
      BeforeIsTotal(e, es[k - 1]);
      if i < k - 1 { BeforeTransitive(es[i], es[k - 1], e); }
    }
  }
}

/** The in-memory audit log and the cursor paging built on it. */
module Audit {
  import opened Prelude
  import opened Text

  /** A timestamp field: a parseable time, nothing, or text that does not parse. */
  datatype Stamp = At(t: Time) | Absent | Garbled

  datatype Entry = Entry(
    eventID: string, occurredAt: Stamp, companyID: string,
    action: string, resourceType: string, resourceID: string)

  datatype Query = Query(
    companyID: string, action: string, resourceType: string, resourceID: string, from: Stamp, to: Stamp)

  /** A blank filter accepts everything; otherwise trimmed, case-insensitive equality. */
  predicate FieldMatches(filter: string, value: string) {
    Trim(filter) == "" || EqualFold(Trim(value), Trim(filter))
  }

  predicate Selected(q: Query, e: Entry) {
    && (q.from.At? && e.occurredAt.At? ==> q.from.t <= e.occurredAt.t)
    && (q.to.At? && e.occurredAt.At? ==> e.occurredAt.t <= q.to.t)
    && FieldMatches(q.companyID, e.companyID)
    && FieldMatches(q.action, e.action)
    && FieldMatches(q.resourceType, e.resourceType)
    && FieldMatches(q.resourceID, e.resourceID)
  }

  predicate BeforeCursor(cursor: Stamp, e: Entry) {
    cursor.At? && e.occurredAt.At? ==> e.occurredAt.t < cursor.t
  }

  predicate Shown(q: Query, cursor: Stamp, e: Entry) { BeforeCursor(cursor, e) && Selected(q, e) }

  /** All selected entries older than the cursor, last appended first. */
  function Newest(entries: seq<Entry>, q: Query, cursor: Stamp): seq<Entry> {
    if entries == [] then []
    else
      var (front, e) := (entries[..|entries| - 1], entries[|entries| - 1]);
      if Shown(q, cursor, e) then [e] + Newest(front, q, cursor) else Newest(front, q, cursor)
  }

  function Take<T>(s: seq<T>, n: nat): seq<T> {
    if n <= |s| then s[..n] else s
  }

  function PageSize(limit: int): nat { if limit <= 0 then 50 else limit }

  // ---------------------------------------------------------------- what a page is, entry by entry

  /** Up to case and outer blanks. */
  ghost predicate Agrees(filter: string, value: string) { Blank(filter) || Norm(value) == Norm(filter) }

  /** The entry agrees with every filter, lies in the window and is older than the cursor, as far as its time is known. */
  ghost predicate Wanted(q: Query, cursor: Stamp, e: Entry) {
    && Agrees(q.companyID, e.companyID) && Agrees(q.action, e.action)
    && Agrees(q.resourceType, e.resourceType) && Agrees(q.resourceID, e.resourceID)
    && (forall t, first :: e.occurredAt == At(t) && q.from == At(first) ==> first <= t)
    && (forall t, last :: e.occurredAt == At(t) && q.to == At(last) ==> t <= last)
    && (forall t, c :: e.occurredAt == At(t) && cursor == At(c) ==> t < c)
  }

  /**
   `at` gives the places of the entries on the page: wanted ones, last appended first, and every wanted entry is
   on it or the page is full of later appended ones.
   */
  ghost predicate IsPage(entries: seq<Entry>, q: Query, cursor: Stamp, page: seq<Entry>, size: int, at: seq<nat>) {
    && |at| == |page| <= size
    && (forall i :: 0 <= i < |at| ==> at[i] < |entries| && page[i] == entries[at[i]] && Wanted(q, cursor, page[i]))
    && (forall i, j :: 0 <= i < j < |at| ==> at[j] < at[i])
    && (forall k :: 0 <= k < |entries| && Wanted(q, cursor, entries[k]) ==>
                      k in at || (|page| == size && forall i :: 0 <= i < |at| ==> k < at[i]))
  }

  lemma ShownIsWanted(q: Query, cursor: Stamp, e: Entry)
    ensures Shown(q, cursor, e) <==> Wanted(q, cursor, e)
  {
    hide Trim, Lower;
  }

  /** The first `size` entries of the whole listing make a page. */
  lemma PageOf(entries: seq<Entry>, q: Query, cursor: Stamp, size: nat) returns (at: seq<nat>)
    requires size > 0
    ensures IsPage(entries, q, cursor, Take(Newest(entries, q, cursor), size), size, at)
  {
    hide Shown, Wanted, Newest;
    var list := Newest(entries, q, cursor);
    var all := NewestSelects(entries, q, cursor);
    forall e ensures Shown(q, cursor, e) <==> Wanted(q, cursor, e) { ShownIsWanted(q, cursor, e); }
    at := if size <= |all| then all[..size] else all;
    hide IsPage;
    WholePage(entries, q, cursor, list, all);
    if size <= |all| {
      PageCut(entries, q, cursor, list, all, size);
    } else {
      LargerPage(entries, q, cursor, list, all, size);
    }
  }

  lemma WholePage(entries: seq<Entry>, q: Query, cursor: Stamp, list: seq<Entry>, all: seq<nat>)
    requires Places(entries, q, cursor, list, all)
    requires forall e :: Shown(q, cursor, e) <==> Wanted(q, cursor, e)
    ensures IsPage(entries, q, cursor, list, |list|, all)
    ensures forall k :: 0 <= k < |entries| && Wanted(q, cursor, entries[k]) ==> k in all
  {
    hide Shown, Wanted;
  }

  lemma PageCut(entries: seq<Entry>, q: Query, cursor: Stamp, list: seq<Entry>, all: seq<nat>, size: nat)
    requires IsPage(entries, q, cursor, list, |list|, all) && size <= |all|
    requires forall k :: 0 <= k < |entries| && Wanted(q, cursor, entries[k]) ==> k in all
    ensures IsPage(entries, q, cursor, list[..size], size, all[..size])
  {
    hide Wanted;
    var at := all[..size];
    forall k | 0 <= k < |entries| && Wanted(q, cursor, entries[k]) && k !in at ensures forall i :: 0 <= i < |at| ==> k < at[i] {
      var j :| 0 <= j < |all| && all[j] == k;
      assert forall i :: 0 <= i < size ==> at[i] == all[i] && at[i] in at;
    }
  }

  lemma LargerPage(entries: seq<Entry>, q: Query, cursor: Stamp, list: seq<Entry>, all: seq<nat>, size: nat)
    requires IsPage(entries, q, cursor, list, |list|, all) && size > |all|
    requires forall k :: 0 <= k < |entries| && Wanted(q, cursor, entries[k]) ==> k in all
    ensures IsPage(entries, q, cursor, list, size, all)
  {
    hide Wanted;
  }

  class Repository {
    var entries: seq<Entry>

    constructor ()
      ensures entries == []
    {
      entries := [];
    }

    method Append(entry: Entry)
      modifies this
      ensures entries == old(entries) + [entry]
    {
      entries := entries + [entry];
    }

    method ListByCompany(q: Query, cursor: Stamp, limit: int) returns (out: seq<Entry>)
      ensures out == Take(Newest(entries, q, cursor), PageSize(limit))
      ensures limit <= 0 ==> exists at :: IsPage(entries, q, cursor, out, 50, at)
      ensures limit > 0 ==> exists at :: IsPage(entries, q, cursor, out, limit, at)
    {
      hide Shown, IsPage;
      ghost var at := PageOf(entries, q, cursor, PageSize(limit));
      var size := if limit <= 0 then 50 else limit;
      out := [];
      var i := |entries| - 1;
      assert entries[..i + 1] == entries;
      while i >= 0
        invariant -1 <= i < |entries|
        invariant |out| < size
        invariant out + Newest(entries[..i + 1], q, cursor) == Newest(entries, q, cursor)
      {
        var item := entries[i];
        assert entries[..i + 1][..i] == entries[..i];
        i := i - 1;
        var skip := Skips(q, cursor, item);
        if skip {
          continue;
        }
        ghost var rest := Newest(entries[..i + 1], q, cursor);
        assert out + ([item] + rest) == (out + [item]) + rest;
        out := out + [item];
        if |out| >= size {
          break;
        }
      }
    }

    /** The chain of filters each entry must pass. */
    method Skips(q: Query, cursor: Stamp, item: Entry) returns (skip: bool)
      ensures skip <==> !Shown(q, cursor, item)
    {
      hide Trim, EqualFold;
      if q.from.At? && item.occurredAt.At? && item.occurredAt.t < q.from.t { return true; }
      if q.to.At? && item.occurredAt.At? && item.occurredAt.t > q.to.t { return true; }
      if cursor.At? && item.occurredAt.At? && !(item.occurredAt.t < cursor.t) { return true; }
      if Trim(q.companyID) != "" && !EqualFold(Trim(item.companyID), Trim(q.companyID)) { return true; }
      if Trim(q.action) != "" && !EqualFold(Trim(item.action), Trim(q.action)) { return true; }
      if Trim(q.resourceType) != "" && !EqualFold(Trim(item.resourceType), Trim(q.resourceType)) { return true; }
      if Trim(q.resourceID) != "" && !EqualFold(Trim(item.resourceID), Trim(q.resourceID)) { return true; }
      return false;
    }
  }

  /** The query parameter `limit`: a parsed number, or nothing when it does not parse. */
  function ParsePositiveInt(raw: Option<int>, fallback: int, max: int): int {
    if raw.None? || raw.value <= 0 then fallback else if raw.value > max then max else raw.value
  }

  /** What the handler sends back to ask for the next page: only a full page has a successor. */
  function NextCursor(page: seq<Entry>, limit: nat): Option<Stamp> {
    if |page| == limit && |page| > 0 && page[|page| - 1].occurredAt != Absent
    then Some(page[|page| - 1].occurredAt) else None
  }

  // ---------------------------------------------------------------- what a page shows

  /** The limit a client can reach is 1 to 200. */
  lemma LimitInRange(raw: Option<int>)
    ensures 1 <= ParsePositiveInt(raw, 50, 200) <= 200
    ensures raw.Some? && 1 <= raw.value <= 200 ==> ParsePositiveInt(raw, 50, 200) == raw.value
    ensures raw.Some? && raw.value > 200 ==> ParsePositiveInt(raw, 50, 200) == 200
    ensures raw.None? || raw.value < 1 ==> ParsePositiveInt(raw, 50, 200) == 50
  {
  }

  /** `at` gives the places of the entries shown, last appended first. */
  ghost predicate Places(entries: seq<Entry>, q: Query, cursor: Stamp, list: seq<Entry>, at: seq<nat>) {
    && |at| == |list|
    && (forall i :: 0 <= i < |at| ==> at[i] < |entries| && list[i] == entries[at[i]] && Shown(q, cursor, list[i]))
    && (forall i, j :: 0 <= i < j < |at| ==> at[j] < at[i])
    && (forall k :: 0 <= k < |entries| && Shown(q, cursor, entries[k]) ==> k in at)
  }

  /** Nothing selected is missing, nothing else is shown, and the log order is reversed. */
  lemma {:induction false} NewestSelects(entries: seq<Entry>, q: Query, cursor: Stamp) returns (at: seq<nat>)
    ensures Places(entries, q, cursor, Newest(entries, q, cursor), at)
    decreases |entries|
  {
    hide Shown;
    at := [];
    if entries != [] {
      var n := |entries| - 1;
      var at0 := NewestSelects(entries[..n], q, cursor);
      at := if Shown(q, cursor, entries[n]) then [n] + at0 else at0;
      hide Places;
      PlacesGrow(entries, q, cursor, Newest(entries[..n], q, cursor), at0);
    }
  }

  lemma PlacesGrow(entries: seq<Entry>, q: Query, cursor: Stamp, list: seq<Entry>, at: seq<nat>)
    requires entries != [] && Places(entries[..|entries| - 1], q, cursor, list, at)
    ensures var (n, e) := (|entries| - 1, entries[|entries| - 1]);
            if Shown(q, cursor, e) then Places(entries, q, cursor, [e] + list, [n] + at)
            else Places(entries, q, cursor, list, at)
  {
    hide Shown;
    var (n, e) := (|entries| - 1, entries[|entries| - 1]);
    if Shown(q, cursor, e) {
      PlaceAdded(entries, q, cursor, list, at);
    } else {
      forall k | 0 <= k < |entries| && Shown(q, cursor, entries[k]) ensures k in at {
        assert entries[..n][k] == entries[k];
      }
    }
  }

  lemma PlaceAdded(entries: seq<Entry>, q: Query, cursor: Stamp, list: seq<Entry>, at: seq<nat>)
    requires entries != [] && Places(entries[..|entries| - 1], q, cursor, list, at)
    requires Shown(q, cursor, entries[|entries| - 1])
    ensures Places(entries, q, cursor, [entries[|entries| - 1]] + list, [|entries| - 1] + at)
  {
    hide Shown;
    var n := |entries| - 1;
    forall k | 0 <= k < |entries| && Shown(q, cursor, entries[k]) ensures k in [n] + at {
      if k < n {
        assert entries[..n][k] == entries[k];
        assert k in at;
      } else {
        assert ([n] + at)[0] == n;
      }
    }
  }

  /** Selected entries carry a time, and later appended ones are not older. */
  ghost predicate InTimeOrder(entries: seq<Entry>, q: Query) {
    && (forall i :: 0 <= i < |entries| && Selected(q, entries[i]) ==> entries[i].occurredAt.At?)
    && (forall i, j :: 0 <= i < j < |entries| && Selected(q, entries[i]) && Selected(q, entries[j]) ==>
                         entries[i].occurredAt.t <= entries[j].occurredAt.t)
  }

  /** ... and no two selected entries share a time. */
  ghost predicate InStrictTimeOrder(entries: seq<Entry>, q: Query) {
    && InTimeOrder(entries, q)
    && (forall i, j :: 0 <= i < j < |entries| && Selected(q, entries[i]) && Selected(q, entries[j]) ==>
                         entries[i].occurredAt != entries[j].occurredAt)
  }

  /** How many entries of a listing are not older than `c`. */
  function NotOlder(list: seq<Entry>, c: Time): nat {
    if list == [] then 0
    else (if list[0].occurredAt.At? && list[0].occurredAt.t < c then 0 else 1) + NotOlder(list[1..], c)
  }

  lemma NotOlderBound(list: seq<Entry>, c: Time)
    ensures NotOlder(list, c) <= |list|
  {
  }

  lemma {:induction false} ListingsAreTimed(entries: seq<Entry>, q: Query, cursor: Stamp)
    requires InTimeOrder(entries, q)
    ensures forall i :: 0 <= i < |Newest(entries, q, cursor)| ==> Newest(entries, q, cursor)[i].occurredAt.At?
    ensures forall i, j :: 0 <= i < j < |Newest(entries, q, cursor)| ==>
                             Newest(entries, q, cursor)[j].occurredAt.t <= Newest(entries, q, cursor)[i].occurredAt.t
  {
    hide Selected, Newest;
    var at := NewestSelects(entries, q, cursor);
  }

  lemma {:induction false} AllOlder(list: seq<Entry>, c: Time)
    requires forall i :: 0 <= i < |list| ==> list[i].occurredAt.At? && list[i].occurredAt.t < c
    ensures NotOlder(list, c) == 0
    decreases |list|
  {
    if list != [] { AllOlder(list[1..], c); }
  }

  /**
   Moving the cursor back to `c` cuts off exactly the entries not older than `c`,
   which come first in the listing.
   */
  lemma {:induction false} CursorCuts(entries: seq<Entry>, q: Query, cursor: Stamp, c: Time)
    requires InTimeOrder(entries, q) && (cursor.At? ==> c <= cursor.t)
    ensures var list := Newest(entries, q, cursor);
            NotOlder(list, c) <= |list| && Newest(entries, q, At(c)) == list[NotOlder(list, c)..]
    decreases |entries|
  {
    hide Selected;
    if entries != [] {
      var n := |entries| - 1;
      var front, e := entries[..n], entries[n];
      CursorCuts(front, q, cursor, c);
      var list := Newest(entries, q, cursor);
      NotOlderBound(list, c);
      if Shown(q, cursor, e) {
        assert list[1..] == Newest(front, q, cursor);
        if e.occurredAt.t < c {
          ListingsAreTimed(entries, q, cursor);
          assert list[0] == e;
          AllOlder(list, c);
          AllOlder(list[1..], c);
        }
      } else {
        assert list == Newest(front, q, cursor);
      }
    }
  }

  // ---------------------------------------------------------------- following the cursor

  /**
   After a page ending at the k-th listed entry, the next page starts right after it
   exactly when the next listed entry is strictly older; entries sharing its time are lost.
   */
  lemma NextPageIsTheRestIffOlder(entries: seq<Entry>, q: Query, cursor: Stamp, k: nat)
    requires InTimeOrder(entries, q) && k < |Newest(entries, q, cursor)|
    ensures var list := Newest(entries, q, cursor);
            && list[k].occurredAt.At?
            && (Newest(entries, q, list[k].occurredAt) == list[k + 1..] <==>
                k + 1 == |list| || (list[k + 1].occurredAt.At? && list[k + 1].occurredAt.t < list[k].occurredAt.t))
  {
    hide Selected, Newest, InTimeOrder;
    var list := Newest(entries, q, cursor);
    ListingsAreTimed(entries, q, cursor);
    var at := NewestSelects(entries, q, cursor);
    var c := list[k].occurredAt.t;
    CursorCuts(entries, q, cursor, c);
    CountNotOlder(list, c, k);
  }

  /** Two entries of one time at a page boundary: the second page is empty and the older entry is never shown. */
  lemma EqualTimesLoseAnEntry(older: Entry, newer: Entry, t: Time)
    requires older.occurredAt == newer.occurredAt == At(t)
    ensures var (log, q) := ([older, newer], Query("", "", "", "", Absent, Absent));
            && Selected(q, older) && Selected(q, newer) && InTimeOrder(log, q)
            && Take(Newest(log, q, Absent), 1) == [newer]
            && NextCursor([newer], 1) == Some(At(t)) && Newest(log, q, At(t)) == []
  {
    var (log, q) := ([older, newer], Query("", "", "", "", Absent, Absent));
    assert Selected(q, older) && Selected(q, newer) by { assert Trim("") == ""; }
    hide Selected;
    assert log[..1] == [older] && [older][..0] == [];
    assert Newest([], q, At(t)) == [] && Newest([], q, Absent) == [];
    assert !Shown(q, At(t), older) && !Shown(q, At(t), newer);
    assert Newest([older], q, Absent) == [older] + [] && Newest([older], q, At(t)) == [];
    assert Newest(log, q, Absent) == [newer] + Newest([older], q, Absent);
    assert Newest(log, q, At(t)) == Newest([older], q, At(t));
  }

  /** In a newest-first listing the entries not older than the k-th are the first k+1, plus any run of equals. */
  lemma {:induction false} CountNotOlder(list: seq<Entry>, c: Time, k: nat)
    requires k < |list| && forall i :: 0 <= i < |list| ==> list[i].occurredAt.At?
    requires forall i, j :: 0 <= i < j < |list| ==> list[j].occurredAt.t <= list[i].occurredAt.t
    requires list[k].occurredAt.t == c
    ensures NotOlder(list, c) >= k + 1
    ensures NotOlder(list, c) == k + 1 <==> k + 1 == |list| || list[k + 1].occurredAt.t < c
    decreases k
  {
    if k > 0 {
      CountNotOlder(list[1..], c, k - 1);
    } else if |list| > 1 && list[1].occurredAt.t < c {
      AllOlder(list[1..], c);
    }
  }

  /** One page request: the log as it is then, and the cursor sent. */
  datatype Fetch = Fetch(log: seq<Entry>, cursor: Stamp)

  function Page(f: Fetch, q: Query, limit: nat): seq<Entry> {
    Take(Newest(f.log, q, f.cursor), limit)
  }

  /** Each request sends the cursor the page before returned; the log may grow in between. */
  ghost predicate IsWalk(fetches: seq<Fetch>, q: Query, limit: nat) {
    && fetches != []
    && (forall i :: 0 <= i < |fetches| - 1 ==> NextCursor(Page(fetches[i], q, limit), limit) == Some(fetches[i + 1].cursor))
    && (forall i :: 0 <= i < |fetches| - 1 ==> fetches[i].log <= fetches[i + 1].log)
    && NextCursor(Page(fetches[|fetches| - 1], q, limit), limit) == None
  }

  function AllPages(fetches: seq<Fetch>, q: Query, limit: nat): seq<Entry> {
    if fetches == [] then [] else Page(fetches[0], q, limit) + AllPages(fetches[1..], q, limit)
  }

  /** Entries appended later do not show behind a cursor taken from the earlier log. */
  lemma {:induction false} LaterEntriesStayAhead(log: seq<Entry>, later: seq<Entry>, q: Query, c: Time)
    requires log <= later && InStrictTimeOrder(later, q)
    requires exists i :: 0 <= i < |log| && Selected(q, log[i]) && log[i].occurredAt == At(c)
    ensures Newest(later, q, At(c)) == Newest(log, q, At(c))
    decreases |later|
  {
    hide Selected;
    if |later| == |log| {
      assert later == log;
    } else {
      var n := |later| - 1;
      var i :| 0 <= i < |log| && Selected(q, log[i]) && log[i].occurredAt == At(c);
      assert later[i] == log[i];
      LaterEntriesStayAhead(log, later[..n], q, c);
    }
  }

  lemma {:induction false} ListingsAreStrict(entries: seq<Entry>, q: Query, cursor: Stamp)
    requires InStrictTimeOrder(entries, q)
    ensures forall i :: 0 <= i < |Newest(entries, q, cursor)| ==> Newest(entries, q, cursor)[i].occurredAt.At?
    ensures forall i, j :: 0 <= i < j < |Newest(entries, q, cursor)| ==>
                             Newest(entries, q, cursor)[j].occurredAt.t < Newest(entries, q, cursor)[i].occurredAt.t
  {
    hide Selected, Newest;
    var at := NewestSelects(entries, q, cursor);
  }

  lemma PrefixKeepsOrder(log: seq<Entry>, later: seq<Entry>, q: Query)
    requires log <= later && InStrictTimeOrder(later, q)
    ensures InStrictTimeOrder(log, q)
  {
    hide Selected;
    assert forall i :: 0 <= i < |log| ==> log[i] == later[i];
  }

  /** After a full page, the rest of the listing is what the next request sees, on any later log. */
  lemma NextRequestSeesRest(log: seq<Entry>, later: seq<Entry>, q: Query, cursor: Stamp, limit: nat)
    requires log <= later && InStrictTimeOrder(later, q) && 0 < limit <= |Newest(log, q, cursor)|
    ensures var list := Newest(log, q, cursor);
            Newest(later, q, list[limit - 1].occurredAt) == list[limit..]
  {
    hide Selected, Newest;
    PrefixKeepsOrder(log, later, q);
    var list := Newest(log, q, cursor);
    ListingsAreStrict(log, q, cursor);
    NextPageIsTheRestIffOlder(log, q, cursor, limit - 1);
    var at := NewestSelects(log, q, cursor);
    assert Selected(q, log[at[limit - 1]]) && log[at[limit - 1]] == list[limit - 1];
    LaterEntriesStayAhead(log, later, q, list[limit - 1].occurredAt.t);
  }

  /**
   Following next_cursor to the end shows every entry selected when the walk began exactly once,
   newest first, in floor(m / limit) + 1 requests, however many entries are appended meanwhile.
   */
  lemma {:induction false} WalkShowsEverythingOnce(fetches: seq<Fetch>, q: Query, limit: nat, final: seq<Entry>)
    requires IsWalk(fetches, q, limit) && limit > 0
    requires InStrictTimeOrder(final, q) && forall i :: 0 <= i < |fetches| ==> fetches[i].log <= final
    ensures var list := Newest(fetches[0].log, q, fetches[0].cursor);
            AllPages(fetches, q, limit) == list && |fetches| == |list| / limit + 1
    decreases |fetches|
  {
    hide Newest, InStrictTimeOrder;
    var f := fetches[0];
    var list := Newest(f.log, q, f.cursor);
    PrefixKeepsOrder(f.log, final, q);
    ListingsAreStrict(f.log, q, f.cursor);
    var rest := fetches[1..];
    if rest == [] {
      assert NextCursor(Page(f, q, limit), limit) == None;
      SmallCount(|list|, limit);
      assert AllPages(rest, q, limit) == [];
    } else {
      assert NextCursor(Page(f, q, limit), limit) == Some(fetches[1].cursor);
      PrefixKeepsOrder(fetches[1].log, final, q);
      NextRequestSeesRest(f.log, fetches[1].log, q, f.cursor, limit);
      WalkRest(fetches, q, limit);
      WalkShowsEverythingOnce(rest, q, limit, final);
      OneMorePage(|list|, limit);
    }
  }

  lemma WalkRest(fetches: seq<Fetch>, q: Query, limit: nat)
    requires IsWalk(fetches, q, limit) && |fetches| > 1
    ensures IsWalk(fetches[1..], q, limit)
  {
    hide NextCursor, Page;
    var rest := fetches[1..];
    forall i | 0 <= i < |rest| - 1
      ensures NextCursor(Page(rest[i], q, limit), limit) == Some(rest[i + 1].cursor) && rest[i].log <= rest[i + 1].log
    {
      assert rest[i] == fetches[i + 1] && rest[i + 1] == fetches[i + 2];
    }
  }

  lemma SmallCount(m: nat, limit: nat)
    requires m < limit
    ensures m / limit == 0
  {
  }

  lemma OneMorePage(m: nat, limit: nat)
    requires 0 < limit <= m
    ensures m / limit == (m - limit) / limit + 1
  {
    var b := (m - limit) / limit;
    assert limit * (b + 1) == limit * b + limit;
    DivUnique(m, limit, b + 1);
  }

  /** No page, and no walk over any pages, shows an entry that disagrees with the company asked for or another filter. */
  lemma {:induction false} WalkShowsOnlyWanted(fetches: seq<Fetch>, q: Query, limit: nat, e: Entry)
    requires limit > 0 && e in AllPages(fetches, q, limit)
    ensures !Blank(q.companyID) ==> Norm(e.companyID) == Norm(q.companyID)
    ensures exists i :: 0 <= i < |fetches| && e in fetches[i].log && Wanted(q, fetches[i].cursor, e)
    decreases |fetches|
  {
    hide Newest, Shown, Norm;
    var (f, rest) := (fetches[0], fetches[1..]);
    if e in Page(f, q, limit) {
      var at := PageOf(f.log, q, f.cursor, limit);
      var i :| 0 <= i < |Page(f, q, limit)| && Page(f, q, limit)[i] == e;
      assert e in fetches[0].log && Wanted(q, fetches[0].cursor, e);
    } else {
      WalkShowsOnlyWanted(rest, q, limit, e);
      var i :| 0 <= i < |rest| && e in rest[i].log && Wanted(q, rest[i].cursor, e);
      assert rest[i] == fetches[i + 1];
    }
  }
}

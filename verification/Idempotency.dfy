/** The Idempotency-Key store, and the record handlers as its clients. */
module Idempotency {
  import opened Prelude
  import opened Text

  datatype Status = InProgress | Completed | Unknown

  /** A stored response: an envelope, or text that does not decode to one. */
  datatype Response = Envelope(httpStatus: int, body: string) | Garbled

  /** The unique key of the table, as its collation compares it. */
  datatype RowKey = RowKey(scope: string, key: string)

  datatype Row = Row(
    id: string, companyID: Option<string>, requestHash: Option<string>, status: Status, response: Option<Response>,
    expires: Time)

  /** The rows by their unique key. The id is a second unique key. */
  type Table = map<RowKey, Row>

  const MAX_KEY := 191

  const LIFETIME: Time := 86_400 * SECOND

  datatype Failure = ScopeAndKeyRequired | RowMissing | UndecodableEnvelope | NothingCompleted

  datatype Outcome = Reserved(id: string) | Replay(httpStatus: int, body: string) | Conflict

  datatype Params = Params(companyID: string, scope: string, key: string, requestHash: string)

  function Truncated(key: string): string { if |key| > MAX_KEY then key[..MAX_KEY] else key }

  /** Without trailing blanks: the column's comparison pads with them. */
  function Unpadded(s: string): (r: string)
    ensures r <= s && (r == "" || r[|r| - 1] != ' ')
    ensures forall i :: |r| <= i < |s| ==> s[i] == ' '
  {
    if s != "" && s[|s| - 1] == ' ' then Unpadded(s[..|s| - 1]) else s
  }

  /** What the table's collation sees of a text: neither letter case nor padding. */
  function Folded(s: string): string { Lower(Unpadded(s)) }

  function KeyOf(p: Params): RowKey { RowKey(Folded(Trim(p.scope)), Folded(Truncated(Trim(p.key)))) }

  function NullIfEmpty(s: string): Option<string> { if s == "" then None else Some(s) }

  ghost predicate IDTaken(rows: Table, id: string) { exists k :: k in rows && rows[k].id == id }

  function NewRow(id: string, companyID: string, requestHash: string, now: Time): Row {
    Row(id, NullIfEmpty(Trim(companyID)), NullIfEmpty(requestHash), InProgress, None, now + LIFETIME)
  }

  /** What a request with this hash gets from a row that is there already. */
  function Loaded(row: Row, requestHash: string): Result<Outcome, Failure> {
    if row.status.Completed? && row.requestHash == Some(requestHash) && row.response.Some? then
      match row.response.value
      case Garbled => Err(UndecodableEnvelope)
      case Envelope(httpStatus, body) => Ok(Replay(if httpStatus == 0 then 200 else httpStatus, body))
    else Ok(Conflict)
  }

  function LoadedFrom(rows: Table, k: RowKey, requestHash: string): Result<Outcome, Failure> {
    if k in rows then Loaded(rows[k], requestHash) else Err(RowMissing)
  }

  predicate Completes(row: Row, id: string) { row.id == id && row.status.InProgress? }

  function CompletedTable(rows: Table, id: string, response: Response): Table {
    map k | k in rows :: if Completes(rows[k], id) then rows[k].(status := Completed, response := Some(response)) else rows[k]
  }

  function Without(rows: Table, id: string): Table {
    map k | k in rows && rows[k].id != id :: rows[k]
  }

  class Store {
    var rows: Table

    constructor ()
      ensures rows == map[]
    {
      rows := map[];
    }

    /** The insert: refused as a duplicate when the unique key or the id is taken. */
    method Insert(k: RowKey, row: Row) returns (duplicate: bool)
      modifies this
      ensures duplicate <==> k in old(rows) || IDTaken(old(rows), row.id)
      ensures duplicate <==> k in old(rows) || exists l :: l in old(rows) && old(rows)[l].id == row.id
      ensures rows == if duplicate then old(rows) else old(rows)[k := row]
    {
      var keys := rows.Keys;
      while keys != {}
        invariant keys <= rows.Keys && rows == old(rows)
        invariant forall l :: l in rows && rows[l].id == row.id ==> l in keys
      {
        var l :| l in keys;
        if rows[l].id == row.id {
          return true;
        }
        keys := keys - {l};
      }
      if k in rows {
        return true;
      }
      rows := rows[k := row];
      return false;
    }

    method TryReserve(p: Params, id: string, now: Time) returns (res: Result<Outcome, Failure>)
      modifies this
      ensures Blank(p.scope) || Blank(p.key) <==> res == Err(ScopeAndKeyRequired)
      ensures var k := KeyOf(p);
              var free := !Blank(p.scope) && !Blank(p.key) && k !in old(rows) && !IDTaken(old(rows), id);
              && (free ==> res == Ok(Reserved(id)) && rows == old(rows)[k := NewRow(id, p.companyID, p.requestHash, now)])
              && (!free ==> rows == old(rows))
              && (!free && res != Err(ScopeAndKeyRequired) ==> res == LoadedFrom(old(rows), k, p.requestHash))
              && (free ==>
                    && k in rows && rows[k].id == id && rows[k].status == InProgress && rows[k].response == None
                    && rows[k].companyID == (if Blank(p.companyID) then None else Some(Trim(p.companyID)))
                    && rows[k].requestHash == (if p.requestHash == "" then None else Some(p.requestHash))
                    && rows[k].expires == now + 24 * 3600 * SECOND)
    {
      hide Trim, Lower, Unpadded;
      var scope := Trim(p.scope);
      var key := Trim(p.key);
      if scope == "" || key == "" {
        return Err(ScopeAndKeyRequired);
      }
      if |key| > MAX_KEY {
        key := key[..MAX_KEY];
      }
      var k := RowKey(Folded(scope), Folded(key));
      var duplicate := Insert(k, NewRow(id, p.companyID, p.requestHash, now));
      if !duplicate {
        return Ok(Reserved(id));
      }
      res := LoadAfterConflict(k, p.requestHash);
    }

    method LoadAfterConflict(k: RowKey, requestHash: string) returns (res: Result<Outcome, Failure>)
      ensures res == LoadedFrom(rows, k, requestHash)
      ensures res == Err(RowMissing) <==> k !in rows
      ensures var matches := k in rows && rows[k].status == Completed && rows[k].requestHash == Some(requestHash);
              && (res == Err(UndecodableEnvelope) <==> matches && rows[k].response == Some(Garbled))
              && (res == Ok(Conflict) <==> k in rows && (!matches || rows[k].response == None))
              && (forall status, body :: matches && rows[k].response == Some(Envelope(status, body)) ==>
                                           res == Ok(Replay(if status == 0 then 200 else status, body)))
    {
      if k !in rows {
        return Err(RowMissing);
      }
      var row := rows[k];
      match row.status {
        case Completed =>
          if row.requestHash.None? || row.requestHash.value != requestHash {
            return Ok(Conflict);
          }
          if row.response.None? {
            return Ok(Conflict);
          }
          if row.response.value.Garbled? {
            return Err(UndecodableEnvelope);
          }
          var env := row.response.value;
          var status := env.httpStatus;
          if env.httpStatus == 0 {
            status := 200;
          }
          return Ok(Replay(status, env.body));
        case InProgress => return Ok(Conflict);
        case Unknown => return Ok(Conflict);
      }
    }

    /** An empty reservation id is no reservation. */
    method Complete(id: string, response: Response) returns (failure: Option<Failure>)
      modifies this
      ensures id == "" ==> failure == None && rows == old(rows)
      ensures id != "" ==> rows == CompletedTable(old(rows), id, response)
      ensures id != "" ==>
                && rows.Keys == old(rows).Keys
                && forall k :: k in rows ==>
                                 var row := old(rows)[k];
                                 rows[k] == if row.id == id && row.status == InProgress
                                            then row.(status := Completed, response := Some(response)) else row
      ensures id != "" ==> (failure.None? <==> exists k :: k in old(rows) && Completes(old(rows)[k], id))
    {
      if id == "" {
        return None;
      }
      var affected := set k | k in rows && Completes(rows[k], id);
      rows := CompletedTable(rows, id, response);
      if |affected| == 0 {
        assert affected == {};
        assert forall k :: k in old(rows) && Completes(old(rows)[k], id) ==> k in affected;
        return Some(NothingCompleted);
      }
      var k :| k in affected;
      return None;
    }

    method Abandon(id: string)
      modifies this
      ensures rows == if id == "" then old(rows) else Without(old(rows), id)
      ensures id != "" ==> forall k :: k in rows <==> k in old(rows) && old(rows)[k].id != id
      ensures forall k :: k in rows ==> rows[k] == old(rows)[k]
    {
      if id == "" {
        return;
      }
      rows := Without(rows, id);
    }
  }

  // ---------------------------------------------------------------- the handlers

  datatype Op = Submit | Confirm

  function Name(op: Op): string { if op.Submit? then "submit" else "confirm" }

  function Scope(op: Op): string { if op.Submit? then "disclosure.submit" else "disclosure.confirm" }

  /** The text whose digest is the request hash; the digest is taken to be injective. */
  function HashInput(companyID: string, recordID: string, userID: string, op: string): string {
    Join([companyID, recordID, userID, op], "|")
  }

  datatype Answer =
    | Done(body: string)                            // the service ran and succeeded
    | ServiceError                                  // the service ran and failed
    | Replayed(httpStatus: int, body: string)
    | Conflicted
    | StoreError(failure: Failure)

  /** The envelope kept for a success: the status is always 200. */
  function Kept(body: string): Response { Envelope(200, body) }

  /** The row a header key leads to. */
  function HeaderKey(op: Op, header: string): RowKey { KeyOf(Params("", Scope(op), header, "")) }

  class Handler {
    const store: Store

    constructor (store: Store)
      ensures this.store == store
    {
      this.store := store;
    }

    /**
     One request, uninterrupted. `outcome` is what the service does when it is called: a response body, or an
     error. The service is called exactly when there is no key, or the key gets a reservation.
     */
    method Handle(op: Op, companyID: string, recordID: string, userID: string, header: string, outcome: Option<string>,
                  id: string, now: Time) returns (answer: Answer, called: bool)
      requires id != ""
      modifies store
      ensures var k := HeaderKey(op, header);
              var hash := HashInput(companyID, recordID, userID, Name(op));
              var reserved := !Blank(header) && k !in old(store.rows) && !IDTaken(old(store.rows), id);
              && (called <==> Blank(header) || reserved)
              && (called ==> answer == match outcome case None => ServiceError case Some(body) => Done(body))
              && (!called ==> answer == match LoadedFrom(old(store.rows), k, hash)
                                        case Err(f) => StoreError(f)
                                        case Ok(Replay(s, b)) => Replayed(s, b)
                                        case Ok(_) => Conflicted)
              && (reserved && outcome.Some? ==>
                    store.rows == old(store.rows)[k := NewRow(id, companyID, hash, now).(status := Completed,
                                                                                         response := Some(Kept(outcome.value)))])
              && (!reserved || outcome.None? ==> store.rows == old(store.rows))
    {
      hide Trim, HashInput, Folded;
      var key := Trim(header);
      var reservation := "";
      ghost var k := HeaderKey(op, header);
      ghost var before := store.rows;
      var hash := HashInput(companyID, recordID, userID, Name(op));
      ScopeIsTrimmed(op);
      TrimIdempotent(header);
      if key != "" {
        var res := store.TryReserve(Params(companyID, Scope(op), key, hash), id, now);
        if res.Err? {
          return StoreError(res.error), false;
        }
        match res.value {
          case Replay(status, body) => return Replayed(status, body), false;
          case Conflict => return Conflicted, false;
          case Reserved(rid) => reservation := rid;
        }
        NotAnotherReservation(before, k, hash);
      }
      called := true;
      if reservation != "" {
        if outcome.None? {
          store.Abandon(reservation);
          assert store.rows == before;
        } else {
          var failure := store.Complete(reservation, Kept(outcome.value));
          assert store.rows == before[k := NewRow(id, companyID, hash, now).(status := Completed,
                                                                            response := Some(Kept(outcome.value)))];
        }
      }
      answer := match outcome case None => ServiceError case Some(body) => Done(body);
    }
  }

  lemma ScopeIsTrimmed(op: Op)
    ensures Trim(Scope(op)) == Scope(op) && !Blank(Scope(op))
  {
    TrimOfTrimmed(Scope(op));
  }

  lemma NotAnotherReservation(rows: Table, k: RowKey, hash: string)
    ensures LoadedFrom(rows, k, hash).Ok? ==> !LoadedFrom(rows, k, hash).value.Reserved?
  {
  }

  // ---------------------------------------------------------------- hashes and keys

  /** A submission and a confirmation never share a row or a hash, whatever their keys and ids. */
  lemma OperationsAreApart(a: string, b: string, c: string, a1: string, b1: string, c1: string)
    ensures HeaderKey(Submit, a) != HeaderKey(Confirm, a1)
    ensures HashInput(a, b, c, "submit") != HashInput(a1, b1, c1, "confirm")
    ensures Name(Submit) == "submit" && Name(Confirm) == "confirm"
  {
    ScopesDiffer();
    JoinFour(a, b, c, "submit");
    JoinFour(a1, b1, c1, "confirm");
    var (x, y) := (HashInput(a, b, c, "submit"), HashInput(a1, b1, c1, "confirm"));
    assert x[|x| - 1] == 't' && y[|y| - 1] == 'm';
  }

  lemma ScopesDiffer()
    ensures Folded(Trim(Scope(Submit))) != Folded(Trim(Scope(Confirm)))
  {
    ScopeIsTrimmed(Submit);
    ScopeIsTrimmed(Confirm);
    hide Trim, Folded;
    FoldedIff(Scope(Submit), Scope(Confirm));
    var (x, y) := (Scope(Submit), Scope(Confirm));
    assert x[11] == 's' && y[11] == 'c';
    hide Scope;
    assert Padded(x, 11) != Padded(y, 11);
  }

  function Bars(s: string): nat {
    if s == "" then 0 else (if s[0] == '|' then 1 else 0) + Bars(s[1..])
  }

  lemma {:induction false} BarsOfConcat(a: string, b: string)
    ensures Bars(a + b) == Bars(a) + Bars(b)
    decreases |a|
  {
    if a == "" {
      assert a + b == b;
    } else {
      assert (a + b)[1..] == a[1..] + b;
      BarsOfConcat(a[1..], b);
    }
  }

  lemma {:induction false} NoBars(s: string)
    ensures Bars(s) == 0 <==> '|' !in s
    decreases |s|
  {
    if s != "" {
      NoBars(s[1..]);
      assert s == [s[0]] + s[1..];
    }
  }

  lemma JoinFour(a: string, b: string, c: string, d: string)
    ensures HashInput(a, b, c, d) == a + "|" + (b + "|" + (c + "|" + d))
  {
    assert [a, b, c, d][1..] == [b, c, d];
    assert [b, c, d][1..] == [c, d];
    assert [c, d][1..] == [d];
    assert Join([c, d], "|") == c + "|" + d;
    assert Join([b, c, d], "|") == b + "|" + (c + "|" + d);
    assert HashInput(a, b, c, d) == a + "|" + Join([b, c, d], "|");
  }

  lemma BarsOfHash(a: string, b: string, c: string, d: string)
    ensures Bars(HashInput(a, b, c, d)) == Bars(a) + Bars(b) + Bars(c) + Bars(d) + 3
  {
    JoinFour(a, b, c, d);
    BarsOfConcat(a + "|", b + "|" + (c + "|" + d));
    BarsOfConcat(a, "|");
    BarsOfConcat(b + "|", c + "|" + d);
    BarsOfConcat(b, "|");
    BarsOfConcat(c + "|", d);
    BarsOfConcat(c, "|");
    assert Bars("|") == 1;
  }

  lemma PlainHash(a: string, b: string, c: string, op: string, a1: string, b1: string, c1: string)
    requires '|' !in a && '|' !in b && '|' !in c && '|' !in op
    requires HashInput(a1, b1, c1, op) == HashInput(a, b, c, op)
    ensures a1 == a && b1 == b && c1 == c
  {
    hide HashInput;
    NoBars(a); NoBars(b); NoBars(c); NoBars(a1); NoBars(b1); NoBars(c1);
    BarsOfHash(a, b, c, op);
    BarsOfHash(a1, b1, c1, op);
    assert Split(HashInput(a, b, c, op), '|') == [a, b, c, op] by { SplitOfHash(a, b, c, op); }
    assert Split(HashInput(a1, b1, c1, op), '|') == [a1, b1, c1, op] by { SplitOfHash(a1, b1, c1, op); }
    assert [a, b, c, op][0] == [a1, b1, c1, op][0] && [a, b, c, op][1] == [a1, b1, c1, op][1];
    assert [a, b, c, op][2] == [a1, b1, c1, op][2];
  }

  lemma SplitOfHash(a: string, b: string, c: string, op: string)
    requires '|' !in a && '|' !in b && '|' !in c && '|' !in op
    ensures Split(HashInput(a, b, c, op), '|') == [a, b, c, op]
  {
    SplitInvertsJoin([a, b, c, op], '|');
  }

  /** The hash tells a request from every other one of the same operation exactly when no id holds a bar. */
  lemma HashIsOwnIff(a: string, b: string, c: string, op: Op)
    ensures (forall a1, b1, c1 :: HashInput(a1, b1, c1, Name(op)) == HashInput(a, b, c, Name(op)) ==>
                                    a1 == a && b1 == b && c1 == c)
            <==> '|' !in a && '|' !in b && '|' !in c
  {
    hide HashInput;
    var d := Name(op);
    if '|' in a {
      var i :| 0 <= i < |a| && a[i] == '|';
      assert a == a[..i] + "|" + a[i + 1..];
      SameText(a[..i], a[i + 1..], b, c, d);
    } else if '|' in b {
      var i :| 0 <= i < |b| && b[i] == '|';
      assert b == b[..i] + "|" + b[i + 1..];
      JoinFour(a, b, c, d);
      JoinFour(a + "|" + b[..i], b[i + 1..], c, d);
      assert a + "|" + (b + "|" + (c + "|" + d)) == (a + "|" + b[..i]) + "|" + (b[i + 1..] + "|" + (c + "|" + d));
      assert HashInput(a + "|" + b[..i], b[i + 1..], c, d) == HashInput(a, b, c, d);
    } else if '|' in c {
      var i :| 0 <= i < |c| && c[i] == '|';
      assert c == c[..i] + "|" + c[i + 1..];
      JoinFour(a, b, c, d);
      JoinFour(a, b + "|" + c[..i], c[i + 1..], d);
      assert a + "|" + (b + "|" + (c + "|" + d)) == a + "|" + ((b + "|" + c[..i]) + "|" + (c[i + 1..] + "|" + d));
      assert HashInput(a, b + "|" + c[..i], c[i + 1..], d) == HashInput(a, b, c, d);
      assert b + "|" + c[..i] != b;
    } else {
      forall a1, b1, c1 | HashInput(a1, b1, c1, d) == HashInput(a, b, c, d) ensures a1 == a && b1 == b && c1 == c {
        PlainHash(a, b, c, d, a1, b1, c1);
      }
    }
  }

  lemma SameText(x: string, y: string, b: string, c: string, d: string)
    ensures HashInput(x + "|" + y, b, c, d) == HashInput(x, y + "|" + b, c, d)
    ensures x != x + "|" + y
  {
    JoinFour(x + "|" + y, b, c, d);
    JoinFour(x, y + "|" + b, c, d);
    assert (x + "|" + y) + "|" + (b + "|" + (c + "|" + d)) == x + "|" + ((y + "|" + b) + "|" + (c + "|" + d));
    assert |x + "|" + y| > |x|;
  }

  /** A text as the collation compares it: character `i`, or padding. */
  function Padded(s: string, i: nat): char { if i < |s| then LowerChar(s[i]) else ' ' }

  lemma LoweredBlank(c: char)
    ensures LowerChar(c) == ' ' <==> c == ' '
  {
  }

  lemma PaddedUnpadded(s: string, i: nat)
    ensures Padded(Unpadded(s), i) == Padded(s, i)
  {
  }

  lemma FoldedIff(a: string, b: string)
    ensures Folded(a) == Folded(b) <==> forall i: nat :: Padded(a, i) == Padded(b, i)
  {
    var (x, y) := (Unpadded(a), Unpadded(b));
    if Folded(a) == Folded(b) {
      forall i: nat ensures Padded(a, i) == Padded(b, i) {
        PaddedUnpadded(a, i);
        PaddedUnpadded(b, i);
        assert i < |x| ==> Lower(x)[i] == Lower(y)[i];
      }
    }
    if forall i: nat :: Padded(a, i) == Padded(b, i) {
      forall i: nat ensures Padded(x, i) == Padded(y, i) {
        PaddedUnpadded(a, i);
        PaddedUnpadded(b, i);
      }
      SameLength(x, y);
      SameLength(y, x);
      forall i | 0 <= i < |x| ensures Lower(x)[i] == Lower(y)[i] {
        assert Padded(x, i) == Padded(y, i);
      }
    }
  }

  lemma SameLength(x: string, y: string)
    requires forall i: nat :: Padded(x, i) == Padded(y, i)
    requires y == "" || y[|y| - 1] != ' '
    ensures |y| <= |x|
  {
    if y != "" {
      LoweredBlank(y[|y| - 1]);
      assert Padded(x, |y| - 1) == Padded(y, |y| - 1) != ' ';
    }
  }

  /**
   Two keys share a row exactly when, outer blanks aside and whatever their letters' case, they agree in each of
   the first 191 places, where a key that is shorter counts as padded with blanks.
   */
  lemma SameRowIff(op: Op, a: string, b: string)
    ensures HeaderKey(op, a) == HeaderKey(op, b) <==>
            forall i: nat :: i < 191 ==> Padded(Trim(a), i) == Padded(Trim(b), i)
  {
    hide Trim, Folded;
    var (x, y) := (Truncated(Trim(a)), Truncated(Trim(b)));
    FoldedIff(x, y);
    forall i: nat | i < MAX_KEY ensures Padded(x, i) == Padded(Trim(a), i) && Padded(y, i) == Padded(Trim(b), i) {
    }
    forall i: nat | i >= MAX_KEY ensures Padded(x, i) == Padded(y, i) {
    }
  }
}

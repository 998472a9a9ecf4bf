/** The versioned template catalog: four maps that must agree through upsert and rollback. */
module Catalog {
  import opened Prelude
  import opened Text
  import opened TemplateModel

  datatype TypeDTO = TypeDTO(versionNo: int, content: Request)

  datatype VersionDTO = VersionDTO(
    typeID: string, versionNo: int, isActive: bool, changeNote: string, updatedBy: string, activatedAt: Time)

  datatype UpsertCall = UpsertCall(companyID: string, userID: string, changeNote: string, req: Request)

  datatype ActivateCall = ActivateCall(companyID: string, userID: string, typeID: string, versionNo: int)

  datatype Receipt = Receipt(typeID: string, versionNo: int, isActive: bool, updatedBy: string, activatedAt: Time)

  datatype NotFound = TypeNotFound | VersionNotFound

  datatype State = State(
    catalog: map<string, TypeDTO>,
    byVer: map<string, map<int, TypeDTO>>,
    versions: map<string, seq<VersionDTO>>,
    scope: map<string, string>)

  // ---------------------------------------------------------------- specification

  function Get<V>(m: map<string, V>, k: string, default: V): V {
    if k in m then m[k] else default
  }

  function NextVersion(s: State, t: string): int {
    if t in s.catalog then s.catalog[t].versionNo + 1 else 1
  }

  function Inactive(vs: seq<VersionDTO>): (r: seq<VersionDTO>)
    ensures |r| == |vs| && forall i :: 0 <= i < |vs| ==> r[i] == vs[i].(isActive := false)
  {
    seq(|vs|, i requires 0 <= i < |vs| => vs[i].(isActive := false))
  }

  function Upserted(s: State, c: UpsertCall, now: Time): State {
    var t := c.req.typeID;
    var v := NextVersion(s, t);
    var next := TypeDTO(v, c.req);
    State(s.catalog[t := next],
          s.byVer[t := Get(s.byVer, t, map[])[v := next]],
          s.versions[t := Inactive(Get(s.versions, t, [])) + [VersionDTO(t, v, true, Trim(c.changeNote), c.userID, now)]],
          s.scope[t := c.companyID])
  }

  /** Whether a company may see a type. */
  predicate Visible(s: State, companyID: string, t: string) {
    var scope := Get(s.scope, t, "");
    scope == "global" || scope == companyID
  }

  /** The last listed entry with that number. */
  function LastListed(vs: seq<VersionDTO>, v: int): (i: int)
    ensures -1 <= i < |vs|
    ensures i >= 0 ==> vs[i].versionNo == v
    ensures forall j :: i < j < |vs| ==> vs[j].versionNo != v
  {
    if vs == [] then -1
    else if vs[|vs| - 1].versionNo == v then |vs| - 1
    else LastListed(vs[..|vs| - 1], v)
  }

  function Activated(s: State, c: ActivateCall, now: Time): (State, Result<Receipt, NotFound>) {
    var t := c.typeID;
    if t !in s.catalog || !Visible(s, c.companyID, t) then (s, Err(TypeNotFound))
    else
      var vs := Get(s.versions, t, []);
      var cleared := Inactive(vs);
      var i := LastListed(vs, c.versionNo);
      if i < 0 then (if t in s.versions then s.(versions := s.versions[t := cleared]) else s, Err(VersionNotFound))
      else
        var entry := cleared[i].(isActive := true, updatedBy := c.userID, activatedAt := now);
        var snapshots := Get(s.byVer, t, map[]);
        var shown := if c.versionNo in snapshots then snapshots[c.versionNo] else s.catalog[t].(versionNo := c.versionNo);
        (s.(versions := s.versions[t := cleared[i := entry]], catalog := s.catalog[t := shown]),
         Ok(Receipt(t, c.versionNo, true, c.userID, now)))
  }

  function Seeded(seeds: seq<Request>, now: Time): State {
    if seeds == [] then State(map[], map[], map[], map[])
    else
      var s := Seeded(seeds[..|seeds| - 1], now);
      var item := TypeDTO(1, seeds[|seeds| - 1]);
      var t := item.content.typeID;
      State(s.catalog[t := item], s.byVer[t := map[1 := item]],
            s.versions[t := [VersionDTO(t, 1, true, "seed", "system", now)]], s.scope[t := "global"])
  }

  ghost predicate Descending(vs: seq<VersionDTO>) {
    forall i, j :: 0 <= i < j < |vs| ==> vs[i].versionNo >= vs[j].versionNo
  }

  lemma InsertedInOrder(sorted: seq<VersionDTO>, v: VersionDTO, i: nat)
    requires Descending(sorted) && i <= |sorted|
    requires forall j :: i <= j < |sorted| ==> sorted[j].versionNo < v.versionNo
    requires i > 0 ==> sorted[i - 1].versionNo >= v.versionNo
    ensures Descending(sorted[..i] + [v] + sorted[i..])
  {
  }

  lemma InsertedOnce(sorted: seq<VersionDTO>, v: VersionDTO, i: nat)
    requires i <= |sorted|
    ensures multiset(sorted[..i] + [v] + sorted[i..]) == multiset(sorted) + multiset{v}
  {
    assert sorted == sorted[..i] + sorted[i..];
  }

  // ---------------------------------------------------------------- the repository

  class Repository {
    var catalog: map<string, TypeDTO>
    var catalogByVer: map<string, map<int, TypeDTO>>
    var versions: map<string, seq<VersionDTO>>
    var catalogScope: map<string, string>

    function AsState(): State
      reads this
    {
      State(catalog, catalogByVer, versions, catalogScope)
    }

    constructor (seeds: seq<Request>, now: Time)
      ensures AsState() == Seeded(seeds, now)
    {
      catalog, catalogByVer, versions, catalogScope := map[], map[], map[], map[];
      new;
      for i := 0 to |seeds|
        invariant AsState() == Seeded(seeds[..i], now)
      {
        assert seeds[..i + 1][..i] == seeds[..i];
        var item := TypeDTO(1, seeds[i]);
        var t := item.content.typeID;
        catalog := catalog[t := item];
        catalogByVer := catalogByVer[t := map[1 := item]];
        catalogScope := catalogScope[t := "global"];
        versions := versions[t := [VersionDTO(t, 1, true, "seed", "system", now)]];
      }
      assert seeds[..|seeds|] == seeds;
    }

    method UpsertTypeVersion(c: UpsertCall, now: Time) returns (receipt: Receipt)
      modifies this
      ensures AsState() == Upserted(old(AsState()), c, now)
      ensures receipt == Receipt(c.req.typeID, NextVersion(old(AsState()), c.req.typeID), true, c.userID, now)
    {
      var t := c.req.typeID;
      var versionNo := 1;
      if t in catalog {
        versionNo := catalog[t].versionNo + 1;
      }
      var next := TypeDTO(versionNo, c.req);
      catalog := catalog[t := next];
      if t !in catalogByVer {
        catalogByVer := catalogByVer[t := map[]];
      }
      catalogByVer := catalogByVer[t := catalogByVer[t][versionNo := next]];
      catalogScope := catalogScope[t := c.companyID];
      var vs := Get(versions, t, []);
      vs := ClearActive(vs);
      vs := vs + [VersionDTO(t, versionNo, true, Trim(c.changeNote), c.userID, now)];
      versions := versions[t := vs];
      receipt := Receipt(t, versionNo, true, c.userID, now);
    }

    static method ClearActive(before: seq<VersionDTO>) returns (vs: seq<VersionDTO>)
      ensures vs == Inactive(before)
    {
      vs := before;
      for i := 0 to |vs|
        invariant |vs| == |before|
        invariant forall j :: 0 <= j < |vs| ==> vs[j] == if j < i then before[j].(isActive := false) else before[j]
      {
        vs := vs[i := vs[i].(isActive := false)];
      }
    }

    /** On an unlisted version the flags are already cleared when the error is returned. */
    method ActivateTypeVersion(c: ActivateCall, now: Time) returns (res: Result<Receipt, NotFound>)
      modifies this
      ensures (AsState(), res) == Activated(old(AsState()), c, now)
    {
      var t := c.typeID;
      if t !in catalog {
        return Err(TypeNotFound);
      }
      var current := catalog[t];
      if !Visible(AsState(), c.companyID, t) {
        return Err(TypeNotFound);
      }
      var before := Get(versions, t, []);
      var vs, target := before, -1;
      for i := 0 to |before|
        invariant |vs| == |before| && target == LastListed(before[..i], c.versionNo)
        invariant forall j :: 0 <= j < |vs| ==> vs[j] == if j < i then before[j].(isActive := false) else before[j]
      {
        assert before[..i + 1][..i] == before[..i];
        if vs[i].versionNo == c.versionNo {
          target := i;
        }
        vs := vs[i := vs[i].(isActive := false)];
      }
      assert before[..|before|] == before && vs == Inactive(before);
      if t in versions {
        versions := versions[t := vs];
      }
      if target < 0 {
        return Err(VersionNotFound);
      }
      vs := vs[target := vs[target].(isActive := true, updatedBy := c.userID, activatedAt := now)];
      versions := versions[t := vs];
      assert versions == old(versions)[t := vs];
      current := current.(versionNo := c.versionNo);
      if t in catalogByVer {
        if c.versionNo in catalogByVer[t] {
          catalog := catalog[t := catalogByVer[t][c.versionNo]];
        } else {
          catalog := catalog[t := current];
        }
      } else {
        catalog := catalog[t := current];
      }
      return Ok(Receipt(t, c.versionNo, true, c.userID, now));
    }

    method GetTypeDetail(companyID: string, t: string) returns (res: Result<TypeDTO, NotFound>)
      ensures res == if t in catalog && Visible(AsState(), companyID, t) then Ok(catalog[t]) else Err(TypeNotFound)
    {
      if t !in catalog {
        return Err(TypeNotFound);
      }
      if !Visible(AsState(), companyID, t) {
        return Err(TypeNotFound);
      }
      return Ok(catalog[t]);
    }

    method GetTypeVersionDetail(companyID: string, t: string, versionNo: int) returns (res: Result<TypeDTO, NotFound>)
      ensures res == if Visible(AsState(), companyID, t) && t in catalogByVer && versionNo in catalogByVer[t]
                     then Ok(catalogByVer[t][versionNo]) else Err(VersionNotFound)
    {
      if !Visible(AsState(), companyID, t) {
        return Err(VersionNotFound);
      }
      if t !in catalogByVer {
        return Err(VersionNotFound);
      }
      if versionNo !in catalogByVer[t] {
        return Err(VersionNotFound);
      }
      return Ok(catalogByVer[t][versionNo]);
    }

    /** Newest version number first; entries with equal numbers in any order. */
    method ListTypeVersions(companyID: string, t: string) returns (res: Result<seq<VersionDTO>, NotFound>)
      ensures res.Ok? <==> t in catalog && Visible(AsState(), companyID, t)
      ensures res.Err? ==> res.error == TypeNotFound
      ensures res.Ok? ==> multiset(res.value) == multiset(Get(versions, t, [])) && Descending(res.value)
    {
      if t !in catalog || !Visible(AsState(), companyID, t) {
        return Err(TypeNotFound);
      }
      var vs := Get(versions, t, []);
      var out: seq<VersionDTO> := [];
      for i := 0 to |vs|
        invariant multiset(out) == multiset(vs[..i]) && Descending(out)
      {
        assert vs[..i + 1] == vs[..i] + [vs[i]];
        out := InsertDescending(out, vs[i]);
      }
      assert vs[..|vs|] == vs;
      return Ok(out);
    }

    static method InsertDescending(sorted: seq<VersionDTO>, v: VersionDTO) returns (out: seq<VersionDTO>)
      requires Descending(sorted)
      ensures multiset(out) == multiset(sorted) + multiset{v} && Descending(out)
    {
      var i := |sorted|;
      while i > 0 && sorted[i - 1].versionNo < v.versionNo
        invariant 0 <= i <= |sorted|
        invariant forall j :: i <= j < |sorted| ==> sorted[j].versionNo < v.versionNo
      {
        i := i - 1;
      }
      out := sorted[..i] + [v] + sorted[i..];
      InsertedInOrder(sorted, v, i);
      InsertedOnce(sorted, v, i);
    }
  }
}

/** The catalog column by column: what an upsert and an activation write, what they leave alone, and who sees the seeds. */
module CatalogLaws {
  import opened Prelude
  import opened Text
  import opened TemplateModel
  import opened Catalog

  /** A seeded type is at version 1, active, and visible to every company. */
  lemma {:induction false} SeedsAreForAll(seeds: seq<Request>, now: Time, i: nat, companyID: string)
    requires i < |seeds|
    ensures var (s, t) := (Seeded(seeds, now), seeds[i].typeID);
            && Visible(s, companyID, t)
            && t in s.catalog && s.catalog[t].versionNo == 1
            && ((forall j :: i < j < |seeds| ==> seeds[j].typeID != t) ==> s.catalog[t].content == seeds[i])
            && t in s.byVer && s.byVer[t] == map[1 := s.catalog[t]]
            && t in s.versions && |s.versions[t]| == 1
            && s.versions[t][0].versionNo == 1 && s.versions[t][0].isActive && s.versions[t][0].activatedAt == now
    decreases |seeds|
  {
    var n := |seeds| - 1;
    if i < n {
      SeedsAreForAll(seeds[..n], now, i, companyID);
      assert forall j :: 0 <= j < n ==> seeds[..n][j] == seeds[j];
    }
  }

  /** Two states agree on every type but `t`. */
  ghost predicate OthersStay(s: State, s': State, t: string) {
    && (forall x :: x != t ==> (x in s.catalog <==> x in s'.catalog) && (x in s.catalog ==> s'.catalog[x] == s.catalog[x]))
    && (forall x :: x != t ==> (x in s.byVer <==> x in s'.byVer) && (x in s.byVer ==> s'.byVer[x] == s.byVer[x]))
    && (forall x :: x != t ==> (x in s.versions <==> x in s'.versions) && (x in s.versions ==> s'.versions[x] == s.versions[x]))
    && (forall x :: x != t ==> (x in s.scope <==> x in s'.scope) && (x in s.scope ==> s'.scope[x] == s.scope[x]))
  }

  /** The same entry, active or not. */
  ghost predicate SameEntry(a: VersionDTO, b: VersionDTO) {
    a.typeID == b.typeID && a.versionNo == b.versionNo && a.changeNote == b.changeNote && a.updatedBy == b.updatedBy
    && a.activatedAt == b.activatedAt
  }

  /** The listed entries so far, all switched off, with nothing else changed. */
  ghost predicate SwitchedOff(before: seq<VersionDTO>, after: seq<VersionDTO>) {
    && |after| >= |before|
    && forall i :: 0 <= i < |before| ==> SameEntry(after[i], before[i]) && !after[i].isActive
  }

  /**
   An upsert shows the request under the number after the one shown, keeps it as a snapshot, lists it as the one active
   version with trimmed note, author and time, and gives the type to the company.
   */
  lemma UpsertWrites(s: State, c: UpsertCall, now: Time)
    ensures var (s', t) := (Upserted(s, c, now), c.req.typeID);
            var v := if t in s.catalog then s.catalog[t].versionNo + 1 else 1;
            && OthersStay(s, s', t)
            && t in s'.catalog && s'.catalog[t] == TypeDTO(v, c.req)
            && t in s'.byVer && v in s'.byVer[t] && s'.byVer[t][v] == TypeDTO(v, c.req)
            && (forall w :: w != v && t in s.byVer && w in s.byVer[t] ==> w in s'.byVer[t] && s'.byVer[t][w] == s.byVer[t][w])
            && (forall w :: w != v && w in s'.byVer[t] ==> t in s.byVer && w in s.byVer[t])
            && t in s'.scope && s'.scope[t] == c.companyID
            && t in s'.versions
            && var (was, vs) := (if t in s.versions then s.versions[t] else [], s'.versions[t]);
            && |vs| == |was| + 1 && SwitchedOff(was, vs)
            && vs[|was|].typeID == t && vs[|was|].versionNo == v && vs[|was|].isActive
            && vs[|was|].changeNote == Trim(c.changeNote) && vs[|was|].updatedBy == c.userID && vs[|was|].activatedAt == now
  {
    hide Trim;
  }

  /**
   An activation is refused without a change when the company does not see the type; on a version that is not listed it
   switches every entry off; else exactly the last entry of that number is on, with author and time, and the type
   shows the snapshot of that number.
   */
  lemma ActivateWrites(s: State, c: ActivateCall, now: Time)
    requires c.typeID in s.versions
    ensures var (s', res) := Activated(s, c, now);
            var (t, was) := (c.typeID, s.versions[c.typeID]);
            var listed := exists i :: 0 <= i < |was| && was[i].versionNo == c.versionNo;
            && OthersStay(s, s', t) && s'.byVer == s.byVer && s'.scope == s.scope
            && t in s'.versions && |s'.versions[t]| == |was|
            && (res == Err(TypeNotFound) <==> t !in s.catalog || !(t in s.scope ==> s.scope[t] in {"global", c.companyID})
                                              || (t !in s.scope && c.companyID != ""))
            && (res == Err(TypeNotFound) ==> s' == s)
            && (res.Ok? <==> res != Err(TypeNotFound) && listed)
            && (res == Err(VersionNotFound) ==> SwitchedOff(was, s'.versions[t]) && s'.catalog == s.catalog)
            && (res.Ok? ==>
                  && res.value == Receipt(t, c.versionNo, true, c.userID, now)
                  && (exists i :: 0 <= i < |was| && IsSwitched(was, s'.versions[t], i, c, now))
                  && t in s'.catalog
                  && (t in s.byVer && c.versionNo in s.byVer[t] ==> s'.catalog[t] == s.byVer[t][c.versionNo]))
  {
    hide Trim;
    var i := LastListed(s.versions[c.typeID], c.versionNo);
    if Activated(s, c, now).1.Ok? { assert IsSwitched(s.versions[c.typeID], Activated(s, c, now).0.versions[c.typeID], i, c, now); }
  }

  /** Entry `i`, the last of its number, is switched on by the call, and every other one off. */
  ghost predicate IsSwitched(was: seq<VersionDTO>, vs: seq<VersionDTO>, i: nat, c: ActivateCall, now: Time)
    requires i < |was|
  {
    && |vs| == |was|
    && was[i].versionNo == c.versionNo && (forall j :: i < j < |was| ==> was[j].versionNo != c.versionNo)
    && vs[i].isActive && vs[i].updatedBy == c.userID && vs[i].activatedAt == now
    && vs[i].typeID == was[i].typeID && vs[i].versionNo == was[i].versionNo && vs[i].changeNote == was[i].changeNote
    && forall j :: 0 <= j < |was| && j != i ==> SameEntry(vs[j], was[j]) && !vs[j].isActive
  }
}

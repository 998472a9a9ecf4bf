/** What every sequence of upserts and activations keeps true of the catalog. */
module CatalogRuns {
  import opened Prelude
  import opened Text
  import opened TemplateModel
  import opened Catalog

  datatype Op = Upsert(u: UpsertCall, at: Time) | Activate(a: ActivateCall, at: Time)

  function TypeOf(op: Op): string {
    if op.Upsert? then op.u.req.typeID else op.a.typeID
  }

  function Apply(s: State, op: Op): State {
    match op
    case Upsert(u, at) => Upserted(s, u, at)
    case Activate(a, at) => Activated(s, a, at).0
  }

  // ---------------------------------------------------------------- invariant

  ghost predicate Listed(vs: seq<VersionDTO>, v: int) { exists i :: 0 <= i < |vs| && vs[i].versionNo == v }

  ghost predicate HasActive(vs: seq<VersionDTO>) { exists i :: 0 <= i < |vs| && vs[i].isActive }

  /** The agreement of the maps for one type. */
  ghost predicate TypeAgrees(t: string, current: TypeDTO, snapshots: map<int, TypeDTO>, vs: seq<VersionDTO>) {
    && current.versionNo in snapshots && snapshots[current.versionNo] == current
    && (forall v :: v in snapshots ==> snapshots[v].versionNo == v && snapshots[v].content.typeID == t)
    && (forall v :: v in snapshots <==> 1 <= v <= |snapshots|)
    && (forall i :: 0 <= i < |vs| ==> vs[i].versionNo in snapshots && vs[i].typeID == t)
    && (forall v :: v in snapshots ==> Listed(vs, v))
    && (forall i, j :: 0 <= i < j < |vs| ==> !(vs[i].isActive && vs[j].isActive))
    && (forall i :: 0 <= i < |vs| && vs[i].isActive ==> vs[i].versionNo == current.versionNo)
  }

  ghost predicate Agrees(s: State, t: string) {
    t in s.catalog && t in s.byVer && t in s.versions && TypeAgrees(t, s.catalog[t], s.byVer[t], s.versions[t])
  }

  /** The four maps cover the same types and agree on each. */
  ghost predicate Inv(s: State) {
    && s.catalog.Keys == s.byVer.Keys == s.versions.Keys == s.scope.Keys
    && forall t :: t in s.catalog ==> Agrees(s, t)
  }

  lemma UpsertNewAgrees(t: string, next: TypeDTO, entry: VersionDTO)
    requires next.versionNo == 1 && next.content.typeID == t
    requires entry.versionNo == 1 && entry.typeID == t && entry.isActive
    ensures TypeAgrees(t, next, map[1 := next], [entry])
  {
    assert [entry][0].versionNo == 1;
  }

  lemma UpsertAgainAgrees(
      t: string, current: TypeDTO, snapshots: map<int, TypeDTO>, vs: seq<VersionDTO>, next: TypeDTO, entry: VersionDTO)
    requires TypeAgrees(t, current, snapshots, vs)
    requires next.versionNo == current.versionNo + 1 == entry.versionNo && next.content.typeID == t
    requires entry.typeID == t && entry.isActive
    ensures TypeAgrees(t, next, snapshots[next.versionNo := next], Inactive(vs) + [entry])
  {
    var v, n := next.versionNo, |snapshots|;
    var after := snapshots[v := next];
    assert |after| == if v in snapshots then n else n + 1;
    var all := Inactive(vs) + [entry];
    assert all[|vs|].versionNo == v;
    forall w | w in after ensures Listed(all, w) {
      if w != v {
        var i :| 0 <= i < |vs| && vs[i].versionNo == w;
        assert all[i].versionNo == w;
      }
    }
  }

  /** A step that touches type `t` only. */
  lemma OneTypeKeepsInv(s: State, s': State, t: string)
    requires Inv(s) && Agrees(s', t)
    requires s'.catalog.Keys == s'.byVer.Keys == s'.versions.Keys == s'.scope.Keys == s.catalog.Keys + {t}
    requires forall x :: x in s.catalog && x != t ==>
                           s'.catalog[x] == s.catalog[x] && s'.byVer[x] == s.byVer[x] && s'.versions[x] == s.versions[x]
    ensures Inv(s')
  {
    hide TypeAgrees;
    forall x | x in s'.catalog ensures Agrees(s', x) {
      if x != t { assert Agrees(s, x); }
    }
  }

  lemma UpsertAgrees(s: State, c: UpsertCall, now: Time)
    requires Inv(s)
    ensures Agrees(Upserted(s, c, now), c.req.typeID)
  {
    hide TypeAgrees;
    var t, v := c.req.typeID, NextVersion(s, c.req.typeID);
    var next, entry := TypeDTO(v, c.req), VersionDTO(t, v, true, Trim(c.changeNote), c.userID, now);
    if t in s.catalog {
      assert Agrees(s, t);
      UpsertAgainAgrees(t, s.catalog[t], s.byVer[t], s.versions[t], next, entry);
    } else {
      assert Inactive([]) + [entry] == [entry];
      UpsertNewAgrees(t, next, entry);
    }
  }

  lemma UpsertKeepsInv(s: State, c: UpsertCall, now: Time)
    requires Inv(s)
    ensures Inv(Upserted(s, c, now))
  {
    hide Agrees;
    UpsertAgrees(s, c, now);
    OneTypeKeepsInv(s, Upserted(s, c, now), c.req.typeID);
  }

  lemma ClearedAgrees(t: string, current: TypeDTO, snapshots: map<int, TypeDTO>, vs: seq<VersionDTO>)
    requires TypeAgrees(t, current, snapshots, vs)
    ensures TypeAgrees(t, current, snapshots, Inactive(vs))
  {
    forall v | v in snapshots ensures Listed(Inactive(vs), v) {
      var i :| 0 <= i < |vs| && vs[i].versionNo == v;
      assert Inactive(vs)[i].versionNo == v;
    }
  }

  lemma ActivatedAgrees(
      t: string, current: TypeDTO, snapshots: map<int, TypeDTO>, vs: seq<VersionDTO>, i: nat, entry: VersionDTO)
    requires TypeAgrees(t, current, snapshots, vs) && i < |vs|
    requires entry.typeID == t && entry.versionNo == vs[i].versionNo && entry.isActive
    ensures TypeAgrees(t, snapshots[entry.versionNo], snapshots, Inactive(vs)[i := entry])
  {
    var after := Inactive(vs)[i := entry];
    forall v | v in snapshots ensures Listed(after, v) {
      var j :| 0 <= j < |vs| && vs[j].versionNo == v;
      assert after[j].versionNo == v;
    }
  }

  lemma ActivateAgrees(s: State, c: ActivateCall, now: Time)
    requires Inv(s) && c.typeID in s.catalog
    ensures Agrees(Activated(s, c, now).0, c.typeID)
  {
    hide TypeAgrees, Visible;
    var t := c.typeID;
    assert Agrees(s, t);
    var vs := s.versions[t];
    var i := LastListed(vs, c.versionNo);
    ClearedAgrees(t, s.catalog[t], s.byVer[t], vs);
    if i >= 0 {
      ListedHasSnapshot(t, s.catalog[t], s.byVer[t], vs, i);
      ActivatedAgrees(t, s.catalog[t], s.byVer[t], vs, i,
                      Inactive(vs)[i].(isActive := true, updatedBy := c.userID, activatedAt := now));
    }
  }

  lemma ListedHasSnapshot(t: string, current: TypeDTO, snapshots: map<int, TypeDTO>, vs: seq<VersionDTO>, i: nat)
    requires TypeAgrees(t, current, snapshots, vs) && i < |vs|
    ensures vs[i].versionNo in snapshots && vs[i].typeID == t
  {
  }

  lemma ActivateKeepsInv(s: State, c: ActivateCall, now: Time)
    requires Inv(s)
    ensures Inv(Activated(s, c, now).0)
  {
    hide Agrees, Visible, LastListed;
    if c.typeID in s.catalog {
      ActivateAgrees(s, c, now);
      OneTypeKeepsInv(s, Activated(s, c, now).0, c.typeID);
    }
  }

  /** Every step keeps the maps in agreement. */
  lemma StepKeepsInv(s: State, op: Op)
    requires Inv(s)
    ensures Inv(Apply(s, op))
  {
    hide Inv, Upserted, Activated;
    match op
    case Upsert(u, at) => UpsertKeepsInv(s, u, at);
    case Activate(a, at) => ActivateKeepsInv(s, a, at);
  }

  lemma {:induction false} SeededInv(seeds: seq<Request>, now: Time)
    ensures Inv(Seeded(seeds, now))
    decreases |seeds|
  {
    hide TypeAgrees;
    if seeds != [] {
      var s := Seeded(seeds[..|seeds| - 1], now);
      SeededInv(seeds[..|seeds| - 1], now);
      var r := seeds[|seeds| - 1];
      UpsertNewAgrees(r.typeID, TypeDTO(1, r), VersionDTO(r.typeID, 1, true, "seed", "system", now));
      OneTypeKeepsInv(s, Seeded(seeds, now), r.typeID);
    }
  }

  /** The state after the first `k` operations. */
  function StateAt(s: State, ops: seq<Op>, k: nat): State
    requires k <= |ops|
    decreases k
  {
    if k == 0 then s else Apply(StateAt(s, ops, k - 1), ops[k - 1])
  }

  /** Reachable states agree: the fallbacks for a missing snapshot never run. */
  lemma {:induction false} RunKeepsInv(s: State, ops: seq<Op>, k: nat)
    requires Inv(s) && k <= |ops|
    ensures Inv(StateAt(s, ops, k))
    decreases k
  {
    hide Inv, Apply;
    if k > 0 {
      RunKeepsInv(s, ops, k - 1);
      StepKeepsInv(StateAt(s, ops, k - 1), ops[k - 1]);
    }
  }

  /** An activation that succeeds shows the snapshot of that version; both read paths agree on it. */
  lemma ActivationShowsSnapshot(s: State, c: ActivateCall, now: Time)
    requires Inv(s) && Activated(s, c, now).1.Ok?
    ensures var s' := Activated(s, c, now).0;
            && c.typeID in s'.catalog && c.typeID in s.byVer && c.versionNo in s.byVer[c.typeID]
            && s'.catalog[c.typeID] == s.byVer[c.typeID][c.versionNo] && s'.byVer == s.byVer
            && s'.catalog[c.typeID].versionNo == c.versionNo
  {
    assert Agrees(s, c.typeID);
  }

  // ---------------------------------------------------------------- which version is active

  /**
   After any step on type t: an upsert or a successful activation leaves exactly its version
   active; only an activation, by a company that sees t, of an unlisted version leaves none;
   anything else leaves the list alone.
   */
  lemma ActiveAfterStep(s: State, op: Op, t: string)
    requires Inv(s) && t in s.versions
    ensures t in Apply(s, op).versions
    ensures var vs := Apply(s, op).versions[t];
            if TypeOf(op) != t || (op.Activate? && !Visible(s, op.a.companyID, t)) then vs == s.versions[t]
            else HasActive(vs) <==> (op.Upsert? || Listed(s.versions[t], op.a.versionNo))
  {
    hide Visible, Trim, Agrees;
    var s' := Apply(s, op);
    match op
    case Upsert(u, at) =>
      if u.req.typeID == t { assert s'.versions[t][|s.versions[t]|].isActive; }
    case Activate(a, at) =>
      if a.typeID == t && Visible(s, a.companyID, t) {
        var i := LastListed(s.versions[t], a.versionNo);
        if i >= 0 { assert s'.versions[t][i].isActive; }
      }
  }

  // ---------------------------------------------------------------- history

  /** An upsert made while an older version is shown: it reuses a number. */
  predicate Overwrites(s: State, op: Op, t: string) {
    op.Upsert? && op.u.req.typeID == t && t in s.catalog && t in s.byVer && s.catalog[t].versionNo < |s.byVer[t]|
  }

  /** Snapshot v changes only through an upsert of its type made while version v-1 is shown. */
  lemma SnapshotsChangeOnlyByOverwrite(s: State, op: Op, t: string, v: int)
    requires Inv(s) && t in s.byVer && v in s.byVer[t]
    ensures t in Apply(s, op).byVer && v in Apply(s, op).byVer[t]
    ensures Apply(s, op).byVer[t][v] != s.byVer[t][v] ==> Overwrites(s, op, t) && s.catalog[t].versionNo == v - 1
  {
    hide Trim, Visible, LastListed, Inactive;
    assert Agrees(s, t);
  }

  /** ... and an upsert reuses a number exactly when the version shown is below the highest. */
  lemma UpsertReusesIffBelowHighest(s: State, c: UpsertCall)
    requires Inv(s) && c.req.typeID in s.byVer
    ensures NextVersion(s, c.req.typeID) in s.byVer[c.req.typeID] <==> Overwrites(s, Upsert(c, 0), c.req.typeID)
  {
    assert Agrees(s, c.req.typeID);
  }

  /** Versions listed in order, 1 to n, once each. */
  ghost predicate OneToN(vs: seq<VersionDTO>) {
    forall i :: 0 <= i < |vs| ==> vs[i].versionNo == i + 1
  }

  /** The list is in order and its newest version is the one shown and active. */
  ghost predicate CleanType(current: TypeDTO, snapshots: map<int, TypeDTO>, vs: seq<VersionDTO>) {
    && OneToN(vs) && |vs| == |snapshots| == current.versionNo
    && |vs| > 0 && vs[|vs| - 1].isActive
  }

  ghost predicate Clean(s: State, t: string) {
    t in s.catalog && t in s.byVer && t in s.versions && CleanType(s.catalog[t], s.byVer[t], s.versions[t])
  }

  /** No activation of a version below the highest, and none of an unlisted one. */
  ghost predicate Polite(s: State, op: Op) {
    op.Activate? && op.a.typeID in s.versions && Visible(s, op.a.companyID, op.a.typeID) ==>
      Listed(s.versions[op.a.typeID], op.a.versionNo)
      && forall i :: 0 <= i < |s.versions[op.a.typeID]| ==> s.versions[op.a.typeID][i].versionNo <= op.a.versionNo
  }

  lemma CleanUpsert(
      t: string, current: TypeDTO, snapshots: map<int, TypeDTO>, vs: seq<VersionDTO>, next: TypeDTO, entry: VersionDTO)
    requires TypeAgrees(t, current, snapshots, vs) && CleanType(current, snapshots, vs)
    requires next.versionNo == current.versionNo + 1 == entry.versionNo && entry.isActive
    ensures next.versionNo !in snapshots
    ensures CleanType(next, snapshots[next.versionNo := next], Inactive(vs) + [entry])
  {
  }

  lemma CleanActivate(
      t: string, current: TypeDTO, snapshots: map<int, TypeDTO>, vs: seq<VersionDTO>, v: int, entry: VersionDTO)
    requires TypeAgrees(t, current, snapshots, vs) && CleanType(current, snapshots, vs)
    requires Listed(vs, v) && forall i :: 0 <= i < |vs| ==> vs[i].versionNo <= v
    requires entry.versionNo == v && entry.isActive
    ensures LastListed(vs, v) == |vs| - 1 && v in snapshots
    ensures CleanType(snapshots[v], snapshots, Inactive(vs)[|vs| - 1 := entry])
  {
    assert vs[|vs| - 1].versionNo == |vs|;
  }

  lemma PoliteUpsertStaysClean(s: State, u: UpsertCall, at: Time, t: string)
    requires Inv(s) && Clean(s, t)
    ensures var s' := Upserted(s, u, at);
            Clean(s', t) && (forall v :: v in s.byVer[t] ==> v in s'.byVer[t] && s'.byVer[t][v] == s.byVer[t][v])
  {
    hide Trim, TypeAgrees, CleanType;
    if u.req.typeID == t {
      assert Agrees(s, t);
      var v := NextVersion(s, t);
      CleanUpsert(t, s.catalog[t], s.byVer[t], s.versions[t], TypeDTO(v, u.req),
                  VersionDTO(t, v, true, Trim(u.changeNote), u.userID, at));
    }
  }

  lemma PoliteActivateStaysClean(s: State, a: ActivateCall, at: Time, t: string)
    requires Inv(s) && Polite(s, Activate(a, at)) && Clean(s, t)
    ensures var s' := Activated(s, a, at).0; s'.byVer == s.byVer && Clean(s', t)
  {
    hide Visible, TypeAgrees, CleanType, LastListed;
    if a.typeID == t && Visible(s, a.companyID, t) {
      assert Agrees(s, t);
      var vs := s.versions[t];
      var entry := Inactive(vs)[LastOf(vs, a.versionNo)].(isActive := true, updatedBy := a.userID, activatedAt := at);
      CleanActivate(t, s.catalog[t], s.byVer[t], vs, a.versionNo, entry);
    }
  }

  function LastOf(vs: seq<VersionDTO>, v: int): (i: nat)
    requires Listed(vs, v)
    ensures i < |vs| && vs[i].versionNo == v && i == LastListed(vs, v)
  {
    LastListed(vs, v)
  }

  /** A polite step keeps a clean type clean and every snapshot as it was. */
  lemma PoliteStepStaysClean(s: State, op: Op, t: string)
    requires Inv(s) && Polite(s, op) && Clean(s, t)
    ensures var s' := Apply(s, op);
            Clean(s', t) && (forall v :: v in s.byVer[t] ==> v in s'.byVer[t] && s'.byVer[t][v] == s.byVer[t][v])
  {
    hide Inv, CleanType, Upserted, Activated, Polite;
    match op
    case Upsert(u, at) => PoliteUpsertStaysClean(s, u, at, t);
    case Activate(a, at) => PoliteActivateStaysClean(s, a, at, t);
  }

  lemma NewTypeIsClean(s: State, op: Op, t: string)
    requires Inv(s) && t !in s.catalog && t in Apply(s, op).catalog
    ensures Clean(Apply(s, op), t)
  {
    hide Visible, Trim, Agrees;
    assert |map[1 := Apply(s, op).catalog[t]]| == 1;
  }

  ghost predicate PoliteRun(s: State, ops: seq<Op>) {
    forall k :: 0 <= k < |ops| ==> Polite(StateAt(s, ops, k), ops[k])
  }

  /**
   If no activation targets a version below the highest or one that is not listed, every type's
   versions are 1 to n once each with exactly the newest active, and no snapshot is ever changed.
   */
  lemma {:induction false} PoliteHistoryIsLinear(s: State, ops: seq<Op>, k: nat)
    requires Inv(s) && (forall t :: t in s.catalog ==> Clean(s, t)) && PoliteRun(s, ops) && k <= |ops|
    ensures Inv(StateAt(s, ops, k))
    ensures forall t :: t in StateAt(s, ops, k).catalog ==> Clean(StateAt(s, ops, k), t)
    ensures k > 0 ==> forall t, v :: t in StateAt(s, ops, k - 1).byVer && v in StateAt(s, ops, k - 1).byVer[t] ==>
                                       var after := StateAt(s, ops, k).byVer;
                                       t in after && v in after[t] && after[t][v] == StateAt(s, ops, k - 1).byVer[t][v]
    decreases k
  {
    if k > 0 {
      PoliteHistoryIsLinear(s, ops, k - 1);
      var before, op := StateAt(s, ops, k - 1), ops[k - 1];
      StepKeepsInv(before, op);
      assert before.catalog.Keys == before.byVer.Keys;
      hide Inv, Apply, CleanType, Polite;
      assert StateAt(s, ops, k) == Apply(before, op);
      forall t | t in Apply(before, op).catalog
        ensures Clean(Apply(before, op), t)
        ensures t in before.byVer ==> forall v :: v in before.byVer[t] ==>
                                                    v in Apply(before, op).byVer[t] && Apply(before, op).byVer[t][v] == before.byVer[t][v]
      {
        if t in before.catalog { PoliteStepStaysClean(before, op, t); } else { NewTypeIsClean(before, op, t); }
      }
      forall t | t in before.catalog ensures t in Apply(before, op).catalog { PoliteStepStaysClean(before, op, t); }
    }
  }

  lemma {:induction false} SeededIsClean(seeds: seq<Request>, now: Time)
    ensures forall t :: t in Seeded(seeds, now).catalog ==> Clean(Seeded(seeds, now), t)
    decreases |seeds|
  {
    if seeds != [] { SeededIsClean(seeds[..|seeds| - 1], now); }
  }

  // ---------------------------------------------------------------- exactly when numbers repeat

  function OverwriteCount(s: State, ops: seq<Op>, k: nat, t: string): nat
    requires k <= |ops|
    decreases k
  {
    if k == 0 then 0
    else OverwriteCount(s, ops, k - 1, t) + if Overwrites(StateAt(s, ops, k - 1), ops[k - 1], t) then 1 else 0
  }

  lemma NewNumberIff(t: string, current: TypeDTO, snapshots: map<int, TypeDTO>, vs: seq<VersionDTO>, next: TypeDTO)
    requires TypeAgrees(t, current, snapshots, vs)
    ensures var v := current.versionNo + 1;
            |snapshots[v := next]| == |snapshots| + if current.versionNo < |snapshots| then 0 else 1
  {
  }

  lemma ListGrowsBySnapshotsAndOverwrites(s: State, op: Op, t: string)
    requires Inv(s) && t in s.byVer
    ensures var s' := Apply(s, op);
            && t in s'.byVer && t in s'.versions && t in s.versions
            && |s'.versions[t]| - |s'.byVer[t]| == |s.versions[t]| - |s.byVer[t]| + (if Overwrites(s, op, t) then 1 else 0)
  {
    hide Visible, Trim, TypeAgrees, LastListed;
    assert Agrees(s, t);
    if op.Upsert? && op.u.req.typeID == t {
      NewNumberIff(t, s.catalog[t], s.byVer[t], s.versions[t], TypeDTO(NextVersion(s, t), op.u.req));
    }
  }

  lemma InvCovers(s: State, t: string)
    requires Inv(s)
    ensures t in s.byVer ==> t in s.versions
  {
    hide Agrees;
  }

  /** The list has one entry per snapshot and one more for every overwriting upsert. */
  lemma {:induction false} OverwritesAreCounted(s: State, ops: seq<Op>, k: nat, t: string)
    requires Inv(s) && k <= |ops| && t in s.byVer
    ensures var s' := StateAt(s, ops, k);
            && t in s.versions && t in s'.byVer && t in s'.versions
            && |s'.versions[t]| - |s'.byVer[t]| == |s.versions[t]| - |s.byVer[t]| + OverwriteCount(s, ops, k, t)
    decreases k
  {
    hide Inv, Apply, Overwrites;
    InvCovers(s, t);
    if k > 0 {
      OverwritesAreCounted(s, ops, k - 1, t);
      RunKeepsInv(s, ops, k - 1);
      ListGrowsBySnapshotsAndOverwrites(StateAt(s, ops, k - 1), ops[k - 1], t);
    }
  }

  /** No two entries share a number. */
  ghost predicate Distinct(vs: seq<VersionDTO>) {
    forall i, j :: 0 <= i < j < |vs| ==> vs[i].versionNo != vs[j].versionNo
  }

  function Numbers(vs: seq<VersionDTO>): set<int> { set i | 0 <= i < |vs| :: vs[i].versionNo }

  lemma NumbersSnoc(vs: seq<VersionDTO>, n: nat)
    requires n + 1 == |vs|
    ensures Numbers(vs) == Numbers(vs[..n]) + {vs[n].versionNo}
    ensures Distinct(vs) <==> Distinct(vs[..n]) && vs[n].versionNo !in Numbers(vs[..n])
  {
    var front := vs[..n];
    assert forall i :: 0 <= i < n ==> vs[i] == front[i];
    assert vs[n].versionNo in Numbers(vs);
    if Distinct(front) && vs[n].versionNo !in Numbers(front) {
      forall i, j | 0 <= i < j < |vs| ensures vs[i].versionNo != vs[j].versionNo {
        assert front[i].versionNo in Numbers(front);
      }
    }
  }

  lemma {:induction false} DistinctIffFull(vs: seq<VersionDTO>)
    ensures |Numbers(vs)| <= |vs|
    ensures Distinct(vs) <==> |Numbers(vs)| == |vs|
    decreases |vs|
  {
    if vs != [] {
      var n := |vs| - 1;
      NumbersSnoc(vs, n);
      hide Numbers, Distinct;
      DistinctIffFull(vs[..n]);
    }
  }

  /**
   Exactly when a number is listed twice: starting clean, a type's version numbers stay
   distinct if and only if no upsert of it was made while an older version was shown.
   */
  lemma NumbersRepeatIffOverwritten(s: State, ops: seq<Op>, k: nat, t: string)
    requires Inv(s) && k <= |ops| && Clean(s, t)
    ensures t in StateAt(s, ops, k).versions
    ensures Distinct(StateAt(s, ops, k).versions[t]) <==> OverwriteCount(s, ops, k, t) == 0
  {
    hide Apply, OneToN;
    OverwritesAreCounted(s, ops, k, t);
    RunKeepsInv(s, ops, k);
    var s' := StateAt(s, ops, k);
    assert Agrees(s', t);
    DistinctIffFull(s'.versions[t]);
    SnapshotsAreTheNumbers(s'.byVer[t], s'.versions[t], t, s'.catalog[t]);
  }

  lemma SnapshotsAreTheNumbers(snapshots: map<int, TypeDTO>, vs: seq<VersionDTO>, t: string, current: TypeDTO)
    requires TypeAgrees(t, current, snapshots, vs)
    ensures |Numbers(vs)| == |snapshots|
  {
    forall v | v in snapshots ensures v in Numbers(vs) {
      assert Listed(vs, v);
    }
    assert Numbers(vs) == snapshots.Keys;
  }
}

/** Who sees a type over a history of upserts, and a history in which a number is used twice. */
module CatalogCases {
  import opened Prelude
  import opened Text
  import opened TemplateModel
  import opened Catalog
  import opened CatalogRuns

  // ---------------------------------------------------------------- visibility

  /** An upsert of the type that hides it from other companies than its own. */
  predicate TakesOver(op: Op, t: string, companyID: string) {
    op.Upsert? && op.u.req.typeID == t && op.u.companyID != companyID && op.u.companyID != "global"
  }

  /** The company of the last of the first `k` operations that upserted the type. */
  function LastUpserter(ops: seq<Op>, k: nat, t: string): Option<string>
    requires k <= |ops|
  {
    if k == 0 then None
    else if ops[k - 1].Upsert? && ops[k - 1].u.req.typeID == t then Some(ops[k - 1].u.companyID)
    else LastUpserter(ops, k - 1, t)
  }

  /** The last company to upsert a type, whoever had it before, decides who sees it. */
  lemma {:induction false} VisibleIffLastUpserter(s: State, ops: seq<Op>, k: nat, t: string, companyID: string)
    requires k <= |ops|
    ensures Visible(StateAt(s, ops, k), companyID, t) <==>
            match LastUpserter(ops, k, t)
            case None => Visible(s, companyID, t)
            case Some(c) => c == companyID || c == "global"
    decreases k
  {
    hide Trim, Inactive, LastListed, NextVersion;
    if k > 0 { VisibleIffLastUpserter(s, ops, k - 1, t, companyID); }
  }

  /** The type is visible to the company in each of the first `k` states after `s`, and in `s`. */
  ghost predicate VisibleThroughout(s: State, ops: seq<Op>, k: nat, t: string, companyID: string)
    requires k <= |ops|
  {
    forall j :: 0 <= j <= k ==> Visible(StateAt(s, ops, j), companyID, t)
  }

  /** A type stays visible to a company exactly when no other company upserts it. */
  lemma {:induction false} StaysVisibleIffNotTakenOver(s: State, ops: seq<Op>, k: nat, t: string, companyID: string)
    requires k <= |ops|
    ensures VisibleThroughout(s, ops, k, t, companyID) <==>
            Visible(s, companyID, t) && forall j :: 0 <= j < k ==> !TakesOver(ops[j], t, companyID)
    decreases k
  {
    hide Visible, Apply, TakesOver;
    assert StateAt(s, ops, 0) == s;
    if k > 0 {
      var before := StateAt(s, ops, k - 1);
      StaysVisibleIffNotTakenOver(s, ops, k - 1, t, companyID);
      if VisibleThroughout(s, ops, k - 1, t, companyID) {
        assert Visible(before, companyID, t);
        VisibleAfter(before, ops[k - 1], t, companyID);
      }
      assert StateAt(s, ops, k) == Apply(before, ops[k - 1]);
      assert VisibleThroughout(s, ops, k, t, companyID) <==>
             VisibleThroughout(s, ops, k - 1, t, companyID) && Visible(StateAt(s, ops, k), companyID, t);
    }
  }

  lemma VisibleAfter(s: State, op: Op, t: string, companyID: string)
    requires Visible(s, companyID, t)
    ensures Visible(Apply(s, op), companyID, t) <==> !TakesOver(op, t, companyID)
  {
    hide Trim, Inactive, LastListed, NextVersion;
  }

  // ---------------------------------------------------------------- a number used twice

  /** Two upserts, back to version 1, and a third upsert. */
  function BackAndForth(c: UpsertCall, d: UpsertCall): seq<Op> {
    [Upsert(c, 0), Upsert(c, 0), Activate(ActivateCall(c.companyID, c.userID, c.req.typeID, 1), 0), Upsert(d, 0)]
  }

  /** From the empty seed: the third upsert takes number 2 again, and the content stored under it is replaced. */
  lemma NumberIsUsedTwice(c: UpsertCall, d: UpsertCall, now: Time)
    requires d.req.typeID == c.req.typeID
    ensures var (s, ops, t) := (Seeded([], now), BackAndForth(c, d), c.req.typeID);
            && OverwriteCount(s, ops, 4, t) > 0
            && t in StateAt(s, ops, 3).byVer && 2 in StateAt(s, ops, 3).byVer[t] && StateAt(s, ops, 3).byVer[t][2].content == c.req
            && t in StateAt(s, ops, 4).byVer && 2 in StateAt(s, ops, 4).byVer[t] && StateAt(s, ops, 4).byVer[t][2].content == d.req
  {
    hide Trim;
    var (s, ops, t) := (Seeded([], now), BackAndForth(c, d), c.req.typeID);
    var s1 := Apply(s, ops[0]);
    assert s1.catalog[t].versionNo == 1 && s1.byVer[t] == map[1 := TypeDTO(1, c.req)] && |s1.versions[t]| == 1
           && s1.versions[t][0].versionNo == 1;
    var s2 := Apply(s1, ops[1]);
    assert s2.byVer[t] == map[1 := TypeDTO(1, c.req), 2 := TypeDTO(2, c.req)] && |s2.versions[t]| == 2
           && s2.versions[t][0].versionNo == 1 && s2.versions[t][1].versionNo == 2 && s2.scope[t] == c.companyID;
    var s3 := Apply(s2, ops[2]);
    assert s3.byVer == s2.byVer && s3.catalog[t].versionNo == 1 by { BackToOne(s2, c, t); }
    assert StateAt(s, ops, 1) == s1 by { assert StateAt(s, ops, 0) == s; }
    assert StateAt(s, ops, 2) == s2;
    assert StateAt(s, ops, 3) == s3;
    hide Apply;
    assert Overwrites(s3, ops[3], t);
    assert OverwriteCount(s, ops, 4, t) == OverwriteCount(s, ops, 3, t) + 1;
    ThirdUpsert(s3, d, t);
    assert StateAt(s, ops, 4) == Apply(s3, ops[3]);
  }

  lemma BackToOne(s: State, c: UpsertCall, t: string)
    requires t in s.catalog && t in s.versions && t in s.byVer && 1 in s.byVer[t] && s.byVer[t][1].versionNo == 1
    requires t in s.scope && s.scope[t] == c.companyID
    requires |s.versions[t]| == 2 && s.versions[t][0].versionNo == 1 && s.versions[t][1].versionNo == 2
    ensures var s' := Activated(s, ActivateCall(c.companyID, c.userID, t, 1), 0).0;
            s'.byVer == s.byVer && t in s'.catalog && s'.catalog[t].versionNo == 1
  {
    var i := LastListed(s.versions[t], 1);
    assert s.versions[t][0].versionNo == 1 && s.versions[t][1].versionNo == 2;
  }

  lemma ThirdUpsert(s: State, d: UpsertCall, t: string)
    requires d.req.typeID == t && t in s.catalog && t in s.byVer && s.catalog[t].versionNo == 1
    ensures var s' := Apply(s, Upsert(d, 0)); t in s'.byVer && 2 in s'.byVer[t] && s'.byVer[t][2].content == d.req
  {
    hide Trim;
  }

  /** After one upsert, activating a version that is not listed leaves none active. */
  lemma UnlistedActivationLeavesNone(c: UpsertCall, v: int, now: Time)
    requires v != 1
    ensures var (s, t) := (Apply(Seeded([], now), Upsert(c, 0)), c.req.typeID);
            var after := Apply(s, Activate(ActivateCall(c.companyID, c.userID, t, v), 0));
            && t in s.versions && HasActive(s.versions[t])
            && t in after.versions && !HasActive(after.versions[t])
  {
    var (s, t) := (Apply(Seeded([], now), Upsert(c, 0)), c.req.typeID);
    SeededInv([], now);
    StepKeepsInv(Seeded([], now), Upsert(c, 0));
    assert |s.versions[t]| == 1 && s.versions[t][0].versionNo == 1 && s.versions[t][0].isActive;
    assert s.scope[t] == c.companyID;
    hide Apply, Inv;
    ActiveAfterStep(s, Activate(ActivateCall(c.companyID, c.userID, t, v), 0), t);
  }
}

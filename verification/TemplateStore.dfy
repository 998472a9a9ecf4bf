/** The upsert end to end: from the request to the catalog, and what the catalog can hold. */
module TemplateStore {
  import opened Prelude
  import opened Text
  import opened TemplateModel
  import opened TemplateSync
  import opened TemplateSyncFacts
  import opened TemplateFixpoint
  import opened TemplateSchema
  import opened TemplateValidation
  import opened TemplatePipeline
  import opened TemplateTheorems
  import opened TemplateAcceptance
  import Catalog
  import CatalogRuns

  class Service {
    const repo: Catalog.Repository
    const idg: IdGenerator

    constructor (repo: Catalog.Repository, idg: IdGenerator)
      ensures this.repo == repo && this.idg == idg
    {
      this.repo, this.idg := repo, idg;
    }

    /** Stores the normalised request when it is accepted; otherwise leaves the catalog alone. */
    method UpsertTypeVersion(
        companyID: string, userID: string, changeNote: string, r: Request, hasPermission: bool, now: Time)
      returns (res: Result<Catalog.Receipt, Rejection>)
      requires GoodIds(idg.ids)
      modifies repo, idg
      ensures res.Ok? <==> hasPermission && InputOK(r)
      ensures res.Err? ==> repo.AsState() == old(repo.AsState())
      ensures res.Ok? ==>
                var c := Catalog.UpsertCall(companyID, userID, changeNote, Normalised(r, idg.ids, old(idg.used)));
                && repo.AsState() == Catalog.Upserted(old(repo.AsState()), c, now)
                && res.value == Catalog.Receipt(c.req.typeID, Catalog.NextVersion(old(repo.AsState()), c.req.typeID), true, userID, now)
    {
      hide Normalised, Acceptable, InputOK, GoodIds, SyncOf, Catalog.Upserted, Catalog.NextVersion;
      AcceptedIffInputOK(r, idg.ids, idg.used);
      var req := new UpsertTypeVersionRequest(r);
      var checked := TemplatePipeline.UpsertTypeVersion(req, idg, hasPermission);
      if checked.Err? {
        return Err(checked.error);
      }
      var receipt := repo.UpsertTypeVersion(Catalog.UpsertCall(companyID, userID, changeNote, checked.value), now);
      return Ok(receipt);
    }
  }

  // ---------------------------------------------------------------- what the catalog can hold

  /** A request the pipeline let through. */
  ghost predicate FromPipeline(n: Request) {
    exists r, ids, used: nat :: IsOutcome(n, r, ids, used)
  }

  ghost predicate IsOutcome(n: Request, r: Request, ids: nat -> string, used: nat) {
    GoodIds(ids) && Acceptable(Normalised(r, ids, used)) && n == Normalised(r, ids, used)
  }

  /** Six mandatory blocks first, then extras, numbered, keyed apart, in order, and mirrored in the columns. */
  ghost predicate WellFormed(n: Request) {
    && Acceptable(n) && Shaped(MANDATORY_KEYS, n.blocks)
    && |MANDATORY_KEYS| <= |n.blocks| && Mirrored(MANDATORY_KEYS, n.flat, n.blocks)
  }

  lemma OutcomesAreWellFormed(n: Request)
    requires FromPipeline(n)
    ensures WellFormed(n)
  {
    hide Acceptable, Shaped, Mirrored, Normalised, GoodIds, MANDATORY_KEYS;
    var r, ids, used: nat :| IsOutcome(n, r, ids, used);
    AcceptedIsShaped(r, ids, used);
    ShapedFacts(n.blocks);
  }

  /** Every snapshot and every shown type is a seed or well formed. */
  ghost predicate Stored(s: Catalog.State, seeds: seq<Request>) {
    && (forall t :: t in s.catalog ==> s.catalog[t].content in seeds || WellFormed(s.catalog[t].content))
    && (forall t, v :: t in s.byVer && v in s.byVer[t] ==> s.byVer[t][v].content in seeds || WellFormed(s.byVer[t][v].content))
  }

  lemma StepKeepsStored(s: Catalog.State, op: CatalogRuns.Op, seeds: seq<Request>)
    requires CatalogRuns.Inv(s) && Stored(s, seeds) && (op.Upsert? ==> FromPipeline(op.u.req))
    ensures Stored(CatalogRuns.Apply(s, op), seeds)
  {
    hide WellFormed, FromPipeline, CatalogRuns.Inv, Catalog.Visible;
    if op.Upsert? {
      OutcomesAreWellFormed(op.u.req);
    } else {
      var res := Catalog.Activated(s, op.a, op.at).1;
      if res.Ok? { CatalogRuns.ActivationShowsSnapshot(s, op.a, op.at); }
    }
  }

  lemma {:induction false} SeedsAreStored(seeds: seq<Request>, all: seq<Request>, now: Time)
    requires forall r :: r in seeds ==> r in all
    ensures Stored(Catalog.Seeded(seeds, now), all)
    decreases |seeds|
  {
    hide WellFormed;
    if seeds != [] { SeedsAreStored(seeds[..|seeds| - 1], all, now); }
  }

  /**
   In every reachable state of the catalog, whatever is stored or shown is a seed entry
   or a well-formed outcome of the pipeline.
   */
  lemma {:induction false} EverythingStoredIsWellFormed(seeds: seq<Request>, now: Time, ops: seq<CatalogRuns.Op>, k: nat)
    requires forall i :: 0 <= i < |ops| && ops[i].Upsert? ==> FromPipeline(ops[i].u.req)
    requires k <= |ops|
    ensures Stored(CatalogRuns.StateAt(Catalog.Seeded(seeds, now), ops, k), seeds)
    decreases k
  {
    hide Stored, FromPipeline, CatalogRuns.Inv, CatalogRuns.Apply;
    var s := Catalog.Seeded(seeds, now);
    if k == 0 {
      SeedsAreStored(seeds, seeds, now);
    } else {
      EverythingStoredIsWellFormed(seeds, now, ops, k - 1);
      CatalogRuns.SeededInv(seeds, now);
      CatalogRuns.RunKeepsInv(s, ops, k - 1);
      StepKeepsStored(CatalogRuns.StateAt(s, ops, k - 1), ops[k - 1], seeds);
    }
  }
}

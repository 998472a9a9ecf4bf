/** The whole upsert of a template version: sanitise, synchronise, validate. */
module TemplatePipeline {
  import opened Prelude
  import opened Text
  import opened TemplateModel
  import opened TemplateSync
  import opened TemplateSyncFacts
  import opened TemplateFixpoint
  import opened TemplateSchema
  import opened TemplateValidation
  import Sanitize

  datatype Rejection =
    | PermissionDenied
    | TypeIDRequired | GroupIDRequired | NameRequired
    | TemplateInvalid(errors: Errors)

  // ---------------------------------------------------------------- specification

  function Prepared(r: Request): Request {
    r.(typeID := Trim(r.typeID), groupID := Trim(r.groupID), name := Trim(r.name), category := Trim(r.category),
       templateCategory := Trim(r.templateCategory), deadlineStrategy := Trim(r.deadlineStrategy),
       periodicity := Trim(r.periodicity), flat := r.flat.(deadlineRule := Trim(r.flat.deadlineRule)),
       reminderMilestones := Sanitize.Strings(r.reminderMilestones),
       legalBases := Sanitize.LegalBases(r.legalBases), checklist := Sanitize.Checklist(r.checklist))
  }

  function Resynced(p: Request, s: Synced): Request { p.(flat := s.flat, blocks := s.blocks) }

  function SyncOf(r: Request, ids: nat -> string, used: nat): Synced {
    Sync(Prepared(r).flat, r.blocks, ids, used)
  }

  /** The request as it reaches storage, if it is accepted. */
  function Normalised(r: Request, ids: nat -> string, used: nat): Request {
    var a := Aliased(Resynced(Prepared(r), SyncOf(r, ids, used)));
    a.(blocks := NormalBlocks(a.blocks))
  }

  /** What the normalised request must satisfy. */
  ghost predicate Acceptable(n: Request) {
    && n.typeID != "" && n.groupID != "" && n.name != ""
    && CategoryTable(n.templateCategory, n.periodicity, n.deadlineStrategy)
    && n.flat.deadlineRule != ""
    && MatrixOK(n.blocks)
  }

  // ---------------------------------------------------------------- the code

  method UpsertTypeVersion(req: UpsertTypeVersionRequest, idg: IdGenerator, hasPermission: bool)
    returns (res: Result<Request, Rejection>)
    modifies req, idg
    ensures !hasPermission ==> res == Err(PermissionDenied)
    ensures hasPermission ==>
              var r := old(req.AsRequest());
              var n := Normalised(r, idg.ids, old(idg.used));
              && (res == Err(TypeIDRequired) <==> n.typeID == "")
              && (res == Err(GroupIDRequired) <==> n.typeID != "" && n.groupID == "")
              && (res == Err(NameRequired) <==> n.typeID != "" && n.groupID != "" && n.name == "")
              && (res.Ok? <==> Acceptable(n))
              && (res.Ok? ==> res.value == n == req.AsRequest() && idg.used == SyncOf(r, idg.ids, old(idg.used)).used)
  {
    if !hasPermission {
      return Err(PermissionDenied);
    }
    Prepare(req);
    hide Sync, Aliased, NormalBlocks, MatrixOK, MatrixFault, TopFault, CategoryTable, Prepared;
    assert req.AsRequest() == Prepared(old(req.AsRequest()));
    PreparedKeepsBlocks(old(req.AsRequest()));
    AliasedKeeps(Resynced(req.AsRequest(), Sync(req.AsFlat(), req.blocks, idg.ids, idg.used)));
    if req.typeID == "" {
      return Err(TypeIDRequired);
    }
    if req.groupID == "" {
      return Err(GroupIDRequired);
    }
    if req.name == "" {
      return Err(NameRequired);
    }
    ApplyTemplateFlatBlockSync(req, idg);
    ghost var a := Aliased(req.AsRequest());
    var errors := ValidateTemplateMatrix(req);
    ValidationExact(a, errors);
    if errors != map[] {
      return Err(TemplateInvalid(errors));
    }
    return Ok(req.AsRequest());
  }

  method Prepare(req: UpsertTypeVersionRequest)
    modifies req
    ensures req.AsRequest() == Prepared(old(req.AsRequest()))
  {
    hide Trim, Sanitize.Strings, Sanitize.LegalBases, Sanitize.Checklist;
    TrimFields(req);
    var milestones := Sanitize.SanitizeStringList(req.reminderMilestones);
    var bases := Sanitize.SanitizeLegalBases(req.legalBases);
    var items := Sanitize.SanitizeChecklist(req.checklist);
    req.reminderMilestones, req.legalBases, req.checklist := milestones, bases, items;
  }

  method TrimFields(req: UpsertTypeVersionRequest)
    modifies req
    ensures var r := old(req.AsRequest());
            req.AsRequest() == Prepared(r).(reminderMilestones := r.reminderMilestones, legalBases := r.legalBases,
                                            checklist := r.checklist)
  {
    hide Trim, Sanitize.Strings, Sanitize.LegalBases, Sanitize.Checklist;
    req.typeID := Trim(req.typeID);
    req.groupID := Trim(req.groupID);
    req.name := Trim(req.name);
    req.category := Trim(req.category);
    req.templateCategory := Trim(req.templateCategory);
    req.deadlineStrategy := Trim(req.deadlineStrategy);
    req.deadlineRule := Trim(req.deadlineRule);
    req.periodicity := Trim(req.periodicity);
  }

  lemma PreparedKeepsBlocks(r: Request)
    ensures Prepared(r).blocks == r.blocks
  {
    hide Trim;
  }

  lemma AliasedKeeps(r: Request)
    ensures var a := Aliased(r);
            && a.blocks == r.blocks && a.flat == r.flat
            && a.typeID == r.typeID && a.groupID == r.groupID && a.name == r.name
  {
    hide NormalizeAlias;
  }

  /** The error map is empty exactly when table, deadline and matrix are in order. */
  lemma ValidationExact(a: Request, errors: Errors)
    requires var top := f => TopFault(a.templateCategory, a.periodicity, a.deadlineStrategy, a.flat.deadlineRule, f);
             if exists f :: top(f).Some? then forall f :: Lookup(errors, f) == top(f)
             else forall f :: Lookup(errors, f) == MatrixFault(NormalBlocks(a.blocks), f)
    ensures errors == map[] <==>
            CategoryTable(a.templateCategory, a.periodicity, a.deadlineStrategy) && a.flat.deadlineRule != ""
            && MatrixOK(NormalBlocks(a.blocks))
  {
    hide TopFault, MatrixFault, MatrixOK, CategoryTable;
    TopFaultExact(a.templateCategory, a.periodicity, a.deadlineStrategy, a.flat.deadlineRule);
    var bs := NormalBlocks(a.blocks);
    forall i | 0 <= i < |bs| ensures bs[i].blockType == "" || !Blank(bs[i].blockType) {
      TrimOfTrimmed(bs[i].blockType);
    }
    hide NormalBlocks;
    MatrixSoundAndComplete(bs);
    var top := f => TopFault(a.templateCategory, a.periodicity, a.deadlineStrategy, a.flat.deadlineRule, f);
    if exists f :: top(f).Some? {
      var f :| top(f).Some?;
      assert Lookup(errors, f).Some?;
    } else {
      assert forall f :: TopFault(a.templateCategory, a.periodicity, a.deadlineStrategy, a.flat.deadlineRule, f) == top(f) == None;
      if errors != map[] {
        var f :| f in errors;
        assert Lookup(errors, f).Some?;
      } else {
        forall f ensures MatrixFault(bs, f) == None { assert Lookup(errors, f) == None; }
      }
    }
  }
}

/** The validator of template requests: the category table, the block matrix, and what it accepts. */
module TemplateValidation {
  import opened Prelude
  import opened Text
  import opened TemplateModel
  import opened TemplateSync
  import opened TemplateSchema

  // ---------------------------------------------------------------- aliases

  const CATEGORY_ALIASES: map<string, string> := map[
    "periodic" := "periodic", "định kỳ" := "periodic", "dinh ky" := "periodic",
    "irregular" := "irregular", "bất thường" := "irregular", "bat thuong" := "irregular",
    "custom" := "custom", "tùy chỉnh" := "custom", "tuy chinh" := "custom"]

  const PERIODICITY_ALIASES: map<string, string> := map[
    "monthly" := "monthly", "hàng tháng" := "monthly", "hang thang" := "monthly",
    "quarterly" := "quarterly", "hàng quý" := "quarterly", "hang quy" := "quarterly",
    "yearly" := "yearly", "hàng năm" := "yearly", "hang nam" := "yearly",
    "event_based" := "event_based", "bất thường" := "event_based", "bat thuong" := "event_based",
    "ad_hoc" := "ad_hoc", "theo yêu cầu" := "ad_hoc", "theo yeu cau" := "ad_hoc"]

  const STRATEGY_ALIASES: map<string, string> := map[
    "fixed_cycle_days" := "fixed_cycle_days", "event_relative_hours" := "event_relative_hours",
    "configurable" := "configurable"]

  function NormalizeAlias(raw: string, aliases: map<string, string>): string {
    var key := Norm(raw);
    if key == "" then "" else if key in aliases then aliases[key] else key
  }

  /** The request with category, periodicity and strategy in canonical form. */
  function Aliased(r: Request): Request {
    r.(templateCategory := NormalizeAlias(r.templateCategory, CATEGORY_ALIASES),
       periodicity := NormalizeAlias(r.periodicity, PERIODICITY_ALIASES),
       deadlineStrategy := NormalizeAlias(r.deadlineStrategy, STRATEGY_ALIASES))
  }

  // ---------------------------------------------------------------- the category table

  /** Which periodicities and which strategy each category allows. */
  predicate CategoryTable(category: string, periodicity: string, strategy: string) {
    || (category == "periodic" && periodicity in ["monthly", "quarterly", "yearly"] && strategy == "fixed_cycle_days")
    || (category == "irregular" && periodicity == "event_based" && strategy == "event_relative_hours")
    || (category == "custom" && periodicity in ["monthly", "quarterly", "yearly", "ad_hoc"] && strategy == "configurable")
  }

  predicate PeriodicityFits(category: string, periodicity: string) {
    && (category == "periodic" ==> periodicity in ["monthly", "quarterly", "yearly"])
    && (category == "irregular" ==> periodicity == "event_based")
    && (category == "custom" ==> periodicity in ["monthly", "quarterly", "yearly", "ad_hoc"])
  }

  predicate StrategyFits(category: string, strategy: string) {
    && (category == "periodic" ==> strategy == "fixed_cycle_days")
    && (category == "irregular" ==> strategy == "event_relative_hours")
    && (category == "custom" ==> strategy == "configurable")
  }

  predicate KnownCategory(category: string) {
    category == "periodic" || category == "irregular" || category == "custom"
  }

  /** The matrix-level error of each field. */
  function TopFault(category: string, periodicity: string, strategy: string, deadlineRule: string, f: Field): Option<Problem> {
    match f
    case TemplateCategory => if category == "" then Some(Required) else if !KnownCategory(category) then Some(Unsupported) else None
    case DeadlineRule => if deadlineRule == "" then Some(Required) else None
    case Periodicity => if !PeriodicityFits(category, periodicity) then Some(WrongForCategory) else None
    case DeadlineStrategy =>
      if !StrategyFits(category, strategy) then Some(WrongForCategory)
      else if strategy == "" then Some(Required) else None
    case _ => None
  }

  lemma TopFaultExact(category: string, periodicity: string, strategy: string, deadlineRule: string)
    ensures (forall f :: TopFault(category, periodicity, strategy, deadlineRule, f) == None) <==>
            CategoryTable(category, periodicity, strategy) && deadlineRule != ""
  {
    var a := TopFault(category, periodicity, strategy, deadlineRule, TemplateCategory);
    var b := TopFault(category, periodicity, strategy, deadlineRule, DeadlineRule);
    var c := TopFault(category, periodicity, strategy, deadlineRule, Periodicity);
    var d := TopFault(category, periodicity, strategy, deadlineRule, DeadlineStrategy);
  }

  // ---------------------------------------------------------------- the block matrix

  function NormalBlock(b: Block): Block {
    b.(blockID := Trim(b.blockID), blockKey := Norm(b.blockKey), blockType := Norm(b.blockType),
       title := Trim(b.title), description := Trim(b.description),
       config := Some(MapOf(b.config)), validation := Some(MapOf(b.validation)))
  }

  function NormalBlocks(blocks: seq<Block>): (r: seq<Block>)
    ensures |r| == |blocks| && forall i :: 0 <= i < |blocks| ==> r[i] == NormalBlock(blocks[i])
  {
    seq(|blocks|, i requires 0 <= i < |blocks| => NormalBlock(blocks[i]))
  }

  /** Some other of the first `n` blocks has the same key. */
  ghost predicate SharesKey(bs: seq<Block>, n: nat, i: nat)
    requires i < n <= |bs|
  {
    exists j :: 0 <= j < n && j != i && bs[j].blockKey == bs[i].blockKey
  }

  ghost predicate SharesOrder(bs: seq<Block>, n: nat, i: nat)
    requires i < n <= |bs|
  {
    exists j :: 0 <= j < n && j != i && bs[j].displayOrder == bs[i].displayOrder
  }

  ghost function KeyFault(bs: seq<Block>, n: nat, i: nat): Option<Problem>
    requires n <= |bs|
  {
    if i >= n then None
    else if bs[i].blockKey == "" then Some(Required)
    else if SharesKey(bs, n, i) then Some(NotUnique) else None
  }

  ghost function OrderFault(bs: seq<Block>, n: nat, i: nat): Option<Problem>
    requires n <= |bs|
  {
    if i >= n then None
    else if bs[i].displayOrder <= 0 then Some(NotPositive)
    else if SharesOrder(bs, n, i) then Some(NotUnique) else None
  }

  /** The errors that depend on one block alone. */
  function OwnFault(b: Block, part: Part): Option<Problem> {
    var schema := SchemaProblem(b.blockType, MapOf(b.config), MapOf(b.validation), part);
    if part == BlockType && b.blockType == "" then Some(Required)
    else if part == Title && b.title == "" then Some(Required)
    else if part == BlockKey || part == DisplayOrder then None
    else schema
  }

  /** The error of each field once the first `n` blocks are checked. */
  ghost function BlocksFault(bs: seq<Block>, n: nat, f: Field): Option<Problem>
    requires n <= |bs|
  {
    match f
    case InBlock(i, BlockKey) => KeyFault(bs, n, i)
    case InBlock(i, DisplayOrder) => OrderFault(bs, n, i)
    case InBlock(i, part) => if i < n then OwnFault(bs[i], part) else None
    case _ => None
  }

  predicate HasKey(bs: seq<Block>, k: string) { exists i :: 0 <= i < |bs| && bs[i].blockKey == k }

  ghost function MatrixFault(bs: seq<Block>, f: Field): Option<Problem> {
    match f
    case MissingBlock(k) => if bs != [] && k in MANDATORY_KEYS && !HasKey(bs, k) then Some(Missing) else None
    case _ => BlocksFault(bs, |bs|, f)
  }

  // ---------------------------------------------------------------- what is accepted

  ghost predicate BlockOK(b: Block) {
    b.blockKey != "" && b.title != "" && b.displayOrder > 0 && SchemaOK(b.blockType, MapOf(b.config), MapOf(b.validation))
  }

  /** A well-formed matrix: every block in order, keys and numbers all different, all six mandatory keys. */
  ghost predicate MatrixOK(bs: seq<Block>) {
    bs != [] ==>
      && (forall i :: 0 <= i < |bs| ==> BlockOK(bs[i]))
      && (forall i, j :: 0 <= i < j < |bs| ==> bs[i].blockKey != bs[j].blockKey && bs[i].displayOrder != bs[j].displayOrder)
      && (forall k :: k in MANDATORY_KEYS ==> HasKey(bs, k))
  }

  lemma OwnFaultExact(b: Block)
    requires b.blockType == "" || !Blank(b.blockType)
    ensures (forall part :: OwnFault(b, part) == None) <==>
            b.title != "" && SchemaOK(b.blockType, MapOf(b.config), MapOf(b.validation))
  {
    hide SchemaProblem, SchemaOK;
    var c, v := MapOf(b.config), MapOf(b.validation);
    var t, u := OwnFault(b, BlockType), OwnFault(b, Title);
    if b.blockType != "" {
      SchemaSoundAndComplete(b.blockType, c, v);
      GeneralPartsHaveNoSchema(b.blockType, c, v);
      assert forall part :: part != BlockKey && part != DisplayOrder && part != Title ==>
                              OwnFault(b, part) == SchemaProblem(b.blockType, c, v, part);
    } else {
      BlankTypeIsWrong(c, v);
    }
  }

  lemma BlankTypeIsWrong(c: AnyMap, v: AnyMap)
    ensures !SchemaOK("", c, v)
  {
  }

  lemma GeneralPartsHaveNoSchema(blockType: string, c: AnyMap, v: AnyMap)
    ensures SchemaProblem(blockType, c, v, BlockKey) == None
    ensures SchemaProblem(blockType, c, v, DisplayOrder) == None
    ensures SchemaProblem(blockType, c, v, Title) == None
  {
    hide CanonicalBlockType, AllowedType, Trim, NonEmptyList, OptionalPositive, OptionalNumber, Present;
  }

  /** The blocks get no error exactly when the matrix is well formed. */
  lemma MatrixSoundAndComplete(bs: seq<Block>)
    requires forall i :: 0 <= i < |bs| ==> bs[i].blockType == "" || !Blank(bs[i].blockType)
    ensures (forall f :: MatrixFault(bs, f) == None) <==> MatrixOK(bs)
  {
    hide OwnFault, SchemaOK, MANDATORY_KEYS, Trim;
    forall i | 0 <= i < |bs|
      ensures (forall part :: OwnFault(bs[i], part) == None) <==>
              bs[i].title != "" && SchemaOK(bs[i].blockType, MapOf(bs[i].config), MapOf(bs[i].validation))
      ensures OwnFault(bs[i], BlockKey) == None && OwnFault(bs[i], DisplayOrder) == None
    {
      OwnFaultExact(bs[i]);
      NoOwnKeyFault(bs[i]);
    }
    if forall f :: MatrixFault(bs, f) == None {
      forall i | 0 <= i < |bs| ensures BlockOK(bs[i]) {
        assert MatrixFault(bs, InBlock(i, BlockKey)) == None && MatrixFault(bs, InBlock(i, DisplayOrder)) == None;
        forall part ensures OwnFault(bs[i], part) == None { assert MatrixFault(bs, InBlock(i, part)) == None; }
      }
      forall i, j | 0 <= i < j < |bs| ensures bs[i].blockKey != bs[j].blockKey && bs[i].displayOrder != bs[j].displayOrder {
        assert MatrixFault(bs, InBlock(i, BlockKey)) == None && MatrixFault(bs, InBlock(i, DisplayOrder)) == None;
      }
      if bs != [] {
        forall k | k in MANDATORY_KEYS ensures HasKey(bs, k) { assert MatrixFault(bs, MissingBlock(k)) == None; }
      }
    }
    if MatrixOK(bs) {
      forall f ensures MatrixFault(bs, f) == None {
        if f.InBlock? && f.idx < |bs| { assert BlockOK(bs[f.idx]); }
      }
    }
  }

  lemma NoOwnKeyFault(b: Block)
    ensures OwnFault(b, BlockKey) == None && OwnFault(b, DisplayOrder) == None
  {
    hide SchemaProblem;
  }

  /** Block `i` shares its key with another block. */
  ghost predicate Clashes(bs: seq<Block>, i: nat)
    requires i < |bs|
  {
    bs[i].blockKey != "" && exists j :: 0 <= j < |bs| && j != i && bs[j].blockKey == bs[i].blockKey
  }

  /** The blocks given a key error for uniqueness are exactly those sharing a key with another block. */
  lemma KeyErrorsAreTheClashes(bs: seq<Block>, i: nat)
    requires i < |bs|
    ensures MatrixFault(bs, InBlock(i, BlockKey)) == Some(NotUnique) <==> Clashes(bs, i)
  {
  }

  // ---------------------------------------------------------------- the code

  method ValidateTemplateMatrix(req: UpsertTypeVersionRequest) returns (errors: Errors)
    modifies req
    ensures var r := Aliased(old(req.AsRequest()));
            var top := f => TopFault(r.templateCategory, r.periodicity, r.deadlineStrategy, r.flat.deadlineRule, f);
            if exists f :: top(f).Some? then
              req.AsRequest() == r && forall f :: Lookup(errors, f) == top(f)
            else
              && req.AsRequest() == r.(blocks := NormalBlocks(r.blocks))
              && forall f :: Lookup(errors, f) == MatrixFault(NormalBlocks(r.blocks), f)
    ensures CategoryTable(req.templateCategory, req.periodicity, req.deadlineStrategy) && req.deadlineRule != "" ==>
              forall i :: 0 <= i < |req.blocks| ==>
                            (Lookup(errors, InBlock(i, BlockKey)) == Some(NotUnique) <==> Clashes(req.blocks, i))
  {
    hide NormalizeAlias, CATEGORY_ALIASES, PERIODICITY_ALIASES, STRATEGY_ALIASES, MatrixFault, NormalBlocks,
      TopFault, CategoryTable, Clashes;
    var out := new FieldErrors();
    req.templateCategory := NormalizeAlias(req.templateCategory, CATEGORY_ALIASES);
    req.periodicity := NormalizeAlias(req.periodicity, PERIODICITY_ALIASES);
    req.deadlineStrategy := NormalizeAlias(req.deadlineStrategy, STRATEGY_ALIASES);
    assert req.AsRequest() == Aliased(old(req.AsRequest()));
    CheckTop(req, out);
    TopFaultExact(req.templateCategory, req.periodicity, req.deadlineStrategy, req.deadlineRule);
    if out.errors != map[] {
      var f :| f in out.errors;
      assert Lookup(out.errors, f).Some?;
      return out.errors;
    }
    assert forall f :: Lookup(out.errors, f) == None;
    ValidateTemplateBlocks(req, out);
    forall i | 0 <= i < |req.blocks|
      ensures Lookup(out.errors, InBlock(i, BlockKey)) == Some(NotUnique) <==> Clashes(req.blocks, i)
    {
      KeyErrorsAreTheClashes(req.blocks, i);
    }
    return out.errors;
  }

  method CheckTop(req: UpsertTypeVersionRequest, out: FieldErrors)
    requires out.errors == map[]
    modifies out
    ensures forall f :: Lookup(out.errors, f) ==
                        TopFault(req.templateCategory, req.periodicity, req.deadlineStrategy, req.deadlineRule, f)
  {
    if req.templateCategory == "" {
      out.Put(TemplateCategory, Required);
    }
    if req.deadlineRule == "" {
      out.Put(DeadlineRule, Required);
    }
    if req.deadlineStrategy == "" {
      out.Put(DeadlineStrategy, Required);
    }
    if req.templateCategory == "periodic" {
      if req.periodicity != "monthly" && req.periodicity != "quarterly" && req.periodicity != "yearly" {
        out.Put(Periodicity, WrongForCategory);
      }
      if req.deadlineStrategy != "fixed_cycle_days" {
        out.Put(DeadlineStrategy, WrongForCategory);
      }
    } else if req.templateCategory == "irregular" {
      if req.periodicity != "event_based" {
        out.Put(Periodicity, WrongForCategory);
      }
      if req.deadlineStrategy != "event_relative_hours" {
        out.Put(DeadlineStrategy, WrongForCategory);
      }
    } else if req.templateCategory == "custom" {
      if req.periodicity != "monthly" && req.periodicity != "quarterly" && req.periodicity != "yearly" && req.periodicity != "ad_hoc" {
        out.Put(Periodicity, WrongForCategory);
      }
      if req.deadlineStrategy != "configurable" {
        out.Put(DeadlineStrategy, WrongForCategory);
      }
    } else if req.templateCategory != "" {
      out.Put(TemplateCategory, Unsupported);
    }
  }

  /** `seen` remembers where each key of the first `n` blocks came first. */
  ghost predicate KeysSeen(bs: seq<Block>, n: nat, seen: map<string, nat>)
    requires n <= |bs|
  {
    && (forall k :: k in seen ==> k != "" && seen[k] < n && bs[seen[k]].blockKey == k)
    && (forall j :: 0 <= j < n && bs[j].blockKey != "" ==> bs[j].blockKey in seen)
  }

  ghost predicate OrdersSeen(bs: seq<Block>, n: nat, seen: map<int, nat>)
    requires n <= |bs|
  {
    && (forall o :: o in seen ==> o > 0 && seen[o] < n && bs[seen[o]].displayOrder == o)
    && (forall j :: 0 <= j < n && bs[j].displayOrder > 0 ==> bs[j].displayOrder in seen)
  }

  method ValidateTemplateBlocks(req: UpsertTypeVersionRequest, out: FieldErrors)
    requires out.errors == map[]
    modifies req`blocks, out
    ensures req.blocks == NormalBlocks(old(req.blocks))
    ensures forall f :: Lookup(out.errors, f) == MatrixFault(req.blocks, f)
  {
    hide NormalBlock, BlocksFault, MatrixFault, KeysSeen, OrdersSeen;
    if |req.blocks| == 0 {
      EmptyMatrixNoFault();
      return;
    }
    ghost var before, bs := req.blocks, NormalBlocks(req.blocks);
    NothingSeen(bs);
    var seenKeys: map<string, nat> := map[];
    var seenOrders: map<int, nat> := map[];
    NoBlocksNoFault(bs);
    for idx := 0 to |req.blocks|
      invariant |req.blocks| == |bs|
      invariant forall j :: 0 <= j < |bs| ==> req.blocks[j] == if j < idx then bs[j] else before[j]
      invariant KeysSeen(bs, idx, seenKeys) && OrdersSeen(bs, idx, seenOrders)
      invariant forall f :: Lookup(out.errors, f) == BlocksFault(bs, idx, f)
    {
      var block := NormalBlock(req.blocks[idx]);
      NormalBlockParts(req.blocks[idx]);
      req.blocks := req.blocks[idx := block];
      seenKeys, seenOrders := ValidateBlock(bs, idx, block, seenKeys, seenOrders, out);
    }
    assert req.blocks == bs;
    ValidateMandatoryTemplateBlockKeys(bs, seenKeys, out);
  }

  lemma NothingSeen(bs: seq<Block>)
    ensures KeysSeen(bs, 0, map[]) && OrdersSeen(bs, 0, map[])
  {
  }

  lemma NormalBlockParts(b: Block)
    ensures NormalBlock(b).config.Some? && NormalBlock(b).validation.Some?
  {
    hide Trim, Norm;
  }

  lemma EmptyMatrixNoFault()
    ensures NormalBlocks([]) == [] && forall f :: MatrixFault([], f) == None
  {
  }

  lemma NoBlocksNoFault(bs: seq<Block>)
    ensures forall f :: BlocksFault(bs, 0, f) == None
  {
    hide OwnFault;
  }

  /** The body of the loop over the blocks; `bs` is what the blocks become. */
  method ValidateBlock(
      ghost bs: seq<Block>, idx: nat, block: Block, seenKeys: map<string, nat>, seenOrders: map<int, nat>, out: FieldErrors)
    returns (keys: map<string, nat>, orders: map<int, nat>)
    requires idx < |bs| && block == bs[idx] && block.config.Some? && block.validation.Some?
    requires KeysSeen(bs, idx, seenKeys) && OrdersSeen(bs, idx, seenOrders)
    requires forall f :: Lookup(out.errors, f) == BlocksFault(bs, idx, f)
    modifies out
    ensures KeysSeen(bs, idx + 1, keys) && OrdersSeen(bs, idx + 1, orders)
    ensures forall f :: Lookup(out.errors, f) == BlocksFault(bs, idx + 1, f)
  {
    hide OwnFault, KeyFault, OrderFault, KeysSeen, OrdersSeen;
    keys := CheckKey(bs, idx, block, seenKeys, out);
    orders := CheckOrder(bs, idx, block, seenOrders, out);
    CheckOwn(idx, block, out);
    NoOwnKeyFault(block);
    forall f ensures Lookup(out.errors, f) == BlocksFault(bs, idx + 1, f) {
      if f.InBlock? && f.idx == idx && f.part != BlockKey && f.part != DisplayOrder {
        assert Lookup(old(out.errors), f) == BlocksFault(bs, idx, f);
      }
    }
  }

  /** Type, title and the per-type schema. */
  method CheckOwn(idx: nat, block: Block, out: FieldErrors)
    requires block.config.Some? && block.validation.Some?
    modifies out
    ensures Adds(old(out.errors), out.errors, idx, (part: Part) => OwnFault(block, part))
  {
    hide SchemaProblem;
    if block.blockType == "" {
      out.Put(InBlock(idx, BlockType), Required);
    }
    if block.title == "" {
      out.Put(InBlock(idx, Title), Required);
    }
    GeneralPartsHaveNoSchema(block.blockType, block.config.value, block.validation.value);
    EmptyTypeHasNoSchemaError(block.config.value, block.validation.value);
    ValidateBlockTypeSchema(idx, block.blockType, block.config.value, block.validation.value, out);
  }

  lemma EmptyTypeHasNoSchemaError(c: AnyMap, v: AnyMap)
    ensures forall part :: SchemaProblem("", c, v, part) == None
  {
    assert Blank("");
  }

  method CheckKey(ghost bs: seq<Block>, idx: nat, block: Block, seen: map<string, nat>, out: FieldErrors)
    returns (seen': map<string, nat>)
    requires idx < |bs| && block == bs[idx] && KeysSeen(bs, idx, seen)
    requires forall i :: Lookup(out.errors, InBlock(i, BlockKey)) == KeyFault(bs, idx, i)
    modifies out
    ensures KeysSeen(bs, idx + 1, seen')
    ensures forall i :: Lookup(out.errors, InBlock(i, BlockKey)) == KeyFault(bs, idx + 1, i)
    ensures forall f: Field :: (f.InBlock? ==> f.part != BlockKey) ==> Lookup(out.errors, f) == Lookup(old(out.errors), f)
  {
    seen' := seen;
    if block.blockKey == "" {
      out.Put(InBlock(idx, BlockKey), Required);
    } else if block.blockKey in seen {
      out.Put(InBlock(idx, BlockKey), NotUnique);
      out.Put(InBlock(seen[block.blockKey], BlockKey), NotUnique);
    } else {
      seen' := seen[block.blockKey := idx];
    }
  }

  method CheckOrder(ghost bs: seq<Block>, idx: nat, block: Block, seen: map<int, nat>, out: FieldErrors)
    returns (seen': map<int, nat>)
    requires idx < |bs| && block == bs[idx] && OrdersSeen(bs, idx, seen)
    requires forall i :: Lookup(out.errors, InBlock(i, DisplayOrder)) == OrderFault(bs, idx, i)
    modifies out
    ensures OrdersSeen(bs, idx + 1, seen')
    ensures forall i :: Lookup(out.errors, InBlock(i, DisplayOrder)) == OrderFault(bs, idx + 1, i)
    ensures forall f: Field :: (f.InBlock? ==> f.part != DisplayOrder) ==> Lookup(out.errors, f) == Lookup(old(out.errors), f)
  {
    seen' := seen;
    if block.displayOrder <= 0 {
      out.Put(InBlock(idx, DisplayOrder), NotPositive);
    } else if block.displayOrder in seen {
      out.Put(InBlock(idx, DisplayOrder), NotUnique);
      out.Put(InBlock(seen[block.displayOrder], DisplayOrder), NotUnique);
    } else {
      seen' := seen[block.displayOrder := idx];
    }
  }

  method ValidateMandatoryTemplateBlockKeys(ghost bs: seq<Block>, seenKeys: map<string, nat>, out: FieldErrors)
    requires bs != [] && KeysSeen(bs, |bs|, seenKeys)
    requires forall f :: Lookup(out.errors, f) == BlocksFault(bs, |bs|, f)
    modifies out
    ensures forall f :: Lookup(out.errors, f) == MatrixFault(bs, f)
  {
    MandatoryKeysAreNormal();
    hide Norm, MANDATORY_KEYS, OwnFault, KeyFault, OrderFault;
    var missing: seq<string> := [];
    for i := 0 to |MANDATORY_KEYS|
      invariant forall k :: k in missing <==> k in MANDATORY_KEYS[..i] && k !in seenKeys
    {
      assert MANDATORY_KEYS[..i + 1] == MANDATORY_KEYS[..i] + [MANDATORY_KEYS[i]];
      if MANDATORY_KEYS[i] !in seenKeys {
        missing := missing + [MANDATORY_KEYS[i]];
      }
    }
    assert MANDATORY_KEYS[..|MANDATORY_KEYS|] == MANDATORY_KEYS;
    forall k | k in MANDATORY_KEYS ensures k in seenKeys <==> HasKey(bs, k) {
      if k in seenKeys { assert bs[seenKeys[k]].blockKey == k; }
    }
    for i := 0 to |missing|
      invariant forall f :: Lookup(out.errors, f) ==
                            if f.MissingBlock? && f.key in missing[..i] then Some(Missing) else BlocksFault(bs, |bs|, f)
    {
      assert missing[..i + 1] == missing[..i] + [missing[i]];
      out.Put(MissingBlock(missing[i]), Missing);
    }
    assert missing[..|missing|] == missing;
  }
}

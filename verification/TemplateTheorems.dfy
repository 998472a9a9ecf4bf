/** What the template upsert guarantees about everything it lets through. */
module TemplateTheorems {
  import opened Prelude
  import opened Text
  import opened TemplateModel
  import opened TemplateSync
  import opened TemplateSyncFacts
  import opened TemplateFixpoint
  import opened TemplateSchema
  import opened TemplateValidation
  import opened TemplatePipeline
  import Sanitize

  // ---------------------------------------------------------------- shape of what is stored

  lemma NormalBlockFacts(b: Block)
    ensures KeyOf(NormalBlock(b)) == NormalBlock(b).blockKey == KeyOf(b)
    ensures IsExtra(NormalBlock(b)) == IsExtra(b)
    ensures Blank(NormalBlock(b).blockID) == Blank(b.blockID)
    ensures NormalBlock(NormalBlock(b)) == NormalBlock(b)
  {
    NormIdempotent(b.blockKey);
    NormIdempotent(b.blockType);
    TrimIdempotent(b.blockID);
    TrimIdempotent(b.title);
    TrimIdempotent(b.description);
    hide Norm, Trim, MANDATORY_KEYS;
  }

  lemma NormalKeepsDuplicates(blocks: seq<Block>)
    ensures DuplicateKeys(NormalBlocks(blocks)) == DuplicateKeys(blocks)
  {
    hide Norm, KeyOf, NormalBlock;
    forall i | 0 <= i < |blocks| ensures KeyOf(NormalBlock(blocks[i])) == KeyOf(blocks[i]) { NormalBlockFacts(blocks[i]); }
    var bs := NormalBlocks(blocks);
    assert forall i, j :: 0 <= i < j < |bs| ==> SameKey(bs[i], bs[j]) == SameKey(blocks[i], blocks[j]);
  }

  lemma NormalKeepsShape(keys: seq<string>, blocks: seq<Block>)
    requires Shaped(keys, blocks)
    ensures Shaped(keys, NormalBlocks(blocks))
  {
    NormalKeepsDuplicates(blocks);
    hide Norm, KeyOf, Trim, DuplicateKeys, IsExtra;
    forall i | 0 <= i < |blocks|
      ensures var b := NormalBlocks(blocks)[i];
              KeyOf(b) == KeyOf(blocks[i]) && IsExtra(b) == IsExtra(blocks[i]) && Blank(b.blockID) == Blank(blocks[i].blockID)
              && b.displayOrder == blocks[i].displayOrder
    {
      NormalBlockFacts(blocks[i]);
    }
  }

  lemma NormalisedParts(r: Request, ids: nat -> string, used: nat)
    ensures var (n, s) := (Normalised(r, ids, used), SyncOf(r, ids, used));
            && n.blocks == NormalBlocks(s.blocks) && n.flat == s.flat
            && n.typeID == Trim(r.typeID) && n.groupID == Trim(r.groupID) && n.name == Trim(r.name) && n.category == Trim(r.category)
            && n.passedOn == r.passedOn
            && n.reminderMilestones == Sanitize.Strings(r.reminderMilestones)
            && n.legalBases == Sanitize.LegalBases(r.legalBases) && n.checklist == Sanitize.Checklist(r.checklist)
            && n.templateCategory == NormalizeAlias(Trim(r.templateCategory), CATEGORY_ALIASES)
            && n.periodicity == NormalizeAlias(Trim(r.periodicity), PERIODICITY_ALIASES)
            && n.deadlineStrategy == NormalizeAlias(Trim(r.deadlineStrategy), STRATEGY_ALIASES)
  {
    hide Sync, NormalBlocks, NormalizeAlias, Trim, Sanitize.Strings, Sanitize.LegalBases, Sanitize.Checklist,
      CATEGORY_ALIASES, PERIODICITY_ALIASES, STRATEGY_ALIASES;
  }

  lemma ClashStopsRebuild(f: Flat, blocks: seq<Block>, ids: nat -> string, used: nat)
    requires DuplicateKeys(blocks)
    ensures Sync(f, blocks, ids, used).blocks == blocks
  {
    hide Rebuild, Mirror, FreshBlocks, AnyFlatSet, SameKey;
  }

  lemma ClashIsNoMatrix(blocks: seq<Block>)
    requires DuplicateKeys(blocks)
    ensures !MatrixOK(NormalBlocks(blocks))
  {
    hide Norm, NormalBlock, NormalBlocks, BlockOK, HasKey;
    var i, j :| 0 <= i < j < |blocks| && SameKey(blocks[i], blocks[j]);
    NormalisedBlockKey(blocks, i);
    NormalisedBlockKey(blocks, j);
  }

  /** Clashing keys are always rejected. */
  lemma ClashingKeysAreRejected(r: Request, ids: nat -> string, used: nat)
    requires DuplicateKeys(r.blocks)
    ensures !Acceptable(Normalised(r, ids, used))
  {
    hide Normalised, NormalBlocks, Sync, MatrixOK, CategoryTable, DuplicateKeys, Prepared;
    NormalisedParts(r, ids, used);
    ClashStopsRebuild(Prepared(r).flat, r.blocks, ids, used);
    ClashIsNoMatrix(r.blocks);
  }

  lemma NormalisedBlockKey(blocks: seq<Block>, i: nat)
    requires i < |blocks|
    ensures NormalBlocks(blocks)[i].blockKey == KeyOf(NormalBlocks(blocks)[i]) == KeyOf(blocks[i])
  {
    hide Norm, NormalBlock;
    NormalBlockFacts(blocks[i]);
  }

  /** The path without a matrix cannot get through: the deadline rule would be missing. */
  lemma NoMatrixIsRejected(r: Request, ids: nat -> string, used: nat)
    requires r.blocks == [] && !AnyFlatSet(r.flat)
    ensures !Acceptable(Normalised(r, ids, used))
  {
    NormalisedParts(r, ids, used);
    TrimIdempotent(r.flat.deadlineRule);
    hide Trim, Normalised, NormalBlocks, MatrixOK, CategoryTable;
    assert SyncOf(r, ids, used).flat == Prepared(r).flat;
  }

  lemma PreparedFlatSet(r: Request)
    ensures AnyFlatSet(Prepared(r).flat) == AnyFlatSet(r.flat)
  {
    TrimIdempotent(r.flat.deadlineRule);
    hide Trim, Sanitize.Strings, Sanitize.LegalBases, Sanitize.Checklist;
  }

  /**
   Everything that reaches storage is well shaped: the six mandatory blocks in the fixed order,
   then the request's extra blocks in their order, numbered 1 to n, ids present, keys all
   different, and the flat columns equal to the mandatory blocks' descriptions.
   */
  lemma AcceptedIsShaped(r: Request, ids: nat -> string, used: nat)
    requires GoodIds(ids) && Acceptable(Normalised(r, ids, used))
    ensures !DuplicateKeys(r.blocks) && (r.blocks != [] || AnyFlatSet(r.flat))
    ensures var n := Normalised(r, ids, used);
            && Shaped(MANDATORY_KEYS, n.blocks) && |n.blocks| == 6 + |Extras(r.blocks)|
            && Mirrored(MANDATORY_KEYS, n.flat, n.blocks)
            && n.flat.format == r.flat.format
  {
    if DuplicateKeys(r.blocks) { ClashingKeysAreRejected(r, ids, used); }
    if r.blocks == [] && !AnyFlatSet(r.flat) { NoMatrixIsRejected(r, ids, used); }
    hide Normalised, Shaped, DuplicateKeys, AnyFlatSet, Sync, Acceptable, NormalBlocks, Mirrored, Extras, GoodIds;
    NormalisedParts(r, ids, used);
    PreparedFlatSet(r);
    SyncShapes(Prepared(r).flat, r.blocks, ids, used);
    var s := SyncOf(r, ids, used);
    NormalKeepsShape(MANDATORY_KEYS, s.blocks);
    ShapedFacts(s.blocks);
    NormalKeepsMirror(s.flat, s.blocks);
  }

  lemma NormalKeepsMirror(f: Flat, blocks: seq<Block>)
    requires |MANDATORY_KEYS| <= |blocks| && Mirrored(MANDATORY_KEYS, f, blocks)
    ensures Mirrored(MANDATORY_KEYS, f, NormalBlocks(blocks))
  {
    hide Trim, MANDATORY_KEYS, FlatField, Norm;
    forall i | 0 <= i < |MANDATORY_KEYS| ensures Trim(NormalBlocks(blocks)[i].description) == Trim(blocks[i].description) {
      TrimIdempotent(blocks[i].description);
    }
  }

  /** ... and each extra block is the request's, in normal form, with its new number. */
  lemma AcceptedKeepsExtras(r: Request, ids: nat -> string, used: nat, i: nat)
    requires GoodIds(ids) && Acceptable(Normalised(r, ids, used)) && i < |Extras(r.blocks)|
    ensures var n := Normalised(r, ids, used);
            && |n.blocks| > 6 + i
            && n.blocks[6 + i] == NormalBlock(Extras(r.blocks)[i]).(blockID := n.blocks[6 + i].blockID, displayOrder := 7 + i)
            && (!Blank(Extras(r.blocks)[i].blockID) ==> n.blocks[6 + i].blockID == Trim(Extras(r.blocks)[i].blockID))
  {
    AcceptedIsShaped(r, ids, used);
    assert r.blocks != [] by { assert Extras([]) == []; }
    hide Normalised, Shaped, DuplicateKeys, AnyFlatSet, Sync, Acceptable, Mirrored, Extras, GoodIds, Norm, Trim;
    NormalisedParts(r, ids, used);
    SyncKeepsExtras(Prepared(r).flat, r.blocks, ids, used, i);
  }

  // ---------------------------------------------------------------- doing it again

  lemma KnownCategoriesStay()
    ensures NormalizeAlias("periodic", CATEGORY_ALIASES) == "periodic"
    ensures NormalizeAlias("irregular", CATEGORY_ALIASES) == "irregular"
    ensures NormalizeAlias("custom", CATEGORY_ALIASES) == "custom"
  {
    hide Norm, Lower, Trim, TrimLeft, TrimRight;
    KeyCharsAreNormal("periodic");
    KeyCharsAreNormal("irregular");
    KeyCharsAreNormal("custom");
  }

  lemma KnownStrategiesStay()
    ensures NormalizeAlias("fixed_cycle_days", STRATEGY_ALIASES) == "fixed_cycle_days"
    ensures NormalizeAlias("event_relative_hours", STRATEGY_ALIASES) == "event_relative_hours"
    ensures NormalizeAlias("configurable", STRATEGY_ALIASES) == "configurable"
  {
    hide Norm, Lower, Trim, TrimLeft, TrimRight;
    KeyCharsAreNormal("fixed_cycle_days");
    KeyCharsAreNormal("event_relative_hours");
    KeyCharsAreNormal("configurable");
  }

  lemma KnownPeriodicitiesStay()
    ensures NormalizeAlias("monthly", PERIODICITY_ALIASES) == "monthly"
    ensures NormalizeAlias("quarterly", PERIODICITY_ALIASES) == "quarterly"
    ensures NormalizeAlias("yearly", PERIODICITY_ALIASES) == "yearly"
    ensures NormalizeAlias("event_based", PERIODICITY_ALIASES) == "event_based"
    ensures NormalizeAlias("ad_hoc", PERIODICITY_ALIASES) == "ad_hoc"
  {
    hide Norm, Lower, Trim, TrimLeft, TrimRight;
    KeyCharsAreNormal("monthly");
    KeyCharsAreNormal("quarterly");
    KeyCharsAreNormal("yearly");
    KeyCharsAreNormal("event_based");
    KeyCharsAreNormal("ad_hoc");
  }

  lemma AliasTrims(raw: string, aliases: map<string, string>)
    ensures NormalizeAlias(Trim(raw), aliases) == NormalizeAlias(raw, aliases)
  {
    TrimIdempotent(raw);
    hide Lower, Trim;
  }

  /** A triple the table accepts is already canonical. */
  lemma TableIsCanonical(category: string, periodicity: string, strategy: string)
    requires CategoryTable(category, periodicity, strategy)
    ensures NormalizeAlias(category, CATEGORY_ALIASES) == category
    ensures NormalizeAlias(periodicity, PERIODICITY_ALIASES) == periodicity
    ensures NormalizeAlias(strategy, STRATEGY_ALIASES) == strategy
  {
    hide NormalizeAlias, CATEGORY_ALIASES, PERIODICITY_ALIASES, STRATEGY_ALIASES;
    KnownCategoriesStay();
    KnownStrategiesStay();
    KnownPeriodicitiesStay();
  }

  lemma PreparedAgain(r: Request, ids: nat -> string, used: nat)
    requires Acceptable(Normalised(r, ids, used)) && Trimmed(Normalised(r, ids, used).flat.deadlineRule)
    ensures Prepared(Normalised(r, ids, used)) == Normalised(r, ids, used)
  {
    hide Normalised, MatrixOK, CategoryTable, CATEGORY_ALIASES, PERIODICITY_ALIASES, STRATEGY_ALIASES,
      Sanitize.Strings, Sanitize.LegalBases, Sanitize.Checklist, NormalizeAlias;
    var n := Normalised(r, ids, used);
    NormalisedParts(r, ids, used);
    Sanitize.StringsAreClean(r.reminderMilestones);
    Sanitize.CleanStringsStay(n.reminderMilestones);
    Sanitize.LegalBasesTwice(r.legalBases);
    Sanitize.ChecklistTwice(r.checklist);
    CanonicalIsTrimmed(n);
    TrimOfTrimmed(n.flat.deadlineRule);
    TrimIdempotent(r.typeID); TrimIdempotent(r.groupID); TrimIdempotent(r.name); TrimIdempotent(r.category);
    hide Trim;
  }

  lemma CanonicalIsTrimmed(n: Request)
    requires CategoryTable(n.templateCategory, n.periodicity, n.deadlineStrategy)
    ensures Trim(n.templateCategory) == n.templateCategory && Trim(n.periodicity) == n.periodicity
    ensures Trim(n.deadlineStrategy) == n.deadlineStrategy
  {
    hide Trim, TrimLeft, TrimRight;
    TrimOfTrimmed(n.templateCategory);
    TrimOfTrimmed(n.periodicity);
    TrimOfTrimmed(n.deadlineStrategy);
  }

  lemma DeadlineKeyIndex()
    ensures |MANDATORY_KEYS| == 6 && MANDATORY_KEYS[2] == DEADLINE
  {
  }

  lemma DeadlineField(f: Flat)
    ensures FlatField(DEADLINE, f) == f.deadlineRule
  {
    MandatoryKeysDiffer();
  }

  /** The stored columns are trimmed. */
  lemma MirroredDeadlineIsTrimmed(f: Flat, blocks: seq<Block>)
    requires |blocks| >= 6 && |MANDATORY_KEYS| == 6 && Mirrored(MANDATORY_KEYS, f, blocks)
    ensures Trimmed(f.deadlineRule) && f.deadlineRule == Trim(blocks[2].description)
  {
    hide MANDATORY_KEYS, FlatField;
    DeadlineKeyIndex();
    DeadlineField(f);
    MirroredAt(f, blocks, 2);
    hide Trim;
  }

  lemma FlatStringIsField(mk: string, f: Flat)
    requires mk in MANDATORY_KEYS && (Blank(f.format) || mk != CHANNELS_AND_FORMAT)
    ensures FlatString(mk, f) == if mk == CHANNELS_AND_FORMAT then Trim(f.channelsText) else FlatField(mk, f)
  {
    hide ChannelsAndFormat, Trim;
    if mk == CHANNELS_AND_FORMAT { ChannelsWithoutFormat(f); ChannelsField(f); }
  }

  /** Without a Format, a mirrored and normalised matrix is aligned. */
  lemma NormalIsAligned(f: Flat, blocks: seq<Block>)
    requires |blocks| >= 6 && |MANDATORY_KEYS| == 6 && Mirrored(MANDATORY_KEYS, f, NormalBlocks(blocks)) && Blank(f.format)
    ensures Aligned(MANDATORY_KEYS, f, NormalBlocks(blocks))
  {
    var bs := NormalBlocks(blocks);
    forall i | 0 <= i < 6 ensures FlatString(MANDATORY_KEYS[i], f) == bs[i].description {
      TrimIdempotent(blocks[i].description);
      TrimIdempotent(f.channelsText);
      assert Trim(bs[i].description) == bs[i].description;
      hide Trim, MANDATORY_KEYS, FlatField, FlatString, Norm;
      FlatStringIsField(MANDATORY_KEYS[i], f);
      ChannelsField(f);
      MirroredAt(f, bs, i);
    }
  }

  lemma NormalBlocksTwice(blocks: seq<Block>)
    ensures NormalBlocks(NormalBlocks(blocks)) == NormalBlocks(blocks)
  {
    hide NormalBlock;
    forall i | 0 <= i < |blocks| ensures NormalBlock(NormalBlock(blocks[i])) == NormalBlock(blocks[i]) {
      NormalBlockFacts(blocks[i]);
    }
  }

  lemma AcceptedIsCanonical(n: Request)
    requires Acceptable(n)
    ensures NormalizeAlias(n.templateCategory, CATEGORY_ALIASES) == n.templateCategory
    ensures NormalizeAlias(n.periodicity, PERIODICITY_ALIASES) == n.periodicity
    ensures NormalizeAlias(n.deadlineStrategy, STRATEGY_ALIASES) == n.deadlineStrategy
  {
    hide NormalizeAlias, CATEGORY_ALIASES, PERIODICITY_ALIASES, STRATEGY_ALIASES, CategoryTable, MatrixOK;
    TableIsCanonical(n.templateCategory, n.periodicity, n.deadlineStrategy);
  }

  lemma NormalisedAgain(n: Request, ids: nat -> string, used: nat)
    requires Prepared(n) == n && NormalBlocks(n.blocks) == n.blocks
    requires Sync(n.flat, n.blocks, ids, used) == Synced(n.flat, n.blocks, used)
    requires NormalizeAlias(n.templateCategory, CATEGORY_ALIASES) == n.templateCategory
    requires NormalizeAlias(n.periodicity, PERIODICITY_ALIASES) == n.periodicity
    requires NormalizeAlias(n.deadlineStrategy, STRATEGY_ALIASES) == n.deadlineStrategy
    ensures Normalised(n, ids, used) == n && SyncOf(n, ids, used).used == used
  {
    hide NormalizeAlias, CATEGORY_ALIASES, PERIODICITY_ALIASES, STRATEGY_ALIASES, Sync, NormalBlocks, Prepared;
  }

  lemma ChannelsIsTrimmed(f: Flat, blocks: seq<Block>)
    requires |blocks| >= 6 && |MANDATORY_KEYS| == 6 && Mirrored(MANDATORY_KEYS, f, blocks)
    ensures Trimmed(f.channelsText) && Trim(f.channelsText) == f.channelsText
  {
    hide MANDATORY_KEYS, FlatField;
    ChannelsKeyIndex();
    ChannelsField(f);
    MirroredAt(f, blocks, 3);
    TrimIdempotent(blocks[3].description);
    hide Trim;
  }

  /**
   Upserting what was stored once more changes nothing, draws no id and is accepted again,
   exactly when the Format column is blank.
   */
  lemma UpsertIsIdempotentIffNoFormat(r: Request, ids: nat -> string, used: nat, used': nat)
    requires GoodIds(ids) && Acceptable(Normalised(r, ids, used))
    ensures var n := Normalised(r, ids, used);
            && (Normalised(n, ids, used') == n <==> Blank(r.flat.format))
            && (Blank(r.flat.format) ==> SyncOf(n, ids, used').used == used' && Acceptable(Normalised(n, ids, used')))
  {
    hide Normalised, Shaped, DuplicateKeys, AnyFlatSet, Sync, Acceptable, NormalBlocks, Mirrored, GoodIds, Prepared,
      Aligned, Trim, NormalizeAlias, CATEGORY_ALIASES, PERIODICITY_ALIASES, STRATEGY_ALIASES, MANDATORY_KEYS;
    var n := Normalised(r, ids, used);
    AcceptedIsShaped(r, ids, used);
    ShapedFacts(n.blocks);
    MirroredDeadlineIsTrimmed(n.flat, n.blocks);
    PreparedAgain(r, ids, used);
    NormalisedParts(r, ids, used);
    NormalisedParts(n, ids, used');
    if Blank(r.flat.format) {
      var s := SyncOf(r, ids, used);
      NormalIsAligned(n.flat, s.blocks);
      SettledSync(n.flat, n.blocks, ids, used');
      NormalBlocksTwice(s.blocks);
      AcceptedIsCanonical(n);
      NormalisedAgain(n, ids, used');
    } else {
      PassAddsOneLine(n.flat, n.blocks, ids, used');
      AddLineIsTrimmed(Trim(n.flat.channelsText), Trim(n.flat.format));
      ChannelsIsTrimmed(n.flat, n.blocks);
    }
  }
}

/**
 An accepted request, field by field: where each stored text, block and setting comes from in the request as it
 was sent.
 */
module TemplateLaws {
  import opened Prelude
  import opened Text
  import opened TemplateModel
  import opened TemplateSync
  import opened TemplateSyncFacts
  import opened TemplateFixpoint
  import opened TemplateSchema
  import opened TemplateValidation
  import opened TemplatePipeline
  import opened TemplateTheorems
  import opened TemplateAcceptance

  // ---------------------------------------------------------------- texts

  /** A column that was sent not blank wins; else the text of the block sent under that key, if there was one. */
  ghost predicate ComesFrom(text: string, column: string, blocks: seq<Block>, key: string) {
    if !Blank(column) then text == Trim(column)
    else
      && (forall i :: 0 <= i < |blocks| && KeyOf(blocks[i]) == key ==> text == Trim(blocks[i].description))
      && ((forall i :: 0 <= i < |blocks| ==> KeyOf(blocks[i]) != key) ==> text == "")
  }

  /** The channels column, with the format on a line of its own. */
  ghost function WithFormatLine(channels: string, format: string): string {
    if Blank(format) then channels
    else if Blank(channels) then "Format: " + Trim(format)
    else Trim(channels) + "\n" + ("Format: " + Trim(format))
  }

  lemma FormatLine(f: Flat)
    ensures Trim(ChannelsAndFormat(f)) == Trim(WithFormatLine(f.channelsText, f.format))
    ensures Blank(ChannelsAndFormat(f)) <==> Blank(WithFormatLine(f.channelsText, f.format))
  {
    TrimIdempotent(f.channelsText);
    hide Trim, ChannelsAndFormat;
    if Blank(f.format) { ChannelsWithoutFormat(f); } else { ChannelsWithFormat(f); }
  }

  /** The text a mandatory block ends up with. */
  lemma MandatoryText(mk: string, f: Flat, blocks: seq<Block>, order: int, id: string)
    ensures var (b, found) := (MandatoryBlock(mk, f, blocks, order, id), FindKey(blocks, mk));
            Trim(b.description) == if !Blank(FlatString(mk, f)) then Trim(FlatString(mk, f))
                                   else if found.Some? then Trim(found.value.description) else ""
  {
    TrimIdempotent(FlatString(mk, f));
    hide FlatString, Trim, FindKey, MandatoryShape;
  }

  lemma FreshText(f: Flat, ids: nat -> string, used: nat, mk: string)
    requires AnyFlatSet(f)
    ensures var found := FindKey(Started(f, [], ids, used), mk);
            mk in MANDATORY_KEYS && found.Some? ==> Trim(found.value.description) == Trim(FlatString(mk, f))
  {
    MandatoryKeysAreNormal();
    hide Norm, Trim, MandatoryShape, AnyFlatSet, FlatString, FindKey;
    var b1 := Started(f, [], ids, used);
    if mk in MANDATORY_KEYS && FindKey(b1, mk).Some? {
      var i := FoundIsThere(b1, mk);
      FreshAt(MANDATORY_KEYS, f, ids, used, i);
      assert MANDATORY_KEYS[i] in MANDATORY_KEYS;
      TrimIdempotent(FlatString(mk, f));
    }
  }

  lemma FoundOrNone(blocks: seq<Block>, key: string)
    requires !DuplicateKeys(blocks) && key != ""
    ensures var found := FindKey(blocks, key);
            && (forall i :: 0 <= i < |blocks| && KeyOf(blocks[i]) == key ==> found == Some(blocks[i]))
            && ((forall i :: 0 <= i < |blocks| ==> KeyOf(blocks[i]) != key) ==> found == None)
  {
    hide KeyOf, DuplicateKeys, FindKey;
    forall i | 0 <= i < |blocks| && KeyOf(blocks[i]) == key ensures FindKey(blocks, key) == Some(blocks[i]) {
      FindsTheOnly(blocks, i);
    }
    if FindKey(blocks, key).Some? { var i := FoundIsThere(blocks, key); }
  }

  /** One pass: the i-th mandatory column comes from the request as sent. */
  lemma SyncedText(f: Flat, blocks: seq<Block>, ids: nat -> string, used: nat, i: nat)
    requires GoodIds(ids) && !DuplicateKeys(blocks) && (blocks != [] || AnyFlatSet(f)) && i < 6
    ensures var s := Sync(f, blocks, ids, used);
            && |MANDATORY_KEYS| == 6 <= |s.blocks|
            && FlatField(MANDATORY_KEYS[i], s.flat) == Trim(s.blocks[i].description)
            && ComesFrom(Trim(s.blocks[i].description), FlatString(MANDATORY_KEYS[i], f), blocks, MANDATORY_KEYS[i])
  {
    hide Norm, Trim, MANDATORY_KEYS, AnyFlatSet, DuplicateKeys, Sync, GoodIds, KeyOf, Shaped, Mirrored, MandatoryBlock,
      FindKey, FlatString, FlatField;
    MandatoryKeysAreGood();
    SyncShapes(f, blocks, ids, used);
    var s := Sync(f, blocks, ids, used);
    ShapedFacts(s.blocks);
    MirroredAt(s.flat, s.blocks, i);
    var id := SyncMandatoryAt(f, blocks, ids, used, i);
    var mk := MANDATORY_KEYS[i];
    MandatoryText(mk, f, Started(f, blocks, ids, used), i + 1, id);
    if blocks == [] { FreshText(f, ids, used, mk); } else { FoundOrNone(blocks, mk); }
  }

  /** The columns of an accepted request and where they come from. */
  ghost predicate TextsComeFrom(stored: Flat, sent: Flat, blocks: seq<Block>) {
    && ComesFrom(stored.legalBasis, sent.legalBasis, blocks, "legal_basis")
    && ComesFrom(stored.reportContent, sent.reportContent, blocks, "disclosure_content")
    && ComesFrom(stored.deadlineRule, sent.deadlineRule, blocks, "deadline")
    && ComesFrom(stored.channelsText, WithFormatLine(sent.channelsText, sent.format), blocks, "channels_and_format")
    && ComesFrom(stored.legalRisksText, sent.legalRisksText, blocks, "legal_risks")
    && ComesFrom(stored.implementationContent, sent.implementationContent, blocks, "enterprise_workflow")
    && stored.format == sent.format
  }

  /** The mandatory blocks carry the same texts, under these keys and in this order. */
  ghost predicate BlocksSay(blocks: seq<Block>, f: Flat) {
    && |blocks| >= 6
    && blocks[0].blockKey == "legal_basis" && blocks[0].description == f.legalBasis
    && blocks[1].blockKey == "disclosure_content" && blocks[1].description == f.reportContent
    && blocks[2].blockKey == "deadline" && blocks[2].description == f.deadlineRule
    && blocks[3].blockKey == "channels_and_format" && blocks[3].description == f.channelsText
    && blocks[4].blockKey == "legal_risks" && blocks[4].description == f.legalRisksText
    && blocks[5].blockKey == "enterprise_workflow" && blocks[5].description == f.implementationContent
  }

  /** The same by index, for a pass over the prepared request. */
  ghost predicate TextAt(n: Request, f: Flat, blocks: seq<Block>, i: nat)
    requires i < |MANDATORY_KEYS|
  {
    && |n.blocks| >= 6 > i
    && n.blocks[i].blockKey == MANDATORY_KEYS[i]
    && n.blocks[i].description == FlatField(MANDATORY_KEYS[i], n.flat)
    && ComesFrom(FlatField(MANDATORY_KEYS[i], n.flat), FlatString(MANDATORY_KEYS[i], f), blocks, MANDATORY_KEYS[i])
  }

  lemma AcceptedText(r: Request, ids: nat -> string, used: nat, i: nat)
    requires GoodIds(ids) && Acceptable(Normalised(r, ids, used)) && i < |MANDATORY_KEYS|
    ensures TextAt(Normalised(r, ids, used), Prepared(r).flat, r.blocks, i)
  {
    MandatoryKeysAreGood();
    AcceptedIsShaped(r, ids, used);
    hide Norm, Trim, MANDATORY_KEYS, AnyFlatSet, DuplicateKeys, Sync, GoodIds, KeyOf, Mirrored, FlatString, FlatField,
      Normalised, Acceptable, ComesFrom;
    PreparedFlatSet(r);
    NormalisedParts(r, ids, used);
    var s := SyncOf(r, ids, used);
    SyncedText(Prepared(r).flat, r.blocks, ids, used, i);
    NormalBlockFacts(s.blocks[i]);
  }

  lemma KeyNames()
    ensures MANDATORY_KEYS == ["legal_basis", "disclosure_content", "deadline", "channels_and_format", "legal_risks",
                               "enterprise_workflow"]
    ensures forall f: Flat :: FlatField("legal_basis", f) == f.legalBasis && FlatField("disclosure_content", f) == f.reportContent
    ensures forall f: Flat :: FlatField("deadline", f) == f.deadlineRule && FlatField("channels_and_format", f) == f.channelsText
    ensures forall f: Flat :: FlatField("legal_risks", f) == f.legalRisksText
                              && FlatField("enterprise_workflow", f) == f.implementationContent
  {
    MandatoryKeysDiffer();
  }

  lemma ColumnNames(f: Flat)
    ensures FlatString("legal_basis", f) == f.legalBasis && FlatString("disclosure_content", f) == f.reportContent
    ensures FlatString("deadline", f) == f.deadlineRule && FlatString("channels_and_format", f) == ChannelsAndFormat(f)
    ensures FlatString("legal_risks", f) == f.legalRisksText && FlatString("enterprise_workflow", f) == f.implementationContent
  {
    hide ChannelsAndFormat;
    MandatoryKeysDiffer();
  }

  lemma SameTrimSameText(text: string, a: string, b: string, blocks: seq<Block>, key: string)
    requires Trim(a) == Trim(b) && ComesFrom(text, a, blocks, key)
    ensures ComesFrom(text, b, blocks, key)
  {
  }

  /**
   For every accepted request and each of its narrative columns: a column that was sent not blank is stored trimmed, in
   the column and in its mandatory block alike; a blank one gets the trimmed text of the block sent under that key, or
   nothing when none was.
   */
  lemma AcceptedTexts(r: Request, ids: nat -> string, used: nat)
    requires GoodIds(ids) && Acceptable(Normalised(r, ids, used))
    ensures var n := Normalised(r, ids, used);
            TextsComeFrom(n.flat, r.flat, r.blocks) && BlocksSay(n.blocks, n.flat)
  {
    AcceptedIsShaped(r, ids, used);
    MandatoryKeysAreGood();
    KeyNames();
    hide Trim, KeyOf, FlatString, FlatField, Normalised, Acceptable, ComesFrom, ChannelsAndFormat, WithFormatLine, GoodIds,
      Shaped, Mirrored;
    forall i | 0 <= i < 6 ensures TextAt(Normalised(r, ids, used), Prepared(r).flat, r.blocks, i) {
      AcceptedText(r, ids, used, i);
    }
    SixTexts(Normalised(r, ids, used), r);
  }

  lemma SixTexts(n: Request, r: Request)
    requires n.flat.format == r.flat.format && |MANDATORY_KEYS| == 6
    requires forall i :: 0 <= i < 6 ==> TextAt(n, Prepared(r).flat, r.blocks, i)
    ensures TextsComeFrom(n.flat, r.flat, r.blocks) && BlocksSay(n.blocks, n.flat)
  {
    var f := Prepared(r).flat;
    assert f == r.flat.(deadlineRule := Trim(r.flat.deadlineRule));
    KeyNames();
    ColumnNames(f);
    hide Trim, KeyOf, FlatString, FlatField, ComesFrom, ChannelsAndFormat, WithFormatLine, Prepared;
    assert TextAt(n, f, r.blocks, 0) && TextAt(n, f, r.blocks, 1) && TextAt(n, f, r.blocks, 2);
    assert TextAt(n, f, r.blocks, 3) && TextAt(n, f, r.blocks, 4) && TextAt(n, f, r.blocks, 5);
    FormatLine(f);
    SameTrimSameText(n.flat.channelsText, ChannelsAndFormat(f), WithFormatLine(r.flat.channelsText, r.flat.format), r.blocks,
                     "channels_and_format");
    TrimIdempotent(r.flat.deadlineRule);
    SameTrimSameText(n.flat.deadlineRule, f.deadlineRule, r.flat.deadlineRule, r.blocks, "deadline");
  }

  // ---------------------------------------------------------------- blocks

  /** What storing keeps of a block that was sent: all but its text and its number, in normal form. */
  ghost predicate Kept(n: Block, b: Block) {
    && n.blockKey == Norm(b.blockKey) && n.blockType == Norm(b.blockType) && n.title == Trim(b.title)
    && n.enabled == b.enabled
    && n.config == (if b.config.None? then Some(map[]) else b.config)
    && n.validation == (if b.validation.None? then Some(map[]) else b.validation)
    && (!Blank(b.blockID) ==> n.blockID == Trim(b.blockID))
  }

  lemma NormalFormKeeps(p: Block, b: Block)
    requires p == b.(blockID := p.blockID, description := p.description, displayOrder := p.displayOrder)
    requires !Blank(b.blockID) ==> p.blockID == b.blockID
    ensures Kept(NormalBlock(p), b) && NormalBlock(p).description == Trim(p.description)
    ensures NormalBlock(p).displayOrder == p.displayOrder
  {
    hide Trim, Norm;
  }

  lemma PlacedKeeps(mk: string, f: Flat, blocks: seq<Block>, order: int, id: string)
    requires FindKey(blocks, mk).Some?
    ensures var (p, b) := (MandatoryBlock(mk, f, blocks, order, id), FindKey(blocks, mk).value);
            p == b.(blockID := p.blockID, description := p.description, displayOrder := p.displayOrder)
            && (!Blank(b.blockID) ==> p.blockID == b.blockID)
  {
    hide Trim, FlatString, FindKey;
  }

  /** A mandatory block that was sent is stored in its place. */
  lemma AcceptedKeepsMandatory(r: Request, ids: nat -> string, used: nat, i: nat, j: nat)
    requires GoodIds(ids) && Acceptable(Normalised(r, ids, used))
    requires i < |MANDATORY_KEYS| && j < |r.blocks| && KeyOf(r.blocks[j]) == MANDATORY_KEYS[i]
    ensures var n := Normalised(r, ids, used);
            i < |n.blocks| && Kept(n.blocks[i], r.blocks[j]) && n.blocks[i].displayOrder == i + 1
  {
    MandatoryKeysAreGood();
    AcceptedIsShaped(r, ids, used);
    hide Norm, Trim, MANDATORY_KEYS, AnyFlatSet, DuplicateKeys, Sync, GoodIds, KeyOf, Mirrored, Normalised, Acceptable,
      FindKey, MandatoryBlock, Kept;
    PreparedFlatSet(r);
    NormalisedParts(r, ids, used);
    var f, s := Prepared(r).flat, SyncOf(r, ids, used);
    var id := SyncMandatoryAt(f, r.blocks, ids, used, i);
    var b1 := Started(f, r.blocks, ids, used);
    FoundOrNone(r.blocks, MANDATORY_KEYS[i]);
    PlacedKeeps(MANDATORY_KEYS[i], f, b1, i + 1, id);
    NormalFormKeeps(s.blocks[i], r.blocks[j]);
  }

  lemma KeyedIsEither(b: Block)
    requires KeyOf(b) != ""
    ensures IsExtra(b) <==> KeyOf(b) !in MANDATORY_KEYS
  {
    NormIdempotent(b.blockKey);
    hide Norm, MANDATORY_KEYS;
  }

  /**
   Every block that was sent under a key is stored: a mandatory one in the place of its key, an extra one behind them with its
   own text.
   */
  lemma AcceptedKeepsBlock(r: Request, ids: nat -> string, used: nat, j: nat) returns (k: nat)
    requires GoodIds(ids) && Acceptable(Normalised(r, ids, used)) && j < |r.blocks| && KeyOf(r.blocks[j]) != ""
    ensures var n := Normalised(r, ids, used);
            && k < |n.blocks| && Kept(n.blocks[k], r.blocks[j]) && n.blocks[k].displayOrder == k + 1
            && (k < 6 <==> KeyOf(r.blocks[j]) in MANDATORY_KEYS)
            && (k >= 6 ==> n.blocks[k].description == Trim(r.blocks[j].description))
  {
    hide Norm, Trim, MANDATORY_KEYS, GoodIds, Normalised, Acceptable, Kept, KeyOf, IsExtra;
    MandatoryKeysAreGood();
    KeyedIsEither(r.blocks[j]);
    if KeyOf(r.blocks[j]) in MANDATORY_KEYS {
      k :| 0 <= k < |MANDATORY_KEYS| && MANDATORY_KEYS[k] == KeyOf(r.blocks[j]);
      AcceptedKeepsMandatory(r, ids, used, k, j);
    } else {
      var at := ExtrasKeepOrder(r.blocks);
      var i: nat :| i < |at| && at[i] == j;
      k := 6 + i;
      AcceptedKeepsExtra(r, ids, used, i);
    }
  }

  lemma AcceptedKeepsExtra(r: Request, ids: nat -> string, used: nat, i: nat)
    requires GoodIds(ids) && Acceptable(Normalised(r, ids, used)) && i < |Extras(r.blocks)|
    ensures var (n, b) := (Normalised(r, ids, used), Extras(r.blocks)[i]);
            && 6 + i < |n.blocks| && Kept(n.blocks[6 + i], b) && n.blocks[6 + i].displayOrder == 7 + i
            && n.blocks[6 + i].description == Trim(b.description)
  {
    AcceptedKeepsExtras(r, ids, used, i);
    hide Norm, Trim, MANDATORY_KEYS, GoodIds, Normalised, Acceptable, Extras;
    NormalFormKeeps(Extras(r.blocks)[i], Extras(r.blocks)[i]);
  }

  /** The blocks that are made for keys nobody sent. */
  ghost predicate MadeFor(i: nat, b: Block) {
    && b.enabled && b.validation == Some(map[]) && b.displayOrder == i + 1
    && (i == 0 ==> b.title == "Cơ sở pháp lý" && IsRichText(b, 8000.0, false))
    && (i == 1 ==> b.title == "Nội dung công bố/báo cáo" && IsRichText(b, 50000.0, true))
    && (i == 2 ==> b.title == "Kỳ hạn công bố/báo cáo" && b.blockType == "text" && b.config == Some(map["max_length" := Num(4000.0)]))
    && (i == 3 ==> b.title == "Kênh và hình thức công bố/báo cáo" && IsRichText(b, 12000.0, false))
    && (i == 4 ==> b.title == "Rủi ro pháp lý nếu không thực hiện đúng" && IsRichText(b, 8000.0, false))
    && (i == 5 ==> b.title == "Workflow của doanh nghiệp" && IsRichText(b, 12000.0, true))
  }

  predicate IsRichText(b: Block, maxLength: real, allowHtml: bool) {
    b.blockType == "rich_text" && b.config == Some(map["max_length" := Num(maxLength), "allow_html" := Bool(allowHtml)])
  }

  lemma NewIsMade(i: nat, f: Flat, id: string)
    requires i < |MANDATORY_KEYS|
    ensures MadeFor(i, NewMandatory(MANDATORY_KEYS[i], f, id, i + 1))
  {
    MandatoryKeysDiffer();
    hide Trim, FlatString;
  }

  lemma NormalFormIsMade(i: nat, b: Block)
    requires MadeFor(i, b) && i < 6
    ensures MadeFor(i, NormalBlock(b))
  {
    hide Norm, Trim;
    TypeNames();
    MadeTitle(i, b);
  }

  lemma MadeTitle(i: nat, b: Block)
    requires MadeFor(i, b) && i < 6
    ensures Trim(b.title) == b.title
  {
    hide IsRichText, Trim;
    TrimOfTrimmed(b.title);
  }

  lemma PlacedIsMade(i: nat, f: Flat, b: Block, id: string)
    requires i < |MANDATORY_KEYS| && MadeFor(i, b)
    ensures MadeFor(i, Placed(WithFlat(MANDATORY_KEYS[i], b, f), i + 1, id))
  {
    hide Trim, FlatString;
  }

  lemma MadeInPass(f: Flat, blocks: seq<Block>, ids: nat -> string, used: nat, i: nat, id: string)
    requires i < |MANDATORY_KEYS| && FindKey(blocks, MANDATORY_KEYS[i]) == None
    ensures MadeFor(i, MandatoryBlock(MANDATORY_KEYS[i], f, Started(f, blocks, ids, used), i + 1, id))
  {
    MandatoryKeysAreGood();
    var b1 := Started(f, blocks, ids, used);
    var mk := MANDATORY_KEYS[i];
    hide Norm, Trim, MANDATORY_KEYS, AnyFlatSet, FindKey, MadeFor, NewMandatory, WithFlat, Placed;
    NewIsMade(i, f, id);
    if FindKey(b1, mk).Some? {
      var j := FoundIsThere(b1, mk);
      FreshAt(MANDATORY_KEYS, f, ids, used, j);
      NewKey(MANDATORY_KEYS[j], f, ids(used + j), j + 1);
      NewIsMade(j, f, ids(used + j));
      PlacedIsMade(i, f, b1[j], id);
    }
  }

  lemma NewKey(mk: string, f: Flat, id: string, order: int)
    ensures NewMandatory(mk, f, id, order).blockKey == mk
  {
    hide Trim, FlatString, MandatoryShape;
  }

  /** A mandatory block that nobody sent is made as its table says. */
  lemma AcceptedMakesMissing(r: Request, ids: nat -> string, used: nat, i: nat)
    requires GoodIds(ids) && Acceptable(Normalised(r, ids, used)) && i < |MANDATORY_KEYS|
    requires forall j :: 0 <= j < |r.blocks| ==> KeyOf(r.blocks[j]) != MANDATORY_KEYS[i]
    ensures var n := Normalised(r, ids, used);
            i < |n.blocks| && MadeFor(i, n.blocks[i])
  {
    MandatoryKeysAreGood();
    AcceptedIsShaped(r, ids, used);
    hide Norm, Trim, MANDATORY_KEYS, AnyFlatSet, DuplicateKeys, Sync, GoodIds, KeyOf, Mirrored, Normalised, Acceptable,
      FindKey, MandatoryBlock, MadeFor;
    PreparedFlatSet(r);
    NormalisedParts(r, ids, used);
    var f, s := Prepared(r).flat, SyncOf(r, ids, used);
    var id := SyncMandatoryAt(f, r.blocks, ids, used, i);
    FoundOrNone(r.blocks, MANDATORY_KEYS[i]);
    MadeInPass(f, r.blocks, ids, used, i, id);
    NormalFormIsMade(i, s.blocks[i]);
  }

  /** The blocks of a request without any are made exactly when some mandatory key has a text among the columns. */
  lemma AnyFlatSetIff(f: Flat)
    ensures AnyFlatSet(f) <==> exists mk :: mk in MANDATORY_KEYS && !Blank(FlatString(mk, f))
  {
    KeyNames();
    ColumnNames(f);
    FormatLine(f);
    TrimIdempotent(f.format);
    TrimIdempotent(f.channelsText);
    hide Trim, ChannelsAndFormat, FlatString, FlatField;
    FormatNotBlank(f);
    var keys := MANDATORY_KEYS;
    assert keys[0] in keys && keys[1] in keys && keys[2] in keys && keys[3] in keys && keys[4] in keys && keys[5] in keys;
  }

  lemma FormatNotBlank(f: Flat)
    ensures Blank(ChannelsAndFormat(f)) <==> Blank(f.channelsText) && Blank(f.format)
  {
    TrimIdempotent(f.channelsText);
    hide Trim, ChannelsAndFormat, AddLine;
    if Blank(f.format) {
      ChannelsWithoutFormat(f);
    } else {
      ChannelsWithFormat(f);
      AddLineIsTrimmed(Trim(f.channelsText), Trim(f.format));
      TrimOfTrimmed(ChannelsAndFormat(f));
    }
  }

  // ---------------------------------------------------------------- the tables

  /** The eight triples of category, periodicity and deadline strategy. */
  lemma EightTriples(category: string, periodicity: string, strategy: string)
    ensures CategoryTable(category, periodicity, strategy) <==>
            (category, periodicity, strategy) in {
              ("periodic", "monthly", "fixed_cycle_days"), ("periodic", "quarterly", "fixed_cycle_days"),
              ("periodic", "yearly", "fixed_cycle_days"), ("irregular", "event_based", "event_relative_hours"),
              ("custom", "monthly", "configurable"), ("custom", "quarterly", "configurable"),
              ("custom", "yearly", "configurable"), ("custom", "ad_hoc", "configurable")}
  {
  }

  /** A spelling of the table stands for its entry, any other for itself. */
  lemma AliasesLookedUp(raw: string, aliases: map<string, string>)
    requires "" !in aliases
    ensures NormalizeAlias(raw, aliases) == if Norm(raw) in aliases then aliases[Norm(raw)] else Norm(raw)
  {
    hide Norm;
  }

  lemma CategorySpellings()
    ensures CATEGORY_ALIASES.Keys == {"periodic", "định kỳ", "dinh ky", "irregular", "bất thường", "bat thuong", "custom",
                                      "tùy chỉnh", "tuy chinh"}
    ensures CATEGORY_ALIASES["periodic"] == CATEGORY_ALIASES["định kỳ"] == CATEGORY_ALIASES["dinh ky"] == "periodic"
    ensures CATEGORY_ALIASES["irregular"] == CATEGORY_ALIASES["bất thường"] == CATEGORY_ALIASES["bat thuong"] == "irregular"
    ensures CATEGORY_ALIASES["custom"] == CATEGORY_ALIASES["tùy chỉnh"] == CATEGORY_ALIASES["tuy chinh"] == "custom"
  {
  }

  lemma PeriodicitySpellings()
    ensures PERIODICITY_ALIASES.Keys == {"monthly", "hàng tháng", "hang thang", "quarterly", "hàng quý", "hang quy", "yearly",
                                         "hàng năm", "hang nam", "event_based", "bất thường", "bat thuong", "ad_hoc",
                                         "theo yêu cầu", "theo yeu cau"}
    ensures PERIODICITY_ALIASES["monthly"] == PERIODICITY_ALIASES["hàng tháng"] == PERIODICITY_ALIASES["hang thang"] == "monthly"
    ensures PERIODICITY_ALIASES["quarterly"] == PERIODICITY_ALIASES["hàng quý"] == PERIODICITY_ALIASES["hang quy"] == "quarterly"
    ensures PERIODICITY_ALIASES["yearly"] == PERIODICITY_ALIASES["hàng năm"] == PERIODICITY_ALIASES["hang nam"] == "yearly"
    ensures PERIODICITY_ALIASES["event_based"] == PERIODICITY_ALIASES["bất thường"] == PERIODICITY_ALIASES["bat thuong"]
            == "event_based"
    ensures PERIODICITY_ALIASES["ad_hoc"] == PERIODICITY_ALIASES["theo yêu cầu"] == PERIODICITY_ALIASES["theo yeu cau"] == "ad_hoc"
  {
  }

  lemma StrategyNames(raw: string)
    ensures NormalizeAlias(raw, STRATEGY_ALIASES) == Norm(raw)
  {
    hide Norm;
  }

  /** The fields of an accepted request that are not blocks or columns. */
  lemma AcceptedHeader(r: Request, ids: nat -> string, used: nat)
    requires GoodIds(ids) && Acceptable(Normalised(r, ids, used))
    ensures var n := Normalised(r, ids, used);
            && n.typeID == Trim(r.typeID) != "" && n.groupID == Trim(r.groupID) != "" && n.name == Trim(r.name) != ""
            && n.category == Trim(r.category) && n.passedOn == r.passedOn
            && n.templateCategory == NormalizeAlias(r.templateCategory, CATEGORY_ALIASES)
            && n.periodicity == NormalizeAlias(r.periodicity, PERIODICITY_ALIASES)
            && n.deadlineStrategy == Norm(r.deadlineStrategy)
            && (n.templateCategory == "periodic" ==> n.periodicity in ["monthly", "quarterly", "yearly"])
            && (n.templateCategory == "irregular" ==> n.periodicity == "event_based")
            && (n.templateCategory == "custom" ==> n.periodicity in ["monthly", "quarterly", "yearly", "ad_hoc"])
            && n.templateCategory in ["periodic", "irregular", "custom"]
  {
    hide Norm, Trim, NormalizeAlias, CATEGORY_ALIASES, PERIODICITY_ALIASES, STRATEGY_ALIASES, MatrixOK, Normalised, SyncOf;
    NormalisedParts(r, ids, used);
    StrategyNames(r.deadlineStrategy);
    AliasTrims(r.templateCategory, CATEGORY_ALIASES);
    AliasTrims(r.periodicity, PERIODICITY_ALIASES);
    AliasTrims(r.deadlineStrategy, STRATEGY_ALIASES);
  }
}

/** Which requests the template upsert accepts, said of the request as it was sent. */
module TemplateAcceptance {
  import opened Prelude
  import opened Text
  import opened TemplateModel
  import opened TemplateSync
  import opened TemplateSyncFacts
  import opened TemplateFixpoint
  import opened TemplateSchema
  import opened TemplateValidation
  import opened TemplatePipeline
  import opened TemplateTheorems

  /** A block whose own fields are in order. */
  ghost predicate BodyOK(b: Block) {
    !Blank(b.title) && SchemaOK(b.blockType, MapOf(b.config), MapOf(b.validation))
  }

  predicate DeadlineGiven(r: Request) {
    !Blank(r.flat.deadlineRule)
    || exists i :: 0 <= i < |r.blocks| && KeyOf(r.blocks[i]) == DEADLINE && !Blank(r.blocks[i].description)
  }

  /**
   Ids and name given, a triple of the category table (aliases allowed), no clashing keys,
   every block with a key in order (blocks without one are dropped), and a deadline in either place.
   */
  ghost predicate InputOK(r: Request) {
    && !Blank(r.typeID) && !Blank(r.groupID) && !Blank(r.name)
    && CategoryTable(NormalizeAlias(r.templateCategory, CATEGORY_ALIASES), NormalizeAlias(r.periodicity, PERIODICITY_ALIASES),
                     NormalizeAlias(r.deadlineStrategy, STRATEGY_ALIASES))
    && !DuplicateKeys(r.blocks)
    && (forall i :: 0 <= i < |r.blocks| && KeyOf(r.blocks[i]) != "" ==> BodyOK(r.blocks[i]))
    && DeadlineGiven(r)
  }

  /** Same title, type, config and validation. */
  predicate SameBody(a: Block, b: Block) {
    a.title == b.title && a.blockType == b.blockType && a.config == b.config && a.validation == b.validation
  }

  lemma NormalKeepsBody(b: Block)
    ensures BodyOK(NormalBlock(b)) <==> BodyOK(b)
    ensures NormalBlock(b).title != "" <==> !Blank(b.title)
    ensures SchemaOK(NormalBlock(b).blockType, MapOf(NormalBlock(b).config), MapOf(NormalBlock(b).validation))
            <==> SchemaOK(b.blockType, MapOf(b.config), MapOf(b.validation))
  {
    NormIdempotent(b.blockType);
    TrimIdempotent(b.title);
    TrimOfTrimmed(Norm(b.blockType));
    NormalKeepsSchema(b.blockType, MapOf(b.config), MapOf(b.validation));
    hide Trim, Norm, SchemaOK;
  }

  lemma NormalKeepsSchema(t: string, c: AnyMap, v: AnyMap)
    requires Norm(Norm(t)) == Norm(t) && Trim(Norm(t)) == Norm(t)
    ensures SchemaOK(Norm(t), c, v) <==> SchemaOK(t, c, v)
  {
    assert Norm(t) == "" <==> Trim(t) == "";
    hide Trim, Norm, TypedOK, AllowedType;
    assert CanonicalBlockType(Norm(t)) == CanonicalBlockType(t);
  }

  // ---------------------------------------------------------------- mandatory blocks made from columns

  lemma ShapeTitles(mk: string)
    requires mk in MANDATORY_KEYS
    ensures !Blank(MandatoryShape(mk).0)
  {
    hide Trim, TrimLeft, TrimRight, RichText;
    TrimOfTrimmed(MandatoryShape(mk).0);
  }

  lemma GoodMaxLength(c: AnyMap, n: int)
    requires "max_length" in c && c["max_length"] == Num(n as real) && n > 0
    ensures OptionalPositive(c, "max_length")
  {
  }

  lemma TypeNames()
    ensures Norm("rich_text") == "rich_text" && Norm("text") == "text"
    ensures !Blank("rich_text") && !Blank("text")
  {
    hide Norm, Lower, Trim, TrimLeft, TrimRight;
    KeyCharsAreNormal("rich_text");
    KeyCharsAreNormal("text");
    TrimOfTrimmed("rich_text");
    TrimOfTrimmed("text");
  }

  lemma RichTextIsOK(n: int, allowHtml: bool)
    requires n > 0
    ensures SchemaOK("rich_text", RichText(n as real, allowHtml), map[])
  {
    TypeNames();
    GoodMaxLength(RichText(n as real, allowHtml), n);
    hide OptionalPositive, Norm, Trim, TableOK, NonEmptyList;
  }

  lemma PlainTextIsOK(n: int)
    requires n > 0
    ensures SchemaOK("text", map["max_length" := Num(n as real)], map[])
  {
    TypeNames();
    GoodMaxLength(map["max_length" := Num(n as real)], n);
    hide OptionalPositive, Norm, Trim, TableOK, NonEmptyList;
  }

  lemma ShapeSchema(mk: string)
    requires mk in MANDATORY_KEYS
    ensures var (_, t, c) := MandatoryShape(mk); SchemaOK(t, c, map[])
  {
    hide SchemaOK, RichText;
    RichTextIsOK(8000, false);
    RichTextIsOK(50000, true);
    RichTextIsOK(12000, false);
    RichTextIsOK(12000, true);
    PlainTextIsOK(4000);
  }

  lemma NewMandatoryIsOK(mk: string, f: Flat, id: string, order: int)
    requires mk in MANDATORY_KEYS
    ensures BodyOK(NewMandatory(mk, f, id, order))
  {
    ShapeTitles(mk);
    ShapeSchema(mk);
    hide Trim, SchemaOK, FlatString, MandatoryShape, MANDATORY_KEYS;
  }

  // ---------------------------------------------------------------- where each stored block comes from

  /** The i-th block after a pass, for the mandatory keys. */
  lemma SyncMandatoryAt(f: Flat, blocks: seq<Block>, ids: nat -> string, used: nat, i: nat) returns (id: string)
    requires GoodIds(ids) && !DuplicateKeys(blocks) && (blocks != [] || AnyFlatSet(f)) && i < 6
    ensures |MANDATORY_KEYS| == 6 && |Sync(f, blocks, ids, used).blocks| >= 6
    ensures Sync(f, blocks, ids, used).blocks[i] == MandatoryBlock(MANDATORY_KEYS[i], f, Started(f, blocks, ids, used), i + 1, id)
  {
    MandatoryKeysAreGood();
    FreshAreNoDuplicates(f, ids, used);
    var b1 := Started(f, blocks, ids, used);
    var u1 := if blocks == [] && AnyFlatSet(f) then used + 6 else used;
    assert b1 != [] && !DuplicateKeys(b1);
    hide Norm, Trim, MANDATORY_KEYS, FreshBlocks, AnyFlatSet, DuplicateKeys, Extras, MandatoryBlock, PlacedExtras, Mirror;
    var n := MandatoryAt(MANDATORY_KEYS, f, b1, ids, u1, i);
    id := ids(n);
  }

  /** A block made for a missing key is in order; one found keeps its body. */
  lemma MandatoryBody(mk: string, f: Flat, blocks: seq<Block>, order: int, id: string)
    requires mk in MANDATORY_KEYS
    ensures var b := MandatoryBlock(mk, f, blocks, order, id);
            if FindKey(blocks, mk).None? then BodyOK(b) else SameBody(b, FindKey(blocks, mk).value)
  {
    hide FlatString, Trim, FindKey, MANDATORY_KEYS, SchemaOK, NewMandatory;
    if FindKey(blocks, mk).None? { NewMandatoryIsOK(mk, f, id, order); }
  }

  lemma FoundInStarted(f: Flat, blocks: seq<Block>, ids: nat -> string, used: nat, mk: string)
    requires mk in MANDATORY_KEYS
    ensures var found := FindKey(Started(f, blocks, ids, used), mk);
            if blocks == [] then found.Some? ==> BodyOK(found.value) else found == FindKey(blocks, mk)
  {
    var b1 := Started(f, blocks, ids, used);
    if blocks == [] && FindKey(b1, mk).Some? {
      var i := FoundIsThere(b1, mk);
      hide Norm, Trim, FindKey, NewMandatory, FlatString, AnyFlatSet;
      FreshAt(MANDATORY_KEYS, f, ids, used, i);
      NewMandatoryIsOK(MANDATORY_KEYS[i], f, ids(used + i), i + 1);
    }
  }

  /** The i-th mandatory block's body: the request's own block when it sent one, else in order. */
  lemma StoredMandatory(f: Flat, blocks: seq<Block>, ids: nat -> string, used: nat, i: nat)
    requires GoodIds(ids) && !DuplicateKeys(blocks) && (blocks != [] || AnyFlatSet(f)) && i < 6
    ensures |MANDATORY_KEYS| == 6 && |Sync(f, blocks, ids, used).blocks| >= 6
    ensures var (b, found) := (Sync(f, blocks, ids, used).blocks[i], FindKey(blocks, MANDATORY_KEYS[i]));
            if found.None? then BodyOK(b) else SameBody(b, found.value)
  {
    hide Norm, Trim, MANDATORY_KEYS, AnyFlatSet, DuplicateKeys, MandatoryBlock, Sync, GoodIds, SchemaOK, Started;
    var id := SyncMandatoryAt(f, blocks, ids, used, i);
    var mk := MANDATORY_KEYS[i];
    FoundInStarted(f, blocks, ids, used, mk);
    MandatoryBody(mk, f, Started(f, blocks, ids, used), i + 1, id);
  }

  // ---------------------------------------------------------------- the matrix

  /** For a shaped, normalised list only the bodies are left to check. */
  lemma ShapedMatrix(bs: seq<Block>)
    requires Shaped(MANDATORY_KEYS, bs) && forall i :: 0 <= i < |bs| ==> bs[i].blockKey == KeyOf(bs[i])
    ensures MatrixOK(bs) <==>
            forall i :: 0 <= i < |bs| ==> bs[i].title != "" && SchemaOK(bs[i].blockType, MapOf(bs[i].config), MapOf(bs[i].validation))
  {
    MandatoryKeysAreGood();
    hide Norm, Trim, KeyOf, SchemaOK, MANDATORY_KEYS, IsMandatory;
    forall i | 0 <= i < |bs| ensures bs[i].blockKey != "" && bs[i].displayOrder > 0 {
      if i >= 6 { assert IsExtra(bs[i]); }
    }
    forall i, j | 0 <= i < j < |bs| ensures bs[i].blockKey != bs[j].blockKey {
      assert !SameKey(bs[i], bs[j]);
    }
    forall k | k in MANDATORY_KEYS ensures HasKey(bs, k) {
      var i :| 0 <= i < |MANDATORY_KEYS| && MANDATORY_KEYS[i] == k;
      assert bs[i].blockKey == k;
    }
    if MatrixOK(bs) {
      forall i | 0 <= i < |bs| ensures BlockOK(bs[i]) {}
    }
  }

  /** After a pass, the bodies are in order exactly when those of the keyed blocks sent are. */
  lemma BodiesOKIff(f: Flat, blocks: seq<Block>, ids: nat -> string, used: nat)
    requires GoodIds(ids) && !DuplicateKeys(blocks) && (blocks != [] || AnyFlatSet(f))
    ensures var s := Sync(f, blocks, ids, used);
            (forall i :: 0 <= i < |s.blocks| ==> BodyOK(s.blocks[i])) <==>
            (forall i :: 0 <= i < |blocks| && KeyOf(blocks[i]) != "" ==> BodyOK(blocks[i]))
  {
    hide Norm, Trim, MANDATORY_KEYS, AnyFlatSet, DuplicateKeys, Sync, GoodIds, SchemaOK, Extras, KeyOf, Shaped, Mirrored;
    var s := Sync(f, blocks, ids, used);
    SyncShapes(f, blocks, ids, used);
    SyncCorresponds(f, blocks, ids, used);
    if forall i :: 0 <= i < |blocks| && KeyOf(blocks[i]) != "" ==> BodyOK(blocks[i]) { StoredAreSent(blocks, s.blocks); }
    if forall i :: 0 <= i < |s.blocks| ==> BodyOK(s.blocks[i]) { SentAreStored(blocks, s.blocks); }
  }

  lemma SyncCorresponds(f: Flat, blocks: seq<Block>, ids: nat -> string, used: nat)
    requires GoodIds(ids) && !DuplicateKeys(blocks) && (blocks != [] || AnyFlatSet(f))
    ensures Corresponds(blocks, Sync(f, blocks, ids, used).blocks)
  {
    hide Norm, Trim, MANDATORY_KEYS, AnyFlatSet, DuplicateKeys, Sync, GoodIds, BodyOK, Extras, KeyOf, Shaped, Mirrored;
    var s := Sync(f, blocks, ids, used);
    SyncShapes(f, blocks, ids, used);
    StoredMandatory(f, blocks, ids, used, 0);
    forall i | 0 <= i < 6 ensures MandatoryCorresponds(blocks, s.blocks, i) {
      StoredMandatory(f, blocks, ids, used, i);
    }
    ExtrasOfNone();
    forall i | 0 <= i < |Extras(blocks)| ensures SameBody(s.blocks[6 + i], Extras(blocks)[i]) {
      SyncKeepsExtras(f, blocks, ids, used, i);
    }
  }

  lemma ExtrasOfNone()
    ensures Extras([]) == []
  {
  }

  ghost predicate MandatoryCorresponds(blocks: seq<Block>, stored: seq<Block>, i: nat)
    requires i < |MANDATORY_KEYS| && i < |stored|
  {
    var found := FindKey(blocks, MANDATORY_KEYS[i]);
    if found.None? then BodyOK(stored[i]) else SameBody(stored[i], found.value)
  }

  /** How the stored list corresponds to the blocks sent. */
  ghost predicate Corresponds(blocks: seq<Block>, stored: seq<Block>) {
    && |MANDATORY_KEYS| == 6 && |stored| == 6 + |Extras(blocks)|
    && (forall i :: 0 <= i < 6 ==> MandatoryCorresponds(blocks, stored, i))
    && (forall i :: 0 <= i < |Extras(blocks)| ==> SameBody(stored[6 + i], Extras(blocks)[i]))
  }

  lemma StoredAreSent(blocks: seq<Block>, stored: seq<Block>)
    requires Corresponds(blocks, stored)
    requires forall i :: 0 <= i < |blocks| && KeyOf(blocks[i]) != "" ==> BodyOK(blocks[i])
    ensures forall i :: 0 <= i < |stored| ==> BodyOK(stored[i])
  {
    MandatoryKeysAreGood();
    hide Norm, Trim, MANDATORY_KEYS, SchemaOK, Extras, KeyOf, FindKey;
    var at := ExtrasKeepOrder(blocks);
    forall i | 0 <= i < |stored| ensures BodyOK(stored[i]) {
      if i < 6 {
        assert MandatoryCorresponds(blocks, stored, i);
        if FindKey(blocks, MANDATORY_KEYS[i]).Some? { var j := FoundIsThere(blocks, MANDATORY_KEYS[i]); }
      } else {
        assert SameBody(stored[6 + (i - 6)], Extras(blocks)[i - 6]) && Extras(blocks)[i - 6] == blocks[at[i - 6]];
      }
    }
  }

  lemma SentAreStored(blocks: seq<Block>, stored: seq<Block>)
    requires Corresponds(blocks, stored) && !DuplicateKeys(blocks)
    requires forall i :: 0 <= i < |stored| ==> BodyOK(stored[i])
    ensures forall i :: 0 <= i < |blocks| && KeyOf(blocks[i]) != "" ==> BodyOK(blocks[i])
  {
    hide Norm, Trim, MANDATORY_KEYS, SchemaOK, Extras, FindKey, DuplicateKeys;
    var at := ExtrasKeepOrder(blocks);
    forall i | 0 <= i < |blocks| && KeyOf(blocks[i]) != "" ensures BodyOK(blocks[i]) {
      if IsExtra(blocks[i]) {
        var j :| 0 <= j < |at| && at[j] == i;
        assert SameBody(stored[6 + j], Extras(blocks)[j]);
      } else {
        NormIdempotent(blocks[i].blockKey);
        var j :| 0 <= j < |MANDATORY_KEYS| && MANDATORY_KEYS[j] == KeyOf(blocks[i]);
        FindsTheOnly(blocks, i);
        assert MandatoryCorresponds(blocks, stored, j);
      }
    }
  }

  // ---------------------------------------------------------------- the deadline

  lemma MandatoryDescription(mk: string, f: Flat, blocks: seq<Block>, order: int, id: string)
    ensures var (b, found) := (MandatoryBlock(mk, f, blocks, order, id), FindKey(blocks, mk));
            Blank(b.description) <==>
            Blank(FlatString(mk, f)) && (found.Some? ==> Blank(found.value.description))
  {
    TrimIdempotent(FlatString(mk, f));
    hide FlatString, Trim, FindKey, MandatoryShape;
  }

  /** The stored deadline is missing exactly when neither the column nor the block gave one. */
  lemma DeadlineIff(r: Request, ids: nat -> string, used: nat)
    requires GoodIds(ids) && !DuplicateKeys(r.blocks) && (r.blocks != [] || AnyFlatSet(r.flat))
    ensures SyncOf(r, ids, used).flat.deadlineRule != "" <==> DeadlineGiven(r)
  {
    hide MANDATORY_KEYS, AnyFlatSet, DuplicateKeys, MandatoryBlock, Sync, GoodIds, Started, Shaped, Mirrored, FindKey, FlatString, Norm;
    var f := Prepared(r).flat;
    PreparedFlatSet(r);
    SyncShapes(f, r.blocks, ids, used);
    var s := SyncOf(r, ids, used);
    ShapedFacts(s.blocks);
    MirroredDeadlineIsTrimmed(s.flat, s.blocks);
    DeadlineKeyIndex();
    var id := SyncMandatoryAt(f, r.blocks, ids, used, 2);
    var b1 := Started(f, r.blocks, ids, used);
    MandatoryDescription(DEADLINE, f, b1, 3, id);
    DeadlineString(f);
    TrimIdempotent(r.flat.deadlineRule);
    DeadlineFound(f, r.blocks, ids, used);
    hide Trim;
  }

  lemma DeadlineString(f: Flat)
    ensures FlatString(DEADLINE, f) == f.deadlineRule
  {
    hide ChannelsAndFormat;
    MandatoryKeysDiffer();
  }

  lemma DeadlineFound(f: Flat, blocks: seq<Block>, ids: nat -> string, used: nat)
    requires !DuplicateKeys(blocks)
    ensures var found := FindKey(Started(f, blocks, ids, used), DEADLINE);
            if blocks == [] then found.Some? ==> Trim(found.value.description) == Trim(f.deadlineRule)
            else (found.Some? && !Blank(found.value.description)) <==>
                 exists i :: 0 <= i < |blocks| && KeyOf(blocks[i]) == DEADLINE && !Blank(blocks[i].description)
  {
    hide KeyOf, FindKey, Trim, DuplicateKeys, FreshBlocks, AnyFlatSet;
    var b1 := Started(f, blocks, ids, used);
    if blocks == [] {
      if FindKey(b1, DEADLINE).Some? { FreshDeadline(f, ids, used, b1); }
    } else {
      if FindKey(blocks, DEADLINE).Some? { var i := FoundIsThere(blocks, DEADLINE); }
      forall i | 0 <= i < |blocks| && KeyOf(blocks[i]) == DEADLINE ensures FindKey(blocks, DEADLINE) == Some(blocks[i]) {
        FindsTheOnly(blocks, i);
      }
    }
  }

  lemma FreshDeadline(f: Flat, ids: nat -> string, used: nat, b1: seq<Block>)
    requires b1 == Started(f, [], ids, used) && FindKey(b1, DEADLINE).Some?
    ensures Trim(FindKey(b1, DEADLINE).value.description) == Trim(f.deadlineRule)
  {
    MandatoryKeysAreNormal();
    hide Norm, Trim, MandatoryShape, AnyFlatSet, FlatString;
    var i := FoundIsThere(b1, DEADLINE);
    FreshAt(MANDATORY_KEYS, f, ids, used, i);
    assert MANDATORY_KEYS[i] in MANDATORY_KEYS;
    DeadlineString(f);
    TrimIdempotent(f.deadlineRule);
  }

  // ---------------------------------------------------------------- main theorem

  lemma NormalBodies(blocks: seq<Block>)
    ensures forall i :: 0 <= i < |blocks| ==>
                          var b := NormalBlocks(blocks)[i];
                          && b.blockKey == KeyOf(b)
                          && ((b.title != "" && SchemaOK(b.blockType, MapOf(b.config), MapOf(b.validation))) <==> BodyOK(blocks[i]))
  {
    hide NormalBlock, SchemaOK, Norm, Trim;
    forall i | 0 <= i < |blocks|
      ensures var b := NormalBlock(blocks[i]);
              && b.blockKey == KeyOf(b)
              && ((b.title != "" && SchemaOK(b.blockType, MapOf(b.config), MapOf(b.validation))) <==> BodyOK(blocks[i]))
    {
      NormalBlockFacts(blocks[i]);
      NormalKeepsBody(blocks[i]);
    }
  }

  /** Once shaped, the stored matrix is in order exactly when the keyed blocks sent are. */
  lemma MatrixIff(r: Request, ids: nat -> string, used: nat)
    requires GoodIds(ids) && !DuplicateKeys(r.blocks) && (r.blocks != [] || AnyFlatSet(r.flat))
    ensures MatrixOK(NormalBlocks(SyncOf(r, ids, used).blocks)) <==>
            forall i :: 0 <= i < |r.blocks| && KeyOf(r.blocks[i]) != "" ==> BodyOK(r.blocks[i])
  {
    hide MANDATORY_KEYS, AnyFlatSet, DuplicateKeys, Sync, GoodIds, Shaped, Mirrored, NormalBlocks, MatrixOK, SchemaOK, BodyOK, KeyOf;
    PreparedFlatSet(r);
    SyncShapes(Prepared(r).flat, r.blocks, ids, used);
    var s := SyncOf(r, ids, used);
    NormalKeepsShape(MANDATORY_KEYS, s.blocks);
    NormalBodies(s.blocks);
    ShapedMatrix(NormalBlocks(s.blocks));
    BodiesOKIff(Prepared(r).flat, r.blocks, ids, used);
  }

  /** Sound and complete acceptance: a request is stored exactly when it meets InputOK as sent. */
  lemma AcceptedIffInputOK(r: Request, ids: nat -> string, used: nat)
    requires GoodIds(ids)
    ensures Acceptable(Normalised(r, ids, used)) <==> InputOK(r)
  {
    if DuplicateKeys(r.blocks) {
      ClashingKeysAreRejected(r, ids, used);
    } else if r.blocks == [] && !AnyFlatSet(r.flat) {
      NoMatrixIsRejected(r, ids, used);
    } else {
      hide MANDATORY_KEYS, AnyFlatSet, DuplicateKeys, Sync, GoodIds, NormalBlocks, MatrixOK, BodyOK, KeyOf, DeadlineGiven,
        NormalizeAlias, CategoryTable, Normalised, Prepared, Trim, CATEGORY_ALIASES, PERIODICITY_ALIASES, STRATEGY_ALIASES;
      NormalisedParts(r, ids, used);
      MatrixIff(r, ids, used);
      DeadlineIff(r, ids, used);
      AliasTrims(r.templateCategory, CATEGORY_ALIASES);
      AliasTrims(r.periodicity, PERIODICITY_ALIASES);
      AliasTrims(r.deadlineStrategy, STRATEGY_ALIASES);
    }
  }
}

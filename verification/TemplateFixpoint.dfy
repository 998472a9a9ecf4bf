/** Repeating a synchronisation pass: when nothing changes, and how the Format column accumulates. */
module TemplateFixpoint {
  import opened Prelude
  import opened Text
  import opened TemplateModel
  import opened TemplateSync
  import opened TemplateSyncFacts

  /** Each mandatory block already carries its column's text, and the columns mirror the blocks. */
  ghost predicate Aligned(keys: seq<string>, f: Flat, blocks: seq<Block>)
    requires |keys| <= |blocks|
  {
    && Mirrored(keys, f, blocks)
    && (forall i :: 0 <= i < |keys| ==> Blank(FlatString(keys[i], f)) || blocks[i].description == FlatString(keys[i], f))
  }

  lemma SettledBlock(keys: seq<string>, f: Flat, blocks: seq<Block>, i: nat, id: string)
    requires GoodKeys(keys) && Shaped(keys, blocks) && Aligned(keys, f, blocks) && i < |keys|
    ensures MandatoryBlock(keys[i], f, blocks, i + 1, id) == blocks[i]
    ensures !DrawsId(FindKey(blocks, keys[i]))
  {
    hide Norm, Trim, FlatString, IsExtra, DuplicateKeys;
    FindsTheOnly(blocks, i);
  }

  lemma {:induction false} SettledMandatory(
      keys: seq<string>, f: Flat, blocks: seq<Block>, ids: nat -> string, used: nat, n: nat)
    requires n <= |keys| <= |blocks|
    requires GoodKeys(keys) && Shaped(keys, blocks) && Aligned(keys, f, blocks)
    ensures MandatoryBlocks(keys[..n], f, blocks, ids, used) == (blocks[..n], used)
    decreases n
  {
    hide Aligned, Shaped, GoodKeys, MandatoryBlock, DrawsId;
    if n > 0 {
      SettledMandatory(keys, f, blocks, ids, used, n - 1);
      SettledBlock(keys, f, blocks, n - 1, ids(used));
      assert keys[..n][..n - 1] == keys[..n - 1];
      assert blocks[..n - 1] + [blocks[n - 1]] == blocks[..n];
    }
  }

  lemma {:induction false} SettledExtras(extras: seq<Block>, base: nat, ids: nat -> string, used: nat)
    requires forall i :: 0 <= i < |extras| ==> extras[i].displayOrder == base + i + 1 && !Blank(extras[i].blockID)
    ensures PlacedExtras(extras, base, ids, used) == (extras, used)
    decreases |extras|
  {
    hide Trim;
    if extras != [] {
      var n := |extras|;
      SettledExtras(extras[..n - 1], base, ids, used);
      assert extras == extras[..n - 1] + [extras[n - 1]];
    }
  }

  lemma {:induction false} SettledMirror(keys: seq<string>, f: Flat, blocks: seq<Block>, n: nat)
    requires GoodKeys(keys) && Shaped(keys, blocks) && Mirrored(keys, f, blocks) && n <= |keys|
    requires forall k :: k in keys ==> k in MANDATORY_KEYS
    ensures Mirror(keys[..n], f, blocks) == f
    decreases n
  {
    hide Norm, Trim, MANDATORY_KEYS, DuplicateKeys, IsExtra, FlatField, SetFlat, KeyOf;
    if n > 0 {
      SettledMirror(keys, f, blocks, n - 1);
      assert keys[..n][..n - 1] == keys[..n - 1];
      FindsTheOnly(blocks, n - 1);
      SetThenGet(keys[n - 1], keys[n - 1], f, f.format);
    }
  }

  lemma SettledTail(keys: seq<string>, blocks: seq<Block>, ids: nat -> string, used: nat)
    requires Shaped(keys, blocks) && |keys| <= |blocks|
    requires forall i :: 0 <= i < |keys| ==> !IsExtra(blocks[i])
    ensures Extras(blocks) == blocks[|keys|..]
    ensures PlacedExtras(blocks[|keys|..], |keys|, ids, used) == (blocks[|keys|..], used)
  {
    hide DuplicateKeys, PlacedExtras, Extras, IsExtra, KeyOf, Trim;
    ExtrasOfTail(blocks, |keys|);
    SettledExtras(blocks[|keys|..], |keys|, ids, used);
  }

  lemma SettledRebuild(keys: seq<string>, f: Flat, blocks: seq<Block>, ids: nat -> string, used: nat)
    requires |keys| <= |blocks|
    requires GoodKeys(keys) && Shaped(keys, blocks) && Aligned(keys, f, blocks)
    requires forall i :: 0 <= i < |keys| ==> !IsExtra(blocks[i])
    ensures Rebuild(keys, f, blocks, ids, used) == (blocks, used)
  {
    hide Aligned, Shaped, GoodKeys, MandatoryBlocks, PlacedExtras, Extras, IsExtra;
    SettledMandatory(keys, f, blocks, ids, used, |keys|);
    assert keys[..|keys|] == keys;
    SettledTail(keys, blocks, ids, used);
    assert blocks[..|keys|] + blocks[|keys|..] == blocks;
  }

  lemma ShapedFacts(blocks: seq<Block>)
    requires Shaped(MANDATORY_KEYS, blocks)
    ensures |MANDATORY_KEYS| == 6 <= |blocks| && GoodKeys(MANDATORY_KEYS) && !DuplicateKeys(blocks)
    ensures forall i :: 0 <= i < |MANDATORY_KEYS| ==> !IsExtra(blocks[i])
  {
    MandatoryKeysAreGood();
    hide MANDATORY_KEYS, DuplicateKeys, IsExtra, KeyOf, Trim;
    forall i | 0 <= i < |MANDATORY_KEYS| ensures !IsExtra(blocks[i]) { MandatoryAreNotExtra(blocks[i]); }
  }

  lemma AlignedIsMirrored(keys: seq<string>, f: Flat, blocks: seq<Block>)
    requires |keys| <= |blocks| && Aligned(keys, f, blocks)
    ensures Mirrored(keys, f, blocks)
  {
  }

  /** A pass over an aligned, well-shaped request changes nothing and draws no id. */
  lemma SettledSync(f: Flat, blocks: seq<Block>, ids: nat -> string, used: nat)
    requires Shaped(MANDATORY_KEYS, blocks) && Aligned(MANDATORY_KEYS, f, blocks)
    ensures Sync(f, blocks, ids, used) == Synced(f, blocks, used)
  {
    hide MANDATORY_KEYS, Shaped, Aligned, Mirrored, Rebuild, DuplicateKeys, Mirror, GoodKeys, IsExtra, AnyFlatSet;
    ShapedFacts(blocks);
    AlignedIsMirrored(MANDATORY_KEYS, f, blocks);
    SettledRebuild(MANDATORY_KEYS, f, blocks, ids, used);
    SettledMirror(MANDATORY_KEYS, f, blocks, 6);
    assert MANDATORY_KEYS[..6] == MANDATORY_KEYS;
  }

  // ---------------------------------------------------------------- the Format column

  /** `text` with one more line "Format: `format`". */
  function AddLine(text: string, format: string): string {
    if text == "" then "Format: " + format else text + "\n" + ("Format: " + format)
  }

  function AddLines(text: string, format: string, k: nat): string {
    if k == 0 then text else AddLine(AddLines(text, format, k - 1), format)
  }

  lemma ChannelsWithFormat(f: Flat)
    requires !Blank(f.format)
    ensures ChannelsAndFormat(f) == AddLine(Trim(f.channelsText), Trim(f.format))
  {
    hide Trim;
    var line := "Format: " + Trim(f.format);
    if Blank(f.channelsText) {
      assert [] + [line] == [line];
    } else {
      var parts := [Trim(f.channelsText)] + [line];
      assert parts[0] == Trim(f.channelsText) && parts[1..] == [line];
      assert Join(parts[1..], "\n") == line;
      assert Join(parts, "\n") == parts[0] + "\n" + line;
    }
  }

  lemma ChannelsWithoutFormat(f: Flat)
    requires Blank(f.format)
    ensures ChannelsAndFormat(f) == Trim(f.channelsText)
  {
    hide Trim;
    if !Blank(f.channelsText) { assert [Trim(f.channelsText)] + [] == [Trim(f.channelsText)]; }
  }

  lemma AddLineIsTrimmed(text: string, format: string)
    requires Trimmed(text) && Trimmed(format) && format != ""
    ensures Trimmed(AddLine(text, format)) && AddLine(text, format) != "" && |AddLine(text, format)| > |text|
  {
  }

  /** `k` passes, one after the other. */
  function Passes(f: Flat, blocks: seq<Block>, ids: nat -> string, used: nat, k: nat): Synced {
    if k == 0 then Synced(f, blocks, used)
    else
      var s := Passes(f, blocks, ids, used, k - 1);
      Sync(s.flat, s.blocks, ids, s.used)
  }

  lemma ChannelsKeyIndex()
    ensures |MANDATORY_KEYS| == 6 && MANDATORY_KEYS[3] == CHANNELS_AND_FORMAT
  {
  }

  /** With a Format, the channels column of one pass is the old text plus one line. */
  lemma PassAddsOneLine(f: Flat, blocks: seq<Block>, ids: nat -> string, used: nat)
    requires GoodIds(ids) && !DuplicateKeys(blocks) && !Blank(f.format)
    ensures var s := Sync(f, blocks, ids, used);
            && s.flat.channelsText == AddLine(Trim(f.channelsText), Trim(f.format)) && Trimmed(s.flat.channelsText)
            && s.flat.format == f.format && !DuplicateKeys(s.blocks)
  {
    hide Trim, Rebuild, Sync, DuplicateKeys, Shaped, Mirrored, GoodIds, MANDATORY_KEYS, AddLine, ChannelsAndFormat;
    assert AnyFlatSet(f);
    SyncShapes(f, blocks, ids, used);
    var s := Sync(f, blocks, ids, used);
    ChannelsKeyIndex();
    ShapedFacts(s.blocks);
    SyncedChannelsText(f, blocks, ids, used);
    MirroredAt(s.flat, s.blocks, 3);
    ChannelsField(s.flat);
    ChannelsWithFormat(f);
    AddLineIsTrimmed(Trim(f.channelsText), Trim(f.format));
    TrimOfTrimmed(ChannelsAndFormat(f));
  }

  lemma MirroredAt(f: Flat, blocks: seq<Block>, i: nat)
    requires i < |MANDATORY_KEYS| <= |blocks| && Mirrored(MANDATORY_KEYS, f, blocks)
    ensures FlatField(MANDATORY_KEYS[i], f) == Trim(blocks[i].description)
  {
  }

  /** The channels block after a pass carries channels and format together. */
  lemma SyncedChannelsText(f: Flat, blocks: seq<Block>, ids: nat -> string, used: nat)
    requires !DuplicateKeys(blocks) && !Blank(f.format)
    ensures var s := Sync(f, blocks, ids, used);
            |s.blocks| >= 6 && Trim(s.blocks[3].description) == Trim(ChannelsAndFormat(f))
  {
    FreshAreNoDuplicates(f, ids, used);
    hide Trim, Rebuild, DuplicateKeys, Mirror, FreshBlocks, ChannelsAndFormat, MANDATORY_KEYS;
    ChannelsKeyIndex();
    assert AnyFlatSet(f);
    ChannelsBlockText(f, Started(f, blocks, ids, used), ids, if blocks == [] then used + 6 else used);
  }

  lemma ChannelsField(f: Flat)
    ensures FlatField(CHANNELS_AND_FORMAT, f) == f.channelsText
    ensures FlatString(CHANNELS_AND_FORMAT, f) == ChannelsAndFormat(f)
  {
    hide ChannelsAndFormat;
    MandatoryKeysDiffer();
  }

  lemma ChannelsBlockText(f: Flat, blocks: seq<Block>, ids: nat -> string, used: nat)
    requires !Blank(f.format)
    ensures var b := Rebuild(MANDATORY_KEYS, f, blocks, ids, used).0;
            |b| >= 6 && Trim(b[3].description) == Trim(ChannelsAndFormat(f))
  {
    ChannelsKeyIndex();
    hide Trim, MANDATORY_KEYS, FindKey, Extras, PlacedExtras, MandatoryShape, ChannelsAndFormat, FlatString;
    var r := MandatoryBlocks(MANDATORY_KEYS, f, blocks, ids, used);
    var n := MandatoryAt(MANDATORY_KEYS, f, blocks, ids, used, 3);
    ChannelsWithFormat(f);
    AddLineIsTrimmed(Trim(f.channelsText), Trim(f.format));
    TrimOfTrimmed(ChannelsAndFormat(f));
    ChannelsField(f);
    assert !Blank(FlatString(CHANNELS_AND_FORMAT, f));
    TrimIdempotent(ChannelsAndFormat(f));
  }

  /**
   With a non-blank Format and no clashing keys, k passes leave the channels column as the
   trimmed original followed by exactly k "Format: ..." lines.
   */
  lemma {:induction false} PassesAddLines(f: Flat, blocks: seq<Block>, ids: nat -> string, used: nat, k: nat)
    requires GoodIds(ids) && !DuplicateKeys(blocks) && !Blank(f.format) && k > 0
    ensures var s := Passes(f, blocks, ids, used, k);
            && s.flat.channelsText == AddLines(Trim(f.channelsText), Trim(f.format), k) && Trimmed(s.flat.channelsText)
            && s.flat.format == f.format && !DuplicateKeys(s.blocks)
    decreases k
  {
    hide Trim, Sync, DuplicateKeys, GoodIds, AddLine;
    if k == 1 {
      assert Passes(f, blocks, ids, used, 0) == Synced(f, blocks, used);
      assert AddLines(Trim(f.channelsText), Trim(f.format), 0) == Trim(f.channelsText);
      PassAddsOneLine(f, blocks, ids, used);
    } else {
      PassesAddLines(f, blocks, ids, used, k - 1);
      var s := Passes(f, blocks, ids, used, k - 1);
      PassAddsOneLine(s.flat, s.blocks, ids, s.used);
      TrimOfTrimmed(s.flat.channelsText);
    }
  }
}

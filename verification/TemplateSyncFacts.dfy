/** What one synchronisation pass, and several, leave behind. */
module TemplateSyncFacts {
  import opened Prelude
  import opened Text
  import opened TemplateModel
  import opened TemplateSync

  /** Distinct keys, each already in the form keys are compared in. */
  ghost predicate GoodKeys(keys: seq<string>) {
    && (forall i, j :: 0 <= i < j < |keys| ==> keys[i] != keys[j])
    && (forall i :: 0 <= i < |keys| ==> keys[i] != "" && Norm(keys[i]) == keys[i])
  }

  lemma MandatoryKeysAreGood()
    ensures GoodKeys(MANDATORY_KEYS) && |MANDATORY_KEYS| == 6
  {
    hide Norm;
    MandatoryKeysDiffer();
    MandatoryKeysAreNormal();
  }

  // ---------------------------------------------------------------- finding blocks

  lemma {:induction false} FindsTheOnly(blocks: seq<Block>, i: nat)
    requires !DuplicateKeys(blocks) && i < |blocks| && KeyOf(blocks[i]) != ""
    ensures FindKey(blocks, KeyOf(blocks[i])) == Some(blocks[i])
    decreases |blocks|
  {
    hide KeyOf;
    var n := |blocks| - 1;
    if i < n {
      assert !SameKey(blocks[i], blocks[n]);
      assert !DuplicateKeys(blocks[..n]) by { PrefixHasNoDuplicates(blocks, n); }
      FindsTheOnly(blocks[..n], i);
    }
  }

  lemma PrefixHasNoDuplicates(blocks: seq<Block>, n: nat)
    requires !DuplicateKeys(blocks) && n <= |blocks|
    ensures !DuplicateKeys(blocks[..n])
  {
    hide SameKey;
    assert forall i :: 0 <= i < n ==> blocks[..n][i] == blocks[i];
  }

  lemma {:induction false} FoundIsThere(blocks: seq<Block>, k: string) returns (i: nat)
    requires FindKey(blocks, k).Some?
    ensures i < |blocks| && KeyOf(blocks[i]) == k && FindKey(blocks, k) == Some(blocks[i])
    decreases |blocks|
  {
    hide KeyOf;
    var n := |blocks| - 1;
    if KeyOf(blocks[n]) == k { i := n; } else { i := FoundIsThere(blocks[..n], k); }
  }

  // ---------------------------------------------------------------- extras

  /** `at` gives the places of `list` in `blocks`, in order, and skips only blocks that are no extras. */
  ghost predicate ExtraPlaces(blocks: seq<Block>, list: seq<Block>, at: seq<nat>) {
    && |at| == |list|
    && (forall i :: 0 <= i < |at| ==> at[i] < |blocks| && list[i] == blocks[at[i]] && IsExtra(list[i]))
    && (forall i, j :: 0 <= i < j < |at| ==> at[i] < at[j])
    && (forall k :: 0 <= k < |blocks| && IsExtra(blocks[k]) ==> k in at)
  }

  /** The extras are exactly the blocks with a non-blank, non-mandatory key, in their order. */
  lemma {:induction false} ExtrasKeepOrder(blocks: seq<Block>) returns (at: seq<nat>)
    ensures ExtraPlaces(blocks, Extras(blocks), at)
    decreases |blocks|
  {
    hide IsExtra, ExtraPlaces;
    at := [];
    if blocks == [] {
      assert ExtraPlaces([], [], []) by { NoExtraPlaces(); }
    } else {
      var n := |blocks| - 1;
      var at0 := ExtrasKeepOrder(blocks[..n]);
      at := if IsExtra(blocks[n]) then at0 + [n] else at0;
      ExtraPlacesGrow(blocks, Extras(blocks[..n]), at0);
    }
  }

  lemma NoExtraPlaces()
    ensures ExtraPlaces([], [], [])
  {
  }

  lemma ExtraPlacesGrow(blocks: seq<Block>, list: seq<Block>, at: seq<nat>)
    requires blocks != [] && ExtraPlaces(blocks[..|blocks| - 1], list, at)
    ensures var (n, b) := (|blocks| - 1, blocks[|blocks| - 1]);
            if IsExtra(b) then ExtraPlaces(blocks, list + [b], at + [n]) else ExtraPlaces(blocks, list, at)
  {
    hide IsExtra;
    var n := |blocks| - 1;
    forall k | 0 <= k < n && IsExtra(blocks[k]) ensures k in at && k in at + [n] {
      assert blocks[..n][k] == blocks[k];
    }
    assert IsExtra(blocks[n]) ==> n in at + [n] by { assert (at + [n])[|at|] == n; }
  }

  lemma {:induction false} NoExtras(blocks: seq<Block>)
    requires forall i :: 0 <= i < |blocks| ==> !IsExtra(blocks[i])
    ensures Extras(blocks) == []
    decreases |blocks|
  {
    hide IsExtra;
    if blocks != [] { NoExtras(blocks[..|blocks| - 1]); }
  }

  lemma {:induction false} ExtrasOfTail(blocks: seq<Block>, n: nat)
    requires n <= |blocks|
    requires forall i :: 0 <= i < n ==> !IsExtra(blocks[i])
    requires forall i :: n <= i < |blocks| ==> IsExtra(blocks[i])
    ensures Extras(blocks) == blocks[n..]
    decreases |blocks|
  {
    hide IsExtra;
    if |blocks| == n {
      NoExtras(blocks);
    } else {
      var m := |blocks| - 1;
      ExtrasOfTail(blocks[..m], n);
      assert blocks[n..] == blocks[..m][n..] + [blocks[m]];
    }
  }

  // ---------------------------------------------------------------- rebuilt blocks

  lemma {:induction false} MandatoryAt(
      keys: seq<string>, f: Flat, blocks: seq<Block>, ids: nat -> string, used: nat, i: nat) returns (n: nat)
    requires i < |keys|
    ensures MandatoryBlocks(keys, f, blocks, ids, used).0[i] == MandatoryBlock(keys[i], f, blocks, i + 1, ids(n))
    decreases |keys|
  {
    hide MandatoryBlock, DrawsId;
    var m := |keys| - 1;
    var r := MandatoryBlocks(keys[..m], f, blocks, ids, used);
    if i == m { n := r.1; } else { n := MandatoryAt(keys[..m], f, blocks, ids, used, i); }
  }

  lemma {:induction false} ExtraAt(extras: seq<Block>, base: nat, ids: nat -> string, used: nat, i: nat) returns (n: nat)
    requires i < |extras|
    ensures PlacedExtras(extras, base, ids, used).0[i] == Placed(extras[i], base + i + 1, ids(n))
    decreases |extras|
  {
    hide Placed, Trim;
    var m := |extras| - 1;
    var r := PlacedExtras(extras[..m], base, ids, used);
    if i == m { n := r.1; } else { n := ExtraAt(extras[..m], base, ids, used, i); }
  }

  lemma {:induction false} FreshAt(keys: seq<string>, f: Flat, ids: nat -> string, used: nat, i: nat)
    requires i < |keys|
    ensures FreshBlocks(keys, f, ids, used)[i] == NewMandatory(keys[i], f, ids(used + i), i + 1)
    decreases |keys|
  {
    hide NewMandatory;
    if i < |keys| - 1 { FreshAt(keys[..|keys| - 1], f, ids, used, i); }
  }

  lemma PlacedFacts(b: Block, order: int, id: string)
    requires !Blank(id)
    ensures var p := Placed(b, order, id);
            !Blank(p.blockID) && p.displayOrder == order && KeyOf(p) == KeyOf(b) && p.description == b.description
            && p == b.(blockID := p.blockID, displayOrder := order) && (!Blank(b.blockID) ==> p.blockID == b.blockID)
  {
    hide Trim, Norm;
  }

  lemma MandatoryBlockFacts(mk: string, f: Flat, blocks: seq<Block>, order: int, id: string)
    requires Norm(mk) == mk && !Blank(id)
    ensures var p := MandatoryBlock(mk, f, blocks, order, id);
            !Blank(p.blockID) && p.displayOrder == order && KeyOf(p) == mk
  {
    hide Norm, Trim, FlatString, MandatoryShape;
    if FindKey(blocks, mk).Some? {
      var i := FoundIsThere(blocks, mk);
      PlacedFacts(WithFlat(mk, blocks[i], f), order, id);
    }
  }

  /**
   Six mandatory keys first, in the fixed order, then the extras; numbered 1 to n;
   every block has an id and no two share a key.
   */
  ghost predicate Shaped(keys: seq<string>, blocks: seq<Block>) {
    && |blocks| >= |keys|
    && (forall i :: 0 <= i < |keys| ==> KeyOf(blocks[i]) == keys[i])
    && (forall i :: |keys| <= i < |blocks| ==> IsExtra(blocks[i]))
    && (forall i :: 0 <= i < |blocks| ==> blocks[i].displayOrder == i + 1 && !Blank(blocks[i].blockID))
    && !DuplicateKeys(blocks)
  }

  lemma ExtrasAreDistinct(blocks: seq<Block>)
    requires !DuplicateKeys(blocks)
    ensures !DuplicateKeys(Extras(blocks))
    ensures forall i :: 0 <= i < |Extras(blocks)| ==> IsExtra(Extras(blocks)[i])
  {
    hide SameKey, IsExtra, Extras;
    var at := ExtrasKeepOrder(blocks);
  }

  lemma GoodIdsAreNotBlank(ids: nat -> string, n: nat)
    requires GoodIds(ids)
    ensures !Blank(ids(n)) && Trim(ids(n)) == ids(n)
  {
    TrimOfTrimmed(ids(n));
  }

  /** What each rebuilt block is. */
  lemma RebuiltAt(keys: seq<string>, f: Flat, blocks: seq<Block>, ids: nat -> string, used: nat, i: nat)
    requires GoodKeys(keys) && GoodIds(ids) && !DuplicateKeys(blocks)
    requires i < |Rebuild(keys, f, blocks, ids, used).0|
    ensures |Rebuild(keys, f, blocks, ids, used).0| == |keys| + |Extras(blocks)|
    ensures var b := Rebuild(keys, f, blocks, ids, used).0[i];
            && b.displayOrder == i + 1 && !Blank(b.blockID)
            && (if i < |keys| then KeyOf(b) == keys[i]
                else b == Extras(blocks)[i - |keys|].(blockID := b.blockID, displayOrder := i + 1)
                     && KeyOf(b) == KeyOf(Extras(blocks)[i - |keys|]))
  {
    hide Norm, Trim, KeyOf, Extras, MandatoryBlock, Placed;
    var (mandatory, u) := MandatoryBlocks(keys, f, blocks, ids, used);
    if i < |keys| {
      var n := MandatoryAt(keys, f, blocks, ids, used, i);
      GoodIdsAreNotBlank(ids, n);
      MandatoryBlockFacts(keys[i], f, blocks, i + 1, ids(n));
    } else {
      var n := ExtraAt(Extras(blocks), |keys|, ids, u, i - |keys|);
      GoodIdsAreNotBlank(ids, n);
      PlacedFacts(Extras(blocks)[i - |keys|], i + 1, ids(n));
    }
  }

  /** A block placed at index `i` of a rebuilt list. */
  ghost predicate RightPlace(keys: seq<string>, extras: seq<Block>, b: Block, i: nat) {
    && b.displayOrder == i + 1 && !Blank(b.blockID)
    && (if i < |keys| then KeyOf(b) == keys[i]
        else i - |keys| < |extras| && KeyOf(b) == KeyOf(extras[i - |keys|]))
  }

  lemma PlacesMakeShape(keys: seq<string>, extras: seq<Block>, out: seq<Block>)
    requires GoodKeys(keys) && |out| == |keys| + |extras| && !DuplicateKeys(extras)
    requires forall i :: 0 <= i < |extras| ==> IsExtra(extras[i]) && KeyOf(extras[i]) !in keys
    requires forall i :: 0 <= i < |out| ==> RightPlace(keys, extras, out[i], i)
    ensures Shaped(keys, out)
  {
    hide Norm, Trim, KeyOf, IsMandatory;
    forall i | |keys| <= i < |out| ensures IsExtra(out[i]) && KeyOf(out[i]) !in keys {
      assert IsExtra(extras[i - |keys|]) && RightPlace(keys, extras, out[i], i);
    }
    forall i, j | 0 <= i < j < |out| ensures !SameKey(out[i], out[j]) {
      assert RightPlace(keys, extras, out[i], i) && RightPlace(keys, extras, out[j], j);
      if i >= |keys| {
        assert !SameKey(extras[i - |keys|], extras[j - |keys|]);
      } else if j >= |keys| {
        assert KeyOf(out[i]) in keys;
      }
    }
  }

  lemma RebuiltIsShaped(keys: seq<string>, f: Flat, blocks: seq<Block>, ids: nat -> string, used: nat)
    requires GoodKeys(keys) && GoodIds(ids) && !DuplicateKeys(blocks)
    requires forall b :: IsExtra(b) ==> KeyOf(b) !in keys
    ensures Shaped(keys, Rebuild(keys, f, blocks, ids, used).0)
    ensures |Rebuild(keys, f, blocks, ids, used).0| == |keys| + |Extras(blocks)|
  {
    ExtrasAreDistinct(blocks);
    assert |Rebuild(keys, f, blocks, ids, used).0| == |keys| + |Extras(blocks)|;
    hide Norm, Trim, KeyOf, Extras, Rebuild, IsExtra, SameKey, DuplicateKeys, GoodKeys, GoodIds;
    var out := Rebuild(keys, f, blocks, ids, used).0;
    forall i | 0 <= i < |out| ensures RightPlace(keys, Extras(blocks), out[i], i) {
      RebuiltAt(keys, f, blocks, ids, used, i);
    }
    PlacesMakeShape(keys, Extras(blocks), out);
  }

  // ---------------------------------------------------------------- mirrored columns

  /** The column a mandatory block is mirrored into. */
  function FlatField(mk: string, f: Flat): string {
    if mk == LEGAL_BASIS then f.legalBasis
    else if mk == DISCLOSURE_CONTENT then f.reportContent
    else if mk == DEADLINE then f.deadlineRule
    else if mk == CHANNELS_AND_FORMAT then f.channelsText
    else if mk == LEGAL_RISKS then f.legalRisksText
    else if mk == ENTERPRISE_WORKFLOW then f.implementationContent
    else ""
  }

  lemma SetThenGet(mk: string, other: string, f: Flat, v: string)
    requires mk in MANDATORY_KEYS && other in MANDATORY_KEYS
    ensures FlatField(other, SetFlat(mk, f, v)) == if mk == other then v else FlatField(other, f)
    ensures SetFlat(mk, f, v).format == f.format
    ensures SetFlat(mk, f, FlatField(mk, f)) == f
  {
  }

  /** After mirroring, each found block's column is its trimmed description, and nothing else moved. */
  lemma {:induction false} MirrorField(keys: seq<string>, f: Flat, blocks: seq<Block>, mk: string)
    requires mk in MANDATORY_KEYS && forall k :: k in keys ==> k in MANDATORY_KEYS
    ensures FlatField(mk, Mirror(keys, f, blocks)) ==
            if mk in keys && FindKey(blocks, mk).Some? then Trim(FindKey(blocks, mk).value.description) else FlatField(mk, f)
    ensures Mirror(keys, f, blocks).format == f.format
    decreases |keys|
  {
    hide FlatField, SetFlat, Trim, FindKey, MANDATORY_KEYS;
    if keys != [] {
      var n, k := |keys|, keys[|keys| - 1];
      assert keys == keys[..n - 1] + [k];
      MirrorField(keys[..n - 1], f, blocks, mk);
      if FindKey(blocks, k).Some? {
        SetThenGet(k, mk, Mirror(keys[..n - 1], f, blocks), Trim(FindKey(blocks, k).value.description));
      }
    }
  }

  // ---------------------------------------------------------------- one pass

  /** The columns say what the mandatory blocks say. */
  ghost predicate Mirrored(keys: seq<string>, f: Flat, blocks: seq<Block>)
    requires |keys| <= |blocks|
  {
    forall i :: 0 <= i < |keys| ==> FlatField(keys[i], f) == Trim(blocks[i].description)
  }

  lemma ExtrasAreNotMandatory(b: Block)
    ensures IsExtra(b) ==> KeyOf(b) !in MANDATORY_KEYS
  {
    NormIdempotent(b.blockKey);
    hide Norm, MANDATORY_KEYS;
  }

  lemma MandatoryAreNotExtra(b: Block)
    ensures KeyOf(b) in MANDATORY_KEYS ==> !IsExtra(b)
  {
    NormIdempotent(b.blockKey);
    hide Norm, MANDATORY_KEYS;
  }

  lemma FreshAreNoDuplicates(f: Flat, ids: nat -> string, used: nat)
    ensures var b := FreshBlocks(MANDATORY_KEYS, f, ids, used);
            !DuplicateKeys(b) && Extras(b) == [] && |b| == 6
  {
    MandatoryKeysAreGood();
    hide Norm, Trim, FlatString, MandatoryShape, MANDATORY_KEYS, IsExtra;
    var b := FreshBlocks(MANDATORY_KEYS, f, ids, used);
    forall i | 0 <= i < 6 ensures KeyOf(b[i]) == MANDATORY_KEYS[i] && !IsExtra(b[i]) {
      FreshAt(MANDATORY_KEYS, f, ids, used, i);
      MandatoryAreNotExtra(b[i]);
    }
    NoExtras(b);
  }

  lemma ShapedIsMirrored(f: Flat, blocks: seq<Block>)
    requires Shaped(MANDATORY_KEYS, blocks)
    ensures Mirrored(MANDATORY_KEYS, Mirror(MANDATORY_KEYS, f, blocks), blocks)
  {
    MandatoryKeysAreGood();
    hide Norm, Trim, MANDATORY_KEYS, Mirror, DuplicateKeys, FlatField, IsExtra;
    forall i | 0 <= i < 6
      ensures FlatField(MANDATORY_KEYS[i], Mirror(MANDATORY_KEYS, f, blocks)) == Trim(blocks[i].description)
    {
      FindsTheOnly(blocks, i);
      MirrorField(MANDATORY_KEYS, f, blocks, MANDATORY_KEYS[i]);
    }
  }

  /** The blocks a pass works on: the request's own, or six made from the columns. */
  function Started(f: Flat, blocks: seq<Block>, ids: nat -> string, used: nat): seq<Block> {
    if blocks == [] && AnyFlatSet(f) then FreshBlocks(MANDATORY_KEYS, f, ids, used) else blocks
  }

  /**
   One pass over a request without clashing keys, unless there is nothing to start from:
   the six mandatory blocks in order, then the extras in their order, numbered 1 to n,
   all with ids; and the columns mirror the mandatory blocks.
   */
  lemma SyncShapes(f: Flat, blocks: seq<Block>, ids: nat -> string, used: nat)
    requires GoodIds(ids) && !DuplicateKeys(blocks) && (blocks != [] || AnyFlatSet(f))
    ensures var s := Sync(f, blocks, ids, used);
            && Shaped(MANDATORY_KEYS, s.blocks) && |s.blocks| == 6 + |Extras(blocks)|
            && Mirrored(MANDATORY_KEYS, s.flat, s.blocks) && s.flat.format == f.format
  {
    MandatoryKeysAreGood();
    FreshAreNoDuplicates(f, ids, used);
    forall b ensures IsExtra(b) ==> KeyOf(b) !in MANDATORY_KEYS { ExtrasAreNotMandatory(b); }
    var b1 := Started(f, blocks, ids, used);
    var u1 := if blocks == [] && AnyFlatSet(f) then used + 6 else used;
    assert Extras([]) == [];
    hide Norm, Trim, MANDATORY_KEYS, FreshBlocks, AnyFlatSet, DuplicateKeys, Extras, IsExtra, Shaped, Mirrored;
    RebuiltIsShaped(MANDATORY_KEYS, f, b1, ids, u1);
    hide Rebuild;
    var b2 := Rebuild(MANDATORY_KEYS, f, b1, ids, u1).0;
    ShapedIsMirrored(f, b2);
    if MANDATORY_KEYS != [] { MirrorKeepsFormat(f, b2); }
  }

  lemma MirrorKeepsFormat(f: Flat, blocks: seq<Block>)
    ensures Mirror(MANDATORY_KEYS, f, blocks).format == f.format
  {
    hide Trim;
    MirrorField(MANDATORY_KEYS, f, blocks, LEGAL_BASIS);
  }

  /** Extras pass through a sync unchanged but for their number and, if they had none, their id. */
  lemma SyncKeepsExtras(f: Flat, blocks: seq<Block>, ids: nat -> string, used: nat, i: nat)
    requires GoodIds(ids) && !DuplicateKeys(blocks) && blocks != [] && i < |Extras(blocks)|
    ensures var s := Sync(f, blocks, ids, used);
            && |s.blocks| > 6 + i
            && s.blocks[6 + i] == Extras(blocks)[i].(blockID := s.blocks[6 + i].blockID, displayOrder := 7 + i)
            && (!Blank(Extras(blocks)[i].blockID) ==> s.blocks[6 + i] == Extras(blocks)[i].(displayOrder := 7 + i))
  {
    MandatoryKeysAreGood();
    hide Norm, Trim, MANDATORY_KEYS, DuplicateKeys, Extras, MandatoryBlocks;
    var (mandatory, u) := MandatoryBlocks(MANDATORY_KEYS, f, blocks, ids, used);
    var n := ExtraAt(Extras(blocks), 6, ids, u, i);
    GoodIdsAreNotBlank(ids, n);
    PlacedFacts(Extras(blocks)[i], 7 + i, ids(n));
  }
}

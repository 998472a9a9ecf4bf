/** Keeping the flat narrative columns and the block matrix of a template request in step. */
module TemplateSync {
  import opened Prelude
  import opened Text
  import opened TemplateModel

  /** The request, updated in place by the pipeline. */
  class UpsertTypeVersionRequest {
    var typeID: string
    var groupID: string
    var name: string
    var category: string
    var templateCategory: string
    var deadlineStrategy: string
    var periodicity: string
    var legalBasis: string
    var reportContent: string
    var deadlineRule: string
    var channelsText: string
    var format: string
    var legalRisksText: string
    var implementationContent: string
    var reminderMilestones: seq<string>
    var legalBases: seq<LegalBasis>
    var checklist: seq<ChecklistItem>
    var blocks: seq<Block>
    var passedOn: PassedOn

    constructor (r: Request)
      ensures AsRequest() == r
    {
      typeID, groupID, name, category := r.typeID, r.groupID, r.name, r.category;
      templateCategory, deadlineStrategy, periodicity := r.templateCategory, r.deadlineStrategy, r.periodicity;
      legalBasis, reportContent, deadlineRule := r.flat.legalBasis, r.flat.reportContent, r.flat.deadlineRule;
      channelsText, format := r.flat.channelsText, r.flat.format;
      legalRisksText, implementationContent := r.flat.legalRisksText, r.flat.implementationContent;
      reminderMilestones, legalBases, checklist := r.reminderMilestones, r.legalBases, r.checklist;
      blocks, passedOn := r.blocks, r.passedOn;
    }

    function AsFlat(): Flat
      reads this
    {
      Flat(legalBasis, reportContent, deadlineRule, channelsText, format, legalRisksText, implementationContent)
    }

    function AsRequest(): Request
      reads this
    {
      Request(typeID, groupID, name, category, templateCategory, deadlineStrategy, periodicity,
              AsFlat(), reminderMilestones, legalBases, checklist, blocks, passedOn)
    }
  }

  // ---------------------------------------------------------------- specification

  /** Two blocks share a key that is not blank. */
  predicate SameKey(a: Block, b: Block) { KeyOf(a) != "" && KeyOf(a) == KeyOf(b) }

  predicate DuplicateKeys(blocks: seq<Block>) {
    exists i, j :: 0 <= i < j < |blocks| && SameKey(blocks[i], blocks[j])
  }

  /** The last block with key `k`. */
  function FindKey(blocks: seq<Block>, k: string): Option<Block> {
    if blocks == [] then None
    else if KeyOf(blocks[|blocks| - 1]) == k then Some(blocks[|blocks| - 1])
    else FindKey(blocks[..|blocks| - 1], k)
  }

  predicate IsExtra(b: Block) { KeyOf(b) != "" && !IsMandatory(KeyOf(b)) }

  /** The blocks with some other key, in order. */
  function Extras(blocks: seq<Block>): seq<Block> {
    if blocks == [] then []
    else
      var (front, b) := (Extras(blocks[..|blocks| - 1]), blocks[|blocks| - 1]);
      if IsExtra(b) then front + [b] else front
  }

  function NewMandatory(mk: string, f: Flat, id: string, order: int): Block {
    var (title, blockType, config) := MandatoryShape(mk);
    Block(id, mk, blockType, title, Trim(FlatString(mk, f)), Some(config), Some(map[]), order, true)
  }

  /** A block ready for its place: an id if it had none, and its number. */
  function Placed(b: Block, order: int, id: string): Block {
    b.(blockID := if Blank(b.blockID) then id else b.blockID, displayOrder := order)
  }

  function WithFlat(mk: string, b: Block, f: Flat): Block {
    if Blank(FlatString(mk, f)) then b else b.(description := FlatString(mk, f))
  }

  function MandatoryBlock(mk: string, f: Flat, blocks: seq<Block>, order: int, id: string): Block {
    match FindKey(blocks, mk)
    case None => NewMandatory(mk, f, id, order)
    case Some(b) => Placed(WithFlat(mk, b, f), order, id)
  }

  /** Whether that block draws an id. */
  predicate DrawsId(found: Option<Block>) { found.None? || Blank(found.value.blockID) }

  /** The blocks for `keys`, numbered from 1, and the number of ids drawn so far. */
  function MandatoryBlocks(
    keys: seq<string>, f: Flat, blocks: seq<Block>, ids: nat -> string, used: nat): (r: (seq<Block>, nat))
    ensures |r.0| == |keys|
  {
    if keys == [] then ([], used)
    else
      var (n, mk) := (|keys|, keys[|keys| - 1]);
      var (front, u) := MandatoryBlocks(keys[..n - 1], f, blocks, ids, used);
      (front + [MandatoryBlock(mk, f, blocks, n, ids(u))], if DrawsId(FindKey(blocks, mk)) then u + 1 else u)
  }

  /** The extra blocks, numbered after `base`. */
  function PlacedExtras(extras: seq<Block>, base: nat, ids: nat -> string, used: nat): (r: (seq<Block>, nat))
    ensures |r.0| == |extras|
  {
    if extras == [] then ([], used)
    else
      var (n, b) := (|extras|, extras[|extras| - 1]);
      var (front, u) := PlacedExtras(extras[..n - 1], base, ids, used);
      (front + [Placed(b, base + n, ids(u))], if Blank(b.blockID) then u + 1 else u)
  }

  function Rebuild(keys: seq<string>, f: Flat, blocks: seq<Block>, ids: nat -> string, used: nat): (seq<Block>, nat) {
    var (mandatory, u) := MandatoryBlocks(keys, f, blocks, ids, used);
    var (extras, u') := PlacedExtras(Extras(blocks), |keys|, ids, u);
    (mandatory + extras, u')
  }

  function FreshBlocks(keys: seq<string>, f: Flat, ids: nat -> string, used: nat): (r: seq<Block>)
    ensures |r| == |keys|
  {
    if keys == [] then []
    else
      var n := |keys|;
      FreshBlocks(keys[..n - 1], f, ids, used) + [NewMandatory(keys[n - 1], f, ids(used + n - 1), n)]
  }

  /** The flat columns with each found block's trimmed description copied back. */
  function Mirror(keys: seq<string>, f: Flat, blocks: seq<Block>): Flat {
    if keys == [] then f
    else
      var (n, mk) := (|keys|, keys[|keys| - 1]);
      var f' := Mirror(keys[..n - 1], f, blocks);
      match FindKey(blocks, mk)
      case None => f'
      case Some(b) => SetFlat(mk, f', Trim(b.description))
  }

  datatype Synced = Synced(flat: Flat, blocks: seq<Block>, used: nat)

  /** One synchronisation pass over the flat columns and the blocks. */
  function Sync(f: Flat, blocks: seq<Block>, ids: nat -> string, used: nat): Synced {
    var made := blocks == [] && AnyFlatSet(f);
    var b1 := if made then FreshBlocks(MANDATORY_KEYS, f, ids, used) else blocks;
    var u1 := if made then used + |MANDATORY_KEYS| else used;
    if b1 == [] then Synced(f, b1, u1)
    else
      var (b2, u2) := if DuplicateKeys(b1) then (b1, u1) else Rebuild(MANDATORY_KEYS, f, b1, ids, u1);
      Synced(Mirror(MANDATORY_KEYS, f, b2), b2, u2)
  }

  // ---------------------------------------------------------------- the code

  method ApplyTemplateFlatBlockSync(req: UpsertTypeVersionRequest, idg: IdGenerator)
    modifies req, idg
    ensures var s := Sync(old(req.AsFlat()), old(req.blocks), idg.ids, old(idg.used));
            && req.AsRequest() == old(req.AsRequest()).(flat := s.flat, blocks := s.blocks)
            && idg.used == s.used
  {
    hide FreshBlocks, Rebuild, Mirror, DuplicateKeys, AnyFlatSet, MANDATORY_KEYS;
    EnsureMandatoryBlocksFromFlatWhenBlocksEmpty(req, idg);
    if |req.blocks| == 0 {
      return;
    }
    RebuildMandatoryFirstThenExtras(req, idg);
    MirrorMandatoryBlockDescriptionsToFlatFields(req);
  }

  method EnsureMandatoryBlocksFromFlatWhenBlocksEmpty(req: UpsertTypeVersionRequest, idg: IdGenerator)
    modifies req`blocks, idg
    ensures var made := old(req.blocks) == [] && AnyFlatSet(req.AsFlat());
            && req.blocks == (if made then FreshBlocks(MANDATORY_KEYS, req.AsFlat(), idg.ids, old(idg.used)) else old(req.blocks))
            && idg.used == old(idg.used) + (if made then |MANDATORY_KEYS| else 0)
  {
    if |req.blocks| > 0 || !AnyFlatSet(req.AsFlat()) {
      return;
    }
    AppendFresh(MANDATORY_KEYS, req, idg);
  }

  method AppendFresh(keys: seq<string>, req: UpsertTypeVersionRequest, idg: IdGenerator)
    requires req.blocks == []
    modifies req`blocks, idg
    ensures req.blocks == FreshBlocks(keys, req.AsFlat(), idg.ids, old(idg.used))
    ensures idg.used == old(idg.used) + |keys|
  {
    hide NewMandatory;
    var order := 1;
    for i := 0 to |keys|
      invariant order == i + 1 && idg.used == old(idg.used) + i
      invariant req.blocks == FreshBlocks(keys[..i], req.AsFlat(), idg.ids, old(idg.used))
    {
      assert keys[..i + 1][..i] == keys[..i];
      var id := idg.NewUUID();
      req.blocks := req.blocks + [NewMandatory(keys[i], req.AsFlat(), id, order)];
      order := order + 1;
    }
    assert keys[..|keys|] == keys;
  }

  method HasDuplicateBlockKeys(blocks: seq<Block>) returns (dup: bool)
    ensures dup <==> DuplicateKeys(blocks)
  {
    hide Norm;
    var seen: set<string> := {};
    for i := 0 to |blocks|
      invariant forall k :: k in seen <==> k != "" && exists j :: 0 <= j < i && KeyOf(blocks[j]) == k
      invariant !DuplicateKeys(blocks[..i])
    {
      var k := KeyOf(blocks[i]);
      assert blocks[..i + 1] == blocks[..i] + [blocks[i]];
      if k == "" {
        continue;
      }
      if k in seen {
        return true;
      }
      seen := seen + {k};
    }
    assert blocks[..|blocks|] == blocks;
    return false;
  }

  method RebuildMandatoryFirstThenExtras(req: UpsertTypeVersionRequest, idg: IdGenerator)
    modifies req`blocks, idg
    ensures var (b, u) := if DuplicateKeys(old(req.blocks)) then (old(req.blocks), old(idg.used))
                          else Rebuild(MANDATORY_KEYS, req.AsFlat(), old(req.blocks), idg.ids, old(idg.used));
            req.blocks == b && idg.used == u
  {
    var dup := HasDuplicateBlockKeys(req.blocks);
    if dup {
      return;
    }
    var byMandatory, extras := SortOut(req.blocks);
    hide Norm;
    var mandatory := PlaceMandatory(MANDATORY_KEYS, byMandatory, req.blocks, req.AsFlat(), idg);
    extras := PlaceExtras(extras, |MANDATORY_KEYS|, idg);
    req.blocks := mandatory + extras;
  }

  /** `byMandatory` answers for every mandatory key what FindKey does. */
  ghost predicate IndexesMandatory(byMandatory: map<string, Block>, blocks: seq<Block>) {
    forall mk :: mk in MANDATORY_KEYS ==>
                   FindKey(blocks, mk) == if mk in byMandatory then Some(byMandatory[mk]) else None
  }

  method SortOut(blocks: seq<Block>) returns (byMandatory: map<string, Block>, extras: seq<Block>)
    ensures IndexesMandatory(byMandatory, blocks)
    ensures extras == Extras(blocks)
  {
    MandatoryKeysAreNormal();
    hide Norm, Lower, Trim, MANDATORY_KEYS;
    byMandatory, extras := map[], [];
    for i := 0 to |blocks|
      invariant IndexesMandatory(byMandatory, blocks[..i])
      invariant extras == Extras(blocks[..i])
    {
      var b := blocks[i];
      var k := KeyOf(b);
      assert blocks[..i + 1][..i] == blocks[..i];
      forall mk ensures FindKey(blocks[..i + 1], mk) == if k == mk then Some(b) else FindKey(blocks[..i], mk) {
        FindKeySnoc(blocks, i, mk);
      }
      NormIdempotent(b.blockKey);
      if k == "" {
        continue;
      }
      if IsMandatory(k) {
        byMandatory := byMandatory[k := b];
        continue;
      }
      extras := extras + [b];
    }
    assert blocks[..|blocks|] == blocks;
  }

  lemma FindKeySnoc(blocks: seq<Block>, i: nat, k: string)
    requires i < |blocks|
    ensures FindKey(blocks[..i + 1], k) == if KeyOf(blocks[i]) == k then Some(blocks[i]) else FindKey(blocks[..i], k)
  {
    hide KeyOf;
    assert blocks[..i + 1][..i] == blocks[..i];
  }

  method PlaceMandatory(
      keys: seq<string>, byMandatory: map<string, Block>, blocks: seq<Block>, f: Flat, idg: IdGenerator)
    returns (out: seq<Block>)
    requires forall mk :: mk in keys ==> FindKey(blocks, mk) == if mk in byMandatory then Some(byMandatory[mk]) else None
    modifies idg
    ensures (out, idg.used) == MandatoryBlocks(keys, f, blocks, idg.ids, old(idg.used))
  {
    hide FindKey, FlatString, NewMandatory;
    out := [];
    var order := 1;
    for i := 0 to |keys|
      invariant order == i + 1
      invariant (out, idg.used) == MandatoryBlocks(keys[..i], f, blocks, idg.ids, old(idg.used))
    {
      var mk := keys[i];
      assert keys[..i + 1][..i] == keys[..i];
      var b;
      if mk !in byMandatory {
        var id := idg.NewUUID();
        b := NewMandatory(mk, f, id, order);
      } else {
        b := byMandatory[mk];
        var s := FlatString(mk, f);
        if !Blank(s) {
          b := b.(description := s);
        }
        if Blank(b.blockID) {
          var id := idg.NewUUID();
          b := b.(blockID := id);
        }
        b := b.(displayOrder := order);
      }
      order := order + 1;
      out := out + [b];
    }
    assert keys[..|keys|] == keys;
  }

  method PlaceExtras(extras: seq<Block>, base: nat, idg: IdGenerator) returns (out: seq<Block>)
    modifies idg
    ensures (out, idg.used) == PlacedExtras(extras, base, idg.ids, old(idg.used))
  {
    hide Trim;
    out := [];
    var order := base + 1;
    for i := 0 to |extras|
      invariant order == base + 1 + i
      invariant (out, idg.used) == PlacedExtras(extras[..i], base, idg.ids, old(idg.used))
    {
      assert extras[..i + 1][..i] == extras[..i];
      var b := extras[i];
      if Blank(b.blockID) {
        var id := idg.NewUUID();
        b := b.(blockID := id);
      }
      b := b.(displayOrder := order);
      order := order + 1;
      out := out + [b];
    }
    assert extras[..|extras|] == extras;
  }

  method MirrorMandatoryBlockDescriptionsToFlatFields(req: UpsertTypeVersionRequest)
    modifies req
    ensures req.AsRequest() == old(req.AsRequest()).(flat := Mirror(MANDATORY_KEYS, old(req.AsFlat()), req.blocks))
  {
    var byKey: map<string, Block> := map[];
    hide Norm;
    for i := 0 to |req.blocks|
      invariant req.AsRequest() == old(req.AsRequest())
      invariant forall k :: k != "" ==> FindKey(req.blocks[..i], k) == if k in byKey then Some(byKey[k]) else None
    {
      assert req.blocks[..i + 1][..i] == req.blocks[..i];
      var k := KeyOf(req.blocks[i]);
      if k != "" {
        byKey := byKey[k := req.blocks[i]];
      }
    }
    assert req.blocks[..|req.blocks|] == req.blocks;
    CopyBack(MANDATORY_KEYS, byKey, req);
  }

  method CopyBack(keys: seq<string>, byKey: map<string, Block>, req: UpsertTypeVersionRequest)
    requires forall mk :: mk in keys ==> FindKey(req.blocks, mk) == if mk in byKey then Some(byKey[mk]) else None
    modifies req
    ensures req.AsRequest() == old(req.AsRequest()).(flat := Mirror(keys, old(req.AsFlat()), req.blocks))
  {
    hide FindKey, Trim, SetFlat;
    for i := 0 to |keys|
      invariant req.AsRequest() == old(req.AsRequest()).(flat := Mirror(keys[..i], old(req.AsFlat()), req.blocks))
    {
      var mk := keys[i];
      assert keys[..i + 1][..i] == keys[..i];
      if mk !in byKey {
        continue;
      }
      var d := Trim(byKey[mk].description);
      StoreFlat(mk, d, req);
    }
    assert keys[..|keys|] == keys;
  }

  /** The switch over the mandatory keys. */
  method StoreFlat(mk: string, d: string, req: UpsertTypeVersionRequest)
    modifies req
    ensures req.AsRequest() == old(req.AsRequest()).(flat := SetFlat(mk, old(req.AsFlat()), d))
  {
    if mk == LEGAL_BASIS {
      req.legalBasis := d;
    } else if mk == DISCLOSURE_CONTENT {
      req.reportContent := d;
    } else if mk == DEADLINE {
      req.deadlineRule := d;
    } else if mk == CHANNELS_AND_FORMAT {
      req.channelsText := d;
    } else if mk == LEGAL_RISKS {
      req.legalRisksText := d;
    } else if mk == ENTERPRISE_WORKFLOW {
      req.implementationContent := d;
    }
  }
}

/** The disclosure-template request, its blocks, and the fixed tables they are checked against. */
module TemplateModel {
  import opened Prelude
  import opened Text

  /** A decoded JSON value. `number` is how a text reads as a number, when it does. */
  datatype Value =
    | Null
    | Bool(b: bool)
    | Num(n: real)
    | Str(s: string, number: Option<real>)
    | Arr(items: seq<Value>)
    | Obj(fields: map<string, Value>)

  type AnyMap = map<string, Value>

  /** `config` and `validation` may be Go's nil map. */
  datatype Block = Block(
    blockID: string, blockKey: string, blockType: string, title: string, description: string,
    config: Option<AnyMap>, validation: Option<AnyMap>, displayOrder: int, enabled: bool)

  /** The narrative columns that duplicate the mandatory blocks. */
  datatype Flat = Flat(
    legalBasis: string, reportContent: string, deadlineRule: string, channelsText: string,
    format: string, legalRisksText: string, implementationContent: string)

  datatype LegalBasis = LegalBasis(
    id: string, title: string, code: string, authority: string, issueDate: string, summary: string, link: string)

  datatype ChecklistItem = ChecklistItem(id: string, title: string, owner: string, dueDate: string, status: string)

  /** Columns the pipeline only passes on. */
  datatype PassedOn = PassedOn(
    description: string, applicability: string, implementationNotes: string, specialCases: string,
    requiredDocs: string, beneficiaries: string, receivingAuthorities: string, generalInfo: string, tags: seq<string>)

  datatype Request = Request(
    typeID: string, groupID: string, name: string, category: string,
    templateCategory: string, deadlineStrategy: string, periodicity: string,
    flat: Flat, reminderMilestones: seq<string>, legalBases: seq<LegalBasis>, checklist: seq<ChecklistItem>,
    blocks: seq<Block>, passedOn: PassedOn)

  // ---------------------------------------------------------------- mandatory blocks

  const LEGAL_BASIS := "legal_basis"
  const DISCLOSURE_CONTENT := "disclosure_content"
  const DEADLINE := "deadline"
  const CHANNELS_AND_FORMAT := "channels_and_format"
  const LEGAL_RISKS := "legal_risks"
  const ENTERPRISE_WORKFLOW := "enterprise_workflow"

  const MANDATORY_KEYS: seq<string> :=
    [LEGAL_BASIS, DISCLOSURE_CONTENT, DEADLINE, CHANNELS_AND_FORMAT, LEGAL_RISKS, ENTERPRISE_WORKFLOW]

  predicate IsMandatory(k: string) { Norm(k) in MANDATORY_KEYS }

  function KeyOf(b: Block): string { Norm(b.blockKey) }

  lemma MandatoryKeysDiffer()
    ensures |MANDATORY_KEYS| == 6
    ensures forall i, j :: 0 <= i < j < 6 ==> MANDATORY_KEYS[i] != MANDATORY_KEYS[j]
  {
    assert LEGAL_BASIS[6] != LEGAL_RISKS[6];
    assert CHANNELS_AND_FORMAT[0] != ENTERPRISE_WORKFLOW[0];
  }

  lemma KeyCharsAreNormal(k: string)
    requires k != "" && forall i :: 0 <= i < |k| ==> k[i] == '_' || 'a' <= k[i] <= 'z'
    ensures Norm(k) == k
  {
    assert Lower(k) == k;
    NormFix(k);
  }

  lemma FirstKeysAreNormal()
    ensures Norm(LEGAL_BASIS) == LEGAL_BASIS && Norm(DISCLOSURE_CONTENT) == DISCLOSURE_CONTENT && Norm(DEADLINE) == DEADLINE
  {
    hide Norm, Lower, Trim, TrimLeft, TrimRight;
    KeyCharsAreNormal(LEGAL_BASIS);
    KeyCharsAreNormal(DISCLOSURE_CONTENT);
    KeyCharsAreNormal(DEADLINE);
  }

  lemma LastKeysAreNormal()
    ensures Norm(CHANNELS_AND_FORMAT) == CHANNELS_AND_FORMAT
    ensures Norm(LEGAL_RISKS) == LEGAL_RISKS && Norm(ENTERPRISE_WORKFLOW) == ENTERPRISE_WORKFLOW
  {
    hide Norm, Lower, Trim, TrimLeft, TrimRight;
    KeyCharsAreNormal(CHANNELS_AND_FORMAT);
    KeyCharsAreNormal(LEGAL_RISKS);
    KeyCharsAreNormal(ENTERPRISE_WORKFLOW);
  }

  lemma MandatoryKeysAreNormal()
    ensures forall k :: k in MANDATORY_KEYS ==> k != "" && Norm(k) == k && IsMandatory(k)
  {
    hide Norm, Lower, Trim, TrimLeft, TrimRight;
    FirstKeysAreNormal();
    LastKeysAreNormal();
  }

  /** Title, type and config a mandatory block gets when it is made from the flat columns. */
  function MandatoryShape(mk: string): (string, string, AnyMap) {
    if mk == LEGAL_BASIS then ("Cơ sở pháp lý", "rich_text", RichText(8000.0, false))
    else if mk == DISCLOSURE_CONTENT then ("Nội dung công bố/báo cáo", "rich_text", RichText(50000.0, true))
    else if mk == DEADLINE then ("Kỳ hạn công bố/báo cáo", "text", map["max_length" := Num(4000.0)])
    else if mk == CHANNELS_AND_FORMAT then ("Kênh và hình thức công bố/báo cáo", "rich_text", RichText(12000.0, false))
    else if mk == LEGAL_RISKS then ("Rủi ro pháp lý nếu không thực hiện đúng", "rich_text", RichText(8000.0, false))
    else if mk == ENTERPRISE_WORKFLOW then ("Workflow của doanh nghiệp", "rich_text", RichText(12000.0, true))
    else (mk, "text", map[])
  }

  function RichText(maxLength: real, allowHtml: bool): AnyMap {
    map["max_length" := Num(maxLength), "allow_html" := Bool(allowHtml)]
  }

  // ---------------------------------------------------------------- flat columns

  /** The channels column and a "Format: ..." line, whichever are not blank, on separate lines. */
  function ChannelsAndFormat(f: Flat): string {
    Join((if Blank(f.channelsText) then [] else [Trim(f.channelsText)])
         + (if Blank(f.format) then [] else ["Format: " + Trim(f.format)]), "\n")
  }

  function FlatString(mk: string, f: Flat): string {
    if mk == LEGAL_BASIS then f.legalBasis
    else if mk == DISCLOSURE_CONTENT then f.reportContent
    else if mk == DEADLINE then f.deadlineRule
    else if mk == CHANNELS_AND_FORMAT then ChannelsAndFormat(f)
    else if mk == LEGAL_RISKS then f.legalRisksText
    else if mk == ENTERPRISE_WORKFLOW then f.implementationContent
    else ""
  }

  function SetFlat(mk: string, f: Flat, v: string): Flat {
    if mk == LEGAL_BASIS then f.(legalBasis := v)
    else if mk == DISCLOSURE_CONTENT then f.(reportContent := v)
    else if mk == DEADLINE then f.(deadlineRule := v)
    else if mk == CHANNELS_AND_FORMAT then f.(channelsText := v)
    else if mk == LEGAL_RISKS then f.(legalRisksText := v)
    else if mk == ENTERPRISE_WORKFLOW then f.(implementationContent := v)
    else f
  }

  predicate AnyFlatSet(f: Flat) {
    !Blank(f.legalBasis) || !Blank(f.reportContent) || !Blank(f.deadlineRule) || !Blank(f.channelsText)
    || !Blank(f.format) || !Blank(f.legalRisksText) || !Blank(f.implementationContent)
  }

  // ---------------------------------------------------------------- id generator

  /** Fresh block ids: never blank, no blanks around them. */
  class IdGenerator {
    const ids: nat -> string
    var used: nat

    ghost predicate Valid()
      reads this
    {
      GoodIds(ids)
    }

    constructor (ids: nat -> string)
      requires GoodIds(ids)
      ensures Valid() && this.ids == ids && used == 0
    {
      this.ids, used := ids, 0;
    }

    method NewUUID() returns (id: string)
      modifies this
      ensures id == ids(old(used)) && used == old(used) + 1
    {
      id := ids(used);
      used := used + 1;
    }
  }

  ghost predicate GoodIds(ids: nat -> string) {
    forall n: nat :: ids(n) != "" && Trimmed(ids(n))
  }
}

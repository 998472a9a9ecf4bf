/** What each block type demands of its config and validation maps. */
module TemplateSchema {
  import opened Prelude
  import opened Text
  import opened TemplateModel

  /** The part of a block an error is about; items are numbered. */
  datatype Part =
    | BlockKey | BlockType | Title | DisplayOrder
    | MaxLength | AllowHtml
    | Columns | Column(j: nat) | MinRows | MaxRows
    | Options | OptionItem(j: nat)
    | Minimum | Maximum | StepSize
    | MaxFutureDays | MaxFiles

  datatype Field =
    | TemplateCategory | DeadlineRule | DeadlineStrategy | Periodicity
    | InBlock(idx: nat, part: Part)
    | MissingBlock(key: string)

  datatype Problem =
    | Required | Unsupported | NotUnique | NotPositive
    | BadInteger | BadBoolean | BadNumber | EmptyList | BadItem | MinAboveMax
    | WrongForCategory | Missing

  type Errors = map<Field, Problem>

  function Lookup(errors: Errors, f: Field): Option<Problem> {
    if f in errors then Some(errors[f]) else None
  }

  // ---------------------------------------------------------------- values

  function NumberOf(v: Value): Option<real> {
    match v
    case Num(n) => Some(n)
    case Str(_, number) => number
    case _ => None
  }

  predicate Whole(n: real) { n.Floor as real == n }

  predicate PositiveInteger(v: Value) {
    NumberOf(v).Some? && NumberOf(v).value > 0.0 && Whole(NumberOf(v).value)
  }

  predicate NonNegativeInteger(v: Value) {
    NumberOf(v).Some? && NumberOf(v).value >= 0.0 && Whole(NumberOf(v).value)
  }

  /** A key that is set, and not to null. */
  predicate Present(m: AnyMap, k: string) { k in m && m[k] != Null }

  predicate NonBlankText(m: AnyMap, k: string) { k in m && m[k].Str? && !Blank(m[k].s) }

  predicate ColumnOK(item: Value) {
    item.Obj? && (NonBlankText(item.fields, "key") || NonBlankText(item.fields, "id") || NonBlankText(item.fields, "field"))
  }

  predicate OptionOK(item: Value) {
    if item.Str? then !Blank(item.s)
    else item.Obj? && (NonBlankText(item.fields, "label") || NonBlankText(item.fields, "title") || NonBlankText(item.fields, "id"))
  }

  predicate NonEmptyList(m: AnyMap, k: string) { k in m && m[k].Arr? && m[k].items != [] }

  function MapOf(m: Option<AnyMap>): AnyMap { if m.None? then map[] else m.value }

  // ---------------------------------------------------------------- types

  predicate AllowedType(t: string) {
    t == "text" || t == "rich_text" || t == "table" || t == "checklist"
    || t == "number" || t == "date" || t == "attachment" || t == "section"
  }

  function CanonicalBlockType(blockType: string): string {
    var t := Norm(blockType);
    if t == "textarea" || t == "long_text" then "text" else t
  }

  /** The declarative schema: what a block of this type must look like. */
  ghost predicate SchemaOK(blockType: string, c: AnyMap, v: AnyMap) {
    var t := CanonicalBlockType(blockType);
    !Blank(blockType) && AllowedType(t) && TypedOK(t, c, v)
  }

  ghost predicate TypedOK(t: string, c: AnyMap, v: AnyMap) {
    && (t == "text" || t == "rich_text" ==> OptionalPositive(c, "max_length"))
    && (t == "rich_text" ==> Present(c, "allow_html") ==> c["allow_html"].Bool?)
    && (t == "table" ==> TableOK(c))
    && (t == "checklist" ==> NonEmptyList(c, "options") && forall i :: 0 <= i < |c["options"].items| ==> OptionOK(c["options"].items[i]))
    && (t == "number" ==> OptionalNumber(v, "min") && OptionalNumber(v, "max") && OptionalNumber(v, "step"))
    && (t == "date" ==> OptionalPositive(v, "max_future_days"))
    && (t == "attachment" ==> OptionalPositive(c, "max_files"))
  }

  predicate OptionalPositive(m: AnyMap, k: string) { Present(m, k) ==> PositiveInteger(m[k]) }

  predicate OptionalNumber(m: AnyMap, k: string) { Present(m, k) ==> NumberOf(m[k]).Some? }

  ghost predicate TableOK(c: AnyMap) {
    && NonEmptyList(c, "columns")
    && (forall i :: 0 <= i < |c["columns"].items| ==> ColumnOK(c["columns"].items[i]))
    && (Present(c, "min_rows") ==> NonNegativeInteger(c["min_rows"]))
    && (Present(c, "max_rows") ==> PositiveInteger(c["max_rows"]))
    && (Present(c, "min_rows") && Present(c, "max_rows") ==> NumberOf(c["min_rows"]).value <= NumberOf(c["max_rows"]).value)
  }

  // ---------------------------------------------------------------- the error each part gets

  function TextProblem(c: AnyMap, part: Part): Option<Problem> {
    if part == MaxLength && !OptionalPositive(c, "max_length") then Some(BadInteger) else None
  }

  function RichTextProblem(c: AnyMap, part: Part): Option<Problem> {
    if part == AllowHtml && Present(c, "allow_html") && !c["allow_html"].Bool? then Some(BadBoolean)
    else TextProblem(c, part)
  }

  function TableProblem(c: AnyMap, part: Part): Option<Problem> {
    if !NonEmptyList(c, "columns") then (if part == Columns then Some(EmptyList) else None)
    else
      match part
      case Column(j) => if j < |c["columns"].items| && !ColumnOK(c["columns"].items[j]) then Some(BadItem) else None
      case MinRows =>
        if !Present(c, "min_rows") then None
        else if !NonNegativeInteger(c["min_rows"]) then Some(BadInteger)
        else if Present(c, "max_rows") && PositiveInteger(c["max_rows"])
                && NumberOf(c["min_rows"]).value > NumberOf(c["max_rows"]).value then Some(MinAboveMax)
        else None
      case MaxRows => if !OptionalPositive(c, "max_rows") then Some(BadInteger) else None
      case _ => None
  }

  function ChecklistProblem(c: AnyMap, part: Part): Option<Problem> {
    if !NonEmptyList(c, "options") then (if part == Options then Some(EmptyList) else None)
    else
      match part
      case OptionItem(j) => if j < |c["options"].items| && !OptionOK(c["options"].items[j]) then Some(BadItem) else None
      case _ => None
  }

  function NumberProblem(v: AnyMap, part: Part): Option<Problem> {
    match part
    case Minimum => if !OptionalNumber(v, "min") then Some(BadNumber) else None
    case Maximum => if !OptionalNumber(v, "max") then Some(BadNumber) else None
    case StepSize => if !OptionalNumber(v, "step") then Some(BadNumber) else None
    case _ => None
  }

  function DateProblem(v: AnyMap, part: Part): Option<Problem> {
    if part == MaxFutureDays && !OptionalPositive(v, "max_future_days") then Some(BadInteger) else None
  }

  function AttachmentProblem(c: AnyMap, part: Part): Option<Problem> {
    if part == MaxFiles && !OptionalPositive(c, "max_files") then Some(BadInteger) else None
  }

  function SchemaProblem(blockType: string, c: AnyMap, v: AnyMap, part: Part): Option<Problem> {
    var t := CanonicalBlockType(blockType);
    if Blank(blockType) then None
    else if !AllowedType(t) then (if part == BlockType then Some(Unsupported) else None)
    else TypedProblem(t, c, v, part)
  }

  function TypedProblem(t: string, c: AnyMap, v: AnyMap, part: Part): Option<Problem> {
    if t == "text" then TextProblem(c, part)
    else if t == "rich_text" then RichTextProblem(c, part)
    else if t == "table" then TableProblem(c, part)
    else if t == "checklist" then ChecklistProblem(c, part)
    else if t == "number" then NumberProblem(v, part)
    else if t == "date" then DateProblem(v, part)
    else if t == "attachment" then AttachmentProblem(c, part)
    else None
  }

  // ---------------------------------------------------------------- the code

  /** `after` is `before` with block `idx`'s problems written over it. */
  ghost predicate Adds(before: Errors, after: Errors, idx: nat, problem: Part -> Option<Problem>) {
    forall f :: Lookup(after, f) ==
                if f.InBlock? && f.idx == idx && problem(f.part).Some? then problem(f.part) else Lookup(before, f)
  }

  /** The errors found so far, written by every check. */
  class FieldErrors {
    var errors: Errors

    constructor ()
      ensures errors == map[]
    {
      errors := map[];
    }

    method Put(f: Field, p: Problem)
      modifies this
      ensures errors == old(errors)[f := p]
    {
      errors := errors[f := p];
    }
  }

  method ValidateTextBlockSchema(idx: nat, c: AnyMap, out: FieldErrors)
    modifies out
    ensures Adds(old(out.errors), out.errors, idx, (part: Part) => TextProblem(c, part))
  {
    if "max_length" in c && c["max_length"] != Null {
      if !PositiveInteger(c["max_length"]) {
        out.Put(InBlock(idx, MaxLength), BadInteger);
      }
    }
  }

  method ValidateRichTextBlockSchema(idx: nat, c: AnyMap, out: FieldErrors)
    modifies out
    ensures Adds(old(out.errors), out.errors, idx, (part: Part) => RichTextProblem(c, part))
  {
    ValidateTextBlockSchema(idx, c, out);
    if "allow_html" in c && c["allow_html"] != Null {
      if !c["allow_html"].Bool? {
        out.Put(InBlock(idx, AllowHtml), BadBoolean);
      }
    }
  }

  method ValidateTableBlockSchema(idx: nat, c: AnyMap, out: FieldErrors)
    modifies out
    ensures Adds(old(out.errors), out.errors, idx, (part: Part) => TableProblem(c, part))
  {
    if "columns" !in c {
      out.Put(InBlock(idx, Columns), EmptyList);
      return;
    }
    var raw := c["columns"];
    if !raw.Arr? || raw.items == [] {
      out.Put(InBlock(idx, Columns), EmptyList);
      return;
    }
    CheckColumns(idx, raw.items, out);
    CheckRows(idx, c, out);
  }

  function ColumnProblem(items: seq<Value>, n: nat, part: Part): Option<Problem>
    requires n <= |items|
  {
    if part.Column? && part.j < n && !ColumnOK(items[part.j]) then Some(BadItem) else None
  }

  method CheckColumns(idx: nat, items: seq<Value>, out: FieldErrors)
    modifies out
    ensures Adds(old(out.errors), out.errors, idx, (part: Part) => ColumnProblem(items, |items|, part))
  {
    hide ColumnOK;
    for j := 0 to |items|
      invariant Adds(old(out.errors), out.errors, idx, (part: Part) => ColumnProblem(items, j, part))
    {
      if !ColumnOK(items[j]) {
        out.Put(InBlock(idx, Column(j)), BadItem);
      }
    }
  }

  method CheckRows(idx: nat, c: AnyMap, out: FieldErrors)
    requires NonEmptyList(c, "columns")
    modifies out
    ensures Adds(old(out.errors), out.errors, idx, (part: Part) => if part.Column? then None else TableProblem(c, part))
  {
    var min, max: Option<real> := None, None;
    if "min_rows" in c && c["min_rows"] != Null {
      if !NonNegativeInteger(c["min_rows"]) {
        out.Put(InBlock(idx, MinRows), BadInteger);
      } else {
        min := NumberOf(c["min_rows"]);
      }
    }
    if "max_rows" in c && c["max_rows"] != Null {
      if !PositiveInteger(c["max_rows"]) {
        out.Put(InBlock(idx, MaxRows), BadInteger);
      } else {
        max := NumberOf(c["max_rows"]);
      }
    }
    if min.Some? && max.Some? && min.value > max.value {
      out.Put(InBlock(idx, MinRows), MinAboveMax);
    }
  }

  method ValidateChecklistBlockSchema(idx: nat, c: AnyMap, out: FieldErrors)
    modifies out
    ensures Adds(old(out.errors), out.errors, idx, (part: Part) => ChecklistProblem(c, part))
  {
    hide OptionOK;
    if "options" !in c {
      out.Put(InBlock(idx, Options), EmptyList);
      return;
    }
    var raw := c["options"];
    if !raw.Arr? || raw.items == [] {
      out.Put(InBlock(idx, Options), EmptyList);
      return;
    }
    CheckOptions(idx, raw.items, out);
  }

  function OptionProblem(items: seq<Value>, n: nat, part: Part): Option<Problem>
    requires n <= |items|
  {
    if part.OptionItem? && part.j < n && !OptionOK(items[part.j]) then Some(BadItem) else None
  }

  /** The loop over the options. */
  method CheckOptions(idx: nat, items: seq<Value>, out: FieldErrors)
    modifies out
    ensures Adds(old(out.errors), out.errors, idx, (part: Part) => OptionProblem(items, |items|, part))
  {
    hide OptionOK;
    for n := 0 to |items|
      invariant Adds(old(out.errors), out.errors, idx, (part: Part) => OptionProblem(items, n, part))
    {
      if !OptionOK(items[n]) {
        out.Put(InBlock(idx, OptionItem(n)), BadItem);
      }
    }
  }

  method ValidateNumberBlockSchema(idx: nat, v: AnyMap, out: FieldErrors)
    modifies out
    ensures Adds(old(out.errors), out.errors, idx, (part: Part) => NumberProblem(v, part))
  {
    var keys, parts := ["min", "max", "step"], [Minimum, Maximum, StepSize];
    for k := 0 to 3
      invariant Adds(old(out.errors), out.errors, idx, (part: Part) => if part in parts[..k] then NumberProblem(v, part) else None)
    {
      if keys[k] !in v || v[keys[k]] == Null {
        continue;
      }
      if NumberOf(v[keys[k]]).None? {
        out.Put(InBlock(idx, parts[k]), BadNumber);
      }
    }
    assert parts[..3] == parts;
    forall part: Part | part !in parts ensures NumberProblem(v, part) == None {
      assert parts[0] == Minimum && parts[1] == Maximum && parts[2] == StepSize;
    }
  }

  method ValidateDateBlockSchema(idx: nat, v: AnyMap, out: FieldErrors)
    modifies out
    ensures Adds(old(out.errors), out.errors, idx, (part: Part) => DateProblem(v, part))
  {
    if "max_future_days" in v && v["max_future_days"] != Null {
      if !PositiveInteger(v["max_future_days"]) {
        out.Put(InBlock(idx, MaxFutureDays), BadInteger);
      }
    }
  }

  method ValidateAttachmentBlockSchema(idx: nat, c: AnyMap, out: FieldErrors)
    modifies out
    ensures Adds(old(out.errors), out.errors, idx, (part: Part) => AttachmentProblem(c, part))
  {
    if "max_files" in c && c["max_files"] != Null {
      if !PositiveInteger(c["max_files"]) {
        out.Put(InBlock(idx, MaxFiles), BadInteger);
      }
    }
  }

  method ValidateBlockTypeSchema(idx: nat, blockType: string, c: AnyMap, v: AnyMap, out: FieldErrors)
    modifies out
    ensures Adds(old(out.errors), out.errors, idx, (part: Part) => SchemaProblem(blockType, c, v, part))
  {
    hide Norm, Trim, TypedProblem;
    if Blank(blockType) {
      return;
    }
    var canonical := CanonicalBlockType(blockType);
    if !AllowedType(canonical) {
      out.Put(InBlock(idx, BlockType), Unsupported);
      return;
    }
    ValidateTyped(idx, canonical, c, v, out);
  }

  /** The switch over the canonical types. */
  method ValidateTyped(idx: nat, canonical: string, c: AnyMap, v: AnyMap, out: FieldErrors)
    modifies out
    ensures Adds(old(out.errors), out.errors, idx, (part: Part) => TypedProblem(canonical, c, v, part))
  {
    hide TextProblem, RichTextProblem, TableProblem, ChecklistProblem, NumberProblem, DateProblem, AttachmentProblem;
    if canonical == "text" { ValidateTextBlockSchema(idx, c, out); }
    else if canonical == "rich_text" { ValidateRichTextBlockSchema(idx, c, out); }
    else if canonical == "table" { ValidateTableBlockSchema(idx, c, out); }
    else if canonical == "checklist" { ValidateChecklistBlockSchema(idx, c, out); }
    else if canonical == "number" { ValidateNumberBlockSchema(idx, v, out); }
    else if canonical == "date" { ValidateDateBlockSchema(idx, v, out); }
    else if canonical == "attachment" { ValidateAttachmentBlockSchema(idx, c, out); }
  }

  // ---------------------------------------------------------------- soundness and completeness

  lemma RichTextExact(c: AnyMap)
    ensures OptionalPositive(c, "max_length") <==> forall part :: TextProblem(c, part) == None
    ensures OptionalPositive(c, "max_length") && (Present(c, "allow_html") ==> c["allow_html"].Bool?)
            <==> forall part :: RichTextProblem(c, part) == None
  {
    hide PositiveInteger;
    var text, rich := TextProblem(c, MaxLength), RichTextProblem(c, MaxLength);
    var html := RichTextProblem(c, AllowHtml);
  }

  lemma TableExact(c: AnyMap)
    ensures TableOK(c) <==> forall part :: TableProblem(c, part) == None
  {
    hide PositiveInteger, NonNegativeInteger, ColumnOK, NumberOf;
    var none, min, max := TableProblem(c, Columns), TableProblem(c, MinRows), TableProblem(c, MaxRows);
    if (forall part :: TableProblem(c, part) == None) && NonEmptyList(c, "columns") {
      forall j | 0 <= j < |c["columns"].items| ensures ColumnOK(c["columns"].items[j]) {
        assert TableProblem(c, Column(j)) == None;
      }
    }
  }

  lemma ChecklistExact(c: AnyMap)
    ensures NonEmptyList(c, "options") && (forall i :: 0 <= i < |c["options"].items| ==> OptionOK(c["options"].items[i]))
            <==> forall part :: ChecklistProblem(c, part) == None
  {
    hide OptionOK;
    var none := ChecklistProblem(c, Options);
    if (forall part :: ChecklistProblem(c, part) == None) && NonEmptyList(c, "options") {
      forall j | 0 <= j < |c["options"].items| ensures OptionOK(c["options"].items[j]) {
        assert ChecklistProblem(c, OptionItem(j)) == None;
      }
    }
  }

  lemma NumberExact(v: AnyMap)
    ensures OptionalNumber(v, "min") && OptionalNumber(v, "max") && OptionalNumber(v, "step")
            <==> forall part :: NumberProblem(v, part) == None
  {
    hide OptionalNumber;
    var min, max, step := NumberProblem(v, Minimum), NumberProblem(v, Maximum), NumberProblem(v, StepSize);
  }

  lemma DateAndAttachmentExact(m: AnyMap)
    ensures OptionalPositive(m, "max_future_days") <==> forall part :: DateProblem(m, part) == None
    ensures OptionalPositive(m, "max_files") <==> forall part :: AttachmentProblem(m, part) == None
  {
    hide OptionalPositive;
    var days, files := DateProblem(m, MaxFutureDays), AttachmentProblem(m, MaxFiles);
  }

  lemma TypedExact(t: string, c: AnyMap, v: AnyMap)
    requires AllowedType(t)
    ensures TypedOK(t, c, v) <==> forall part :: TypedProblem(t, c, v, part) == None
  {
    hide OptionalPositive, OptionalNumber, TableOK, OptionOK, Present, NonEmptyList,
      TextProblem, RichTextProblem, TableProblem, ChecklistProblem, NumberProblem, DateProblem, AttachmentProblem;
    RichTextExact(c);
    TableExact(c);
    ChecklistExact(c);
    NumberExact(v);
    DateAndAttachmentExact(c);
    DateAndAttachmentExact(v);
    assert t == "text" ==> forall part :: TypedProblem(t, c, v, part) == TextProblem(c, part);
    assert t == "rich_text" ==> forall part :: TypedProblem(t, c, v, part) == RichTextProblem(c, part);
    assert t == "table" ==> forall part :: TypedProblem(t, c, v, part) == TableProblem(c, part);
    assert t == "checklist" ==> forall part :: TypedProblem(t, c, v, part) == ChecklistProblem(c, part);
    assert t == "number" ==> forall part :: TypedProblem(t, c, v, part) == NumberProblem(v, part);
    assert t == "date" ==> forall part :: TypedProblem(t, c, v, part) == DateProblem(v, part);
    assert t == "attachment" ==> forall part :: TypedProblem(t, c, v, part) == AttachmentProblem(c, part);
  }

  /** No part of the block gets an error exactly when the block meets the declarative schema. */
  lemma SchemaSoundAndComplete(blockType: string, c: AnyMap, v: AnyMap)
    requires !Blank(blockType)
    ensures SchemaOK(blockType, c, v) <==> forall part :: SchemaProblem(blockType, c, v, part) == None
  {
    hide Norm, Trim, TypedOK, TypedProblem, AllowedType;
    var t := CanonicalBlockType(blockType);
    if AllowedType(t) {
      TypedExact(t, c, v);
      assert forall part :: SchemaProblem(blockType, c, v, part) == TypedProblem(t, c, v, part);
    } else {
      assert SchemaProblem(blockType, c, v, BlockType) == Some(Unsupported);
    }
  }
}

/** What counts as a number, a name or a type in a block, and which error each mistake gets. */
module TemplateErrors {
  import opened Prelude
  import opened Text
  import opened TemplateModel
  import opened TemplateSchema
  import opened TemplateValidation

  // ---------------------------------------------------------------- block types

  /** A value that stands for the number `m`: the number itself, or a text that reads as it. */
  ghost predicate Reads(v: Value, m: int) { v == Num(m as real) || (v.Str? && v.number == Some(m as real)) }

  /** Which values the limits of a schema accept: whole numbers from one up, and from zero up. */
  lemma LimitsAreWholeNumbers(v: Value)
    ensures PositiveInteger(v) <==> exists m: int :: m >= 1 && Reads(v, m)
    ensures NonNegativeInteger(v) <==> exists m: int :: m >= 0 && Reads(v, m)
  {
    if NumberOf(v).Some? {
      var x := NumberOf(v).value;
      if Whole(x) { assert Reads(v, x.Floor); }
    }
  }

  /** Some of the fields is a text that is not blank. */
  ghost predicate NamedBy(item: Value, names: set<string>) {
    item.Obj? && exists k, s, x :: k in names && k in item.fields && item.fields[k] == Str(s, x) && !Blank(s)
  }

  lemma TextIsNonBlank(fields: AnyMap, k: string)
    ensures NonBlankText(fields, k) <==> exists s, x :: k in fields && fields[k] == Str(s, x) && !Blank(s)
  {
    hide Trim;
    if NonBlankText(fields, k) { assert fields[k] == Str(fields[k].s, fields[k].number); }
  }

  /** What names a column and what names an option. */
  lemma ItemsNeedAName(item: Value)
    ensures ColumnOK(item) <==> NamedBy(item, {"key", "id", "field"})
    ensures OptionOK(item) <==> (item.Str? && !Blank(item.s)) || NamedBy(item, {"label", "title", "id"})
  {
    hide NonBlankText, Blank;
    if item.Obj? {
      TextIsNonBlank(item.fields, "key");
      TextIsNonBlank(item.fields, "id");
      TextIsNonBlank(item.fields, "field");
      TextIsNonBlank(item.fields, "label");
      TextIsNonBlank(item.fields, "title");
    }
  }

  /** The types that ask nothing of an empty config; a table and a checklist do, and nothing else is a type. */
  lemma TypesOfEmptyBlocks(blockType: string)
    ensures SchemaOK(blockType, map[], map[]) <==>
            Norm(blockType) in ["text", "textarea", "long_text", "rich_text", "number", "date", "attachment", "section"]
  {
    assert Blank(blockType) <==> Norm(blockType) == "";
    hide Norm, Trim;
    EmptyConfig(CanonicalBlockType(blockType));
    hide TypedOK;
  }

  lemma EmptyConfig(t: string)
    ensures TypedOK(t, map[], map[]) <==> t != "table" && t != "checklist"
  {
  }

  // ---------------------------------------------------------------- errors

  /** Which problems a part of a block can have. */
  predicate Fits(part: Part, problem: Problem) {
    match part
    case BlockKey => problem == Required || problem == NotUnique
    case DisplayOrder => problem == NotPositive || problem == NotUnique
    case Title => problem == Required
    case BlockType => problem == Required || problem == Unsupported
    case AllowHtml => problem == BadBoolean
    case Columns => problem == EmptyList
    case Options => problem == EmptyList
    case Column(_) => problem == BadItem
    case OptionItem(_) => problem == BadItem
    case Minimum => problem == BadNumber
    case Maximum => problem == BadNumber
    case StepSize => problem == BadNumber
    case MinRows => problem == BadInteger || problem == MinAboveMax
    case _ => problem == BadInteger
  }

  /** Every error of a block is of its part's kind. */
  lemma BlockErrorsFit(bs: seq<Block>, i: nat, part: Part)
    requires i < |bs|
    ensures var e := MatrixFault(bs, InBlock(i, part)); e.Some? ==> Fits(part, e.value)
  {
    hide CanonicalBlockType, AllowedType, Trim, NonEmptyList, OptionalPositive, OptionalNumber, Present, ColumnOK, OptionOK;
  }

  /** The errors that no type decides are there exactly when they should be. */
  lemma GeneralErrorsFit(bs: seq<Block>, i: nat)
    requires i < |bs|
    ensures MatrixFault(bs, InBlock(i, BlockKey)) == Some(Required) <==> bs[i].blockKey == ""
    ensures MatrixFault(bs, InBlock(i, Title)) == Some(Required) <==> bs[i].title == ""
    ensures MatrixFault(bs, InBlock(i, BlockType)) == Some(Required) <==> bs[i].blockType == ""
    ensures MatrixFault(bs, InBlock(i, DisplayOrder)) == Some(NotPositive) <==> bs[i].displayOrder <= 0
    ensures MatrixFault(bs, InBlock(i, DisplayOrder)) == Some(NotUnique) <==>
            bs[i].displayOrder > 0 && exists j :: 0 <= j < |bs| && j != i && bs[j].displayOrder == bs[i].displayOrder
  {
    hide CanonicalBlockType, AllowedType, Trim, NonEmptyList, OptionalPositive, OptionalNumber, Present, ColumnOK, OptionOK;
  }

  /** The errors of the header fields, read off the table: a field is wrong when no entry of the category has its value. */
  lemma HeaderErrorsFit(category: string, periodicity: string, strategy: string, deadlineRule: string)
    ensures var e := f => TopFault(category, periodicity, strategy, deadlineRule, f);
            && (e(TemplateCategory) == Some(Required) <==> category == "")
            && (e(TemplateCategory) == Some(Unsupported) <==> category != "" && forall p, t :: !CategoryTable(category, p, t))
            && (e(DeadlineRule) == if deadlineRule == "" then Some(Required) else None)
            && (e(Periodicity) == if e(TemplateCategory).None? && (forall t :: !CategoryTable(category, periodicity, t))
                                  then Some(WrongForCategory) else None)
            && (e(DeadlineStrategy) == if e(TemplateCategory).None? then
                                         (if forall p :: !CategoryTable(category, p, strategy) then Some(WrongForCategory) else None)
                                       else if strategy == "" then Some(Required) else None)
  {
    assert category == "periodic" ==> CategoryTable(category, "monthly", "fixed_cycle_days")
                                      && (StrategyFits(category, strategy) ==> CategoryTable(category, "monthly", strategy))
                                      && (PeriodicityFits(category, periodicity) ==> CategoryTable(category, periodicity, "fixed_cycle_days"));
    assert category == "irregular" ==> CategoryTable(category, "event_based", "event_relative_hours")
                                       && (StrategyFits(category, strategy) ==> CategoryTable(category, "event_based", strategy))
                                       && (PeriodicityFits(category, periodicity) ==>
                                             CategoryTable(category, periodicity, "event_relative_hours"));
    assert category == "custom" ==> CategoryTable(category, "monthly", "configurable")
                                    && (StrategyFits(category, strategy) ==> CategoryTable(category, "monthly", strategy))
                                    && (PeriodicityFits(category, periodicity) ==> CategoryTable(category, periodicity, "configurable"));
  }
}

/** A request that is accepted and has a Format: it shows that upserting twice is not upserting once. */
module TemplateExample {
  import opened Prelude
  import opened Text
  import opened TemplateModel
  import opened TemplateSync
  import opened TemplateValidation
  import opened TemplatePipeline
  import opened TemplateTheorems
  import opened TemplateAcceptance

  /** Nothing but the required fields and a Format. */
  const EXAMPLE := Request(
    "t", "g", "n", "", "periodic", "fixed_cycle_days", "monthly",
    Flat("", "", "d", "", "f", "", ""), [], [], [], [], PassedOn("", "", "", "", "", "", "", "", []))

  lemma ExampleIsOK()
    ensures InputOK(EXAMPLE) && !Blank(EXAMPLE.flat.format)
  {
    hide Trim, TrimLeft, TrimRight, Norm, Lower, NormalizeAlias, CATEGORY_ALIASES, PERIODICITY_ALIASES, STRATEGY_ALIASES;
    NotBlankAt("t", 0);
    NotBlankAt("g", 0);
    NotBlankAt("n", 0);
    NotBlankAt("d", 0);
    NotBlankAt("f", 0);
    KnownCategoriesStay();
    KnownStrategiesStay();
    KnownPeriodicitiesStay();
  }

  /** The example is accepted, and accepted again with a changed channels column. */
  lemma UpsertIsNotIdempotent(ids: nat -> string, used: nat, used': nat)
    requires GoodIds(ids)
    ensures var n := Normalised(EXAMPLE, ids, used);
            Acceptable(n) && Normalised(n, ids, used') != n
  {
    hide InputOK, Normalised, Acceptable, GoodIds, Blank, EXAMPLE;
    ExampleIsOK();
    AcceptedIffInputOK(EXAMPLE, ids, used);
    UpsertIsIdempotentIffNoFormat(EXAMPLE, ids, used, used');
  }
}

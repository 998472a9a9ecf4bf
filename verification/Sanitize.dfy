/** The list sanitizers of the disclosure service. */
module Sanitize {
  import opened Prelude
  import opened Text
  import opened TemplateModel

  // ---------------------------------------------------------------- string lists

  /** Trimmed, without blanks, first occurrences only. */
  function Strings(items: seq<string>): seq<string> {
    if items == [] then []
    else
      var (out, t) := (Strings(items[..|items| - 1]), Trim(items[|items| - 1]));
      if t == "" || t in out then out else out + [t]
  }

  method SanitizeStringList(items: seq<string>) returns (out: seq<string>)
    ensures out == Strings(items)
  {
    hide Trim;
    out := [];
    if |items| == 0 {
      return;
    }
    var seen: set<string> := {};
    for i := 0 to |items|
      invariant out == Strings(items[..i])
      invariant forall s :: s in seen <==> s in out
    {
      assert items[..i + 1][..i] == items[..i];
      var trimmed := Trim(items[i]);
      if trimmed == "" {
        continue;
      }
      if trimmed in seen {
        continue;
      }
      seen := seen + {trimmed};
      out := out + [trimmed];
    }
    assert items[..|items|] == items;
  }

  ghost predicate CleanStrings(items: seq<string>) {
    && (forall i :: 0 <= i < |items| ==> items[i] != "" && Trim(items[i]) == items[i])
    && (forall i, j :: 0 <= i < j < |items| ==> items[i] != items[j])
  }

  /** The result is clean and holds exactly the trimmed, non-blank items. */
  lemma {:induction false} StringsAreClean(items: seq<string>)
    ensures CleanStrings(Strings(items))
    ensures forall s :: s in Strings(items) <==> s != "" && exists i :: 0 <= i < |items| && Trim(items[i]) == s
    decreases |items|
  {
    if items != [] {
      hide Trim, CleanStrings;
      var n := |items| - 1;
      StringsAreClean(items[..n]);
      assert forall i :: 0 <= i < n ==> items[..n][i] == items[i];
      TrimIdempotent(items[n]);
      OneMoreItem(items, Strings(items[..n]), Trim(items[n]));
    }
  }

  lemma OneMoreItem(items: seq<string>, front: seq<string>, t: string)
    requires items != [] && t == Trim(items[|items| - 1]) && Trim(t) == t && CleanStrings(front)
    requires forall s :: s in front <==> s != "" && exists i :: 0 <= i < |items| - 1 && Trim(items[i]) == s
    ensures var out := if t == "" || t in front then front else front + [t];
            && CleanStrings(out)
            && forall s :: s in out <==> s != "" && exists i :: 0 <= i < |items| && Trim(items[i]) == s
  {
    hide Trim;
  }

  /** Each result is put where its text comes first. */
  ghost predicate FirstPlaces(items: seq<string>, n: nat, out: seq<string>, at: seq<nat>)
    requires n <= |items|
  {
    && |at| == |out|
    && (forall i :: 0 <= i < |at| ==> at[i] < n && Trim(items[at[i]]) == out[i])
    && (forall i, k :: 0 <= i < |at| && 0 <= k < at[i] ==> Trim(items[k]) != out[i])
    && (forall i, j :: 0 <= i < j < |at| ==> at[i] < at[j])
  }

  /** The results are in the order in which their texts come first. */
  lemma {:induction false} StringsKeepOrder(items: seq<string>, n: nat) returns (at: seq<nat>)
    requires n <= |items|
    ensures FirstPlaces(items, n, Strings(items[..n]), at)
    decreases n
  {
    hide Trim;
    at := [];
    if n > 0 {
      var m := n - 1;
      at := StringsKeepOrder(items, m);
      assert items[..n][..m] == items[..m];
      StringsAreClean(items[..m]);
      var t := Trim(items[m]);
      if t != "" && t !in Strings(items[..m]) {
        assert forall k :: 0 <= k < m ==> items[..m][k] == items[k];
        at := at + [m];
      }
    }
  }

  lemma {:induction false} CleanStringsStay(items: seq<string>)
    requires CleanStrings(items)
    ensures Strings(items) == items
    decreases |items|
  {
    hide Trim;
    if items != [] {
      var n := |items| - 1;
      CleanStringsStay(items[..n]);
      assert items == items[..n] + [items[n]];
    }
  }

  // ---------------------------------------------------------------- legal bases

  function CleanLegalBasis(b: LegalBasis): LegalBasis {
    LegalBasis(Trim(b.id), Trim(b.title), Trim(b.code), Trim(b.authority), Trim(b.issueDate), Trim(b.summary), Trim(b.link))
  }

  /** A title or a summary is needed. */
  function LegalBases(items: seq<LegalBasis>): seq<LegalBasis> {
    if items == [] then []
    else
      var (out, b) := (LegalBases(items[..|items| - 1]), items[|items| - 1]);
      if Trim(b.title) == "" && Trim(b.summary) == "" then out else out + [CleanLegalBasis(b)]
  }

  predicate Described(b: LegalBasis) { !Blank(b.title) || !Blank(b.summary) }

  ghost predicate TrimmedBasis(x: LegalBasis, b: LegalBasis) {
    && x.id == Trim(b.id) && x.title == Trim(b.title) && x.code == Trim(b.code) && x.authority == Trim(b.authority)
    && x.issueDate == Trim(b.issueDate) && x.summary == Trim(b.summary) && x.link == Trim(b.link)
  }

  /** `out` are the described ones of the first `n` items, in their order, each with every field trimmed. */
  ghost predicate BasesOf(items: seq<LegalBasis>, n: nat, out: seq<LegalBasis>, at: seq<nat>)
    requires n <= |items|
  {
    && |at| == |out|
    && (forall i :: 0 <= i < |at| ==> at[i] < n && Described(items[at[i]]))
    && (forall i :: 0 <= i < |at| ==> TrimmedBasis(out[i], items[at[i]]))
    && (forall i, j :: 0 <= i < j < |at| ==> at[i] < at[j])
    && (forall k :: 0 <= k < n && Described(items[k]) ==> k in at)
  }

  lemma {:induction false} BasesAreKept(items: seq<LegalBasis>, n: nat) returns (at: seq<nat>)
    requires n <= |items|
    ensures BasesOf(items, n, LegalBases(items[..n]), at)
    decreases n
  {
    hide Trim;
    at := [];
    if n > 0 {
      var m := n - 1;
      at := BasesAreKept(items, m);
      assert items[..n][..m] == items[..m];
      hide BasesOf;
      BasesGrow(items, m, LegalBases(items[..m]), at);
      if Described(items[m]) { at := at + [m]; }
    }
  }

  lemma BasesGrow(items: seq<LegalBasis>, m: nat, out: seq<LegalBasis>, at: seq<nat>)
    requires m < |items| && BasesOf(items, m, out, at)
    ensures if !Described(items[m]) then BasesOf(items, m + 1, out, at)
            else BasesOf(items, m + 1, out + [CleanLegalBasis(items[m])], at + [m])
  {
    hide Trim;
    assert TrimmedBasis(CleanLegalBasis(items[m]), items[m]);
    hide Described, TrimmedBasis, CleanLegalBasis;
    assert (at + [m])[|at|] == m;
  }

  method SanitizeLegalBases(items: seq<LegalBasis>) returns (out: seq<LegalBasis>)
    ensures out == LegalBases(items)
    ensures exists at :: BasesOf(items, |items|, out, at)
  {
    ghost var at := BasesAreKept(items, |items|);
    hide BasesOf;
    hide Trim;
    out := [];
    for i := 0 to |items|
      invariant out == LegalBases(items[..i])
    {
      assert items[..i + 1][..i] == items[..i];
      var item := items[i];
      var title := Trim(item.title);
      var summary := Trim(item.summary);
      if title == "" && summary == "" {
        continue;
      }
      out := out + [LegalBasis(Trim(item.id), title, Trim(item.code), Trim(item.authority),
                               Trim(item.issueDate), summary, Trim(item.link))];
    }
    assert items[..|items|] == items;
  }

  lemma CleanLegalBasisTwice(b: LegalBasis)
    ensures CleanLegalBasis(CleanLegalBasis(b)) == CleanLegalBasis(b)
  {
    TrimIdempotent(b.id); TrimIdempotent(b.title); TrimIdempotent(b.code); TrimIdempotent(b.authority);
    TrimIdempotent(b.issueDate); TrimIdempotent(b.summary); TrimIdempotent(b.link);
  }

  lemma {:induction false} LegalBasesTwice(items: seq<LegalBasis>)
    ensures LegalBases(LegalBases(items)) == LegalBases(items)
    decreases |items|
  {
    if items != [] {
      var n := |items| - 1;
      LegalBasesTwice(items[..n]);
      CleanLegalBasisTwice(items[n]);
      hide Trim;
      var out := LegalBases(items[..n]);
      assert (out + [CleanLegalBasis(items[n])])[..|out|] == out;
    }
  }

  // ---------------------------------------------------------------- checklist

  function CleanItem(c: ChecklistItem): ChecklistItem {
    ChecklistItem(Trim(c.id), Trim(c.title), Trim(c.owner), Trim(c.dueDate),
                  if Trim(c.status) == "" then "Pending" else Trim(c.status))
  }

  /** A title is needed; a blank status becomes "Pending". */
  function Checklist(items: seq<ChecklistItem>): seq<ChecklistItem> {
    if items == [] then []
    else
      var (out, c) := (Checklist(items[..|items| - 1]), items[|items| - 1]);
      if Trim(c.title) == "" then out else out + [CleanItem(c)]
  }

  ghost predicate TrimmedItem(x: ChecklistItem, c: ChecklistItem) {
    && x.id == Trim(c.id) && x.title == Trim(c.title) && x.owner == Trim(c.owner) && x.dueDate == Trim(c.dueDate)
    && (Blank(c.status) ==> x.status == "Pending") && (!Blank(c.status) ==> x.status == Trim(c.status))
  }

  /** `out` are the titled ones of the first `n` items, in their order, trimmed, with "Pending" for a blank status. */
  ghost predicate ItemsOf(items: seq<ChecklistItem>, n: nat, out: seq<ChecklistItem>, at: seq<nat>)
    requires n <= |items|
  {
    && |at| == |out|
    && (forall i :: 0 <= i < |at| ==> at[i] < n && !Blank(items[at[i]].title))
    && (forall i :: 0 <= i < |at| ==> TrimmedItem(out[i], items[at[i]]))
    && (forall i, j :: 0 <= i < j < |at| ==> at[i] < at[j])
    && (forall k :: 0 <= k < n && !Blank(items[k].title) ==> k in at)
  }

  lemma {:induction false} ItemsAreKept(items: seq<ChecklistItem>, n: nat) returns (at: seq<nat>)
    requires n <= |items|
    ensures ItemsOf(items, n, Checklist(items[..n]), at)
    decreases n
  {
    hide Trim;
    at := [];
    if n > 0 {
      var m := n - 1;
      at := ItemsAreKept(items, m);
      assert items[..n][..m] == items[..m];
      hide ItemsOf;
      ItemsGrow(items, m, Checklist(items[..m]), at);
      if !Blank(items[m].title) { at := at + [m]; }
    }
  }

  lemma ItemsGrow(items: seq<ChecklistItem>, m: nat, out: seq<ChecklistItem>, at: seq<nat>)
    requires m < |items| && ItemsOf(items, m, out, at)
    ensures if Blank(items[m].title) then ItemsOf(items, m + 1, out, at)
            else ItemsOf(items, m + 1, out + [CleanItem(items[m])], at + [m])
  {
    hide Trim;
    assert TrimmedItem(CleanItem(items[m]), items[m]);
    hide Blank, TrimmedItem, CleanItem;
    assert (at + [m])[|at|] == m;
  }

  method SanitizeChecklist(items: seq<ChecklistItem>) returns (out: seq<ChecklistItem>)
    ensures out == Checklist(items)
    ensures exists at :: ItemsOf(items, |items|, out, at)
  {
    ghost var at := ItemsAreKept(items, |items|);
    hide ItemsOf;
    hide Trim;
    out := [];
    for i := 0 to |items|
      invariant out == Checklist(items[..i])
    {
      assert items[..i + 1][..i] == items[..i];
      var item := items[i];
      var title := Trim(item.title);
      if title == "" {
        continue;
      }
      var status := Trim(item.status);
      if status == "" {
        status := "Pending";
      }
      out := out + [ChecklistItem(Trim(item.id), title, Trim(item.owner), Trim(item.dueDate), status)];
    }
    assert items[..|items|] == items;
  }

  lemma CleanItemTwice(c: ChecklistItem)
    ensures CleanItem(CleanItem(c)) == CleanItem(c)
  {
    TrimIdempotent(c.id); TrimIdempotent(c.title); TrimIdempotent(c.owner); TrimIdempotent(c.dueDate); TrimIdempotent(c.status);
    TrimOfTrimmed("Pending");
    hide Trim;
  }

  lemma {:induction false} ChecklistTwice(items: seq<ChecklistItem>)
    ensures Checklist(Checklist(items)) == Checklist(items)
    decreases |items|
  {
    if items != [] {
      var n := |items| - 1;
      ChecklistTwice(items[..n]);
      CleanItemTwice(items[n]);
      TrimIdempotent(items[n].title);
      hide Trim;
      var out := Checklist(items[..n]);
      assert (out + [CleanItem(items[n])])[..|out|] == out;
    }
  }
}

/** How policy strings compose, and how decisions react to more access. */
module AuthorizationFacts {
  import opened Prelude
  import opened Text
  import opened Authorization

  // ---------------------------------------------------------------- rules compose

  /** A part as the split yields it: trimmed, lower case, not blank, without a bar. */
  ghost predicate GoodPart(p: string) {
    p != "" && Trimmed(p) && Lower(p) == p && '|' !in p
  }

  ghost predicate GoodParts(parts: seq<string>) {
    parts != [] && forall i :: 0 <= i < |parts| ==> GoodPart(parts[i])
  }

  function Rule(parts: seq<string>): string { Join(parts, "|") }

  lemma {:induction false} LowerConcat(a: string, b: string)
    ensures Lower(a + b) == Lower(a) + Lower(b)
  {
  }

  lemma {:induction false} RuleIsNormal(parts: seq<string>)
    requires GoodParts(parts)
    ensures Rule(parts) != "" && Trimmed(Rule(parts)) && Lower(Rule(parts)) == Rule(parts)
    ensures Rule(parts)[0] == parts[0][0]
    decreases |parts|
  {
    hide Lower;
    assert GoodPart(parts[0]);
    if |parts| > 1 {
      var rest := parts[1..];
      assert forall i :: 0 <= i < |rest| ==> rest[i] == parts[i + 1];
      RuleIsNormal(rest);
      assert Rule(parts) == parts[0] + "|" + Rule(rest);
      LowerConcat(parts[0] + "|", Rule(rest));
      LowerConcat(parts[0], "|");
      LowerBar();
    }
  }

  lemma LowerBar()
    ensures Lower("|") == "|"
  {
  }

  lemma {:induction false} GoodPartsStay(parts: seq<string>)
    requires forall i :: 0 <= i < |parts| ==> GoodPart(parts[i])
    ensures NonBlankParts(parts) == parts
    decreases |parts|
  {
    hide Trim, Lower;
    if parts != [] {
      var n := |parts| - 1;
      GoodPartsStay(parts[..n]);
      assert GoodPart(parts[n]);
      TrimOfTrimmed(parts[n]);
      assert parts == parts[..n] + [parts[n]];
    }
  }

  /** Splitting a rule inverts joining its parts. */
  lemma SplitInvertsRule(parts: seq<string>)
    requires GoodParts(parts)
    ensures SplitOrStar(Rule(parts)) == parts
  {
    hide Trim, Lower, Split, Join;
    RuleIsNormal(parts);
    TrimOfTrimmed(Rule(parts));
    forall p | p in parts ensures '|' !in p { assert GoodPart(p); }
    SplitInvertsJoin(parts, '|');
    GoodPartsStay(parts);
    StarIsOnePart();
  }

  lemma StarIsOnePart()
    ensures Split("*", '|') == ["*"]
  {
    SplitOnePart("*", "", '|');
  }

  /** The rule of a single part. */
  lemma SinglePart(p: string)
    requires GoodPart(p)
    ensures Rule([p]) == p && SplitOrStar(p) == [p]
  {
    SplitInvertsRule([p]);
  }

  /** A workflow rule accepts a state exactly when one of its parts does. */
  lemma WorkflowRuleIsDisjunction(req: Request, parts: seq<string>)
    requires GoodParts(parts)
    ensures WorkflowStateOK(req, Rule(parts)) <==> exists i :: 0 <= i < |parts| && WorkflowStateOK(req, parts[i])
  {
    hide SplitOrStar, Rule, GoodPart, Trim, EqualFold, Contains, TextAttribute;
    var state := Trim(TextAttribute(req.resource, "workflow_state"));
    SplitInvertsRule(parts);
    forall i | 0 <= i < |parts|
      ensures WorkflowStateOK(req, parts[i]) <==> Contains([parts[i]], "*") || state == "" || Contains([parts[i]], state)
    {
      SinglePart(parts[i]);
    }
    ContainsIsSome(parts, "*");
    ContainsIsSome(parts, state);
    if state == "" {
      assert WorkflowStateOK(req, parts[0]);
    }
  }

  lemma ContainsIsSome(parts: seq<string>, target: string)
    ensures Contains(parts, target) <==> exists i :: 0 <= i < |parts| && Contains([parts[i]], target)
  {
    hide EqualFold;
    forall i | 0 <= i < |parts| ensures Contains([parts[i]], target) <==> EqualFold(parts[i], target) {
      SingletonContains(parts[i]);
    }
  }

  lemma SingletonContains(p: string)
    ensures forall target :: Contains([p], target) <==> EqualFold(p, target)
  {
    hide EqualFold;
    forall target ensures Contains([p], target) <==> EqualFold(p, target) {
      assert [p][0] == p;
    }
  }

  /** An eligible-actor rule accepts an actor exactly when one of its parts does. */
  lemma ActorRuleIsDisjunction(eff: EffectiveAccess, parts: seq<string>)
    requires GoodParts(parts)
    ensures EligibleActorOK(eff, Rule(parts)) <==> exists i :: 0 <= i < |parts| && EligibleActorOK(eff, parts[i])
  {
    hide SplitOrStar, Rule, EqualFold, GoodPart, PartActorOK;
    SplitInvertsRule(parts);
    forall i | 0 <= i < |parts|
      ensures EligibleActorOK(eff, parts[i]) <==> EqualFold(parts[i], "*") || PartActorOK(parts[i], eff)
    {
      SinglePart(parts[i]);
      SingletonContains(parts[i]);
      assert [parts[i]][0] == parts[i];
    }
  }

  function Flatten(lists: seq<seq<string>>): seq<string> {
    if lists == [] then [] else Flatten(lists[..|lists| - 1]) + lists[|lists| - 1]
  }

  /** Without company-wide access a scope rule gives its parts' reasons, one after the other. */
  lemma ScopeRuleConcatenates(req: Request, eff: EffectiveAccess, parts: seq<string>)
    requires GoodParts(parts) && !eff.scope.companyWide
    ensures ScopeReasons(req, eff, Rule(parts)) == Flatten(seq(|parts|, i requires 0 <= i < |parts| => ScopeReasons(req, eff, parts[i])))
    ensures ScopeReasons(req, eff, Rule(parts)) != [] <==> exists i :: 0 <= i < |parts| && ScopeReasons(req, eff, parts[i]) != []
  {
    hide SplitOrStar, Rule, GoodPart, PartReasons;
    SplitInvertsRule(parts);
    forall i | 0 <= i < |parts| ensures ScopeReasons(req, eff, parts[i]) == PartReasons(parts[i], req, eff) {
      SinglePart(parts[i]);
      assert AllReasons([parts[i]], req, eff) == AllReasons([], req, eff) + PartReasons(parts[i], req, eff) by {
        assert [parts[i]][..0] == [];
      }
    }
    var lists := seq(|parts|, i requires 0 <= i < |parts| => ScopeReasons(req, eff, parts[i]));
    AllIsFlatten(parts, req, eff, lists);
    FlattenEmptyIff(lists);
  }

  lemma {:induction false} AllIsFlatten(parts: seq<string>, req: Request, eff: EffectiveAccess, lists: seq<seq<string>>)
    requires |lists| == |parts| && forall i :: 0 <= i < |parts| ==> lists[i] == PartReasons(parts[i], req, eff)
    ensures AllReasons(parts, req, eff) == Flatten(lists)
    decreases |parts|
  {
    hide PartReasons;
    if parts != [] { AllIsFlatten(parts[..|parts| - 1], req, eff, lists[..|lists| - 1]); }
  }

  lemma {:induction false} FlattenEmptyIff(lists: seq<seq<string>>)
    ensures Flatten(lists) != [] <==> exists i :: 0 <= i < |lists| && lists[i] != []
    decreases |lists|
  {
    if lists != [] { FlattenEmptyIff(lists[..|lists| - 1]); }
  }

  // ---------------------------------------------------------------- more access

  /** `more` names the same member and has at least what `less` has. */
  ghost predicate Wider(less: EffectiveAccess, more: EffectiveAccess) {
    && less.companyID == more.companyID && less.membershipID == more.membershipID
    && Within(less.permissions, more.permissions)
    && Within(less.responsibilities, more.responsibilities)
    && Within(less.scope.departments, more.scope.departments)
    && (forall a :: a in less.scope.assignments ==> a in more.scope.assignments)
    && Within(less.scope.orgUnitIDs, more.scope.orgUnitIDs)
    && Within(less.scope.orgSubtreeUnitIDs, more.scope.orgSubtreeUnitIDs)
    && Within(less.scope.positionCodes, more.scope.positionCodes)
    && (less.scope.companyWide ==> more.scope.companyWide)
  }

  ghost predicate Within(a: seq<string>, b: seq<string>) { forall x :: x in a ==> x in b }

  lemma ContainsGrows(a: seq<string>, b: seq<string>, target: string)
    requires Within(a, b) && Contains(a, target)
    ensures Contains(b, target)
  {
    hide EqualFold;
    var i :| 0 <= i < |a| && EqualFold(a[i], target);
    assert a[i] in b;
  }

  lemma PartReasonsGrow(p: string, req: Request, less: EffectiveAccess, more: EffectiveAccess)
    requires Wider(less, more) && PartReasons(p, req, less) != []
    ensures PartReasons(p, req, more) != []
  {
    hide Contains, EqualFold;
    var unit := TextAttribute(req.resource, "org_unit_id");
    if Contains(less.scope.orgUnitIDs, unit) { ContainsGrows(less.scope.orgUnitIDs, more.scope.orgUnitIDs, unit); }
    if Contains(less.scope.orgSubtreeUnitIDs, unit) {
      ContainsGrows(less.scope.orgSubtreeUnitIDs, more.scope.orgSubtreeUnitIDs, unit);
    }
  }

  lemma {:induction false} AllReasonsGrow(parts: seq<string>, req: Request, less: EffectiveAccess, more: EffectiveAccess)
    requires Wider(less, more) && AllReasons(parts, req, less) != []
    ensures AllReasons(parts, req, more) != []
    decreases |parts|
  {
    hide PartReasons, Wider;
    var n := |parts| - 1;
    if PartReasons(parts[n], req, less) != [] { PartReasonsGrow(parts[n], req, less, more); }
    else { AllReasonsGrow(parts[..n], req, less, more); }
  }

  lemma ActorGrows(less: EffectiveAccess, more: EffectiveAccess, rule: string)
    requires Wider(less, more) && EligibleActorOK(less, rule)
    ensures EligibleActorOK(more, rule)
  {
    hide SplitOrStar, Contains, Lower;
    var parts := SplitOrStar(rule);
    if parts != [] && !Contains(parts, "*") {
      var i :| 0 <= i < |parts| && PartActorOK(parts[i], less);
      var p := Lower(parts[i]);
      if Contains(less.scope.positionCodes, p) { ContainsGrows(less.scope.positionCodes, more.scope.positionCodes, p); }
      else { ContainsGrows(less.responsibilities, more.responsibilities, p); }
      assert PartActorOK(parts[i], more);
    }
  }

  /** More permissions, scope, positions or responsibilities never turn an allow into a deny. */
  lemma DecisionIsMonotone(req: Request, less: EffectiveAccess, more: EffectiveAccess, policy: Policy)
    requires Wider(less, more) && Decide(req, less, policy).allow
    ensures Decide(req, more, policy).allow
  {
    hide SplitOrStar, Contains, EligibleActorOK, AllReasons, WorkflowStateOK, IsApproval, Trim;
    ContainsGrows(less.permissions, more.permissions, Trim(policy.requiredPermission));
    ActorGrows(less, more, policy.eligibleActor);
    if IsApproval(req.action) {
      ContainsGrows(less.responsibilities, more.responsibilities, "workflow_approver:disclosure");
    }
    var parts := SplitOrStar(policy.scopeType);
    if !less.scope.companyWide && parts != [] { AllReasonsGrow(parts, req, less, more); }
  }

  /** Every allow names the permission it used and at least one scope reason; every deny gives a code. */
  lemma AllowIsJustified(req: Request, eff: EffectiveAccess, policy: Policy)
    ensures var d := Decide(req, eff, policy);
            && (d.allow <==> d.denyReason == None)
            && (d.allow ==> d.scopeReasons != [] && |d.matchedPermissions| == 1
                            && Contains(eff.permissions, d.matchedPermissions[0]))
            && (d.allow ==> eff.membershipID == req.subject.membershipID && eff.companyID == req.subject.companyID)
            && (d.allow && IsApproval(req.action) ==> Contains(eff.responsibilities, "workflow_approver:disclosure"))
  {
    hide Contains, ScopeReasons, WorkflowStateOK, EligibleActorOK, IsApproval, Trim;
  }
}

/** The decision in terms of request and access alone: what is granted, what is refused, and with which code. */
module AuthorizationLaws {
  import opened Prelude
  import opened Text
  import opened Authorization
  import opened AuthorizationFacts

  // ---------------------------------------------------------------- rules

  lemma SplitGivesTheseParts(rule: string, parts: seq<string>)
    requires GoodParts(parts) && Norm(rule) == Rule(parts)
    ensures SplitOrStar(rule) == parts
  {
    LowerTrim(rule);
    LowerIdempotent(rule);
    LowerIdempotent(Trim(rule));
    TrimIdempotent(Lower(rule));
    LowerTrim(Norm(rule));
    hide Trim, Lower, Split, Join;
    SplitInvertsRule(parts);
  }

  /**
   A scope rule, however it is spelt in case and outer blanks, allows exactly those with company-wide access and those one
   of its parts grants access to.
   */
  lemma ScopeAllowsIff(req: Request, eff: EffectiveAccess, rule: string, parts: seq<string>)
    requires GoodParts(parts) && Norm(rule) == Rule(parts)
    ensures ScopeReasons(req, eff, rule) != [] <==>
            eff.scope.companyWide || exists p :: p in parts && Grants(p, req, eff)
  {
    hide SplitOrStar, Grants, GoodPart, Rule, Norm;
    SplitGivesTheseParts(rule, parts);
    SomePartGrants(parts, req, eff);
  }

  lemma OnePartAllowsIff(req: Request, eff: EffectiveAccess, p: string)
    requires GoodPart(p) && !eff.scope.companyWide
    ensures ScopeReasons(req, eff, p) != [] <==> Grants(p, req, eff)
  {
    hide Grants, Lower, Trim;
    SinglePart(p);
    NormFix(p);
    assert GoodParts([p]);
    ScopeAllowsIff(req, eff, p, [p]);
  }

  lemma KnownPartsAreGood()
    ensures GoodPart("*") && GoodPart("owner_only") && GoodPart("assigned_only")
    ensures GoodPart("org_unit_self") && GoodPart("org_unit_subtree")
  {
    hide GoodPart;
    PlainIsGood("*");
    PlainIsGood("owner_only");
    PlainIsGood("assigned_only");
    PlainIsGood("org_unit_self");
    PlainIsGood("org_unit_subtree");
  }

  lemma PlainIsGood(p: string)
    requires p != "" && forall i :: 0 <= i < |p| ==> p[i] == '*' || p[i] == '_' || 'a' <= p[i] <= 'z'
    ensures GoodPart(p)
  {
    assert Lower(p) == p;
  }

  /** A rule of one part, without company-wide access: owner, assignment, unit, department, or anything. */
  lemma OwnerOnly(req: Request, eff: EffectiveAccess)
    requires !eff.scope.companyWide
    ensures ScopeReasons(req, eff, "owner_only") != [] <==>
            exists owner :: HasText(req.resource, "owner_membership_id", owner) && Lower(owner) == Lower(eff.membershipID)
  {
    hide Lower, Trim, GoodPart, HasText;
    KnownPartsAreGood();
    OnePartAllowsIff(req, eff, "owner_only");
    PartIsOne("owner_only");
  }

  lemma AssignedOnly(req: Request, eff: EffectiveAccess)
    requires !eff.scope.companyWide
    ensures ScopeReasons(req, eff, "assigned_only") != [] <==>
            exists a :: a in eff.scope.assignments && a.resourceType == req.resource.kind && a.resourceID == req.resource.id
  {
    hide Lower, Trim, GoodPart, HasText;
    KnownPartsAreGood();
    OnePartAllowsIff(req, eff, "assigned_only");
    PartIsOne("assigned_only");
  }

  lemma UnitOrDepartment(req: Request, eff: EffectiveAccess)
    requires !eff.scope.companyWide
    ensures ScopeReasons(req, eff, "org_unit_self") != [] <==>
            (exists u :: HasText(req.resource, "org_unit_id", u) && Listed(eff.scope.orgUnitIDs, u))
            || (exists d :: HasText(req.resource, "department_id", d) && d in eff.scope.departments)
    ensures ScopeReasons(req, eff, "org_unit_subtree") != [] <==>
            (exists u :: HasText(req.resource, "org_unit_id", u) && Listed(eff.scope.orgSubtreeUnitIDs, u))
            || (exists d :: HasText(req.resource, "department_id", d) && d in eff.scope.departments)
  {
    hide Lower, Trim, GoodPart, HasText, Listed;
    KnownPartsAreGood();
    OnePartAllowsIff(req, eff, "org_unit_self");
    OnePartAllowsIff(req, eff, "org_unit_subtree");
    PartIsOne("org_unit_self");
    PartIsOne("org_unit_subtree");
  }

  /** Any other part never grants anything. */
  lemma OtherPartsGrantNothing(req: Request, eff: EffectiveAccess, p: string)
    requires GoodPart(p) && !eff.scope.companyWide
    requires p !in ["*", "assigned_only", "owner_only", "org_unit_self", "org_unit_subtree"]
    ensures ScopeReasons(req, eff, p) == []
  {
    hide Lower, Trim, GoodPart, HasText, Listed;
    OnePartAllowsIff(req, eff, p);
    var known := ["*", "assigned_only", "owner_only", "org_unit_self", "org_unit_subtree"];
    assert known[0] in known && known[1] in known && known[2] in known && known[3] in known && known[4] in known;
  }

  // ---------------------------------------------------------------- the decision

  ghost predicate OwnSubject(req: Request, eff: EffectiveAccess) {
    req.subject.companyID == eff.companyID && req.subject.membershipID == eff.membershipID
  }

  ghost predicate Permitted(eff: EffectiveAccess, policy: Policy) {
    !Blank(policy.requiredPermission) && Listed(eff.permissions, Trim(policy.requiredPermission))
  }

  ghost predicate InScope(req: Request, eff: EffectiveAccess, policy: Policy) {
    var parts := SplitOrStar(policy.scopeType);
    eff.scope.companyWide || parts == [] || exists p :: p in parts && Grants(p, req, eff)
  }

  /** A workflow state that is set is one of the rule's. */
  ghost predicate InState(req: Request, policy: Policy) {
    var parts := SplitOrStar(policy.workflowState);
    parts == [] || Listed(parts, "*")
    || forall v :: HasText(req.resource, "workflow_state", v) && !Blank(v) ==> Listed(parts, Trim(v))
  }

  /** The member holds one of the rule's positions or responsibilities. */
  ghost predicate Eligible(eff: EffectiveAccess, policy: Policy) {
    var parts := SplitOrStar(policy.eligibleActor);
    parts == [] || Listed(parts, "*")
    || exists p :: p in parts && (Listed(eff.scope.positionCodes, p) || Listed(eff.responsibilities, p))
  }

  /** The action's name contains "approve", in any case. */
  ghost predicate Approves(req: Request) { exists a, b :: Lower(req.action) == a + "approve" + b }

  ghost predicate MayApprove(req: Request, eff: EffectiveAccess) {
    Approves(req) ==> Listed(eff.responsibilities, "workflow_approver:disclosure")
  }

  lemma WorkflowExact(req: Request, policy: Policy)
    ensures WorkflowStateOK(req, policy.workflowState) <==> InState(req, policy)
  {
    var parts := SplitOrStar(policy.workflowState);
    var v := TextAttribute(req.resource, "workflow_state");
    TextIsIt(req.resource, "workflow_state");
    ContainsIsListed(parts, "*");
    ContainsIsListed(parts, Trim(v));
    assert Blank("");
    hide SplitOrStar, Trim, Contains, Listed, HasText, TextAttribute;
  }

  lemma ActorExact(eff: EffectiveAccess, policy: Policy)
    ensures EligibleActorOK(eff, policy.eligibleActor) <==> Eligible(eff, policy)
  {
    var parts := SplitOrStar(policy.eligibleActor);
    ContainsIsListed(parts, "*");
    hide SplitOrStar, Contains, Lower, Listed;
    forall p ensures PartActorOK(p, eff) <==> Listed(eff.scope.positionCodes, p) || Listed(eff.responsibilities, p) {
      ContainsIsListed(eff.scope.positionCodes, Lower(p));
      ContainsIsListed(eff.responsibilities, Lower(p));
      ListedLower(eff.scope.positionCodes, p);
      ListedLower(eff.responsibilities, p);
    }
    if p :| p in parts && PartActorOK(p, eff) {
      var i :| 0 <= i < |parts| && parts[i] == p;
    }
  }

  lemma ListedLower(items: seq<string>, v: string)
    ensures Listed(items, Lower(v)) <==> Listed(items, v)
  {
    LowerIdempotent(v);
    hide Lower;
  }

  lemma ApprovalExact(req: Request)
    ensures IsApproval(req.action) <==> Approves(req)
  {
    hide Lower;
    var s, sub := Lower(req.action), "approve";
    if IsApproval(req.action) {
      var i: nat :| i <= |s| && IsAt(s, sub, i);
      assert s == s[..i] + s[i..i + |sub|] + s[i + |sub|..];
      assert s == s[..i] + sub + s[i + |sub|..];
    }
    if a, b :| s == a + sub + b {
      assert s[|a|..|a| + |sub|] == sub;
      assert IsAt(s, sub, |a|);
    }
  }

  /**
   The decision allows exactly when all six conditions hold, and otherwise names the first that does not, in this
   order: own ids, permission, scope, workflow state, actor, approval.
   */
  lemma DecisionExact(req: Request, eff: EffectiveAccess, policy: Policy)
    ensures var d := Decide(req, eff, policy);
            && d.denyReason ==
               (if !OwnSubject(req, eff) then Some(CompanyScopeMismatch)
                else if !Permitted(eff, policy) then Some(PermissionDenied)
                else if !InScope(req, eff, policy) then Some(DataScopeDenied)
                else if !InState(req, policy) then Some(StateConflict)
                else if !Eligible(eff, policy) then Some(ResponsibilityRequired)
                else if !MayApprove(req, eff) then Some(ResponsibilityRequired)
                else None)
            && (d.allow <==> d.denyReason == None)
            && (d.matchedPermissions ==
                if OwnSubject(req, eff) && Permitted(eff, policy) then [Trim(policy.requiredPermission)] else [])
            && (d.responsibilityReasons == if d.allow && Approves(req) then ["workflow_assignee_rule:legal_approval"] else [])
  {
    hide Trim, SplitOrStar, Contains, Listed, WorkflowStateOK, EligibleActorOK, IsApproval, Grants, InState, Eligible, Approves;
    ContainsIsListed(eff.permissions, Trim(policy.requiredPermission));
    ContainsIsListed(eff.responsibilities, "workflow_approver:disclosure");
    SomePartGrants(SplitOrStar(policy.scopeType), req, eff);
    WorkflowExact(req, policy);
    ActorExact(eff, policy);
    ApprovalExact(req);
  }

  /** What a reason says of the request. */
  ghost predicate Explains(reason: string, req: Request, eff: EffectiveAccess) {
    || (reason == "company_wide_access" && eff.scope.companyWide)
    || reason == "scope:any"
    || (reason == "assignment:" + req.resource.kind + ":" + req.resource.id
        && Assignment(req.resource.kind, req.resource.id) in eff.scope.assignments)
    || (reason == "owner_only" && exists o :: HasText(req.resource, "owner_membership_id", o) && Lower(o) == Lower(eff.membershipID))
    || (exists u :: HasText(req.resource, "org_unit_id", u)
                    && ((reason == "org_unit_self:" + u && Listed(eff.scope.orgUnitIDs, u))
                        || (reason == "org_unit_subtree:" + u && Listed(eff.scope.orgSubtreeUnitIDs, u))))
    || (exists d :: HasText(req.resource, "department_id", d) && reason == "department_membership:" + d && d in eff.scope.departments)
  }

  lemma PartExplains(p: string, req: Request, eff: EffectiveAccess, reason: string)
    requires reason in PartReasons(p, req, eff)
    ensures Explains(reason, req, eff)
  {
    hide Contains, Listed, TextAttribute, HasText, Lower;
    TextIsIt(req.resource, "owner_membership_id");
    TextIsIt(req.resource, "org_unit_id");
    TextIsIt(req.resource, "department_id");
    var unit := TextAttribute(req.resource, "org_unit_id");
    ContainsIsListed(eff.scope.orgUnitIDs, unit);
    ContainsIsListed(eff.scope.orgSubtreeUnitIDs, unit);
  }

  lemma {:induction false} PartsExplain(parts: seq<string>, req: Request, eff: EffectiveAccess, reason: string)
    requires reason in AllReasons(parts, req, eff)
    ensures Explains(reason, req, eff)
    decreases |parts|
  {
    hide PartReasons, Explains;
    var n := |parts| - 1;
    if reason in PartReasons(parts[n], req, eff) {
      PartExplains(parts[n], req, eff, reason);
    } else {
      PartsExplain(parts[..n], req, eff, reason);
    }
  }

  /** Every reason a decision gives is true of the request. */
  lemma ReasonsAreTrue(req: Request, eff: EffectiveAccess, policy: Policy, reason: string)
    requires reason in Decide(req, eff, policy).scopeReasons
    ensures Explains(reason, req, eff)
  {
    hide SplitOrStar, AllReasons, Contains, WorkflowStateOK, EligibleActorOK, IsApproval, Trim, HasText, Listed;
    var parts := SplitOrStar(policy.scopeType);
    if !eff.scope.companyWide && parts != [] { PartsExplain(parts, req, eff, reason); }
  }
}

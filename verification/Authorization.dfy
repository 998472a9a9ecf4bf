/** The authorization decision: policy strings, the checker and the batch service. */
module Authorization {
  import opened Prelude
  import opened Text

  /** A resource attribute: a text or something else. */
  datatype Attribute = Text(s: string) | NotText

  datatype Subject = Subject(userID: string, membershipID: string, companyID: string)

  datatype Resource = Resource(kind: string, id: string, attributes: map<string, Attribute>)

  datatype Request = Request(subject: Subject, action: string, resource: Resource)

  datatype Assignment = Assignment(resourceType: string, resourceID: string)

  datatype DataScope = DataScope(
    scopeType: string, departments: seq<string>, assignments: seq<Assignment>, companyWide: bool,
    orgUnitIDs: seq<string>, orgSubtreeUnitIDs: seq<string>, positionCodes: seq<string>)

  datatype EffectiveAccess = EffectiveAccess(
    companyID: string, membershipID: string, permissions: seq<string>, scope: DataScope, responsibilities: seq<string>)

  datatype Policy = Policy(requiredPermission: string, scopeType: string, workflowState: string, eligibleActor: string)

  datatype DenyCode = CompanyScopeMismatch | PermissionDenied | DataScopeDenied | StateConflict | ResponsibilityRequired

  datatype Decision = Decision(
    allow: bool, matchedPermissions: seq<string>, scopeReasons: seq<string>, responsibilityReasons: seq<string>,
    denyReason: Option<DenyCode>)

  // ---------------------------------------------------------------- policy strings

  /** The trimmed parts that are not blank. */
  function NonBlankParts(raw: seq<string>): seq<string> {
    if raw == [] then []
    else
      var (front, p) := (NonBlankParts(raw[..|raw| - 1]), Trim(raw[|raw| - 1]));
      if p == "" then front else front + [p]
  }

  /** The parts of a '|'-separated rule; a blank rule is "*". */
  function SplitOrStar(s: string): seq<string> {
    var t := Trim(Lower(s));
    if t == "" || t == "*" then ["*"] else NonBlankParts(Split(t, '|'))
  }

  predicate Contains(items: seq<string>, target: string) {
    exists i :: 0 <= i < |items| && EqualFold(items[i], target)
  }

  function TextAttribute(r: Resource, key: string): string {
    if key in r.attributes && r.attributes[key].Text? then r.attributes[key].s else ""
  }

  // ---------------------------------------------------------------- the three rules

  /** What one part of the scope rule grants. */
  function PartReasons(p: string, req: Request, eff: EffectiveAccess): seq<string> {
    if p == "assigned_only" then
      if Assignment(req.resource.kind, req.resource.id) in eff.scope.assignments
      then ["assignment:" + req.resource.kind + ":" + req.resource.id] else []
    else if p == "owner_only" then
      var owner := TextAttribute(req.resource, "owner_membership_id");
      if owner != "" && EqualFold(owner, eff.membershipID) then ["owner_only"] else []
    else if p == "org_unit_self" || p == "org_unit_subtree" then
      UnitReasons(p, TextAttribute(req.resource, "org_unit_id"), eff)
      + DepartmentReasons(TextAttribute(req.resource, "department_id"), eff)
    else if p == "*" then ["scope:any"]
    else []
  }

  function UnitReasons(p: string, unit: string, eff: EffectiveAccess): seq<string> {
    if unit == "" then []
    else (if p == "org_unit_self" && Contains(eff.scope.orgUnitIDs, unit) then ["org_unit_self:" + unit] else [])
         + (if p == "org_unit_subtree" && Contains(eff.scope.orgSubtreeUnitIDs, unit) then ["org_unit_subtree:" + unit] else [])
  }

  function DepartmentReasons(department: string, eff: EffectiveAccess): seq<string> {
    if department != "" && department in eff.scope.departments then ["department_membership:" + department] else []
  }

  function AllReasons(parts: seq<string>, req: Request, eff: EffectiveAccess): seq<string> {
    if parts == [] then []
    else AllReasons(parts[..|parts| - 1], req, eff) + PartReasons(parts[|parts| - 1], req, eff)
  }

  function ScopeReasons(req: Request, eff: EffectiveAccess, rule: string): seq<string> {
    if eff.scope.companyWide then ["company_wide_access"]
    else
      var parts := SplitOrStar(rule);
      if parts == [] then ["scope:any"] else AllReasons(parts, req, eff)
  }

  predicate WorkflowStateOK(req: Request, rule: string) {
    var parts := SplitOrStar(rule);
    var state := Trim(TextAttribute(req.resource, "workflow_state"));
    parts == [] || Contains(parts, "*") || state == "" || Contains(parts, state)
  }

  predicate PartActorOK(p: string, eff: EffectiveAccess) {
    Contains(eff.scope.positionCodes, Lower(p)) || Contains(eff.responsibilities, Lower(p))
  }

  predicate EligibleActorOK(eff: EffectiveAccess, rule: string) {
    var parts := SplitOrStar(rule);
    parts == [] || Contains(parts, "*") || exists i :: 0 <= i < |parts| && PartActorOK(parts[i], eff)
  }

  predicate IsAt(s: string, sub: string, i: nat) {
    i + |sub| <= |s| && s[i..i + |sub|] == sub
  }

  predicate HasSubstring(s: string, sub: string) {
    exists i: nat :: i <= |s| && IsAt(s, sub, i)
  }

  predicate IsApproval(action: string) { HasSubstring(Lower(action), "approve") }

  // ---------------------------------------------------------------- what a part of the scope rule means

  /** The resource has this text, not empty, under this key. */
  ghost predicate HasText(r: Resource, key: string, v: string) {
    v != "" && key in r.attributes && r.attributes[key] == Text(v)
  }

  ghost predicate Listed(items: seq<string>, v: string) { exists x :: x in items && Lower(x) == Lower(v) }

  /** The part grants access to the resource: to anything, to what is assigned, owned, of the unit or of the department. */
  ghost predicate Grants(p: string, req: Request, eff: EffectiveAccess) {
    || p == "*"
    || (p == "assigned_only"
        && exists a :: a in eff.scope.assignments && a.resourceType == req.resource.kind && a.resourceID == req.resource.id)
    || (p == "owner_only"
        && exists owner :: HasText(req.resource, "owner_membership_id", owner) && Lower(owner) == Lower(eff.membershipID))
    || (p == "org_unit_self" && exists u :: HasText(req.resource, "org_unit_id", u) && Listed(eff.scope.orgUnitIDs, u))
    || (p == "org_unit_subtree" && exists u :: HasText(req.resource, "org_unit_id", u) && Listed(eff.scope.orgSubtreeUnitIDs, u))
    || ((p == "org_unit_self" || p == "org_unit_subtree")
        && exists d :: HasText(req.resource, "department_id", d) && d in eff.scope.departments)
  }

  lemma TextIsIt(r: Resource, key: string)
    ensures forall v :: HasText(r, key, v) <==> v == TextAttribute(r, key) && v != ""
  {
  }

  lemma ContainsIsListed(items: seq<string>, v: string)
    ensures Contains(items, v) <==> Listed(items, v)
  {
    if x :| x in items && Lower(x) == Lower(v) {
      var i :| 0 <= i < |items| && items[i] == x;
      assert EqualFold(items[i], v);
    }
  }

  lemma PartGrants(p: string, req: Request, eff: EffectiveAccess)
    ensures PartReasons(p, req, eff) != [] <==> Grants(p, req, eff)
  {
    hide Contains, Listed, TextAttribute, HasText, Lower;
    TextIsIt(req.resource, "owner_membership_id");
    TextIsIt(req.resource, "org_unit_id");
    TextIsIt(req.resource, "department_id");
    var unit := TextAttribute(req.resource, "org_unit_id");
    ContainsIsListed(eff.scope.orgUnitIDs, unit);
    ContainsIsListed(eff.scope.orgSubtreeUnitIDs, unit);
    PartIsOne(p);
  }

  lemma PartIsOne(p: string)
    ensures p == "org_unit_self" ==> p != "org_unit_subtree" && p != "assigned_only" && p != "owner_only" && p != "*"
    ensures p == "org_unit_subtree" ==> p != "assigned_only" && p != "owner_only" && p != "*"
    ensures p == "assigned_only" ==> p != "owner_only" && p != "*"
  {
  }

  lemma {:induction false} SomePartGrants(parts: seq<string>, req: Request, eff: EffectiveAccess)
    ensures AllReasons(parts, req, eff) != [] <==> exists p :: p in parts && Grants(p, req, eff)
    decreases |parts|
  {
    hide PartReasons, Grants;
    if parts != [] {
      var n := |parts| - 1;
      SomePartGrants(parts[..n], req, eff);
      PartGrants(parts[n], req, eff);
      assert parts == parts[..n] + [parts[n]];
    }
  }

  // ---------------------------------------------------------------- the decision

  function Deny(code: DenyCode, matched: seq<string>, reasons: seq<string>): Decision {
    Decision(false, matched, reasons, [], Some(code))
  }

  function Decide(req: Request, eff: EffectiveAccess, policy: Policy): Decision {
    var required := Trim(policy.requiredPermission);
    var reasons := ScopeReasons(req, eff, policy.scopeType);
    if req.subject.companyID != eff.companyID || req.subject.membershipID != eff.membershipID
    then Deny(CompanyScopeMismatch, [], [])
    else if required == "" || !Contains(eff.permissions, required) then Deny(PermissionDenied, [], [])
    else if reasons == [] then Deny(DataScopeDenied, [required], [])
    else if !WorkflowStateOK(req, policy.workflowState) then Deny(StateConflict, [required], reasons)
    else if !EligibleActorOK(eff, policy.eligibleActor) then Deny(ResponsibilityRequired, [required], reasons)
    else if IsApproval(req.action) && !Contains(eff.responsibilities, "workflow_approver:disclosure")
    then Deny(ResponsibilityRequired, [required], reasons)
    else Decision(true, [required], reasons,
                  if IsApproval(req.action) then ["workflow_assignee_rule:legal_approval"] else [], None)
  }

  // ---------------------------------------------------------------- the code

  method ComputeSplitOrStar(s: string) returns (out: seq<string>)
    ensures out == SplitOrStar(s)
  {
    hide Trim, Lower, Split;
    var t := Trim(Lower(s));
    if t == "" || t == "*" {
      return ["*"];
    }
    var raw := Split(t, '|');
    out := [];
    for i := 0 to |raw|
      invariant out == NonBlankParts(raw[..i])
    {
      assert raw[..i + 1][..i] == raw[..i];
      var p := Trim(raw[i]);
      if p != "" {
        out := out + [p];
      }
    }
    assert raw[..|raw|] == raw;
  }

  method ComputeContains(items: seq<string>, target: string) returns (found: bool)
    ensures found == Contains(items, target)
  {
    hide EqualFold;
    for i := 0 to |items|
      invariant forall j :: 0 <= j < i ==> !EqualFold(items[j], target)
    {
      if EqualFold(items[i], target) {
        return true;
      }
    }
    return false;
  }

  method EvalScope(req: Request, eff: EffectiveAccess, policy: Policy) returns (reasons: seq<string>, allowed: bool)
    ensures reasons == ScopeReasons(req, eff, policy.scopeType)
    ensures allowed <==> reasons != []
    ensures allowed <==>
            eff.scope.companyWide || SplitOrStar(policy.scopeType) == []
            || exists p :: p in SplitOrStar(policy.scopeType) && Grants(p, req, eff)
  {
    hide SplitOrStar, PartReasons, Grants;
    SomePartGrants(SplitOrStar(policy.scopeType), req, eff);
    if eff.scope.companyWide {
      return ["company_wide_access"], true;
    }
    var parts := ComputeSplitOrStar(policy.scopeType);
    if |parts| == 0 {
      return ["scope:any"], true;
    }
    reasons := [];
    for i := 0 to |parts|
      invariant reasons == AllReasons(parts[..i], req, eff)
    {
      assert parts[..i + 1][..i] == parts[..i];
      reasons := AppendPart(reasons, parts[i], req, eff);
    }
    assert parts[..|parts|] == parts;
    allowed := |reasons| > 0;
  }

  /** The switch on one part of the scope rule. */
  method AppendPart(before: seq<string>, p: string, req: Request, eff: EffectiveAccess) returns (reasons: seq<string>)
    ensures reasons == before + PartReasons(p, req, eff)
  {
    hide EqualFold, Contains;
    reasons := before;
    if p == "assigned_only" {
      if Assignment(req.resource.kind, req.resource.id) in eff.scope.assignments {
        reasons := reasons + ["assignment:" + req.resource.kind + ":" + req.resource.id];
      }
    } else if p == "owner_only" {
      var owner := TextAttribute(req.resource, "owner_membership_id");
      if owner != "" && EqualFold(owner, eff.membershipID) {
        reasons := reasons + ["owner_only"];
      }
    } else if p == "org_unit_self" || p == "org_unit_subtree" {
      reasons := AppendUnit(reasons, p, TextAttribute(req.resource, "org_unit_id"), eff);
      var department := TextAttribute(req.resource, "department_id");
      if department != "" && department in eff.scope.departments {
        reasons := reasons + ["department_membership:" + department];
      }
    } else if p == "*" {
      reasons := reasons + ["scope:any"];
    }
  }

  method AppendUnit(before: seq<string>, p: string, unit: string, eff: EffectiveAccess) returns (reasons: seq<string>)
    ensures reasons == before + UnitReasons(p, unit, eff)
  {
    hide Contains;
    reasons := before;
    if unit != "" {
      var self := ComputeContains(eff.scope.orgUnitIDs, unit);
      if p == "org_unit_self" && self {
        reasons := reasons + ["org_unit_self:" + unit];
      }
      var subtree := ComputeContains(eff.scope.orgSubtreeUnitIDs, unit);
      if p == "org_unit_subtree" && subtree {
        reasons := reasons + ["org_unit_subtree:" + unit];
      }
    }
  }

  method Check(req: Request, eff: EffectiveAccess, policy: Policy) returns (d: Decision)
    ensures d == Decide(req, eff, policy)
  {
    hide Trim, Contains, ScopeReasons, WorkflowStateOK, EligibleActorOK, IsApproval;
    if req.subject.companyID != eff.companyID || req.subject.membershipID != eff.membershipID {
      return Deny(CompanyScopeMismatch, [], []);
    }
    var required := Trim(policy.requiredPermission);
    var permitted := ComputeContains(eff.permissions, required);
    if required == "" || !permitted {
      return Deny(PermissionDenied, [], []);
    }
    var reasons, allowed := EvalScope(req, eff, policy);
    if !allowed {
      return Deny(DataScopeDenied, [required], []);
    }
    if !WorkflowStateOK(req, policy.workflowState) {
      return Deny(StateConflict, [required], reasons);
    }
    var respReasons: seq<string> := [];
    if !EligibleActorOK(eff, policy.eligibleActor) {
      return Deny(ResponsibilityRequired, [required], reasons);
    }
    if IsApproval(req.action) {
      var approver := ComputeContains(eff.responsibilities, "workflow_approver:disclosure");
      if approver {
        respReasons := respReasons + ["workflow_assignee_rule:legal_approval"];
      } else {
        return Deny(ResponsibilityRequired, [required], reasons);
      }
    }
    return Decision(true, [required], reasons, respReasons, None);
  }

  // ---------------------------------------------------------------- the service

  datatype Failure = CompanyContextRequired | ResolveFailed | PolicyFailed

  /** What the service looks up: effective access and action policies; None is a lookup error. */
  datatype Lookups = Lookups(
    resolve: (string, string) -> Option<EffectiveAccess>, policy: (string, string) -> Option<Policy>)

  function Authorize(l: Lookups, req: Request): Result<Decision, Failure> {
    if Blank(req.subject.membershipID) || Blank(req.subject.companyID) then Err(CompanyContextRequired)
    else
      match l.resolve(req.subject.membershipID, req.subject.companyID)
      case None => Err(ResolveFailed)
      case Some(eff) =>
        match l.policy(req.subject.companyID, req.action)
        case None => Err(PolicyFailed)
        case Some(policy) => Ok(Decide(req, eff, policy))
  }

  datatype BatchCheck = BatchCheck(action: string, resource: Resource)

  /** One resolve for the whole batch; the first policy that cannot be read fails it. */
  method AuthorizeBatch(l: Lookups, subject: Subject, checks: seq<BatchCheck>)
    returns (res: Result<seq<Decision>, Failure>)
    ensures res.Ok? <==> !Blank(subject.membershipID) && !Blank(subject.companyID)
                         && l.resolve(subject.membershipID, subject.companyID).Some?
                         && forall i :: 0 <= i < |checks| ==> l.policy(subject.companyID, checks[i].action).Some?
    ensures res == Err(CompanyContextRequired) <==> Blank(subject.membershipID) || Blank(subject.companyID)
    ensures res == Err(ResolveFailed) <==>
            !Blank(subject.membershipID) && !Blank(subject.companyID)
            && l.resolve(subject.membershipID, subject.companyID).None?
    ensures res.Ok? ==> |res.value| == |checks|
    ensures res.Ok? ==> forall i :: 0 <= i < |checks| ==>
                                      Authorize(l, Request(subject, checks[i].action, checks[i].resource)) == Ok(res.value[i])
    ensures res.Err? && checks != [] ==>
              exists i :: 0 <= i < |checks| && Authorize(l, Request(subject, checks[i].action, checks[i].resource)) == Err(res.error)
  {
    hide Trim, Decide;
    if Blank(subject.membershipID) || Blank(subject.companyID) {
      assert checks != [] ==> Authorize(l, Request(subject, checks[0].action, checks[0].resource)) == Err(CompanyContextRequired);
      return Err(CompanyContextRequired);
    }
    var eff := l.resolve(subject.membershipID, subject.companyID);
    if eff.None? {
      assert checks != [] ==> Authorize(l, Request(subject, checks[0].action, checks[0].resource)) == Err(ResolveFailed);
      return Err(ResolveFailed);
    }
    var results: seq<Decision> := [];
    for i := 0 to |checks|
      invariant |results| == i
      invariant forall j :: 0 <= j < i ==> l.policy(subject.companyID, checks[j].action).Some?
      invariant forall j :: 0 <= j < i ==>
                              Authorize(l, Request(subject, checks[j].action, checks[j].resource)) == Ok(results[j])
    {
      var policy := l.policy(subject.companyID, checks[i].action);
      if policy.None? {
        assert Authorize(l, Request(subject, checks[i].action, checks[i].resource)) == Err(PolicyFailed);
        return Err(PolicyFailed);
      }
      var d := Check(Request(subject, checks[i].action, checks[i].resource), eff.value, policy.value);
      results := results + [d];
    }
    return Ok(results);
  }
}

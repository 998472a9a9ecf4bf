/** Tokens and sessions speak for the same user, in a company that user was a member of. */
module SessionOwners {
  import opened Prelude
  import opened Text
  import opened Sessions
  import opened SessionFacts
  import opened SessionRuns
  import opened SessionHistory

  /** The session id was generated, and the session, once there is one, belongs to the user. */
  ghost predicate WhoOK(s: State, user: string, sid: string)
    requires InRange(s.table)
  {
    && sid in s.used
    && (sid in s.table.byID ==> s.table.objects[s.table.byID[sid]].userID == user)
    && (forall p :: p in s.phases && s.phases[p].LoggingIn? && s.phases[p].session.sessionID == sid ==>
                      s.phases[p].session.userID == user)
  }

  ghost predicate MemberOK(dir: Directory, user: string, m: string, c: string) { dir(user, Membership(m, c)) }

  /** No company yet, or one the user was shown as an active member of. */
  ghost predicate ContextOK(dir: Directory, x: Session) {
    (x.membershipID == "" && x.companyID == "") || MemberOK(dir, x.userID, x.membershipID, x.companyID)
  }

  ghost predicate ClaimsOK(dir: Directory, s: State, c: Claims)
    requires InRange(s.table)
  {
    WhoOK(s, c.userID, c.sessionID) && MemberOK(dir, c.userID, c.membershipID, c.companyID)
  }

  ghost predicate PhaseOK(dir: Directory, s: State, ph: Phase)
    requires InRange(s.table)
  {
    match ph
    case LoggingIn(x) => WhoOK(s, x.userID, x.sessionID) && ContextOK(dir, x)
    case Refreshing(x) => ClaimsOK(dir, s, ClaimsOf(x))
    case Renewing(x) => ClaimsOK(dir, s, ClaimsOf(x))
    case Binding(c) => ClaimsOK(dir, s, c)
  }

  ghost predicate OwnerInv(dir: Directory, s: State)
    requires InRange(s.table)
  {
    && (forall k :: k in s.access ==> ClaimsOK(dir, s, s.access[k]))
    && (forall k :: k in s.pre ==> WhoOK(s, s.pre[k].userID, s.pre[k].sessionID))
    && (forall p :: p in s.phases ==> PhaseOK(dir, s, s.phases[p]))
    && (forall k :: k in s.table.byID ==> ContextOK(dir, s.table.objects[s.table.byID[k]]))
  }

  /** Whom an id belongs to is settled once. */
  ghost predicate WhoStays(s: State, t: State)
    requires InRange(s.table) && InRange(t.table)
  {
    forall user, sid :: WhoOK(s, user, sid) ==> WhoOK(t, user, sid)
  }

  lemma StepKeepsWho(dir: Directory, s: State, step: Step)
    requires IndexInv(s) && InRange(s.table) && Enabled(dir, s, step)
    ensures InRange(Next(dir, s, step).table) && WhoStays(s, Next(dir, s, step))
  {
    hide IndexInv, RefreshToken, AccessToken, PreToken, Blank;
    StepKeepsIndex(dir, s, step);
    match step {
      case LoginIssue(p, _, _, _, sid, _, _) =>
      case LoginCreate(p) => CreateKeepsWho(s, p);
      case RefreshRotate(p, refresh) =>
      case _ =>
        OtherStepsAreQuiet(dir, s, step);
        QuietKeepsWho(s, Next(dir, s, step));
    }
  }

  lemma CreateKeepsWho(s: State, p: nat)
    requires IndexInv(s) && InRange(s.table) && p in s.phases && s.phases[p].LoggingIn?
    ensures var t := AfterCreate(s, p, s.phases[p].session); InRange(t.table) && WhoStays(s, t)
  {
    hide IndexInv;
    LoggingInIsNew(s, p);
  }

  lemma QuietKeepsWho(s: State, t: State)
    requires Quiet(s, t) && InRange(t.table)
    ensures WhoStays(s, t)
  {
    hide InFlightOK;
  }

  /** What a step adds to the tokens, phases and sessions is itself in order. */
  ghost predicate AddsOnlyGood(dir: Directory, s: State, t: State)
    requires InRange(s.table) && InRange(t.table)
  {
    && (forall k :: k in t.access ==> (k in s.access && t.access[k] == s.access[k]) || ClaimsOK(dir, t, t.access[k]))
    && (forall k :: k in t.pre ==> (k in s.pre && t.pre[k] == s.pre[k]) || WhoOK(t, t.pre[k].userID, t.pre[k].sessionID))
    && (forall p :: p in t.phases ==> (p in s.phases && t.phases[p] == s.phases[p]) || PhaseOK(dir, t, t.phases[p]))
    && (forall k :: k in t.table.byID ==> ContextOK(dir, t.table.objects[t.table.byID[k]]))
  }

  lemma GoodStays(dir: Directory, s: State, t: State)
    requires InRange(s.table) && InRange(t.table) && OwnerInv(dir, s) && WhoStays(s, t) && AddsOnlyGood(dir, s, t)
    ensures OwnerInv(dir, t)
  {
    hide WhoOK, MemberOK, ContextOK, InRange;
  }

  lemma LoginIssueAddsGood(dir: Directory, s: State, step: Step)
    requires IndexInv(s) && InRange(s.table) && OwnerInv(dir, s) && Enabled(dir, s, step) && step.LoginIssue?
    ensures AddsOnlyGood(dir, s, Next(dir, s, step))
  {
    hide RefreshToken, AccessToken, PreToken, Agree, Generated;
    var t := Next(dir, s, step);
    var x := LoginSession(step.userID, step.from, step.active, step.sid, step.refresh);
    assert dir(step.userID, step.active[0]);
    assert step.active[0] == Membership(step.active[0].membershipID, step.active[0].companyID);
    forall p | p in s.phases && s.phases[p].LoggingIn? ensures s.phases[p].session.sessionID != step.sid {
      assert InFlightOK(s, s.phases[p]);
    }
    assert WhoOK(t, x.userID, x.sessionID);
  }

  lemma CreateAddsGood(dir: Directory, s: State, p: nat)
    requires IndexInv(s) && InRange(s.table) && OwnerInv(dir, s) && p in s.phases && s.phases[p].LoggingIn?
    ensures var t := AfterCreate(s, p, s.phases[p].session); InRange(t.table) && AddsOnlyGood(dir, s, t)
  {
    hide IndexInv, WhoOK, MemberOK;
    assert PhaseOK(dir, s, s.phases[p]);
  }

  lemma FindAddsGood(dir: Directory, s: State, p: nat, token: string)
    requires IndexInv(s) && InRange(s.table) && OwnerInv(dir, s) && p !in s.phases && Accepts(s, token)
    ensures AddsOnlyGood(dir, s, AfterFind(s, p, token))
  {
    hide MemberOK, Blank;
    var x := s.table.objects[s.table.byToken[token]];
    var t := AfterFind(s, p, token);
    FoundIsOwned(s.table, token);
    SessionIsItsOwners(s, x.sessionID);
    assert ContextOK(dir, x);
    assert WhoOK(t, x.userID, x.sessionID);
    assert t.phases[p] == Refreshing(x) && ClaimsOK(dir, t, ClaimsOf(x));
  }

  lemma SessionIsItsOwners(s: State, sid: string)
    requires IndexInv(s) && InRange(s.table) && sid in s.table.byID
    ensures WhoOK(s, s.table.objects[s.table.byID[sid]].userID, sid)
  {
    hide Agree, Generated;
    forall p | p in s.phases && s.phases[p].LoggingIn? ensures s.phases[p].session.sessionID != sid {
      assert InFlightOK(s, s.phases[p]);
    }
  }

  lemma BindAddsGood(dir: Directory, s: State, p: nat, who: PreClaims, m: Membership)
    requires IndexInv(s) && InRange(s.table) && OwnerInv(dir, s) && p !in s.phases
    requires WhoOK(s, who.userID, who.sessionID) && dir(who.userID, m)
    ensures var t := AfterBind(s, p, who, m); InRange(t.table) && WhoStays(s, t) ==> AddsOnlyGood(dir, s, t)
  {
    hide IndexInv, Blank;
    assert m == Membership(m.membershipID, m.companyID);
  }

  /** The same sessions, but for revocation. */
  ghost predicate SameContext(t: Table, u: Table)
    requires InRange(t)
  {
    && InRange(u) && u.byID == t.byID
    && forall k :: k in t.byID ==>
                     var (x, y) := (t.objects[t.byID[k]], u.objects[u.byID[k]]);
                     y.userID == x.userID && y.membershipID == x.membershipID && y.companyID == x.companyID
  }

  lemma SameContextRefl(t: Table)
    requires InRange(t)
    ensures SameContext(t, t)
  {
  }

  lemma RevokeKeepsContext(t: Table, token: string, user: string, sid: string)
    requires InRange(t)
    ensures SameContext(t, RevokedByToken(t, token)) && SameContext(t, RevokedByID(t, user, sid))
  {
  }

  lemma RevokeAllKeepsContext(t: Table, ids: set<string>, user: string)
    requires InRange(t)
    ensures SameContext(t, RevokedAmong(t, ids, user))
  {
    hide Listed;
  }

  lemma RevokesAddGood(dir: Directory, s: State, t: State)
    requires InRange(s.table) && OwnerInv(dir, s) && SameContext(s.table, t.table)
    requires t.access == s.access && t.pre == s.pre
    requires forall p :: p in t.phases ==> p in s.phases && t.phases[p] == s.phases[p]
    ensures AddsOnlyGood(dir, s, t)
  {
    hide WhoOK, MemberOK, ClaimsOK, PhaseOK;
    forall k | k in t.table.byID ensures ContextOK(dir, t.table.objects[t.table.byID[k]]) {
      assert ContextOK(dir, s.table.objects[s.table.byID[k]]);
    }
  }

  lemma AccessAddsGood(dir: Directory, s: State, c: Claims, tok: string, phases: map<nat, Phase>)
    requires InRange(s.table) && OwnerInv(dir, s) && ClaimsOK(dir, s, c)
    requires forall p :: p in phases ==> p in s.phases && (phases[p] == s.phases[p] || phases[p].Renewing?)
    requires forall p :: p in phases && phases[p].Renewing? && phases[p] != s.phases[p] ==> ClaimsOf(phases[p].found) == c
    requires WhoStays(s, AfterAccess(s, c, tok, phases))
    ensures AddsOnlyGood(dir, s, AfterAccess(s, c, tok, phases))
  {
    hide WhoOK, MemberOK, AccessToken;
  }

  lemma RotateAddsGood(dir: Directory, s: State, p: nat, sid: string, token: string, id: string)
    requires InRange(s.table) && OwnerInv(dir, s)
    requires InRange(AfterRotate(s, p, sid, token, id).table)
    ensures AddsOnlyGood(dir, s, AfterRotate(s, p, sid, token, id))
  {
    hide WhoOK, MemberOK;
  }

  lemma StepKeepsOwners(dir: Directory, s: State, step: Step)
    requires IndexInv(s) && InRange(s.table) && OwnerInv(dir, s) && Enabled(dir, s, step)
    ensures InRange(Next(dir, s, step).table) && OwnerInv(dir, Next(dir, s, step))
  {
    hide IndexInv, OwnerInv, AddsOnlyGood, WhoStays, WhoOK, InRange, RefreshToken, AccessToken, MemberOK, RevokedByToken, RevokedByID, RevokedAmong, Rotated, InContext, AfterFind, SameContext, Blank;
    StepKeepsWho(dir, s, step);
    var t := Next(dir, s, step);
    match step {
      case LoginIssue(_, _, _, _, _, _, _) => LoginIssueAddsGood(dir, s, step);
      case LoginCreate(p) => CreateAddsGood(dir, s, p);
      case RefreshFind(p, token) => FindStep(dir, s, p, token);
      case RefreshIssue(p, tok) =>
        PhaseIsOK(dir, s, p);
        AccessAddsGood(dir, s, ClaimsOf(s.phases[p].found), tok, s.phases[p := Renewing(s.phases[p].found)]);
      case RefreshRotate(p, refresh) =>
        RotateAddsGood(dir, s, p, s.phases[p].found.sessionID, RefreshToken(refresh), refresh);
      case Bind(p, token, m) =>
        BearerIsOK(dir, s, token);
        BindAddsGood(dir, s, p, Bearer(s, token).value, m);
      case BindIssue(p, tok) =>
        PhaseIsOK(dir, s, p);
        AccessAddsGood(dir, s, s.phases[p].claims, tok, s.phases - {p});
      case Logout(token) =>
        RevokeKeepsContext(s.table, token, "", "");
        SameContextRefl(s.table);
        RevokesAddGood(dir, s, t);
      case Revoke(user, sid) =>
        RevokeKeepsContext(s.table, "", user, sid);
        SameContextRefl(s.table);
        RevokesAddGood(dir, s, t);
      case RevokeAll(user) =>
        RevokeAllKeepsContext(s.table, s.table.byID.Keys, user);
        RevokesAddGood(dir, s, t);
      case Stop(p) =>
        SameContextRefl(s.table);
        RevokesAddGood(dir, s, t);
    }
    GoodStays(dir, s, t);
  }

  lemma FindStep(dir: Directory, s: State, p: nat, token: string)
    requires IndexInv(s) && InRange(s.table) && OwnerInv(dir, s) && p !in s.phases
    ensures InRange(AfterFind(s, p, token).table) && AddsOnlyGood(dir, s, AfterFind(s, p, token))
  {
    hide IndexInv, WhoOK, MemberOK, PhaseOK;
    if Accepts(s, token) { FindAddsGood(dir, s, p, token); }
  }

  lemma PhaseIsOK(dir: Directory, s: State, p: nat)
    requires InRange(s.table) && OwnerInv(dir, s) && p in s.phases
    ensures PhaseOK(dir, s, s.phases[p])
  {
  }

  lemma BearerIsOK(dir: Directory, s: State, token: string)
    requires InRange(s.table) && OwnerInv(dir, s) && Bearer(s, token).Some?
    ensures WhoOK(s, Bearer(s, token).value.userID, Bearer(s, token).value.sessionID)
  {
    hide WhoOK;
  }

  /**
   In every run, an access token names the user of its session, and the membership in it is one its user was
   shown to have; the same goes for the company context of every session.
   */
  lemma {:induction false} TokensMatchTheirSessions(dir: Directory, first: State, steps: seq<Step>, last: State)
    requires Inv(first) && OwnerInv(dir, first) && Run(dir, first, steps, last)
    ensures InRange(last.table) && OwnerInv(dir, last)
    ensures forall k :: k in last.access && last.access[k].sessionID in last.table.byID ==>
                          last.table.objects[last.table.byID[last.access[k].sessionID]].userID == last.access[k].userID
    ensures forall k :: k in last.access ==>
                          dir(last.access[k].userID, Membership(last.access[k].membershipID, last.access[k].companyID))
    decreases |steps|
  {
    hide IndexInv, LogInv, AccessInv, Next, Enabled, PhaseOK, ContextOK;
    if steps != [] {
      StepKeepsInv(dir, first, steps[0]);
      StepKeepsOwners(dir, first, steps[0]);
      TokensMatchTheirSessions(dir, Next(dir, first, steps[0]), steps[1..], last);
    }
  }
}

/**
 Sessions under interleaved requests. Login, refresh and company binding are sequences of separate steps
 over the token manager and the session repository; requests of any number of workers mix freely, and any
 of them may stop half way. Generated ids are never repeated.
 */
module SessionRuns {
  import opened Prelude
  import opened Text
  import opened Sessions
  import opened SessionFacts

  datatype Claims = Claims(userID: string, sessionID: string, membershipID: string, companyID: string)

  datatype PreClaims = PreClaims(userID: string, sessionID: string)

  datatype Membership = Membership(membershipID: string, companyID: string)

  datatype Client = Client(ip: string, userAgent: string)

  /** A refresh token stored for a session, in the order of storing, and the token that was given for it, if any. */
  datatype Stored = Stored(sessionID: string, token: string, givenFor: Option<string>)

  datatype Phase =
    | LoggingIn(session: Session)       // tokens issued, session not yet created
    | Refreshing(found: Session)        // session found and accepted
    | Renewing(found: Session)          // new access token issued, refresh token not yet rotated
    | Binding(claims: Claims)           // context updated, access token not yet issued

  datatype State = State(
    table: Table, access: map<string, Claims>, pre: map<string, PreClaims>, used: set<string>,
    phases: map<nat, Phase>, log: seq<Stored>)

  datatype Step =
    | LoginIssue(p: nat, userID: string, from: Client, active: seq<Membership>, sid: string, refresh: string, tok: string)
    | LoginCreate(p: nat)
    | RefreshFind(p: nat, token: string)
    | RefreshIssue(p: nat, tok: string)
    | RefreshRotate(p: nat, refresh: string)
    | Logout(token: string)
    | Revoke(userID: string, sid: string)
    | RevokeAll(userID: string)
    | Bind(p: nat, token: string, m: Membership)
    | BindIssue(p: nat, tok: string)
    | Stop(p: nat)

  /** The active memberships that the membership directory has ever shown for a user. */
  type Directory = (string, Membership) -> bool

  function RefreshToken(id: string): string { "rtk_" + id }

  function AccessToken(id: string): string { "atk_" + id }

  function PreToken(id: string): string { "ptk_" + id }

  // ---------------------------------------------------------------- steps

  ghost predicate Enabled(dir: Directory, s: State, step: Step)
    requires InRange(s.table)
  {
    match step
    case LoginIssue(p, user, from, active, sid, refresh, tok) =>
      && p !in s.phases && active != [] && (forall i :: 0 <= i < |active| ==> dir(user, active[i]))
      && sid !in s.used && refresh !in s.used && tok !in s.used && sid != refresh && refresh != tok && sid != tok
    case LoginCreate(p) => p in s.phases && s.phases[p].LoggingIn?
    case RefreshFind(p, _) => p !in s.phases
    case RefreshIssue(p, tok) => p in s.phases && s.phases[p].Refreshing? && tok !in s.used
    case RefreshRotate(p, refresh) => p in s.phases && s.phases[p].Renewing? && refresh !in s.used
    case Logout(_) => true
    case Revoke(_, _) => true
    case RevokeAll(_) => true
    case Bind(p, token, m) => p !in s.phases && Bearer(s, token).Some? && dir(Bearer(s, token).value.userID, m)
    case BindIssue(p, tok) => p in s.phases && s.phases[p].Binding? && tok !in s.used
    case Stop(p) => p in s.phases
  }

  /** Who a pre-company or access token speaks for. */
  function Bearer(s: State, token: string): Option<PreClaims> {
    if token in s.access then Some(PreClaims(s.access[token].userID, s.access[token].sessionID))
    else if token in s.pre then Some(s.pre[token]) else None
  }

  /** The session a login creates: bound at once when the user has one active membership. */
  function LoginSession(user: string, from: Client, active: seq<Membership>, sid: string, refresh: string): Session
    requires active != []
  {
    if |active| == 1
    then Session(sid, user, active[0].membershipID, active[0].companyID, RefreshToken(refresh), false, from.ip, from.userAgent)
    else Session(sid, user, "", "", RefreshToken(refresh), false, from.ip, from.userAgent)
  }

  function ClaimsOf(x: Session): Claims { Claims(x.userID, x.sessionID, x.membershipID, x.companyID) }

  function AfterLoginIssue(s: State, p: nat, x: Session, bound: bool, ids: set<string>, tok: string): State {
    s.(access := if bound then s.access[AccessToken(tok) := ClaimsOf(x)] else s.access,
       pre := if bound then s.pre else s.pre[PreToken(tok) := PreClaims(x.userID, x.sessionID)],
       used := s.used + ids,
       phases := s.phases[p := LoggingIn(x)])
  }

  function AfterCreate(s: State, p: nat, x: Session): State {
    s.(table := Created(s.table, x), phases := s.phases - {p}, log := s.log + [Stored(x.sessionID, x.refreshToken, None)])
  }

  /** A refresh is accepted when its token leads to a session that is not revoked and has a company context. */
  ghost predicate AcceptsIn(t: Table, token: string)
    requires InRange(t)
  {
    && !Blank(token) && token in t.byToken
    && var x := t.objects[t.byToken[token]];
       !x.revoked && x.companyID != "" && x.membershipID != ""
  }

  ghost predicate Accepts(s: State, token: string)
    requires InRange(s.table)
  {
    AcceptsIn(s.table, token)
  }

  ghost function AfterFind(s: State, p: nat, token: string): State
    requires InRange(s.table)
  {
    if Accepts(s, token) then s.(phases := s.phases[p := Refreshing(s.table.objects[s.table.byToken[token]])]) else s
  }

  /** The token a refresh under way was started with. */
  function Given(s: State, p: nat): Option<string> {
    if p in s.phases && (s.phases[p].Refreshing? || s.phases[p].Renewing?) then Some(s.phases[p].found.refreshToken) else None
  }

  ghost function AfterRotate(s: State, p: nat, sid: string, token: string, id: string): State
    requires InRange(s.table)
  {
    s.(table := Rotated(s.table, sid, token), used := s.used + {id}, phases := s.phases - {p},
       log := if sid in s.table.byID then s.log + [Stored(sid, token, Given(s, p))] else s.log)
  }

  ghost function AfterBind(s: State, p: nat, who: PreClaims, m: Membership): State
    requires InRange(s.table)
  {
    if who.userID == "" || who.sessionID == "" || Blank(m.companyID) || who.sessionID !in s.table.byID then s
    else s.(table := InContext(s.table, who.sessionID, m.membershipID, m.companyID),
            phases := s.phases[p := Binding(Claims(who.userID, who.sessionID, m.membershipID, m.companyID))])
  }

  function AfterAccess(s: State, claims: Claims, tok: string, phases: map<nat, Phase>): State {
    s.(access := s.access[AccessToken(tok) := claims], used := s.used + {tok}, phases := phases)
  }

  ghost function Next(dir: Directory, s: State, step: Step): State
    requires InRange(s.table) && Enabled(dir, s, step)
  {
    match step
    case LoginIssue(p, user, from, active, sid, refresh, tok) =>
      AfterLoginIssue(s, p, LoginSession(user, from, active, sid, refresh), |active| == 1, {sid, refresh, tok}, tok)
    case LoginCreate(p) => AfterCreate(s, p, s.phases[p].session)
    case RefreshFind(p, token) => AfterFind(s, p, token)
    case RefreshIssue(p, tok) =>
      AfterAccess(s, ClaimsOf(s.phases[p].found), tok, s.phases[p := Renewing(s.phases[p].found)])
    case RefreshRotate(p, refresh) => AfterRotate(s, p, s.phases[p].found.sessionID, RefreshToken(refresh), refresh)
    case Logout(token) => if Blank(token) then s else s.(table := RevokedByToken(s.table, token))
    case Revoke(user, sid) =>
      if Blank(user) || Blank(sid) then s else s.(table := RevokedByID(s.table, user, sid))
    case RevokeAll(user) => s.(table := RevokedAmong(s.table, s.table.byID.Keys, user))
    case Bind(p, token, m) => AfterBind(s, p, Bearer(s, token).value, m)
    case BindIssue(p, tok) => AfterAccess(s, s.phases[p].claims, tok, s.phases - {p})
    case Stop(p) => s.(phases := s.phases - {p})
  }

  // ---------------------------------------------------------------- the index invariant

  /** A token or id of the tables was generated; one that a login still holds is in no index yet. */
  ghost predicate Pending(s: State, x: Session) {
    && x.sessionID in s.used && x.sessionID !in s.table.byID
    && Generated(s.used, x.refreshToken) && x.refreshToken !in s.table.byToken
  }

  ghost predicate Generated(used: set<string>, token: string) {
    exists id :: id in used && RefreshToken(id) == token
  }

  ghost predicate Apart(ph: Phase, other: Phase) {
    ph.LoggingIn? && other.LoggingIn? ==>
      ph.session.sessionID != other.session.sessionID && ph.session.refreshToken != other.session.refreshToken
  }

  ghost predicate InFlightOK(s: State, ph: Phase)
    requires InRange(s.table)
  {
    match ph
    case LoggingIn(x) => Pending(s, x)
    case Refreshing(x) => OwnedBy(s.table, x.userID, x.sessionID)
    case Renewing(x) => OwnedBy(s.table, x.userID, x.sessionID)
    case Binding(_) => true
  }

  ghost predicate IndexInv(s: State) {
    && Agree(s.table)
    && (forall k :: k in s.table.byToken ==> Generated(s.used, k))
    && (forall k :: k in s.table.byID ==> k in s.used)
    && (forall p :: p in s.phases ==> InFlightOK(s, s.phases[p]))
    && (forall p, q :: p in s.phases && q in s.phases && p != q ==> Apart(s.phases[p], s.phases[q]))
  }

  lemma GeneratedGrows(used: set<string>, more: set<string>, token: string)
    requires used <= more && Generated(used, token)
    ensures Generated(more, token)
  {
    var id :| id in used && RefreshToken(id) == token;
    assert id in more;
  }

  lemma NewIsNotGenerated(used: set<string>, id: string)
    requires id !in used
    ensures !Generated(used, RefreshToken(id))
  {
    forall other | other in used ensures RefreshToken(other) != RefreshToken(id) {
      assert RefreshToken(other)[4..] == other && RefreshToken(id)[4..] == id;
    }
  }

  /** Steps that leave keys and owners alone, and at most retire phases, use ids up or find a session. */
  ghost predicate Quiet(s: State, t: State) {
    && InRange(s.table) && SameKeys(s.table, t.table) && s.used <= t.used
    && (forall p :: p in t.phases ==> (p in s.phases && t.phases[p] == s.phases[p])
                                      || (!t.phases[p].LoggingIn? && InRange(t.table) && InFlightOK(t, t.phases[p])))
  }

  lemma QuietKeepsIndex(s: State, t: State)
    requires IndexInv(s) && Quiet(s, t)
    ensures IndexInv(t)
  {
    hide Agree, Generated;
    SameKeysAgree(s.table, t.table);
    AgreeInRange(t.table);
    forall k | k in t.table.byToken ensures Generated(t.used, k) { GeneratedGrows(s.used, t.used, k); }
    forall p | p in t.phases ensures InFlightOK(t, t.phases[p]) {
      if p in s.phases && t.phases[p] == s.phases[p] {
        assert InFlightOK(s, s.phases[p]);
        if s.phases[p].LoggingIn? { GeneratedGrows(s.used, t.used, s.phases[p].session.refreshToken); }
      }
    }
  }

  lemma LoginIssueKeepsIndex(s: State, p: nat, x: Session, bound: bool, sid: string, refresh: string, tok: string)
    requires IndexInv(s) && p !in s.phases && sid !in s.used && refresh !in s.used
    requires x.sessionID == sid && x.refreshToken == RefreshToken(refresh)
    ensures IndexInv(AfterLoginIssue(s, p, x, bound, {sid, refresh, tok}, tok))
  {
    hide Agree, Generated, RefreshToken;
    var t := AfterLoginIssue(s, p, x, bound, {sid, refresh, tok}, tok);
    AgreeInRange(s.table);
    NewIsNotGenerated(s.used, refresh);
    forall k | Generated(s.used, k) ensures Generated(t.used, k) { GeneratedGrows(s.used, t.used, k); }
    assert Generated(t.used, x.refreshToken) by { IsGenerated(t.used, refresh); }
    forall q | q in t.phases ensures InFlightOK(t, t.phases[q]) {
      if q != p { assert InFlightOK(s, s.phases[q]); }
    }
    forall q | q in t.phases && q != p ensures Apart(t.phases[q], t.phases[p]) && Apart(t.phases[p], t.phases[q]) {
      assert InFlightOK(s, s.phases[q]);
    }
  }

  lemma IsGenerated(used: set<string>, id: string)
    requires id in used
    ensures Generated(used, RefreshToken(id))
  {
  }

  lemma CreateKeepsIndex(s: State, p: nat)
    requires IndexInv(s) && p in s.phases && s.phases[p].LoggingIn?
    ensures IndexInv(AfterCreate(s, p, s.phases[p].session))
  {
    hide Agree, Generated;
    var x := s.phases[p].session;
    var t := AfterCreate(s, p, x);
    AgreeInRange(s.table);
    assert InFlightOK(s, s.phases[p]);
    CreateAgreesIff(s.table, x);
    AgreeInRange(t.table);
    forall q | q in t.phases ensures InFlightOK(t, t.phases[q]) {
      assert q in s.phases && q != p && Apart(s.phases[q], s.phases[p]);
      assert InFlightOK(s, s.phases[q]);
    }
    forall q, r | q in t.phases && r in t.phases && q != r ensures Apart(t.phases[q], t.phases[r]) {
      assert Apart(s.phases[q], s.phases[r]);
    }
  }

  lemma RotateKeepsIndex(s: State, p: nat, refresh: string)
    requires IndexInv(s) && p in s.phases && s.phases[p].Renewing? && refresh !in s.used
    requires InRange(s.table)
    ensures IndexInv(AfterRotate(s, p, s.phases[p].found.sessionID, RefreshToken(refresh), refresh))
  {
    hide Agree, Generated, RefreshToken;
    var sid := s.phases[p].found.sessionID;
    var w := RefreshToken(refresh);
    var t := AfterRotate(s, p, sid, w, refresh);
    assert InFlightOK(s, s.phases[p]);
    NewIsNotGenerated(s.used, refresh);
    assert w !in s.table.byToken;
    RotateAgreesIff(s.table, sid, w);
    AgreeInRange(t.table);
    IsGenerated(t.used, refresh);
    forall k | k in t.table.byToken ensures Generated(t.used, k) {
      if k != w { GeneratedGrows(s.used, t.used, k); }
    }
    forall q | q in t.phases ensures InFlightOK(t, t.phases[q]) {
      assert q in s.phases && InFlightOK(s, s.phases[q]);
      if s.phases[q].LoggingIn? { GeneratedGrows(s.used, t.used, s.phases[q].session.refreshToken); }
    }
    forall q, r | q in t.phases && r in t.phases && q != r ensures Apart(t.phases[q], t.phases[r]) {
      assert Apart(s.phases[q], s.phases[r]);
    }
  }

  /** Every step but the three that store a token or start a login is quiet. */
  lemma OtherStepsAreQuiet(dir: Directory, s: State, step: Step)
    requires IndexInv(s) && InRange(s.table) && Enabled(dir, s, step)
    requires !step.LoginIssue? && !step.LoginCreate? && !step.RefreshRotate?
    ensures Quiet(s, Next(dir, s, step))
  {
    hide Agree, Generated, Blank, SameKeys, RevokedByToken, RevokedByID, RevokedAmong, InContext, Bearer, AccessToken;
    SameKeysRefl(s.table);
    match step
    case RefreshFind(p, token) =>
      if Accepts(s, token) { FoundIsOwned(s.table, token); }
    case RefreshIssue(p, tok) =>
      assert InFlightOK(s, s.phases[p]);
    case Logout(token) => RevokeKeepsKeys(s.table, token, "", "");
    case Revoke(user, sid) => RevokeKeepsKeys(s.table, "", user, sid);
    case RevokeAll(user) => RevokeAllKeepsKeys(s.table, s.table.byID.Keys, user);
    case Bind(p, token, m) =>
      var t := Next(dir, s, step);
      ContextKeepsKeys(s.table, Bearer(s, token).value.sessionID, m.membershipID, m.companyID);
      SameKeysAgree(s.table, t.table);
      AgreeInRange(t.table);
    case _ =>
  }

  lemma FoundIsOwned(t: Table, token: string)
    requires Agree(t) && InRange(t) && token in t.byToken
    ensures var x := t.objects[t.byToken[token]]; OwnedBy(t, x.userID, x.sessionID) && t.byID[x.sessionID] == t.byToken[token]
  {
    assert TokenOK(t, token);
  }

  lemma StepKeepsIndex(dir: Directory, s: State, step: Step)
    requires IndexInv(s) && InRange(s.table) && Enabled(dir, s, step)
    ensures IndexInv(Next(dir, s, step)) && InRange(Next(dir, s, step).table)
  {
    hide IndexInv, InFlightOK;
    match step {
      case LoginIssue(p, user, from, active, sid, refresh, tok) =>
        LoginIssueKeepsIndex(s, p, LoginSession(user, from, active, sid, refresh), |active| == 1, sid, refresh, tok);
      case LoginCreate(p) => CreateKeepsIndex(s, p);
      case RefreshRotate(p, refresh) => RotateKeepsIndex(s, p, refresh);
      case _ =>
        OtherStepsAreQuiet(dir, s, step);
        QuietKeepsIndex(s, Next(dir, s, step));
    }
    IndexInRange(Next(dir, s, step));
  }

  lemma IndexInRange(s: State)
    requires IndexInv(s)
    ensures Agree(s.table) && InRange(s.table)
  {
  }
}

/** The sign-in service and the opaque token manager: login, refresh, logout and company binding without interruption. */
module SessionService {
  import opened Prelude
  import opened Text
  import opened Sessions
  import opened SessionFacts
  import opened SessionRuns

  datatype Refusal = InvalidRequest | Expired | CompanyContextRequired | NoActiveCompany | MembershipNotFound

  datatype Renewed = Renewed(accessToken: string, refreshToken: string, membershipID: string, companyID: string)

  datatype LoggedIn =
    | InCompany(accessToken: string, refreshToken: string)
    | ToSelect(preToken: string, refreshToken: string)

  class TokenManager {
    var accessTokens: map<string, Claims>
    var preCompanyTokens: map<string, PreClaims>

    constructor ()
      ensures accessTokens == map[] && preCompanyTokens == map[]
    {
      accessTokens, preCompanyTokens := map[], map[];
    }

    /** `id` is what the id generator gives. */
    method IssueAccessToken(claims: Claims, id: string) returns (token: string)
      modifies this`accessTokens
      ensures token == AccessToken(id) && accessTokens == old(accessTokens)[token := claims]
    {
      token := AccessToken(id);
      accessTokens := accessTokens[token := claims];
    }

    method IssuePreCompanyToken(userID: string, sessionID: string, id: string) returns (token: string)
      modifies this`preCompanyTokens
      ensures token == PreToken(id) && preCompanyTokens == old(preCompanyTokens)[token := PreClaims(userID, sessionID)]
    {
      token := PreToken(id);
      preCompanyTokens := preCompanyTokens[token := PreClaims(userID, sessionID)];
    }

    method InspectAccessToken(token: string) returns (claims: Option<Claims>)
      ensures claims == if token in accessTokens then Some(accessTokens[token]) else None
    {
      if token !in accessTokens {
        return None;
      }
      return Some(accessTokens[token]);
    }
  }

  class Service {
    const sessions: SessionRepository
    const tokens: TokenManager

    constructor (sessions: SessionRepository, tokens: TokenManager)
      ensures this.sessions == sessions && this.tokens == tokens
    {
      this.sessions, this.tokens := sessions, tokens;
    }

    /** From the point where the user is known, with the memberships that are active. */
    method Login(userID: string, from: Client, active: seq<Membership>, sid: string, refresh: string, tok: string)
      returns (res: Result<LoggedIn, Refusal>)
      requires sessions.Valid()
      modifies sessions, tokens
      ensures sessions.Valid()
      ensures active == [] ==> res == Err(NoActiveCompany) && sessions.View() == old(sessions.View())
                               && tokens.accessTokens == old(tokens.accessTokens)
                               && tokens.preCompanyTokens == old(tokens.preCompanyTokens)
      ensures active != [] ==>
                var x := LoginSession(userID, from, active, sid, refresh);
                && x.sessionID == sid && x.userID == userID && x.refreshToken == RefreshToken(refresh) && !x.revoked
                && x.ip == from.ip && x.userAgent == from.userAgent
                && (|active| == 1 ==> x.membershipID == active[0].membershipID && x.companyID == active[0].companyID)
                && (|active| > 1 ==> x.membershipID == "" && x.companyID == "")
                && sessions.View() == Created(old(sessions.View()), x)
                && (|active| == 1 ==>
                      && res == Ok(InCompany(AccessToken(tok), RefreshToken(refresh)))
                      && tokens.accessTokens == old(tokens.accessTokens)[AccessToken(tok) := ClaimsOf(x)]
                      && tokens.preCompanyTokens == old(tokens.preCompanyTokens))
                && (|active| > 1 ==>
                      && res == Ok(ToSelect(PreToken(tok), RefreshToken(refresh)))
                      && tokens.accessTokens == old(tokens.accessTokens)
                      && tokens.preCompanyTokens == old(tokens.preCompanyTokens)[PreToken(tok) := PreClaims(userID, sid)])
    {
      if |active| == 0 {
        return Err(NoActiveCompany);
      }
      if |active| == 1 {
        var m := active[0];
        var access := tokens.IssueAccessToken(Claims(userID, sid, m.membershipID, m.companyID), tok);
        sessions.Create(sid, userID, m.membershipID, m.companyID, RefreshToken(refresh), from.ip, from.userAgent);
        return Ok(InCompany(access, RefreshToken(refresh)));
      }
      var pre := tokens.IssuePreCompanyToken(userID, sid, tok);
      sessions.Create(sid, userID, "", "", RefreshToken(refresh), from.ip, from.userAgent);
      return Ok(ToSelect(pre, RefreshToken(refresh)));
    }

    /** A refresh succeeds exactly when its token is accepted; otherwise nothing changes. */
    method Refresh(token: string, tok: string, refresh: string) returns (res: Result<Renewed, Refusal>)
      requires sessions.Valid() && Agree(sessions.View())
      modifies sessions, sessions.objects, tokens
      ensures sessions.Valid() && tokens.preCompanyTokens == old(tokens.preCompanyTokens)
      ensures res.Ok? <==> AcceptsIn(old(sessions.View()), token)
      ensures res.Err? ==> sessions.View() == old(sessions.View()) && tokens.accessTokens == old(tokens.accessTokens)
      ensures res.Ok? ==>
                var x := old(sessions.View()).objects[old(sessions.View()).byToken[token]];
                && res.value == Renewed(AccessToken(tok), RefreshToken(refresh), x.membershipID, x.companyID)
                && sessions.View() == Rotated(old(sessions.View()), x.sessionID, RefreshToken(refresh))
                && tokens.accessTokens == old(tokens.accessTokens)[AccessToken(tok) := ClaimsOf(x)]
                && AccessToken(tok) in tokens.accessTokens
                && tokens.accessTokens[AccessToken(tok)] == Claims(x.userID, x.sessionID, x.membershipID, x.companyID)
      ensures res == Err(InvalidRequest) <==> Blank(token)
      ensures res == Err(Expired) <==>
                var t := old(sessions.View());
                !Blank(token) && (token in t.byToken ==> t.objects[t.byToken[token]].revoked)
      ensures res == Err(CompanyContextRequired) <==>
                var t := old(sessions.View());
                && !Blank(token) && token in t.byToken && !t.objects[t.byToken[token]].revoked
                && (t.objects[t.byToken[token]].companyID == "" || t.objects[t.byToken[token]].membershipID == "")
    {
      hide Trim, Rotated, AccessToken, RefreshToken, Agree;
      ghost var before := sessions.View();
      assert token in before.byToken ==> before.objects[before.byToken[token]].sessionID in before.byID by {
        if token in before.byToken { FoundIsOwned(before, token); }
      }
      if Trim(token) == "" {
        return Err(InvalidRequest);
      }
      var found := sessions.FindByRefreshToken(token);
      if found.Err? {
        return Err(Expired);
      }
      var ss := found.value;
      if ss.revoked {
        return Err(Expired);
      }
      if ss.companyID == "" || ss.membershipID == "" {
        return Err(CompanyContextRequired);
      }
      var renewed := Renew(ss, tok, refresh);
      return Ok(renewed);
    }

    /** The second half of a refresh, for a session that is there. */
    method Renew(ss: Session, tok: string, refresh: string) returns (res: Renewed)
      requires sessions.Valid() && ss.sessionID in sessions.View().byID
      modifies sessions, sessions.objects, tokens
      ensures sessions.Valid() && tokens.preCompanyTokens == old(tokens.preCompanyTokens)
      ensures res == Renewed(AccessToken(tok), RefreshToken(refresh), ss.membershipID, ss.companyID)
      ensures sessions.View() == Rotated(old(sessions.View()), ss.sessionID, RefreshToken(refresh))
      ensures tokens.accessTokens == old(tokens.accessTokens)[AccessToken(tok) := ClaimsOf(ss)]
    {
      hide Rotated, AccessToken, RefreshToken;
      var access := tokens.IssueAccessToken(Claims(ss.userID, ss.sessionID, ss.membershipID, ss.companyID), tok);
      var failure := sessions.RotateRefreshToken(ss.sessionID, RefreshToken(refresh));
      return Renewed(access, RefreshToken(refresh), ss.membershipID, ss.companyID);
    }

    method Logout(token: string) returns (failure: Option<Refusal>)
      requires sessions.Valid()
      modifies sessions.objects
      ensures sessions.Valid()
      ensures Blank(token) ==> failure == Some(InvalidRequest) && sessions.View() == old(sessions.View())
      ensures !Blank(token) ==> sessions.View() == RevokedByToken(old(sessions.View()), token)
                                && (failure.None? <==> token in old(sessions.View()).byToken)
                                && OnlyRevokes(old(sessions.View()), sessions.View(), LedToBy(old(sessions.View()), token))
    {
      hide Trim;
      if Trim(token) == "" {
        return Some(InvalidRequest);
      }
      var missing := sessions.RevokeByRefreshToken(token);
      return if missing.Some? then Some(Expired) else None;
    }

    /** `membership` is what the directory answers for the user and the company. */
    method BindCompany(userID: string, sessionID: string, companyID: string, membership: Option<Membership>, tok: string)
      returns (res: Result<string, Refusal>)
      requires sessions.Valid()
      modifies sessions.objects, tokens
      ensures sessions.Valid() && tokens.preCompanyTokens == old(tokens.preCompanyTokens)
      ensures res.Ok? <==> userID != "" && sessionID != "" && !Blank(companyID) && membership.Some?
                           && sessionID in old(sessions.View()).byID
      ensures res.Ok? ==>
                var m := membership.value;
                && res.value == AccessToken(tok)
                && sessions.View() == InContext(old(sessions.View()), sessionID, m.membershipID, m.companyID)
                && tokens.accessTokens
                   == old(tokens.accessTokens)[AccessToken(tok) := Claims(userID, sessionID, m.membershipID, m.companyID)]
      ensures res.Err? ==> sessions.View() == old(sessions.View()) && tokens.accessTokens == old(tokens.accessTokens)
    {
      hide Trim;
      if userID == "" || sessionID == "" {
        return Err(Expired);
      }
      if Trim(companyID) == "" {
        return Err(InvalidRequest);
      }
      if membership.None? {
        return Err(MembershipNotFound);
      }
      var m := membership.value;
      var failure := sessions.UpdateContext(sessionID, m.membershipID, m.companyID);
      if failure.Some? {
        return Err(Expired);
      }
      var access := tokens.IssueAccessToken(Claims(userID, sessionID, m.membershipID, m.companyID), tok);
      return Ok(access);
    }
  }
}

/** Logging out, revoking and binding: what they mean for every later refresh. */
module SessionLaws {
  import opened Prelude
  import opened Text
  import opened Sessions
  import opened SessionFacts
  import opened SessionRuns
  import opened SessionHistory
  import opened SessionRaces

  /** The session a stored token leads to. */
  ghost function SessionOf(s: State, token: string): string
    requires InRange(s.table) && token in s.table.byToken
  {
    s.table.objects[s.table.byToken[token]].sessionID
  }

  /** No token of the session is accepted. */
  ghost predicate RefusesSession(s: State, sid: string) {
    InRange(s.table) && forall k :: k in s.table.byToken && SessionOf(s, k) == sid ==> !Accepts(s, k)
  }

  /** A revoked session has no accepted token, in any continuation. */
  lemma RevokedIsRefused(dir: Directory, s: State, steps: seq<Step>, u: State, sid: string)
    requires Inv(s) && Revoked(s.table, sid) && Run(dir, s, steps, u)
    ensures RefusesSession(u, sid)
  {
    RunEvolves(dir, s, steps, u);
    RevocationBound(dir, s, steps, u, sid);
    hide Run, Evolves, LogInv, AccessInv, Generated, InFlightOK, Blank;
    forall k | k in u.table.byToken && SessionOf(u, k) == sid ensures !Accepts(u, k) {
      FoundIsOwned(u.table, k);
    }
  }

  lemma StoredTokenIsNotBlank(s: State, token: string)
    requires IndexInv(s) && token in s.table.byToken
    ensures !Blank(token)
  {
    hide Agree, InFlightOK, Blank, RefreshToken;
    var id :| id in s.used && RefreshToken(id) == token;
    RefreshTokenNotBlank(id);
  }

  /**
   Logging out with a token that leads to a session: the session is revoked at once, no token of it is accepted then or
   ever after, and every other session's tokens are accepted as before.
   */
  lemma LogoutEndsTheSession(dir: Directory, s: State, token: string, steps: seq<Step>, u: State)
    requires Inv(s) && token in s.table.byToken && Run(dir, Next(dir, s, Logout(token)), steps, u)
    ensures var (t, sid) := (Next(dir, s, Logout(token)), SessionOf(s, token));
            && InRange(t.table) && Revoked(t.table, sid) && RefusesSession(t, sid) && RefusesSession(u, sid)
            && (forall k :: Accepts(t, k) <==> Accepts(s, k) && SessionOf(s, k) != sid)
  {
    var t := Next(dir, s, Logout(token));
    var sid := SessionOf(s, token);
    StoredTokenIsNotBlank(s, token);
    LogoutRevokes(s.table, token);
    StepKeepsInv(dir, s, Logout(token));
    FoundIsOwned(s.table, token);
    hide Run, Evolves, LogInv, AccessInv, Generated, InFlightOK, Blank, RevokedByToken;
    assert Revoked(t.table, sid);
    assert Run(dir, t, [], t) by { EmptyRunOf(dir, t); }
    RevokedIsRefused(dir, t, [], t, sid);
    RevokedIsRefused(dir, t, steps, u, sid);
    OthersAcceptAsBefore(s, t, sid, LedToBy(s.table, token));
  }

  lemma EmptyRunOf(dir: Directory, s: State)
    ensures Run(dir, s, [], s)
  {
  }

  /** When exactly one session's object is revoked, the others' tokens are accepted as before. */
  lemma OthersAcceptAsBefore(s: State, t: State, sid: string, who: set<nat>)
    requires IndexInv(s) && InRange(s.table) && InRange(t.table) && OnlyRevokes(s.table, t.table, who)
    requires sid in s.table.byID && who == {s.table.byID[sid]}
    ensures forall k :: Accepts(t, k) <==> Accepts(s, k) && SessionOf(s, k) != sid
  {
    hide Generated, InFlightOK, Blank;
    forall k | k in s.table.byToken ensures s.table.byToken[k] in who <==> SessionOf(s, k) == sid {
      FoundIsOwned(s.table, k);
    }
  }

  /** The same for a revocation by id, when the session is the user's; otherwise nothing changes. */
  lemma RevokeEndsTheSession(dir: Directory, s: State, user: string, sid: string, steps: seq<Step>, u: State)
    requires Inv(s) && !Blank(user) && !Blank(sid) && Run(dir, Next(dir, s, Revoke(user, sid)), steps, u)
    ensures var t := Next(dir, s, Revoke(user, sid));
            if sid in s.table.byID && s.table.objects[s.table.byID[sid]].userID == user then
              && InRange(t.table) && Revoked(t.table, sid) && RefusesSession(t, sid) && RefusesSession(u, sid)
              && (forall k :: Accepts(t, k) <==> Accepts(s, k) && SessionOf(s, k) != sid)
            else t == s
  {
    var t := Next(dir, s, Revoke(user, sid));
    RevokeRevokes(s.table, user, sid);
    StepKeepsInv(dir, s, Revoke(user, sid));
    if sid in s.table.byID && s.table.objects[s.table.byID[sid]].userID == user {
      hide Run, Evolves, LogInv, AccessInv, Generated, InFlightOK, Blank, RevokedByID;
      assert Revoked(t.table, sid);
      assert Run(dir, t, [], t) by { EmptyRunOf(dir, t); }
      RevokedIsRefused(dir, t, [], t, sid);
      RevokedIsRefused(dir, t, steps, u, sid);
      OthersAcceptAsBefore(s, t, sid, TheUsers(s.table, user, sid));
    }
  }

  /** Revoking all of a user's sessions revokes exactly those, for good. */
  lemma RevokeAllEndsExactlyTheUsers(dir: Directory, s: State, user: string, steps: seq<Step>, u: State)
    requires Inv(s) && Run(dir, Next(dir, s, RevokeAll(user)), steps, u)
    ensures var t := Next(dir, s, RevokeAll(user));
            && InRange(t.table) && t.table.byID == s.table.byID
            && (forall sid :: sid in s.table.byID ==>
                  (Revoked(t.table, sid) <==> Revoked(s.table, sid) || s.table.objects[s.table.byID[sid]].userID == user))
            && (forall sid :: sid in s.table.byID && s.table.objects[s.table.byID[sid]].userID == user ==> RefusesSession(u, sid))
  {
    var t := Next(dir, s, RevokeAll(user));
    RevokeAllIsExact(s.table, user);
    StepKeepsInv(dir, s, RevokeAll(user));
    hide Run, Evolves, LogInv, AccessInv, Generated, InFlightOK, Blank, RevokedAmong, RefusesSession, IndexInv;
    assert OnlyRevokes(s.table, t.table, AllOf(s.table, user));
    forall sid | sid in s.table.byID
      ensures Revoked(t.table, sid) <==> Revoked(s.table, sid) || s.table.objects[s.table.byID[sid]].userID == user
    {
      assert s.table.byID[sid] in s.table.byID.Values;
    }
    forall sid | sid in s.table.byID && s.table.objects[s.table.byID[sid]].userID == user ensures RefusesSession(u, sid) {
      RevokedIsRefused(dir, t, steps, u, sid);
    }
  }

  /** Binding puts the bearer's own session in the company, and no other session; a refresh then speaks for that company. */
  lemma BindMovesTheSession(dir: Directory, s: State, p: nat, token: string, m: Membership)
    requires Inv(s) && Enabled(dir, s, Bind(p, token, m))
    ensures var (t, who) := (Next(dir, s, Bind(p, token, m)), Bearer(s, token).value);
            if who.userID != "" && who.sessionID != "" && !Blank(m.companyID) && who.sessionID in s.table.byID then
              var i := s.table.byID[who.sessionID];
              && t.table.byToken == s.table.byToken && t.table.byID == s.table.byID
              && |t.table.objects| == |s.table.objects|
              && t.table.objects[i] == s.table.objects[i].(membershipID := m.membershipID, companyID := m.companyID)
              && (forall j :: 0 <= j < |s.table.objects| && j != i ==> t.table.objects[j] == s.table.objects[j])
            else t == s
  {
    hide IndexInv, LogInv, AccessInv, Blank;
  }
}

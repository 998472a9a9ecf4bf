/** Refresh-token sessions: the repository with its two indexes over shared session objects. */
module Sessions {
  import opened Prelude

  datatype Session = Session(
    sessionID: string, userID: string, membershipID: string, companyID: string, refreshToken: string,
    revoked: bool, ip: string, userAgent: string)

  datatype Failure = SessionExpired | SessionNotFound

  /**
   The repository as a value. Every session object ever made has a number, and both indexes hold numbers,
   so that two keys of the indexes may lead to one object.
   */
  datatype Table = Table(objects: seq<Session>, byToken: map<string, nat>, byID: map<string, nat>)

  ghost predicate InRange(t: Table) {
    && (forall k :: k in t.byToken ==> t.byToken[k] < |t.objects|)
    && (forall k :: k in t.byID ==> t.byID[k] < |t.objects|)
  }

  // ---------------------------------------------------------------- the operations as functions

  function Created(t: Table, x: Session): Table {
    Table(t.objects + [x], t.byToken[x.refreshToken := |t.objects|], t.byID[x.sessionID := |t.objects|])
  }

  ghost function Found(t: Table, token: string): Option<Session>
    requires InRange(t)
  {
    if token in t.byToken then Some(t.objects[t.byToken[token]]) else None
  }

  ghost function Changed(t: Table, i: nat, x: Session): Table
    requires i < |t.objects|
  {
    t.(objects := t.objects[i := x])
  }

  ghost function RevokedByToken(t: Table, token: string): Table
    requires InRange(t)
  {
    if token in t.byToken then Changed(t, t.byToken[token], t.objects[t.byToken[token]].(revoked := true)) else t
  }

  ghost predicate OwnedBy(t: Table, userID: string, sessionID: string)
    requires InRange(t)
  {
    sessionID in t.byID && t.objects[t.byID[sessionID]].userID == userID
  }

  ghost function RevokedByID(t: Table, userID: string, sessionID: string): Table
    requires InRange(t)
  {
    if OwnedBy(t, userID, sessionID)
    then Changed(t, t.byID[sessionID], t.objects[t.byID[sessionID]].(revoked := true)) else t
  }

  ghost predicate Listed(t: Table, ids: set<string>, i: nat) {
    exists k :: k in ids && k in t.byID && t.byID[k] == i
  }

  /** The sessions that `ids` lead to and that belong to the user are revoked. */
  ghost function RevokedAmong(t: Table, ids: set<string>, userID: string): Table
    requires InRange(t)
  {
    t.(objects := seq(|t.objects|, i requires 0 <= i < |t.objects| =>
      if Listed(t, ids, i) && t.objects[i].userID == userID then t.objects[i].(revoked := true) else t.objects[i]))
  }

  ghost function InContext(t: Table, sessionID: string, membershipID: string, companyID: string): Table
    requires InRange(t)
  {
    if sessionID in t.byID
    then Changed(t, t.byID[sessionID], t.objects[t.byID[sessionID]].(membershipID := membershipID, companyID := companyID))
    else t
  }

  ghost function Rotated(t: Table, sessionID: string, newToken: string): Table
    requires InRange(t)
  {
    if sessionID !in t.byID then t
    else
      var i := t.byID[sessionID];
      Table(t.objects[i := t.objects[i].(refreshToken := newToken)],
            (t.byToken - {t.objects[i].refreshToken})[newToken := i],
            t.byID)
  }

  /** `out` gives the user's sessions, each once, in the order of their ids `ids`; those in `todo` may be missing. */
  ghost predicate IsPartListing(t: Table, userID: string, out: seq<Session>, ids: seq<string>, todo: set<string>)
    requires InRange(t)
  {
    && |ids| == |out| && (forall i, j :: 0 <= i < j < |ids| ==> ids[i] != ids[j])
    && (forall i :: 0 <= i < |ids| ==> ids[i] !in todo && OwnedBy(t, userID, ids[i]) && out[i] == t.objects[t.byID[ids[i]]])
    && (forall k :: OwnedBy(t, userID, k) ==> k in ids || k in todo)
  }

  ghost predicate IsListing(t: Table, userID: string, out: seq<Session>, ids: seq<string>)
    requires InRange(t)
  {
    IsPartListing(t, userID, out, ids, {})
  }

  // ---------------------------------------------------------------- what the operations do, object by object

  /** The two tables differ in that the objects `who` are revoked in the second, and in nothing else. */
  ghost predicate OnlyRevokes(t: Table, u: Table, who: set<nat>) {
    && u.byToken == t.byToken && u.byID == t.byID && |u.objects| == |t.objects|
    && forall i :: 0 <= i < |t.objects| ==>
                     u.objects[i] == t.objects[i].(revoked := t.objects[i].revoked || i in who)
  }

  /** The object a token leads to. */
  function LedToBy(t: Table, token: string): set<nat> { if token in t.byToken then {t.byToken[token]} else {} }

  /** The object of a session id, if it is the user's. */
  function TheUsers(t: Table, userID: string, sessionID: string): set<nat>
    requires sessionID in t.byID ==> t.byID[sessionID] < |t.objects|
  {
    if sessionID in t.byID && t.objects[t.byID[sessionID]].userID == userID then {t.byID[sessionID]} else {}
  }

  /** All objects of the user that some id leads to. */
  ghost function AllOf(t: Table, userID: string): set<nat> {
    set i | 0 <= i < |t.objects| && t.objects[i].userID == userID && i in t.byID.Values
  }

  lemma LogoutRevokes(t: Table, token: string)
    requires InRange(t)
    ensures OnlyRevokes(t, RevokedByToken(t, token), LedToBy(t, token))
  {
  }

  lemma RevokeRevokes(t: Table, userID: string, sessionID: string)
    requires InRange(t)
    ensures OnlyRevokes(t, RevokedByID(t, userID, sessionID), TheUsers(t, userID, sessionID))
  {
  }

  lemma RevokeAllIsExact(t: Table, userID: string)
    requires InRange(t)
    ensures OnlyRevokes(t, RevokedAmong(t, t.byID.Keys, userID), AllOf(t, userID))
  {
    forall i | 0 <= i < |t.objects| ensures Listed(t, t.byID.Keys, i) <==> i in t.byID.Values {
      if i in t.byID.Values {
        var k :| k in t.byID && t.byID[k] == i;
        assert k in t.byID.Keys;
      }
    }
  }

  // ---------------------------------------------------------------- the repository

  class SessionState {
    var sessionID: string
    var userID: string
    var membershipID: string
    var companyID: string
    var refreshToken: string
    var revoked: bool
    var ip: string
    var userAgent: string

    constructor (sessionID: string, userID: string, membershipID: string, companyID: string, refreshToken: string,
                 ip: string, userAgent: string)
      ensures Value() == Session(sessionID, userID, membershipID, companyID, refreshToken, false, ip, userAgent)
    {
      this.sessionID, this.userID, this.membershipID, this.companyID := sessionID, userID, membershipID, companyID;
      this.refreshToken, this.revoked, this.ip, this.userAgent := refreshToken, false, ip, userAgent;
    }

    function Value(): Session
      reads this
    {
      Session(sessionID, userID, membershipID, companyID, refreshToken, revoked, ip, userAgent)
    }
  }

  class SessionRepository {
    var byRefreshToken: map<string, SessionState>
    var bySessionID: map<string, SessionState>
    ghost var objects: seq<SessionState>
    ghost var tokenIndex: map<string, nat>
    ghost var idIndex: map<string, nat>

    /** The ghost numbering describes the two maps of references. It asks nothing of their contents. */
    ghost predicate Valid()
      reads this
    {
      && (forall i, j :: 0 <= i < j < |objects| ==> objects[i] != objects[j])
      && byRefreshToken.Keys == tokenIndex.Keys
      && (forall k :: k in tokenIndex ==> tokenIndex[k] < |objects| && byRefreshToken[k] == objects[tokenIndex[k]])
      && bySessionID.Keys == idIndex.Keys
      && (forall k :: k in idIndex ==> idIndex[k] < |objects| && bySessionID[k] == objects[idIndex[k]])
    }

    ghost function View(): (t: Table)
      requires Valid()
      reads this, objects
      ensures InRange(t)
    {
      Table(seq(|objects|, i requires 0 <= i < |objects| reads this, objects => objects[i].Value()), tokenIndex, idIndex)
    }

    constructor ()
      ensures Valid() && View() == Table([], map[], map[])
    {
      byRefreshToken, bySessionID := map[], map[];
      objects, tokenIndex, idIndex := [], map[], map[];
    }

    method Create(sessionID: string, userID: string, membershipID: string, companyID: string, refreshToken: string,
                  ip: string, userAgent: string)
      requires Valid()
      modifies this
      ensures Valid() && |objects| == |old(objects)| + 1 && objects[..|old(objects)|] == old(objects)
      ensures fresh(objects[|old(objects)|])
      ensures View() == Created(old(View()),
                                Session(sessionID, userID, membershipID, companyID, refreshToken, false, ip, userAgent))
      ensures var (t, u) := (old(View()), View());
              && u.objects == t.objects + [Session(sessionID, userID, membershipID, companyID, refreshToken, false, ip, userAgent)]
              && u.byToken == t.byToken[refreshToken := |t.objects|] && u.byID == t.byID[sessionID := |t.objects|]
    {
      var ss := new SessionState(sessionID, userID, membershipID, companyID, refreshToken, ip, userAgent);
      tokenIndex, idIndex := tokenIndex[refreshToken := |objects|], idIndex[sessionID := |objects|];
      objects := objects + [ss];
      byRefreshToken := byRefreshToken[refreshToken := ss];
      bySessionID := bySessionID[sessionID := ss];
    }

    /** Gives a copy. */
    method FindByRefreshToken(refreshToken: string) returns (res: Result<Session, Failure>)
      requires Valid()
      ensures res == match Found(View(), refreshToken) case None => Err(SessionExpired) case Some(x) => Ok(x)
      ensures res == if refreshToken in View().byToken then Ok(View().objects[View().byToken[refreshToken]])
                     else Err(SessionExpired)
    {
      if refreshToken !in byRefreshToken {
        return Err(SessionExpired);
      }
      return Ok(byRefreshToken[refreshToken].Value());
    }

    method RevokeByRefreshToken(refreshToken: string) returns (failure: Option<Failure>)
      requires Valid()
      modifies objects
      ensures Valid()
      ensures failure == if refreshToken in old(View()).byToken then None else Some(SessionExpired)
      ensures View() == RevokedByToken(old(View()), refreshToken)
      ensures OnlyRevokes(old(View()), View(), LedToBy(old(View()), refreshToken))
    {
      LogoutRevokes(View(), refreshToken);
      if refreshToken !in byRefreshToken {
        return Some(SessionExpired);
      }
      var ss := byRefreshToken[refreshToken];
      ss.revoked := true;
      return None;
    }

    method UpdateContext(sessionID: string, membershipID: string, companyID: string) returns (failure: Option<Failure>)
      requires Valid()
      modifies objects
      ensures Valid()
      ensures failure == if sessionID in old(View()).byID then None else Some(SessionExpired)
      ensures View() == InContext(old(View()), sessionID, membershipID, companyID)
      ensures failure.None? ==>
                var i := old(View()).byID[sessionID];
                View() == old(View()).(objects := old(View()).objects[i :=
                                       old(View()).objects[i].(membershipID := membershipID, companyID := companyID)])
    {
      if sessionID !in bySessionID {
        return Some(SessionExpired);
      }
      var ss := bySessionID[sessionID];
      ss.membershipID := membershipID;
      ss.companyID := companyID;
      return None;
    }

    method RotateRefreshToken(sessionID: string, newRefreshToken: string) returns (failure: Option<Failure>)
      requires Valid()
      modifies this, objects
      ensures Valid() && objects == old(objects)
      ensures failure == if sessionID in old(View()).byID then None else Some(SessionExpired)
      ensures View() == Rotated(old(View()), sessionID, newRefreshToken)
      ensures failure.None? ==>
                var (i, x) := (old(View()).byID[sessionID], old(View()).objects[old(View()).byID[sessionID]]);
                && View().objects == old(View()).objects[i := x.(refreshToken := newRefreshToken)]
                && newRefreshToken in View().byToken && View().byToken[newRefreshToken] == i
                && (x.refreshToken != newRefreshToken ==> x.refreshToken !in View().byToken)
    {
      if sessionID !in bySessionID {
        return Some(SessionExpired);
      }
      var ss := bySessionID[sessionID];
      tokenIndex := (tokenIndex - {ss.refreshToken})[newRefreshToken := idIndex[sessionID]];
      byRefreshToken := byRefreshToken - {ss.refreshToken};
      ss.refreshToken := newRefreshToken;
      byRefreshToken := byRefreshToken[newRefreshToken := ss];
      return None;
    }

    /** In an order of the map's choosing. */
    method ListByUser(userID: string) returns (out: seq<Session>)
      requires Valid()
      ensures exists ids :: IsListing(View(), userID, out, ids)
    {
      ghost var ids: seq<string> := [];
      out := [];
      var todo := bySessionID.Keys;
      while todo != {}
        invariant todo <= bySessionID.Keys
        invariant IsPartListing(View(), userID, out, ids, todo)
      {
        var k :| k in todo;
        todo := todo - {k};
        var ss := bySessionID[k];
        if ss.userID == userID {
          out, ids := out + [ss.Value()], ids + [k];
        }
      }
      assert IsListing(View(), userID, out, ids);
    }

    method RevokeBySessionID(userID: string, sessionID: string) returns (failure: Option<Failure>)
      requires Valid()
      modifies objects
      ensures Valid()
      ensures failure == if OwnedBy(old(View()), userID, sessionID) then None else Some(SessionNotFound)
      ensures View() == RevokedByID(old(View()), userID, sessionID)
      ensures OnlyRevokes(old(View()), View(), TheUsers(old(View()), userID, sessionID))
    {
      RevokeRevokes(View(), userID, sessionID);
      if sessionID !in bySessionID || bySessionID[sessionID].userID != userID {
        return Some(SessionNotFound);
      }
      var ss := bySessionID[sessionID];
      ss.revoked := true;
      return None;
    }

    method RevokeAllByUser(userID: string)
      requires Valid()
      modifies objects
      ensures Valid()
      ensures View() == RevokedAmong(old(View()), old(bySessionID.Keys), userID)
      ensures OnlyRevokes(old(View()), View(), AllOf(old(View()), userID))
    {
      hide OnlyRevokes, AllOf, Listed;
      ghost var before := View();
      assert bySessionID.Keys == before.byID.Keys;
      ghost var done: set<string> := {};
      var todo := bySessionID.Keys;
      assert View().objects == RevokedAmong(before, done, userID).objects by { NoneListed(before); }
      while todo != {}
        invariant done + todo == bySessionID.Keys && done !! todo
        invariant Valid() && View() == RevokedAmong(before, done, userID)
      {
        var k :| k in todo;
        todo := todo - {k};
        RevokesOneMore(before, done, k, userID);
        ghost var was := View();
        var ss := bySessionID[k];
        if ss.userID == userID {
          ss.revoked := true;
          assert View().objects == Changed(was, idIndex[k], was.objects[idIndex[k]].(revoked := true)).objects;
        }
        done := done + {k};
      }
      RevokeAllIsExact(before, userID);
    }
  }

  lemma RevokesOneMore(t: Table, ids: set<string>, k: string, userID: string)
    requires InRange(t) && k in t.byID
    ensures var was := RevokedAmong(t, ids, userID);
            var i := t.byID[k];
            RevokedAmong(t, ids + {k}, userID)
            == if was.objects[i].userID == userID then Changed(was, i, was.objects[i].(revoked := true)) else was
  {
    hide Listed;
    ListedGrows(t, ids, k);
    var was := RevokedAmong(t, ids, userID);
    var i := t.byID[k];
    var later := Changed(was, i, was.objects[i].(revoked := true));
    assert was.objects[i].userID == userID ==> RevokedAmong(t, ids + {k}, userID).objects == later.objects;
    assert was.objects[i].userID != userID ==> RevokedAmong(t, ids + {k}, userID).objects == was.objects;
  }

  lemma NoneListed(t: Table)
    ensures forall i: nat :: !Listed(t, {}, i)
  {
  }

  lemma ListedGrows(t: Table, ids: set<string>, k: string)
    requires k in t.byID
    ensures forall i: nat :: Listed(t, ids + {k}, i) <==> Listed(t, ids, i) || t.byID[k] == i
  {
    forall i: nat | Listed(t, ids, i) ensures Listed(t, ids + {k}, i) {
      var x :| x in ids && x in t.byID && t.byID[x] == i;
      assert x in ids + {k};
    }
    forall i: nat | t.byID[k] == i ensures Listed(t, ids + {k}, i) {
      assert k in ids + {k};
    }
  }
}

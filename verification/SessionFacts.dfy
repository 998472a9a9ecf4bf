/** When the two session indexes agree. */
module SessionFacts {
  import opened Prelude
  import opened Sessions

  /** The indexes are in bijection: every token leads to a session that its id leads to, and back. */
  ghost predicate Agree(t: Table) {
    && InRange(t)
    && (forall k :: k in t.byToken ==> TokenOK(t, k))
    && (forall k :: k in t.byID ==> IDOK(t, k))
  }

  ghost predicate TokenOK(t: Table, token: string)
    requires InRange(t) && token in t.byToken
  {
    var i := t.byToken[token];
    var x := t.objects[i];
    x.refreshToken == token && x.sessionID in t.byID && t.byID[x.sessionID] == i
  }

  ghost predicate IDOK(t: Table, sessionID: string)
    requires InRange(t) && sessionID in t.byID
  {
    var i := t.byID[sessionID];
    var x := t.objects[i];
    x.sessionID == sessionID && x.refreshToken in t.byToken && t.byToken[x.refreshToken] == i
  }

  /** Each session is led to by exactly one token: the one it stores. */
  lemma ExactlyOneToken(t: Table, sessionID: string, token: string)
    requires Agree(t) && sessionID in t.byID
    ensures token in t.byToken && t.byToken[token] == t.byID[sessionID]
            <==> token == t.objects[t.byID[sessionID]].refreshToken
  {
    assert IDOK(t, sessionID);
    if token in t.byToken { assert TokenOK(t, token); }
  }

  /** A new session keeps the indexes in agreement exactly when its id and its token are both new or belong to one session. */
  lemma CreateAgreesIff(t: Table, x: Session)
    requires Agree(t)
    ensures Agree(Created(t, x)) <==>
            || (x.sessionID !in t.byID && x.refreshToken !in t.byToken)
            || (x.sessionID in t.byID && x.refreshToken in t.byToken && t.byID[x.sessionID] == t.byToken[x.refreshToken])
  {
    var after := Created(t, x);
    if x.refreshToken in t.byToken {
      var y := t.objects[t.byToken[x.refreshToken]];
      assert TokenOK(t, x.refreshToken);
      assert y.sessionID != x.sessionID && Agree(after) ==> IDOK(after, y.sessionID);
    }
    if x.sessionID in t.byID {
      var y := t.objects[t.byID[x.sessionID]];
      assert IDOK(t, x.sessionID);
      assert y.refreshToken != x.refreshToken && Agree(after) ==> TokenOK(after, y.refreshToken);
    }
    if (x.sessionID in t.byID <==> x.refreshToken in t.byToken)
       && (x.sessionID in t.byID ==> t.byID[x.sessionID] == t.byToken[x.refreshToken]) {
      forall k | k in after.byToken ensures TokenOK(after, k) { assert k in t.byToken ==> TokenOK(t, k); }
      forall k | k in after.byID ensures IDOK(after, k) { assert k in t.byID ==> IDOK(t, k); }
    }
  }

  /** A rotation keeps the agreement exactly when the new token is new, or already the session's own. */
  lemma RotateAgreesIff(t: Table, sessionID: string, newToken: string)
    requires Agree(t) && sessionID in t.byID
    ensures Agree(Rotated(t, sessionID, newToken)) <==>
            newToken !in t.byToken || t.byToken[newToken] == t.byID[sessionID]
  {
    var i := t.byID[sessionID];
    var after := Rotated(t, sessionID, newToken);
    assert IDOK(t, sessionID);
    if newToken !in t.byToken || t.byToken[newToken] == i {
      forall k | k in after.byToken ensures TokenOK(after, k) { assert k != newToken ==> TokenOK(t, k); }
      forall k | k in after.byID ensures IDOK(after, k) {
        assert IDOK(t, k);
        if k != sessionID { assert t.byID[k] != i; }
      }
    } else {
      assert TokenOK(t, newToken);
      var y := t.objects[t.byToken[newToken]];
      assert !IDOK(after, y.sessionID);
    }
  }

  /** Two tables whose sessions differ only in context and revocation. */
  ghost predicate SameKeys(t: Table, u: Table) {
    && |t.objects| == |u.objects| && t.byToken == u.byToken && t.byID == u.byID
    && forall i :: 0 <= i < |t.objects| ==>
                     && u.objects[i].sessionID == t.objects[i].sessionID
                     && u.objects[i].refreshToken == t.objects[i].refreshToken
                     && u.objects[i].userID == t.objects[i].userID
                     && (t.objects[i].revoked ==> u.objects[i].revoked)
  }

  lemma SameKeysAgree(t: Table, u: Table)
    requires SameKeys(t, u) && Agree(t)
    ensures Agree(u)
  {
    forall k | k in u.byToken ensures TokenOK(u, k) { assert TokenOK(t, k); }
    forall k | k in u.byID ensures IDOK(u, k) { assert IDOK(t, k); }
  }

  /** The other operations touch neither keys nor owners and undo no revocation. */
  lemma RevokeKeepsKeys(t: Table, token: string, userID: string, sessionID: string)
    requires InRange(t)
    ensures SameKeys(t, RevokedByToken(t, token)) && SameKeys(t, RevokedByID(t, userID, sessionID))
  {
  }

  lemma RevokeAllKeepsKeys(t: Table, ids: set<string>, userID: string)
    requires InRange(t)
    ensures SameKeys(t, RevokedAmong(t, ids, userID))
  {
    hide Listed;
  }

  lemma ContextKeepsKeys(t: Table, sessionID: string, m: string, c: string)
    requires InRange(t)
    ensures SameKeys(t, InContext(t, sessionID, m, c))
  {
  }

  lemma SameKeysRefl(t: Table)
    ensures SameKeys(t, t)
  {
  }

  lemma AgreeInRange(t: Table)
    requires Agree(t)
    ensures InRange(t)
  {
  }
}

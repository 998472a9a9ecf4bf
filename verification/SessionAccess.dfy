/** Access tokens of a revoked session: what still issues them, and exactly when nothing does. */
module SessionAccess {
  import opened Prelude
  import opened Text
  import opened Sessions
  import opened SessionFacts
  import opened SessionRuns
  import opened SessionHistory
  import opened SessionRaces

  /** The access tokens issued for a session. */
  function AccessFor(s: State, sid: string): set<string> { set k | k in s.access && s.access[k].sessionID == sid }

  /** A refresh or binding of the session passed its check and is about to issue a token. */
  predicate AboutToIssue(ph: Phase, sid: string) {
    (ph.Refreshing? && ph.found.sessionID == sid) || (ph.Binding? && ph.claims.sessionID == sid)
  }

  function Issuers(s: State, sid: string): set<nat> { set p | p in s.phases && AboutToIssue(s.phases[p], sid) }

  /** The token speaks for the session, and its user has a membership to bind the session to. */
  predicate Binds(dir: Directory, s: State, token: string, m: Membership, sid: string) {
    && Bearer(s, token).Some? && Bearer(s, token).value.sessionID == sid && sid != ""
    && Bearer(s, token).value.userID != "" && dir(Bearer(s, token).value.userID, m) && !Blank(m.companyID)
  }

  /** The step binds the session by one of its own tokens. */
  predicate BindsNow(dir: Directory, s: State, step: Step, sid: string) {
    step.Bind? && Binds(dir, s, step.token, step.m, sid)
  }

  // ---------------------------------------------------------------- one step after revocation

  lemma PhasesAfterFind(s: State, p: nat, token: string, sid: string)
    requires IndexInv(s) && InRange(s.table) && Revoked(s.table, sid)
    ensures Accepts(s, token) ==> s.table.objects[s.table.byToken[token]].sessionID != sid
  {
    hide Generated, Apart, InFlightOK, Blank;
    if Accepts(s, token) { FoundIsOwned(s.table, token); }
  }

  lemma IdIsUsed(s: State, sid: string)
    requires IndexInv(s) && InRange(s.table) && Revoked(s.table, sid)
    ensures sid in s.used
  {
    hide Generated, Apart, InFlightOK, Agree;
  }

  /** What a step adds to the session's access tokens it takes from those about to issue; only a binding adds to these. */
  lemma RevokedAccessStep(dir: Directory, s: State, step: Step, sid: string)
    requires Inv(s) && Enabled(dir, s, step) && Revoked(s.table, sid)
    ensures var t := Next(dir, s, step);
            |AccessFor(t, sid)| + |Issuers(t, sid)|
            <= |AccessFor(s, sid)| + |Issuers(s, sid)| + if BindsNow(dir, s, step, sid) then 1 else 0
  {
    hide IndexInv, LogInv, AccessInv, AccessFor, Issuers, Revoked, Binds;
    var t := Next(dir, s, step);
    match step {
      case LoginIssue(p, user, from, active, id, refresh, tok) =>
        IdIsUsed(s, sid);
        LoginKeepsAccess(s, p, LoginSession(user, from, active, id, refresh), |active| == 1, {id, refresh, tok}, tok, sid);
      case RefreshIssue(p, tok) =>
        IssueMoves(s, p, ClaimsOf(s.phases[p].found), tok, s.phases[p := Renewing(s.phases[p].found)], sid);
      case BindIssue(p, tok) =>
        IssueMoves(s, p, s.phases[p].claims, tok, s.phases - {p}, sid);
      case Bind(p, token, m) =>
        BindAddsOne(dir, s, p, token, m, sid);
      case RefreshFind(p, token) =>
        PhasesAfterFind(s, p, token, sid);
        FindAddsNone(s, p, token, sid);
      case _ =>
        OthersAddNone(s, t, sid);
    }
  }

  lemma LoginKeepsAccess(s: State, p: nat, x: Session, bound: bool, ids: set<string>, tok: string, sid: string)
    requires x.sessionID != sid && p !in s.phases
    ensures var t := AfterLoginIssue(s, p, x, bound, ids, tok);
            |AccessFor(t, sid)| <= |AccessFor(s, sid)| && |Issuers(t, sid)| <= |Issuers(s, sid)|
  {
    hide AccessToken, PreToken;
    var t := AfterLoginIssue(s, p, x, bound, ids, tok);
    SubsetSize(AccessFor(t, sid), AccessFor(s, sid));
    SubsetSize(Issuers(t, sid), Issuers(s, sid));
  }

  lemma IssuerDone(s: State, t: State, p: nat, sid: string)
    requires t.phases - {p} == s.phases - {p} && (p in t.phases ==> !AboutToIssue(t.phases[p], sid))
    ensures Issuers(t, sid) == Issuers(s, sid) - {p}
    ensures |Issuers(t, sid)| == |Issuers(s, sid)| - if p in Issuers(s, sid) then 1 else 0
  {
    hide AboutToIssue;
    forall q | q != p ensures (q in t.phases <==> q in s.phases) && (q in t.phases ==> t.phases[q] == s.phases[q]) {
      assert q in t.phases - {p} <==> q in s.phases - {p};
      assert q in t.phases ==> (t.phases - {p})[q] == (s.phases - {p})[q];
    }
    assert Issuers(t, sid) == Issuers(s, sid) - {p};
  }

  lemma IssueMoves(s: State, p: nat, c: Claims, tok: string, phases: map<nat, Phase>, sid: string)
    requires p in s.phases && (AboutToIssue(s.phases[p], sid) <==> c.sessionID == sid)
    requires phases - {p} == s.phases - {p} && (p in phases ==> !AboutToIssue(phases[p], sid))
    ensures var t := AfterAccess(s, c, tok, phases);
            |AccessFor(t, sid)| + |Issuers(t, sid)| <= |AccessFor(s, sid)| + |Issuers(s, sid)|
  {
    hide AccessToken, AboutToIssue;
    var t := AfterAccess(s, c, tok, phases);
    IssuerDone(s, t, p, sid);
    assert c.sessionID == sid ==> p in Issuers(s, sid);
    hide Issuers;
    var (some, more) := (AccessFor(s, sid), AccessFor(t, sid));
    if c.sessionID == sid {
      SubsetSize(more, some + {AccessToken(tok)});
    } else {
      SubsetSize(more, some);
    }
  }

  lemma BindAddsOne(dir: Directory, s: State, p: nat, token: string, m: Membership, sid: string)
    requires InRange(s.table) && p !in s.phases && Bearer(s, token).Some? && dir(Bearer(s, token).value.userID, m)
    ensures var t := AfterBind(s, p, Bearer(s, token).value, m);
            && AccessFor(t, sid) == AccessFor(s, sid)
            && |Issuers(t, sid)| <= |Issuers(s, sid)| + if Binds(dir, s, token, m, sid) then 1 else 0
  {
    hide Blank, InContext, Bearer, InRange, AccessFor, Issuers;
    var who := Bearer(s, token).value;
    var t := AfterBind(s, p, who, m);
    SameAccess(s, t, sid);
    if t != s {
      OneMorePhase(s, t, p, sid);
      assert who.sessionID == sid ==> Binds(dir, s, token, m, sid);
    }
  }

  lemma OneMorePhase(s: State, t: State, p: nat, sid: string)
    requires p !in s.phases && p in t.phases && t.phases == s.phases[p := t.phases[p]]
    ensures |Issuers(t, sid)| <= |Issuers(s, sid)| + if AboutToIssue(t.phases[p], sid) then 1 else 0
  {
    hide AboutToIssue;
    if AboutToIssue(t.phases[p], sid) {
      SubsetSize(Issuers(t, sid), Issuers(s, sid) + {p});
    } else {
      SubsetSize(Issuers(t, sid), Issuers(s, sid));
    }
  }

  lemma FindAddsNone(s: State, p: nat, token: string, sid: string)
    requires InRange(s.table) && p !in s.phases
    requires Accepts(s, token) ==> s.table.objects[s.table.byToken[token]].sessionID != sid
    ensures var t := AfterFind(s, p, token);
            AccessFor(t, sid) == AccessFor(s, sid) && |Issuers(t, sid)| <= |Issuers(s, sid)|
  {
    hide Accepts;
    assert Accepts(s, token) ==> token in s.table.byToken by { AcceptedIsIn(s, token); }
    SubsetSize(Issuers(AfterFind(s, p, token), sid), Issuers(s, sid));
  }

  lemma AcceptedIsIn(s: State, token: string)
    requires InRange(s.table)
    ensures Accepts(s, token) ==> token in s.table.byToken
  {
    hide Blank;
  }

  lemma OthersAddNone(s: State, t: State, sid: string)
    requires t.access == s.access && forall p :: p in t.phases ==> p in s.phases && t.phases[p] == s.phases[p]
    ensures |AccessFor(t, sid)| == |AccessFor(s, sid)| && |Issuers(t, sid)| <= |Issuers(s, sid)|
  {
    assert AccessFor(t, sid) == AccessFor(s, sid);
    SubsetSize(Issuers(t, sid), Issuers(s, sid));
  }

  // ---------------------------------------------------------------- over runs

  /** How many steps of the run bind the session by one of its own tokens. */
  ghost function Bindings(dir: Directory, s: State, steps: seq<Step>, last: State, sid: string): nat
    requires Run(dir, s, steps, last)
    decreases |steps|
  {
    if steps == [] then 0
    else (if BindsNow(dir, s, steps[0], sid) then 1 else 0) + Bindings(dir, Next(dir, s, steps[0]), steps[1..], last, sid)
  }

  /**
   Every access token a revoked session gets comes from a refresh or binding that was under way, or from a binding
   made with one of the session's own tokens.
   */
  lemma {:induction false} AccessBound(dir: Directory, s: State, steps: seq<Step>, t: State, sid: string)
    requires Inv(s) && Run(dir, s, steps, t) && Revoked(s.table, sid)
    ensures |AccessFor(t, sid)| + |Issuers(t, sid)|
            <= |AccessFor(s, sid)| + |Issuers(s, sid)| + Bindings(dir, s, steps, t, sid)
    decreases |steps|
  {
    hide IndexInv, LogInv, AccessInv, Next, Enabled, AccessFor, Issuers, BindsNow, Spent;
    if steps != [] {
      var mid := Next(dir, s, steps[0]);
      StepKeepsInv(dir, s, steps[0]);
      RevokedAccessStep(dir, s, steps[0], sid);
      RevokedStays(s, mid, sid);
      AccessBound(dir, mid, steps[1..], t, sid);
    }
  }

  lemma RevokedStays(s: State, t: State, sid: string)
    requires InRange(s.table) && InRange(t.table) && Evolves(s, t) && Revoked(s.table, sid)
    ensures Revoked(t.table, sid)
  {
    hide Spent;
  }

  // ---------------------------------------------------------------- exactly when nothing is issued

  /** Something of the session is about to issue, or one of its tokens can bind it. */
  ghost predicate CanIssue(dir: Directory, s: State, sid: string) {
    Issuers(s, sid) != {} || exists token, m :: Binds(dir, s, token, m, sid)
  }

  lemma NothingNew(dir: Directory, s: State, step: Step, sid: string)
    requires Inv(s) && Enabled(dir, s, step) && Revoked(s.table, sid) && !CanIssue(dir, s, sid)
    ensures var t := Next(dir, s, step); AccessFor(t, sid) == AccessFor(s, sid) && !CanIssue(dir, t, sid)
  {
    var t := Next(dir, s, step);
    StepKeepsInv(dir, s, step);
    RevokedAccessStep(dir, s, step, sid);
    IdIsUsed(s, sid);
    hide IndexInv, LogInv, AccessInv, Revoked, Issuers, Spent;
    assert !BindsNow(dir, s, step, sid);
    AccessGrows(s, t, sid);
    forall token, m ensures !Binds(dir, t, token, m, sid) {
      assert !Binds(dir, s, token, m, sid);
      if Bearer(t, token).Some? && Bearer(t, token).value.sessionID == sid { BearerIsOld(dir, s, step, token, sid); }
    }
  }

  lemma AccessGrows(s: State, t: State, sid: string)
    requires Evolves(s, t)
    ensures AccessFor(s, sid) <= AccessFor(t, sid)
    ensures |AccessFor(t, sid)| <= |AccessFor(s, sid)| ==> AccessFor(t, sid) == AccessFor(s, sid)
  {
    hide Spent;
    SubsetSize(AccessFor(s, sid), AccessFor(t, sid));
  }

  lemma BearerIsOld(dir: Directory, s: State, step: Step, token: string, sid: string)
    requires Inv(s) && Enabled(dir, s, step) && sid in s.used && Issuers(s, sid) == {}
    requires Bearer(Next(dir, s, step), token).Some? && Bearer(Next(dir, s, step), token).value.sessionID == sid
    ensures Bearer(s, token) == Bearer(Next(dir, s, step), token)
  {
    hide IndexInv, LogInv, AccessInv, AccessToken, PreToken, Accepts, RevokedByToken, RevokedByID, RevokedAmong, Rotated,
      InContext, Created, RefreshToken, Blank;
    if step.RefreshIssue? || step.BindIssue? { assert step.p !in Issuers(s, sid); }
  }

  lemma {:induction false} NothingEverIssued(dir: Directory, s: State, steps: seq<Step>, t: State, sid: string)
    requires Inv(s) && Run(dir, s, steps, t) && Revoked(s.table, sid) && !CanIssue(dir, s, sid)
    ensures AccessFor(t, sid) == AccessFor(s, sid)
    decreases |steps|
  {
    hide IndexInv, LogInv, AccessInv, Next, Enabled, AccessFor, CanIssue, Spent;
    if steps != [] {
      var mid := Next(dir, s, steps[0]);
      StepKeepsInv(dir, s, steps[0]);
      NothingNew(dir, s, steps[0], sid);
      RevokedStays(s, mid, sid);
      NothingEverIssued(dir, mid, steps[1..], t, sid);
    }
  }

  // ---------------------------------------------------------------- what is about to issue, issues

  /** A refresh or binding under way issues its token. */
  lemma IssuerIssues(dir: Directory, first: State, steps: seq<Step>, s: State, p: nat, sid: string, tok: string)
    returns (all: seq<Step>, t: State)
    requires Inv(s) && Run(dir, first, steps, s) && p in Issuers(s, sid) && tok !in s.used
    ensures Run(dir, first, all, t) && AccessFor(t, sid) == AccessFor(s, sid) + {AccessToken(tok)}
    ensures |AccessFor(t, sid)| == |AccessFor(s, sid)| + 1
    ensures t.table == s.table && t.pre == s.pre && t.used == s.used + {tok}
    ensures AccessToken(tok) in t.access && t.access == s.access[AccessToken(tok) := t.access[AccessToken(tok)]]
  {
    AccessIsNew(s, tok);
    hide Run, IndexInv, LogInv, AccessInv, AccessToken, AccessFor;
    var step := if s.phases[p].Refreshing? then RefreshIssue(p, tok) else BindIssue(p, tok);
    t := OneMore(dir, first, steps, s, step);
    all := steps + [step];
    AccessPlus(s, t, AccessToken(tok), sid);
  }

  lemma AccessPlus(s: State, t: State, k: string, sid: string)
    requires k !in s.access && k in t.access && t.access == s.access[k := t.access[k]] && t.access[k].sessionID == sid
    ensures AccessFor(t, sid) == AccessFor(s, sid) + {k} && |AccessFor(t, sid)| == |AccessFor(s, sid)| + 1
  {
    assert k !in AccessFor(s, sid);
    assert AccessFor(t, sid) == AccessFor(s, sid) + {k};
  }

  lemma StaysListed(s: State, t: State, sid: string)
    requires Evolves(s, t) && sid in s.table.byID
    ensures sid in t.table.byID
  {
    hide Spent;
  }

  /** A bearer of the session binds it and is given an access token, and can do so again. */
  lemma BearerBinds(dir: Directory, first: State, steps: seq<Step>, s: State, token: string, m: Membership, sid: string)
    returns (all: seq<Step>, t: State)
    requires Inv(first) && Run(dir, first, steps, s) && Inv(s) && sid in s.table.byID && Binds(dir, s, token, m, sid)
    ensures Run(dir, first, all, t) && Inv(t) && sid in t.table.byID && Binds(dir, t, token, m, sid)
    ensures AccessFor(s, sid) <= AccessFor(t, sid) && |AccessFor(t, sid)| == |AccessFor(s, sid)| + 1
    ensures Revoked(s.table, sid) ==> Revoked(t.table, sid)
  {
    hide Run, IndexInv, LogInv, AccessInv, AccessToken, Blank, InContext, AccessFor, Evolves, Revoked;
    var p := UnusedNat(s.phases.Keys);
    var tok := UnusedTok(s.used, token);
    var bind := Bind(p, token, m);
    var mid := OneMore(dir, first, steps, s, bind);
    StepKeepsInv(dir, s, bind);
    if Revoked(s.table, sid) { RevokedStays(s, mid, sid); }
    StaysListed(s, mid, sid);
    assert p in Issuers(mid, sid);
    assert AccessFor(mid, sid) == AccessFor(s, sid) by { SameAccess(s, mid, sid); }
    all, t := IssuerIssues(dir, first, steps + [bind], mid, p, sid, tok);
    RunEvolves(dir, first, all, t);
    AccessIsNew(mid, tok);
  }

  lemma SameAccess(s: State, t: State, sid: string)
    requires t.access == s.access
    ensures AccessFor(t, sid) == AccessFor(s, sid)
  {
  }

  lemma UnusedTok(used: set<string>, token: string) returns (tok: string)
    ensures tok !in used && AccessToken(tok) != token
  {
    tok := UnusedString(used + {if |token| >= 4 then token[4..] else ""});
    assert AccessToken(tok)[4..] == tok;
  }

  /** So revocation does not bound access tokens: a bearer gets any number of them for a revoked session. */
  lemma {:induction false} RevokedSessionKeepsIssuing(dir: Directory, first: State, steps: seq<Step>, s: State, token: string,
                                                      m: Membership, sid: string, n: nat)
    returns (all: seq<Step>, t: State)
    requires Inv(first) && Run(dir, first, steps, s) && Inv(s) && Revoked(s.table, sid) && Binds(dir, s, token, m, sid)
    ensures Run(dir, first, all, t) && InRange(t.table) && Revoked(t.table, sid)
    ensures |AccessFor(t, sid)| == |AccessFor(s, sid)| + n
    decreases n
  {
    hide Run, Inv, AccessFor, Binds, Evolves;
    InvInRange(s);
    all, t := steps, s;
    if n > 0 {
      all, t := BearerBinds(dir, first, steps, s, token, m, sid);
      InvInRange(t);
      all, t := RevokedSessionKeepsIssuing(dir, first, all, t, token, m, sid, n - 1);
    }
  }

  lemma InvInRange(s: State)
    requires Inv(s)
    ensures InRange(s.table)
  {
    hide IndexInv;
  }

  /** The run issues an access token for the session. */
  ghost predicate Issues(dir: Directory, s: State, steps: seq<Step>, t: State, sid: string) {
    Run(dir, s, steps, t) && AccessFor(t, sid) != AccessFor(s, sid)
  }

  /**
   A revoked session is issued no further access token, in any continuation, exactly when no refresh or binding of it
   is under way and none of its own tokens can bind it.
   */
  lemma AccessAfterRevocationIff(dir: Directory, s: State, sid: string)
    requires Inv(s) && Revoked(s.table, sid)
    ensures (exists steps, t :: Issues(dir, s, steps, t, sid)) <==> CanIssue(dir, s, sid)
  {
    assert Run(dir, s, [], s);
    hide Run, Inv, AccessFor, Issuers, Binds;
    if CanIssue(dir, s, sid) {
      if Issuers(s, sid) != {} {
        var p :| p in Issuers(s, sid);
        var tok := UnusedString(s.used);
        var steps, t := IssuerIssues(dir, s, [], s, p, sid, tok);
        assert Issues(dir, s, steps, t, sid);
      } else {
        var token, m :| Binds(dir, s, token, m, sid);
        var steps, t := BearerBinds(dir, s, [], s, token, m, sid);
        assert Issues(dir, s, steps, t, sid);
      }
    } else {
      forall steps, t ensures !Issues(dir, s, steps, t, sid) {
        if Run(dir, s, steps, t) { NothingEverIssued(dir, s, steps, t, sid); }
      }
    }
  }

  lemma RevokeAllRevokes(t: Table, user: string, sid: string)
    requires InRange(t) && OwnedBy(t, user, sid)
    ensures InRange(RevokedAmong(t, t.byID.Keys, user)) && Revoked(RevokedAmong(t, t.byID.Keys, user), sid)
  {
    assert Listed(t, t.byID.Keys, t.byID[sid]);
  }

  /** Such a state is reached: a login with one membership, and then the revocation of all the user's sessions. */
  lemma RevokedBearerIsReached(dir: Directory, user: string, m: Membership) returns (steps: seq<Step>, s: State)
    requires dir(user, m) && user != "" && m.membershipID != "" && !Blank(m.companyID)
    ensures Run(dir, Empty(), steps, s) && Inv(s) && Revoked(s.table, "s") && Binds(dir, s, AccessToken("t"), m, "s")
  {
    assert m.companyID != "" by { assert Blank(""); }
    var front, mid := LoginIsAccepted(dir, user, m);
    hide Run, Inv, AccessToken, RefreshToken, Blank, RevokedAmong, Accepts, Evolves, Revoked, Empty;
    EmptyHoldsInv();
    steps, s := RevokeAllAfter(dir, Empty(), front, mid, user, AccessToken("t"), m, "s");
  }

  lemma RevokeAllAfter(dir: Directory, first: State, front: seq<Step>, mid: State, user: string, token: string, m: Membership, sid: string)
    returns (steps: seq<Step>, s: State)
    requires Inv(first) && Run(dir, first, front, mid) && InRange(mid.table) && OwnedBy(mid.table, user, sid)
    requires Binds(dir, mid, token, m, sid)
    ensures Run(dir, first, steps, s) && Inv(s) && Revoked(s.table, sid) && Binds(dir, s, token, m, sid)
  {
    hide Run, Inv, Blank, RevokedAmong, Evolves, Revoked;
    RevokeAllRevokes(mid.table, user, sid);
    s := OneMore(dir, first, front, mid, RevokeAll(user));
    steps := front + [RevokeAll(user)];
    RunEvolves(dir, first, steps, s);
  }
}

/** Overlapping refreshes: what the two separate steps of a refresh let happen. */
module SessionRaces {
  import opened Prelude
  import opened Text
  import opened Sessions
  import opened SessionFacts
  import opened SessionRuns
  import opened SessionHistory

  lemma EmptyRun(dir: Directory, s: State, token: string)
    requires InRange(s.table) && Accepts(s, token)
    ensures Run(dir, s, [], s) && token in s.table.byToken
  {
  }

  /** An idle worker finds the session of an accepted token. */
  lemma Find(dir: Directory, first: State, steps: seq<Step>, s: State, p: nat, token: string) returns (last: State)
    requires Run(dir, first, steps, s) && IndexInv(s) && InRange(s.table) && p !in s.phases && Accepts(s, token)
    ensures Run(dir, first, steps + [RefreshFind(p, token)], last) && IndexInv(last)
    ensures last == s.(phases := s.phases[p := Refreshing(s.table.objects[s.table.byToken[token]])])
  {
    hide Run, IndexInv, Accepts;
    last := OneMore(dir, first, steps, s, RefreshFind(p, token));
    StepKeepsIndex(dir, s, RefreshFind(p, token));
  }

  /** An accepted refresh that has found its session issues an access token and rotates. */
  lemma Finish(dir: Directory, first: State, steps: seq<Step>, s: State, p: nat, tok: string, refresh: string)
    returns (all: seq<Step>, last: State)
    requires Run(dir, first, steps, s) && IndexInv(s) && InRange(s.table)
    requires p in s.phases && s.phases[p].Refreshing? && tok !in s.used && refresh !in s.used && tok != refresh
    ensures var x := s.phases[p].found;
            && Run(dir, first, all, last) && IndexInv(last) && InRange(last.table)
            && last.phases == s.phases - {p} && last.used == s.used + {tok, refresh}
            && last.table == Rotated(s.table, x.sessionID, RefreshToken(refresh))
            && last.log == s.log + [Stored(x.sessionID, RefreshToken(refresh), Some(x.refreshToken))]
            && last.access == s.access[AccessToken(tok) := ClaimsOf(x)]
            && RefreshToken(refresh) !in s.table.byToken
  {
    hide Run, IndexInv, Rotated, RefreshToken, AccessToken, Generated;
    RenewingIsStored(s, p);
    var x := s.phases[p].found;
    var issued := OneMore(dir, first, steps, s, RefreshIssue(p, tok));
    StepKeepsIndex(dir, s, RefreshIssue(p, tok));
    all := steps + [RefreshIssue(p, tok)];
    last := OneMore(dir, first, all, issued, RefreshRotate(p, refresh));
    StepKeepsIndex(dir, issued, RefreshRotate(p, refresh));
    all := all + [RefreshRotate(p, refresh)];
    assert last.phases == s.phases - {p};
    FreshIsNotStored(s, refresh);
  }

  lemma FreshIsNotStored(s: State, refresh: string)
    requires IndexInv(s) && refresh !in s.used
    ensures RefreshToken(refresh) !in s.table.byToken
  {
    hide Generated, RefreshToken;
    NewIsNotGenerated(s.used, refresh);
  }

  /** The session an accepted token leads to stores that token. */
  lemma AcceptedIsStored(s: State, token: string)
    requires IndexInv(s) && InRange(s.table) && token in s.table.byToken
    ensures var x := s.table.objects[s.table.byToken[token]];
            x.refreshToken == token && x.sessionID in s.table.byID && s.table.byID[x.sessionID] == s.table.byToken[token]
  {
    hide Generated, InFlightOK;
    assert TokenOK(s.table, token);
  }

  /**
   A refresh token is not single use: from any state that accepts one, two overlapping refreshes with it both
   succeed and get tokens, and the token of the one that rotates first is dead once the other has rotated.
   */
  lemma TwoRefreshesOneToken(dir: Directory, s: State, p: nat, q: nat, token: string,
                             tok0: string, refresh0: string, tok1: string, refresh1: string)
    returns (steps: seq<Step>, last: State)
    requires IndexInv(s) && InRange(s.table) && Accepts(s, token)
    requires p !in s.phases && q !in s.phases && p != q
    requires {tok0, refresh0, tok1, refresh1} !! s.used
             && tok0 != refresh0 && tok1 != refresh1 && {tok0, refresh0} !! {tok1, refresh1}
    ensures Run(dir, s, steps, last) && last.phases == s.phases
    ensures var sid := s.table.objects[s.table.byToken[token]].sessionID;
            last.log == s.log + [Stored(sid, RefreshToken(refresh0), Some(token)),
                                  Stored(sid, RefreshToken(refresh1), Some(token))]
    ensures RefreshToken(refresh1) in last.table.byToken && RefreshToken(refresh0) !in last.table.byToken
  {
    EmptyRun(dir, s, token);
    hide Run, Accepts, IndexInv, RefreshToken, AccessToken, ClaimsOf, Rotated, Enabled, Next;
    var x := s.table.objects[s.table.byToken[token]];
    AcceptedIsStored(s, token);
    hide InRange;
    var one := Find(dir, s, [], s, p, token);
    SameTableAccepts(s, one, token);
    var two := Find(dir, s, [] + [RefreshFind(p, token)], one, q, token);
    steps, last := FinishBoth(dir, s, [] + [RefreshFind(p, token)] + [RefreshFind(q, token)], two, p, q,
                              tok0, refresh0, tok1, refresh1);
    assert last.phases == s.phases;
  }

  lemma FinishBoth(dir: Directory, first: State, steps: seq<Step>, s: State, p: nat, q: nat,
                   tok0: string, refresh0: string, tok1: string, refresh1: string)
    returns (all: seq<Step>, last: State)
    requires Run(dir, first, steps, s) && IndexInv(s) && InRange(s.table)
    requires p in s.phases && q in s.phases && p != q && s.phases[p].Refreshing? && s.phases[q] == s.phases[p]
    requires {tok0, refresh0, tok1, refresh1} !! s.used
             && tok0 != refresh0 && tok1 != refresh1 && {tok0, refresh0} !! {tok1, refresh1}
    requires s.phases[p].found.sessionID in s.table.byID
    ensures Run(dir, first, all, last) && last.phases == s.phases - {p, q}
    ensures var sid := s.phases[p].found.sessionID;
            last.log == s.log + [Stored(sid, RefreshToken(refresh0), Some(s.phases[p].found.refreshToken)),
                                 Stored(sid, RefreshToken(refresh1), Some(s.phases[p].found.refreshToken))]
    ensures RefreshToken(refresh1) in last.table.byToken && RefreshToken(refresh0) !in last.table.byToken
  {
    hide Run, IndexInv, Blank, RefreshToken, AccessToken, ClaimsOf, Rotated, Enabled, Next;
    var sid := s.phases[p].found.sessionID;
    var some, mid := Finish(dir, first, steps, s, p, tok0, refresh0);
    all, last := Finish(dir, first, some, mid, q, tok1, refresh1);
    RotatedTwice(s.table, sid, RefreshToken(refresh0), RefreshToken(refresh1));
    DifferentTokens(refresh0, refresh1);
    assert last.phases == s.phases - {p, q};
  }

  lemma SameTableAccepts(s: State, t: State, token: string)
    requires InRange(s.table) && s.table == t.table && Accepts(s, token)
    ensures Accepts(t, token)
  {
  }

  lemma DifferentTokens(a: string, b: string)
    requires a != b
    ensures RefreshToken(a) != RefreshToken(b)
  {
    assert RefreshToken(a)[4..] == a && RefreshToken(b)[4..] == b;
  }

  lemma RotatedTwice(t: Table, sid: string, a: string, b: string)
    requires InRange(t) && sid in t.byID
    ensures var u := Rotated(t, sid, a);
            && InRange(u) && b in Rotated(u, sid, b).byToken
            && (a != b ==> a !in Rotated(u, sid, b).byToken)
  {
  }

  lemma RefreshTokenNotBlank(id: string)
    ensures !Blank(RefreshToken(id))
  {
    NotBlankAt(RefreshToken(id), 0);
  }

  /** Rotating the session an accepted token leads to replaces that token and leaves the rest of the session alone. */
  lemma RotatedOnce(s: State, t: State, token: string, w: string)
    requires InRange(s.table) && Accepts(s, token) && w !in s.table.byToken && !Blank(w)
    requires var x := s.table.objects[s.table.byToken[token]];
             && x.refreshToken == token && x.sessionID in s.table.byID && s.table.byID[x.sessionID] == s.table.byToken[token]
             && t.table == Rotated(s.table, x.sessionID, w)
    ensures InRange(t.table) && token !in t.table.byToken && Accepts(t, w)
  {
    hide Blank;
  }

  lemma RefreshAlone(dir: Directory, s: State, p: nat, token: string, tok: string, refresh: string)
    returns (steps: seq<Step>, last: State)
    requires IndexInv(s) && InRange(s.table) && Accepts(s, token)
    requires p !in s.phases && tok !in s.used && refresh !in s.used && tok != refresh
    ensures Run(dir, s, steps, last) && last.phases == s.phases && InRange(last.table)
    ensures last.table == Rotated(s.table, s.table.objects[s.table.byToken[token]].sessionID, RefreshToken(refresh))
    ensures RefreshToken(refresh) !in s.table.byToken
    ensures var x := s.table.objects[s.table.byToken[token]];
            last.log == s.log + [Stored(x.sessionID, RefreshToken(refresh), Some(x.refreshToken))]
  {
    EmptyRun(dir, s, token);
    hide Run, IndexInv, Blank, RefreshToken, AccessToken, ClaimsOf, Accepts, Enabled, Next, Rotated;
    var x := s.table.objects[s.table.byToken[token]];
    var one := Find(dir, s, [], s, p, token);
    hide InRange;
    var front := [] + [RefreshFind(p, token)];
    assert one.phases[p] == Refreshing(x);
    steps, last := Finish(dir, s, front, one, p, tok, refresh);
    PutThenDrop(s.phases, p, Refreshing(x));
  }

  /**
   A refresh that is found, issued and rotated without a break kills its token and leaves the new one accepted. It
   adds one rotation for the token, and touches no other refresh under way: those are what `SessionReuse` counts.
   */
  lemma OneRefreshUsesUpItsToken(dir: Directory, s: State, p: nat, token: string, tok: string, refresh: string)
    returns (steps: seq<Step>, last: State)
    requires IndexInv(s) && InRange(s.table) && Accepts(s, token)
    requires p !in s.phases && tok !in s.used && refresh !in s.used && tok != refresh
    ensures Run(dir, s, steps, last) && last.phases == s.phases && InRange(last.table)
    ensures token !in last.table.byToken && Accepts(last, RefreshToken(refresh))
    ensures last.log == s.log + [Stored(s.table.objects[s.table.byToken[token]].sessionID, RefreshToken(refresh), Some(token))]
  {
    EmptyRun(dir, s, token);
    hide Run, IndexInv, RefreshToken, Blank, Accepts, Rotated;
    AcceptedIsStored(s, token);
    RefreshTokenNotBlank(refresh);
    steps, last := RefreshAlone(dir, s, p, token, tok, refresh);
    RotatedOnce(s, last, token, RefreshToken(refresh));
  }

  // ---------------------------------------------------------------- reached from the empty state

  /** A login of a user with one membership reaches a state in which its refresh token is accepted. */
  lemma LoginIsAccepted(dir: Directory, user: string, m: Membership) returns (steps: seq<Step>, s: State)
    requires dir(user, m) && m.membershipID != "" && m.companyID != ""
    ensures Run(dir, Empty(), steps, s) && Inv(s) && Accepts(s, RefreshToken("r")) && s.phases == map[]
    ensures var token := AccessToken("t");
            && token in s.access && s.access[token] == Claims(user, "s", m.membershipID, m.companyID)
            && "s" in s.table.byID && s.table.objects[s.table.byID["s"]].userID == user
  {
    hide RefreshToken, AccessToken, Blank;
    var issue := LoginIssue(0, user, Client("", ""), [m], "s", "r", "t");
    var s0 := Empty();
    EmptyHoldsInv();
    assert "s" != "r" && "r" != "t" && "s" != "t";
    var s1 := OneMore(dir, s0, [], s0, issue);
    s := OneMore(dir, s0, [] + [issue], s1, LoginCreate(0));
    steps := [] + [issue] + [LoginCreate(0)];
    RunEvolves(dir, s0, steps, s);
    RefreshTokenNotBlank("r");
  }
}

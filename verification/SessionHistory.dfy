/** What holds over whole runs of the session protocol. */
module SessionHistory {
  import opened Prelude
  import opened Text
  import opened Sessions
  import opened SessionFacts
  import opened SessionRuns
  import opened Runs

  ghost predicate Takes(dir: Directory, s: State, step: Step, t: State) {
    InRange(s.table) && Enabled(dir, s, step) && t == Next(dir, s, step)
  }

  ghost function Machine(dir: Directory): (State, Step, State) -> bool { (s, step, t) => Takes(dir, s, step, t) }

  ghost predicate Run(dir: Directory, first: State, steps: seq<Step>, last: State) { Leads(Machine(dir), first, steps, last) }

  lemma OneMore(dir: Directory, first: State, steps: seq<Step>, mid: State, step: Step) returns (last: State)
    requires Run(dir, first, steps, mid) && InRange(mid.table) && Enabled(dir, mid, step)
    ensures last == Next(dir, mid, step) && Run(dir, first, steps + [step], last)
  {
    hide Next, Enabled;
    last := Next(dir, mid, step);
    LeadsOn(Machine(dir), first, steps, mid, step, last);
  }

  function Empty(): State { State(Table([], map[], map[]), map[], map[], {}, map[], []) }

  /** The token stored last for a session. */
  function LastFor(log: seq<Stored>, sid: string): Option<string> {
    if log == [] then None
    else if log[|log| - 1].sessionID == sid then Some(log[|log| - 1].token)
    else LastFor(log[..|log| - 1], sid)
  }

  /** How many tokens were stored for a session. */
  function CountFor(log: seq<Stored>, sid: string): nat {
    if log == [] then 0
    else CountFor(log[..|log| - 1], sid) + if log[|log| - 1].sessionID == sid then 1 else 0
  }

  ghost predicate LogInv(s: State)
    requires InRange(s.table)
  {
    forall k :: LastFor(s.log, k) == if k in s.table.byID then Some(s.table.objects[s.table.byID[k]].refreshToken) else None
  }

  ghost predicate AccessInv(s: State) {
    forall k :: k in s.access ==> exists id :: id in s.used && AccessToken(id) == k
  }

  ghost predicate Inv(s: State) { IndexInv(s) && InRange(s.table) && LogInv(s) && AccessInv(s) }

  // ---------------------------------------------------------------- one step

  ghost predicate Held(s: State, token: string) {
    exists p :: p in s.phases && s.phases[p].LoggingIn? && s.phases[p].session.refreshToken == token
  }

  /** The token was generated and is not waiting to be stored for the first time. */
  ghost predicate Spent(s: State, token: string) { Generated(s.used, token) && !Held(s, token) }

  /** How a later state relates to an earlier one. */
  ghost predicate Evolves(s: State, t: State) {
    && Keeps(s, t)
    && (forall k :: Spent(s, k) ==> Spent(t, k))
    && (forall k :: Spent(s, k) && k in t.table.byToken ==> k in s.table.byToken && t.table.byToken[k] == s.table.byToken[k])
  }

  /** Sessions stay, with their ids and owners; revocation and access claims are permanent. */
  ghost predicate Keeps(s: State, t: State) {
    && |s.table.objects| <= |t.table.objects|
    && (forall i :: 0 <= i < |s.table.objects| ==>
                      && t.table.objects[i].sessionID == s.table.objects[i].sessionID
                      && t.table.objects[i].userID == s.table.objects[i].userID
                      && (s.table.objects[i].revoked ==> t.table.objects[i].revoked))
    && (forall k :: k in s.table.byID ==> k in t.table.byID && t.table.byID[k] == s.table.byID[k])
    && (forall k :: k in s.access ==> k in t.access && t.access[k] == s.access[k])
  }

  lemma QuietEvolves(s: State, t: State)
    requires IndexInv(s) && Quiet(s, t)
    requires forall k :: k in s.access ==> k in t.access && t.access[k] == s.access[k]
    ensures Evolves(s, t)
  {
    hide Agree, Generated, InFlightOK;
    forall k | Spent(s, k) ensures Spent(t, k) { GeneratedGrows(s.used, t.used, k); }
  }

  lemma AccessIsNew(s: State, id: string)
    requires AccessInv(s) && id !in s.used
    ensures AccessToken(id) !in s.access
  {
    forall other | other in s.used ensures AccessToken(other) != AccessToken(id) {
      assert AccessToken(other)[4..] == other && AccessToken(id)[4..] == id;
    }
  }

  lemma LoginIssueEvolves(s: State, p: nat, x: Session, bound: bool, sid: string, refresh: string, tok: string)
    requires IndexInv(s) && AccessInv(s) && p !in s.phases && refresh !in s.used && tok !in s.used
    requires x.refreshToken == RefreshToken(refresh)
    ensures Evolves(s, AfterLoginIssue(s, p, x, bound, {sid, refresh, tok}, tok))
  {
    hide Agree, Generated, InFlightOK, RefreshToken, AccessToken, PreToken, AccessInv;
    var t := AfterLoginIssue(s, p, x, bound, {sid, refresh, tok}, tok);
    AccessIsNew(s, tok);
    NewIsNotGenerated(s.used, refresh);
    forall k | Spent(s, k) ensures Spent(t, k) {
      GeneratedGrows(s.used, t.used, k);
      forall q | q in t.phases && t.phases[q].LoggingIn? ensures t.phases[q].session.refreshToken != k {
        if q != p { assert t.phases[q] == s.phases[q]; }
      }
    }
  }

  lemma CreateEvolves(s: State, p: nat)
    requires IndexInv(s) && p in s.phases && s.phases[p].LoggingIn?
    ensures Evolves(s, AfterCreate(s, p, s.phases[p].session))
  {
    hide Agree, Generated;
    assert InRange(s.table) by { AgreeInRange(s.table); }
    assert InFlightOK(s, s.phases[p]);
    assert Held(s, s.phases[p].session.refreshToken);
  }

  lemma RotateEvolves(s: State, p: nat, refresh: string)
    requires IndexInv(s) && InRange(s.table) && p in s.phases && s.phases[p].Renewing? && refresh !in s.used
    ensures Evolves(s, AfterRotate(s, p, s.phases[p].found.sessionID, RefreshToken(refresh), refresh))
  {
    hide Agree, Generated, RefreshToken, InFlightOK;
    var t := AfterRotate(s, p, s.phases[p].found.sessionID, RefreshToken(refresh), refresh);
    NewIsNotGenerated(s.used, refresh);
    forall k | Spent(s, k) ensures Spent(t, k) { GeneratedGrows(s.used, t.used, k); }
  }

  lemma StepEvolves(dir: Directory, s: State, step: Step)
    requires Inv(s) && Enabled(dir, s, step)
    ensures Evolves(s, Next(dir, s, step))
  {
    hide IndexInv, Evolves, AccessInv, LogInv, Quiet, InFlightOK, AccessToken;
    match step {
      case LoginIssue(p, user, from, active, sid, refresh, tok) =>
        LoginIssueEvolves(s, p, LoginSession(user, from, active, sid, refresh), |active| == 1, sid, refresh, tok);
      case LoginCreate(p) => CreateEvolves(s, p);
      case RefreshRotate(p, refresh) => RotateEvolves(s, p, refresh);
      case RefreshIssue(p, tok) => AccessIsNew(s, tok);
      case BindIssue(p, tok) => AccessIsNew(s, tok);
      case _ =>
    }
    if !step.LoginIssue? && !step.LoginCreate? && !step.RefreshRotate? {
      OtherStepsAreQuiet(dir, s, step);
      QuietEvolves(s, Next(dir, s, step));
    }
  }

  // ---------------------------------------------------------------- the log

  lemma LastAfterAppend(log: seq<Stored>, x: Stored)
    ensures forall k :: LastFor(log + [x], k) == if k == x.sessionID then Some(x.token) else LastFor(log, k)
  {
    assert (log + [x])[..|log|] == log;
  }

  lemma CountAfterAppend(log: seq<Stored>, x: Stored, sid: string)
    ensures CountFor(log + [x], sid) == CountFor(log, sid) + if x.sessionID == sid then 1 else 0
  {
    assert (log + [x])[..|log|] == log;
  }

  lemma CreateKeepsLog(s: State, p: nat)
    requires IndexInv(s) && InRange(s.table) && LogInv(s) && p in s.phases && s.phases[p].LoggingIn?
    ensures var t := AfterCreate(s, p, s.phases[p].session); InRange(t.table) && LogInv(t)
  {
    hide Agree, Generated, LastFor;
    var x := s.phases[p].session;
    assert InFlightOK(s, s.phases[p]);
    LastAfterAppend(s.log, Stored(x.sessionID, x.refreshToken, None));
  }

  lemma RotateKeepsLog(s: State, p: nat, sid: string, token: string, id: string)
    requires IndexInv(s) && InRange(s.table) && LogInv(s) && sid in s.table.byID
    ensures var t := AfterRotate(s, p, sid, token, id); InRange(t.table) && LogInv(t)
  {
    hide Agree, Generated, LastFor, InFlightOK;
    LastAfterAppend(s.log, Stored(sid, token, Given(s, p)));
    forall k | k in s.table.byID && k != sid ensures s.table.byID[k] != s.table.byID[sid] {
      DistinctIDs(s.table, k, sid);
    }
  }

  lemma DistinctIDs(t: Table, k: string, l: string)
    requires Agree(t) && k in t.byID && l in t.byID && k != l
    ensures t.byID[k] != t.byID[l]
  {
    assert IDOK(t, k) && IDOK(t, l);
  }

  lemma StepKeepsLog(dir: Directory, s: State, step: Step)
    requires Inv(s) && Enabled(dir, s, step)
    ensures InRange(Next(dir, s, step).table) && LogInv(Next(dir, s, step))
  {
    hide IndexInv, LastFor, AccessInv, Agree, Generated, Blank, AccessToken;
    StepKeepsIndex(dir, s, step);
    match step {
      case LoginCreate(p) => CreateKeepsLog(s, p);
      case RefreshRotate(p, refresh) =>
        RenewingIsStored(s, p);
        RotateKeepsLog(s, p, s.phases[p].found.sessionID, RefreshToken(refresh), refresh);
      case LoginIssue(_, _, _, _, _, _, _) =>
      case _ => OtherStepsAreQuiet(dir, s, step);
    }
  }

  lemma RenewingIsStored(s: State, p: nat)
    requires IndexInv(s) && p in s.phases && (s.phases[p].Renewing? || s.phases[p].Refreshing?)
    ensures InRange(s.table) && OwnedBy(s.table, s.phases[p].found.userID, s.phases[p].found.sessionID)
  {
    hide Generated;
    assert InFlightOK(s, s.phases[p]);
  }

  lemma StepKeepsAccess(dir: Directory, s: State, step: Step)
    requires Inv(s) && Enabled(dir, s, step)
    ensures AccessInv(Next(dir, s, step))
  {
    hide IndexInv, LogInv, AccessToken;
    var t := Next(dir, s, step);
    assert s.used <= t.used;
    forall k | k in t.access ensures exists id :: id in t.used && AccessToken(id) == k {
      if k in s.access {
        var id :| id in s.used && AccessToken(id) == k;
        assert id in t.used;
      }
    }
  }

  lemma StepKeepsInv(dir: Directory, s: State, step: Step)
    requires Inv(s) && Enabled(dir, s, step)
    ensures Inv(Next(dir, s, step)) && Evolves(s, Next(dir, s, step))
  {
    hide IndexInv, LogInv, AccessInv, Evolves, Next, Enabled;
    StepKeepsIndex(dir, s, step);
    StepKeepsLog(dir, s, step);
    StepKeepsAccess(dir, s, step);
    StepEvolves(dir, s, step);
  }

  lemma EvolvesTransitive(s: State, t: State, u: State)
    requires Evolves(s, t) && Evolves(t, u)
    ensures Evolves(s, u)
  {
    hide Spent;
  }

  /** Every run keeps the indexes, the log and the access tokens in order, and only ever evolves. */
  lemma {:induction false} RunEvolves(dir: Directory, first: State, steps: seq<Step>, last: State)
    requires Inv(first) && Run(dir, first, steps, last)
    ensures Inv(last) && Evolves(first, last)
    decreases |steps|
  {
    hide Inv, Next, Evolves, Enabled;
    if steps == [] {
      assert Evolves(first, first) by { EvolvesRefl(first); }
    } else {
      var mid := Next(dir, first, steps[0]);
      StepKeepsInv(dir, first, steps[0]);
      RunEvolves(dir, mid, steps[1..], last);
      EvolvesTransitive(first, mid, last);
    }
  }

  lemma EvolvesRefl(s: State)
    ensures Evolves(s, s)
  {
  }

  lemma EmptyHoldsInv()
    ensures Inv(Empty())
  {
  }

  // ---------------------------------------------------------------- results

  /** A token leads to a session exactly when it is the one stored last for some session. */
  lemma TokenWorksIffStoredLast(dir: Directory, first: State, steps: seq<Step>, s: State, token: string)
    requires Inv(first) && Run(dir, first, steps, s)
    ensures InRange(s.table) && (token in s.table.byToken <==> exists k :: LastFor(s.log, k) == Some(token))
    ensures |s.table.byToken| == |s.table.byID|
  {
    hide Run, LastFor, Generated, AccessInv, Evolves, InFlightOK, Apart;
    RunEvolves(dir, first, steps, s);
    if token in s.table.byToken {
      assert TokenOK(s.table, token);
      var x := s.table.objects[s.table.byToken[token]];
      assert LastFor(s.log, x.sessionID) == Some(token);
    }
    if k :| LastFor(s.log, k) == Some(token) {
      assert IDOK(s.table, k);
    }
    SameSize(s.table);
  }

  lemma SameSize(t: Table)
    requires Agree(t)
    ensures |t.byToken| == |t.byID|
  {
    var tokens := set k | k in t.byID :: t.objects[t.byID[k]].refreshToken;
    ImageSize(t, t.byID.Keys, tokens);
    forall k | k in t.byToken ensures k in tokens {
      assert TokenOK(t, k);
      assert t.objects[t.byToken[k]].sessionID in t.byID;
    }
    forall k | k in t.byID ensures t.objects[t.byID[k]].refreshToken in t.byToken { assert IDOK(t, k); }
    assert tokens == t.byToken.Keys;
  }

  lemma {:induction false} ImageSize(t: Table, ids: set<string>, tokens: set<string>)
    requires Agree(t) && ids <= t.byID.Keys
    requires tokens == set k | k in ids :: t.objects[t.byID[k]].refreshToken
    ensures |tokens| == |ids|
    decreases ids
  {
    hide Agree;
    AgreeInRange(t);
    if ids != {} {
      var k :| k in ids;
      var rest := set l | l in ids - {k} :: t.objects[t.byID[l]].refreshToken;
      ImageSize(t, ids - {k}, rest);
      forall l | l in ids - {k} ensures t.objects[t.byID[l]].refreshToken != t.objects[t.byID[k]].refreshToken {
        DistinctTokens(t, l, k);
      }
      assert tokens == rest + {t.objects[t.byID[k]].refreshToken};
    }
  }

  lemma DistinctTokens(t: Table, k: string, l: string)
    requires Agree(t) && k in t.byID && l in t.byID && k != l
    ensures t.objects[t.byID[k]].refreshToken != t.objects[t.byID[l]].refreshToken
  {
    assert IDOK(t, k) && IDOK(t, l);
  }

  /** A token that worked once and stopped working is never accepted again. */
  lemma ReplacedTokenIsDead(dir: Directory, s: State, steps: seq<Step>, t: State, more: seq<Step>, u: State, token: string)
    requires Inv(s) && Run(dir, s, steps, t) && Run(dir, t, more, u)
    requires token in s.table.byToken && token !in t.table.byToken
    ensures token !in u.table.byToken && InRange(u.table) && !Accepts(u, token)
  {
    hide Run, LogInv, AccessInv, Generated, Agree, Keeps;
    RunEvolves(dir, s, steps, t);
    RunEvolves(dir, t, more, u);
    StoredIsSpent(s, token);
  }

  lemma StoredIsSpent(s: State, token: string)
    requires IndexInv(s) && token in s.table.byToken
    ensures Spent(s, token)
  {
    hide Agree, Generated;
    AgreeInRange(s.table);
    forall p | p in s.phases && s.phases[p].LoggingIn? ensures s.phases[p].session.refreshToken != token {
      assert InFlightOK(s, s.phases[p]);
    }
  }

  // ---------------------------------------------------------------- revocation

  ghost predicate Revoked(t: Table, sid: string)
    requires InRange(t)
  {
    sid in t.byID && t.objects[t.byID[sid]].revoked
  }

  predicate Serves(ph: Phase, sid: string) { (ph.Refreshing? || ph.Renewing?) && ph.found.sessionID == sid }

  /** The refreshes of a session that passed the check and are not finished. */
  function InFlight(s: State, sid: string): set<nat> { set p | p in s.phases && Serves(s.phases[p], sid) }

  /** Once a session is revoked no refresh of it starts, so tokens and refreshes under way do not grow in number. */
  lemma RevokedStep(dir: Directory, s: State, step: Step, sid: string)
    requires Inv(s) && Enabled(dir, s, step) && Revoked(s.table, sid)
    ensures var t := Next(dir, s, step);
            CountFor(t.log, sid) + |InFlight(t, sid)| <= CountFor(s.log, sid) + |InFlight(s, sid)|
  {
    hide IndexInv, LogInv, AccessInv, CountFor, Revoked, InFlight;
    match step {
      case LoginCreate(p) => RevokedCreate(s, p, sid);
      case RefreshRotate(p, refresh) => RevokedRotate(s, p, refresh, sid);
      case _ =>
        NothingStarts(dir, s, step, sid);
        SubsetSize(InFlight(Next(dir, s, step), sid), InFlight(s, sid));
    }
  }

  lemma RevokedCreate(s: State, p: nat, sid: string)
    requires IndexInv(s) && InRange(s.table) && p in s.phases && s.phases[p].LoggingIn? && Revoked(s.table, sid)
    ensures var t := AfterCreate(s, p, s.phases[p].session);
            CountFor(t.log, sid) == CountFor(s.log, sid) && |InFlight(t, sid)| <= |InFlight(s, sid)|
  {
    hide IndexInv, CountFor;
    var x := s.phases[p].session;
    LoggingInIsNew(s, p);
    CountAfterAppend(s.log, Stored(x.sessionID, x.refreshToken, None), sid);
    SubsetSize(InFlight(AfterCreate(s, p, x), sid), InFlight(s, sid));
  }

  lemma RevokedRotate(s: State, p: nat, refresh: string, sid: string)
    requires IndexInv(s) && InRange(s.table) && p in s.phases && s.phases[p].Renewing?
    ensures var t := AfterRotate(s, p, s.phases[p].found.sessionID, RefreshToken(refresh), refresh);
            CountFor(t.log, sid) + |InFlight(t, sid)| == CountFor(s.log, sid) + |InFlight(s, sid)|
  {
    hide IndexInv, CountFor, RefreshToken, Rotated;
    var done := s.phases[p].found.sessionID;
    var t := AfterRotate(s, p, done, RefreshToken(refresh), refresh);
    RenewingIsStored(s, p);
    CountAfterAppend(s.log, Stored(done, RefreshToken(refresh), Given(s, p)), sid);
    assert InFlight(s, sid) == InFlight(t, sid) + if done == sid then {p} else {};
  }

  lemma NothingStarts(dir: Directory, s: State, step: Step, sid: string)
    requires Inv(s) && Enabled(dir, s, step) && Revoked(s.table, sid)
    requires !step.LoginCreate? && !step.RefreshRotate?
    ensures var t := Next(dir, s, step); t.log == s.log && InFlight(t, sid) <= InFlight(s, sid)
  {
    hide Agree, Generated, LogInv, AccessInv, InFlightOK, Apart, AccessToken, Blank, RevokedByToken, RevokedByID, RevokedAmong, InContext;
    if step.RefreshFind? && Accepts(s, step.token) {
      FoundIsOwned(s.table, step.token);
    }
  }

  lemma LoggingInIsNew(s: State, p: nat)
    requires IndexInv(s) && p in s.phases && s.phases[p].LoggingIn?
    ensures s.phases[p].session.sessionID !in s.table.byID
  {
    hide Generated;
    AgreeInRange(s.table);
    assert InFlightOK(s, s.phases[p]);
  }

  /**
   Revocation is permanent, and after it a session gets at most as many new refresh tokens as refreshes of it
   were already under way: a refresh that starts later is turned away.
   */
  lemma {:induction false} RevocationBound(dir: Directory, first: State, steps: seq<Step>, last: State, sid: string)
    requires Inv(first) && Run(dir, first, steps, last) && Revoked(first.table, sid)
    ensures InRange(last.table) && Revoked(last.table, sid)
    ensures CountFor(last.log, sid) + |InFlight(last, sid)| <= CountFor(first.log, sid) + |InFlight(first, sid)|
    decreases |steps|
  {
    hide IndexInv, LogInv, AccessInv, Next, Enabled, CountFor, InFlight, Spent;
    if steps != [] {
      var mid := Next(dir, first, steps[0]);
      StepKeepsInv(dir, first, steps[0]);
      RevokedStep(dir, first, steps[0], sid);
      RevocationBound(dir, mid, steps[1..], last, sid);
    }
  }
}

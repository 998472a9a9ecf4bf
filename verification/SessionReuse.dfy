/** How often one refresh token is rotated, and exactly when it is single use. */
module SessionReuse {
  import opened Prelude
  import opened Text
  import opened Sessions
  import opened SessionFacts
  import opened SessionRuns
  import opened SessionHistory
  import opened SessionRaces

  predicate Holds(ph: Phase, token: string) { (ph.Refreshing? || ph.Renewing?) && ph.found.refreshToken == token }

  /** The refreshes that were accepted with this token and have not rotated yet. */
  function Holders(s: State, token: string): set<nat> { set p | p in s.phases && Holds(s.phases[p], token) }

  /** How many rotations were made for this token. */
  function Uses(log: seq<Stored>, token: string): nat {
    if log == [] then 0
    else Uses(log[..|log| - 1], token) + if log[|log| - 1].givenFor == Some(token) then 1 else 0
  }

  lemma UsesAfter(log: seq<Stored>, x: Stored, token: string)
    ensures Uses(log + [x], token) == Uses(log, token) + if x.givenFor == Some(token) then 1 else 0
  {
    assert (log + [x])[..|log|] == log;
  }

  // ---------------------------------------------------------------- tokens under way

  /** A refresh under way was started with a token that had been stored, and that leads, if anywhere, to its session. */
  ghost predicate StartedOK(s: State, ph: Phase)
    requires InRange(s.table)
  {
    ph.Refreshing? || ph.Renewing? ==>
      && Spent(s, ph.found.refreshToken)
      && (ph.found.refreshToken in s.table.byToken ==>
            s.table.objects[s.table.byToken[ph.found.refreshToken]].sessionID == ph.found.sessionID)
  }

  ghost predicate StartedInv(s: State)
    requires InRange(s.table)
  {
    forall p :: p in s.phases ==> StartedOK(s, s.phases[p])
  }

  /** Stored once, and replaced. */
  ghost predicate Dead(s: State, token: string) { Spent(s, token) && token !in s.table.byToken }

  /** Only dead tokens were ever given for a rotation. */
  ghost predicate UsedAreDead(s: State) { forall k :: Uses(s.log, k) > 0 ==> Dead(s, k) }

  ghost predicate FullInv(s: State) { Inv(s) && StartedInv(s) && UsedAreDead(s) }

  lemma StartedStays(s: State, t: State, ph: Phase)
    requires InRange(s.table) && InRange(t.table) && Evolves(s, t) && StartedOK(s, ph)
    ensures StartedOK(t, ph)
  {
    hide Generated;
  }

  lemma FindStarts(dir: Directory, s: State, p: nat, token: string)
    requires Inv(s) && p !in s.phases && Accepts(s, token)
    ensures var t := AfterFind(s, p, token); InRange(t.table) && StartedOK(t, t.phases[p])
  {
    hide LogInv, AccessInv, Generated, Agree, Blank;
    IndexInRange(s);
    AcceptedIsStored(s, token);
    StoredIsSpent(s, token);
    var t := AfterFind(s, p, token);
    assert t.used == s.used;
  }

  /** Where the phases after a step come from. */
  lemma PhaseComesFrom(dir: Directory, s: State, step: Step, p: nat)
    requires InRange(s.table) && Enabled(dir, s, step) && p in Next(dir, s, step).phases
    ensures var ph := Next(dir, s, step).phases[p];
            || (p in s.phases && ph == s.phases[p])
            || (step.RefreshFind? && step.p == p && p !in s.phases && Accepts(s, step.token)
                && Next(dir, s, step) == AfterFind(s, p, step.token))
            || (p in s.phases && s.phases[p].Refreshing? && ph == Renewing(s.phases[p].found))
            || ph.LoggingIn? || ph.Binding?
  {
    hide InRange, Accepts, Rotated, Created, RevokedByToken, RevokedByID, RevokedAmong, InContext, RefreshToken, AccessToken,
      PreToken, Blank;
  }

  lemma StepKeepsStarted(dir: Directory, s: State, step: Step)
    requires Inv(s) && StartedInv(s) && Enabled(dir, s, step)
    ensures var t := Next(dir, s, step); Inv(t) && Evolves(s, t) && StartedInv(t)
  {
    StepKeepsInv(dir, s, step);
    hide IndexInv, LogInv, AccessInv, StartedOK, Evolves, Next, Enabled, AfterFind, Accepts;
    var t := Next(dir, s, step);
    forall p | p in t.phases ensures StartedOK(t, t.phases[p]) {
      PhaseComesFrom(dir, s, step, p);
      if p in s.phases && t.phases[p] == s.phases[p] {
        StartedStays(s, t, s.phases[p]);
      } else if p in s.phases && s.phases[p].Refreshing? && t.phases[p] == Renewing(s.phases[p].found) {
        StartedStays(s, t, s.phases[p]);
        SameFound(t, s.phases[p], t.phases[p]);
      } else if t.phases[p].LoggingIn? || t.phases[p].Binding? {
        OtherPhaseStarted(t, t.phases[p]);
      } else {
        FindStarts(dir, s, p, step.token);
      }
    }
  }

  lemma DeadStays(s: State, t: State, token: string)
    requires Evolves(s, t) && Dead(s, token)
    ensures Dead(t, token)
  {
    hide Spent, Keeps;
  }

  lemma StepKeepsFullInv(dir: Directory, s: State, step: Step)
    requires FullInv(s) && Enabled(dir, s, step)
    ensures FullInv(Next(dir, s, step))
  {
    StepKeepsStarted(dir, s, step);
    var t := Next(dir, s, step);
    hide Inv, Evolves, StartedInv, Dead, Uses, UsedAreDead;
    assert forall k :: Uses(s.log, k) > 0 ==> Dead(s, k) by { UsedDead(s); }
    forall k | Uses(t.log, k) > 0 ensures Dead(t, k) {
      if Uses(s.log, k) > 0 { DeadStays(s, t, k); } else { NewUseKills(dir, s, step, k); }
    }
    DeadUsed(t);
  }

  lemma UsedDead(s: State)
    requires UsedAreDead(s)
    ensures forall k :: Uses(s.log, k) > 0 ==> Dead(s, k)
  {
  }

  lemma DeadUsed(s: State)
    requires forall k :: Uses(s.log, k) > 0 ==> Dead(s, k)
    ensures UsedAreDead(s)
  {
  }

  lemma NewUseKills(dir: Directory, s: State, step: Step, token: string)
    requires Inv(s) && StartedInv(s) && Enabled(dir, s, step)
    requires Uses(s.log, token) == 0 && Uses(Next(dir, s, step).log, token) > 0
    ensures Dead(Next(dir, s, step), token)
  {
    hide IndexInv, LogInv, AccessInv, StartedInv, Uses, Dead, RefreshToken;
    match step {
      case LoginCreate(p) =>
        UsesAfter(s.log, Stored(s.phases[p].session.sessionID, s.phases[p].session.refreshToken, None), token);
        assert false;
      case RefreshRotate(p, refresh) =>
        var x := s.phases[p].found;
        RenewingIsStored(s, p);
        UsesAfter(s.log, Stored(x.sessionID, RefreshToken(refresh), Some(x.refreshToken)), token);
        RotationKills(s, p, refresh);
      case _ =>
    }
  }

  lemma SameFound(t: State, ph: Phase, other: Phase)
    requires InRange(t.table) && StartedOK(t, ph) && ph.Refreshing? && other == Renewing(ph.found)
    ensures StartedOK(t, other)
  {
  }

  lemma OtherPhaseStarted(t: State, ph: Phase)
    requires InRange(t.table) && (ph.LoggingIn? || ph.Binding?)
    ensures StartedOK(t, ph)
  {
  }

  lemma {:induction false} RunKeepsFullInv(dir: Directory, s: State, steps: seq<Step>, t: State)
    requires FullInv(s) && Run(dir, s, steps, t)
    ensures FullInv(t)
    decreases |steps|
  {
    hide Inv, StartedInv, UsedAreDead, Next, Enabled;
    if steps != [] {
      assert Inv(s) && InRange(s.table) && Enabled(dir, s, steps[0]);
      StepKeepsFullInv(dir, s, steps[0]);
      RunKeepsFullInv(dir, Next(dir, s, steps[0]), steps[1..], t);
    }
  }

  lemma EmptyHoldsFullInv()
    ensures FullInv(Empty())
  {
  }

  // ---------------------------------------------------------------- a dead token

  /** A rotation kills the token it was made for. */
  lemma RotationKills(s: State, p: nat, refresh: string)
    requires Inv(s) && StartedInv(s) && p in s.phases && s.phases[p].Renewing? && refresh !in s.used
    ensures var t := AfterRotate(s, p, s.phases[p].found.sessionID, RefreshToken(refresh), refresh);
            Dead(t, s.phases[p].found.refreshToken)
  {
    var x := s.phases[p].found;
    var token := x.refreshToken;
    assert StartedOK(s, s.phases[p]);
    RenewingIsStored(s, p);
    RotateEvolves(s, p, refresh);
    NewIsNotGenerated(s.used, refresh);
    if token in s.table.byToken { AcceptedIsStored(s, token); }
    hide IndexInv, LogInv, AccessInv, Generated, RefreshToken, StartedOK, Held, Keeps;
    assert RefreshToken(refresh) != token;
  }

  /** One step: what it adds to the rotations of a dead token it takes from the refreshes under way. */
  lemma DeadStep(dir: Directory, s: State, step: Step, token: string)
    requires Inv(s) && Enabled(dir, s, step) && Dead(s, token)
    ensures var t := Next(dir, s, step);
            && Dead(t, token)
            && Uses(t.log, token) + |Holders(t, token)| <= Uses(s.log, token) + |Holders(s, token)|
            && (forall p :: p in Holders(t, token) ==> p in Holders(s, token) && t.phases[p].found == s.phases[p].found)
  {
    StepEvolves(dir, s, step);
    hide IndexInv, LogInv, AccessInv, Uses, Holders, Spent, Keeps;
    match step {
      case LoginCreate(p) =>
        NothingStartsWith(dir, s, step, token);
        UsesAfter(s.log, Stored(s.phases[p].session.sessionID, s.phases[p].session.refreshToken, None), token);
        SubsetSize(Holders(Next(dir, s, step), token), Holders(s, token));
      case RefreshRotate(p, refresh) => DeadRotate(s, p, refresh, token);
      case _ =>
        NothingStartsWith(dir, s, step, token);
        SubsetSize(Holders(Next(dir, s, step), token), Holders(s, token));
    }
  }

  lemma NothingStartsWith(dir: Directory, s: State, step: Step, token: string)
    requires Inv(s) && Enabled(dir, s, step) && Dead(s, token) && !step.RefreshRotate?
    ensures var t := Next(dir, s, step);
            && (step.LoginCreate? || t.log == s.log)
            && Holders(t, token) <= Holders(s, token)
            && (forall p :: p in Holders(t, token) ==> p in Holders(s, token) && t.phases[p].found == s.phases[p].found)
  {
    hide LogInv, AccessInv, Generated, Agree, InFlightOK, Apart, AccessToken, Blank, Held, Accepts,
      RevokedByToken, RevokedByID, RevokedAmong, InContext;
    if step.RefreshFind? && Accepts(s, step.token) {
      AcceptedToken(s, step.token);
    }
  }

  lemma AcceptedToken(s: State, token: string)
    requires IndexInv(s) && InRange(s.table) && Accepts(s, token)
    ensures token in s.table.byToken && s.table.objects[s.table.byToken[token]].refreshToken == token
  {
    hide Blank, IndexInv;
    AcceptedIsStored(s, token);
  }

  lemma DeadRotate(s: State, p: nat, refresh: string, token: string)
    requires IndexInv(s) && InRange(s.table) && p in s.phases && s.phases[p].Renewing?
    ensures var t := AfterRotate(s, p, s.phases[p].found.sessionID, RefreshToken(refresh), refresh);
            && Uses(t.log, token) + |Holders(t, token)| == Uses(s.log, token) + |Holders(s, token)|
            && (forall q :: q in Holders(t, token) ==> q in Holders(s, token) && t.phases[q].found == s.phases[q].found)
  {
    hide IndexInv, Uses, RefreshToken, Rotated;
    var x := s.phases[p].found;
    var t := AfterRotate(s, p, x.sessionID, RefreshToken(refresh), refresh);
    RenewingIsStored(s, p);
    UsesAfter(s.log, Stored(x.sessionID, RefreshToken(refresh), Some(x.refreshToken)), token);
    assert Holders(s, token) == Holders(t, token) + if x.refreshToken == token then {p} else {};
  }

  /**
   A dead token stays dead, and over any run it gets at most as many further rotations as refreshes were accepted
   with it before: whoever still holds it at the end held it from the start.
   */
  lemma {:induction false} DeadTokenBound(dir: Directory, s: State, steps: seq<Step>, t: State, token: string)
    requires Inv(s) && Run(dir, s, steps, t) && Dead(s, token)
    ensures Inv(t) && Dead(t, token)
    ensures Uses(t.log, token) + |Holders(t, token)| <= Uses(s.log, token) + |Holders(s, token)|
    ensures forall p :: p in Holders(t, token) ==> p in Holders(s, token) && t.phases[p].found == s.phases[p].found
    decreases |steps|
  {
    hide Inv, Next, Enabled, Uses, Holders, Dead;
    if steps != [] {
      var mid := Next(dir, s, steps[0]);
      assert InRange(s.table) && Enabled(dir, s, steps[0]);
      StepKeepsInv(dir, s, steps[0]);
      DeadStep(dir, s, steps[0], token);
      DeadTokenBound(dir, mid, steps[1..], t, token);
      HoldersPhases(mid, token);
    }
  }

  lemma HoldersPhases(s: State, token: string)
    ensures forall p :: p in Holders(s, token) <==> p in s.phases && Holds(s.phases[p], token)
  {
  }

  // ---------------------------------------------------------------- the bound is met

  lemma Unused2(used: set<string>) returns (a: string, b: string)
    ensures a !in used && b !in used && a != b
  {
    a := UnusedString(used);
    b := UnusedString(used + {a});
  }

  /** A refresh under way finishes. */
  lemma HolderRotates(dir: Directory, first: State, steps: seq<Step>, s: State, p: nat, token: string)
    returns (all: seq<Step>, t: State)
    requires Inv(s) && Run(dir, first, steps, s) && p in Holders(s, token)
    ensures Run(dir, first, all, t) && IndexInv(t) && InRange(t.table)
    ensures Holders(t, token) == Holders(s, token) - {p} && Uses(t.log, token) == Uses(s.log, token) + 1
  {
    hide Run, IndexInv, LogInv, AccessInv, Uses, RefreshToken, AccessToken, Rotated, Enabled, Next;
    var tok, refresh := Unused2(s.used);
    var x := s.phases[p].found;
    if s.phases[p].Refreshing? {
      all, t := Finish(dir, first, steps, s, p, tok, refresh);
    } else {
      all, t := RenewingRotates(dir, first, steps, s, p, refresh);
    }
    UsesAfter(s.log, Stored(x.sessionID, RefreshToken(refresh), Some(x.refreshToken)), token);
  }

  lemma RenewingRotates(dir: Directory, first: State, steps: seq<Step>, s: State, p: nat, refresh: string)
    returns (all: seq<Step>, t: State)
    requires Run(dir, first, steps, s) && IndexInv(s) && InRange(s.table)
    requires p in s.phases && s.phases[p].Renewing? && refresh !in s.used
    ensures var x := s.phases[p].found;
            && Run(dir, first, all, t) && IndexInv(t) && InRange(t.table) && t.phases == s.phases - {p}
            && t.log == s.log + [Stored(x.sessionID, RefreshToken(refresh), Some(x.refreshToken))]
  {
    hide Run, IndexInv, RefreshToken, Rotated;
    RenewingIsStored(s, p);
    t := OneMore(dir, first, steps, s, RefreshRotate(p, refresh));
    StepKeepsIndex(dir, s, RefreshRotate(p, refresh));
    all := steps + [RefreshRotate(p, refresh)];
  }

  /** ... one after the other. */
  lemma {:induction false} AllHoldersRotate(dir: Directory, first: State, steps: seq<Step>, s: State, token: string, n: nat)
    returns (all: seq<Step>, t: State)
    requires Inv(first) && Run(dir, first, steps, s) && n <= |Holders(s, token)|
    ensures Run(dir, first, all, t) && Uses(t.log, token) == Uses(s.log, token) + n
    decreases n
  {
    hide Run, Inv, Uses, Holders, Evolves;
    RunEvolves(dir, first, steps, s);
    all, t := steps, s;
    if n > 0 {
      var p :| p in Holders(s, token);
      all, t := HolderRotates(dir, first, steps, s, p, token);
      all, t := AllHoldersRotate(dir, first, all, t, token, n - 1);
    }
  }

  /** The run gives the token `n` more rotations, or more. */
  ghost predicate UsesMore(dir: Directory, s: State, steps: seq<Step>, t: State, token: string, n: nat) {
    Run(dir, s, steps, t) && Uses(t.log, token) >= Uses(s.log, token) + n
  }

  /** A dead token can still get `n` rotations exactly when `n` refreshes accepted with it are under way. */
  lemma DeadTokenMaximum(dir: Directory, s: State, token: string, n: nat)
    requires Inv(s) && Dead(s, token)
    ensures (exists steps, t :: UsesMore(dir, s, steps, t, token, n)) <==> n <= |Holders(s, token)|
  {
    assert Run(dir, s, [], s);
    hide Run, Inv, Uses, Holders, Dead;
    if n <= |Holders(s, token)| {
      var steps, t := AllHoldersRotate(dir, s, [], s, token, n);
      assert UsesMore(dir, s, steps, t, token, n);
    } else {
      forall steps, t ensures !UsesMore(dir, s, steps, t, token, n) {
        if Run(dir, s, steps, t) { DeadTokenBound(dir, s, steps, t, token); }
      }
    }
  }

  // ---------------------------------------------------------------- single use

  /** No continuation makes another rotation for the token. */
  ghost predicate NeverAgain(dir: Directory, s: State, token: string) {
    forall steps, t :: Run(dir, s, steps, t) ==> Uses(t.log, token) == Uses(s.log, token)
  }

  /**
   A refresh token is single use exactly when, at its first rotation, no other refresh accepted with it is under
   way: then and only then is that rotation the last, in every continuation. Until then it has none.
   */
  lemma SingleUseIff(dir: Directory, s: State, p: nat, refresh: string)
    requires FullInv(s) && Enabled(dir, s, RefreshRotate(p, refresh))
    ensures var (t, token) := (Next(dir, s, RefreshRotate(p, refresh)), s.phases[p].found.refreshToken);
            && Uses(t.log, token) == Uses(s.log, token) + 1
            && (token in s.table.byToken ==> Uses(s.log, token) == 0)
            && (NeverAgain(dir, t, token) <==> Holders(s, token) == {p})
  {
    hide FullInv, Inv, IndexInv, Next, Enabled, Uses, Holders, Run, Dead, RefreshToken;
    var t, token := FirstRotation(dir, s, p, refresh);
    OnlyHoldersUse(dir, t, token);
  }

  lemma FirstRotation(dir: Directory, s: State, p: nat, refresh: string) returns (t: State, token: string)
    requires FullInv(s) && Enabled(dir, s, RefreshRotate(p, refresh))
    ensures p in s.phases && s.phases[p].Renewing? && token == s.phases[p].found.refreshToken
    ensures InRange(s.table) && t == Next(dir, s, RefreshRotate(p, refresh))
    ensures Inv(t) && Dead(t, token) && Uses(t.log, token) == Uses(s.log, token) + 1
    ensures token in s.table.byToken ==> Uses(s.log, token) == 0
    ensures Holders(t, token) == {} <==> Holders(s, token) == {p}
  {
    hide StartedInv, IndexInv, LogInv, AccessInv, Evolves, Uses, Holders, RefreshToken, UsedAreDead, Spent;
    t, token := Next(dir, s, RefreshRotate(p, refresh)), s.phases[p].found.refreshToken;
    StepKeepsInv(dir, s, RefreshRotate(p, refresh));
    RotationKills(s, p, refresh);
    UsedDead(s);
    RotationCounts(s, p, refresh);
  }

  lemma OnlyHoldersUse(dir: Directory, t: State, token: string)
    requires Inv(t) && Dead(t, token)
    ensures NeverAgain(dir, t, token) <==> Holders(t, token) == {}
  {
    hide Inv, Uses, Holders, Run, Dead;
    DeadTokenMaximum(dir, t, token, 1);
    if Holders(t, token) == {} {
      forall steps, u | Run(dir, t, steps, u) ensures Uses(u.log, token) == Uses(t.log, token) {
        DeadTokenBound(dir, t, steps, u, token);
        LogGrows(dir, t, steps, u);
        UsesGrow(t.log, u.log, token);
      }
    } else {
      assert |Holders(t, token)| >= 1;
      var steps, u :| UsesMore(dir, t, steps, u, token, 1);
      assert !NeverAgain(dir, t, token);
    }
  }

  lemma RotationCounts(s: State, p: nat, refresh: string)
    requires IndexInv(s) && InRange(s.table) && p in s.phases && s.phases[p].Renewing?
    ensures var (t, token) := (AfterRotate(s, p, s.phases[p].found.sessionID, RefreshToken(refresh), refresh),
                               s.phases[p].found.refreshToken);
            && Uses(t.log, token) == Uses(s.log, token) + 1
            && (Holders(t, token) == {} <==> Holders(s, token) == {p})
  {
    hide IndexInv, Uses, RefreshToken, Rotated;
    var x := s.phases[p].found;
    var t := AfterRotate(s, p, x.sessionID, RefreshToken(refresh), refresh);
    RenewingIsStored(s, p);
    UsesAfter(s.log, Stored(x.sessionID, RefreshToken(refresh), Some(x.refreshToken)), x.refreshToken);
    assert Holders(s, x.refreshToken) == Holders(t, x.refreshToken) + {p};
    assert p !in Holders(t, x.refreshToken);
  }

  lemma {:induction false} LogGrows(dir: Directory, s: State, steps: seq<Step>, t: State)
    requires Run(dir, s, steps, t)
    ensures s.log <= t.log
    decreases |steps|
  {
    hide Enabled;
    if steps != [] { LogGrows(dir, Next(dir, s, steps[0]), steps[1..], t); }
  }

  lemma {:induction false} UsesGrow(log: seq<Stored>, more: seq<Stored>, token: string)
    requires log <= more
    ensures Uses(log, token) <= Uses(more, token)
    decreases |more|
  {
    if |log| < |more| {
      UsesGrow(log, more[..|more| - 1], token);
    } else {
      assert log == more;
    }
  }

  /** So an uninterrupted refresh is the last with its token exactly when no other one accepted with it is under way. */
  lemma RefreshAloneIsLastIff(dir: Directory, s: State, p: nat, token: string, tok: string, refresh: string)
    returns (steps: seq<Step>, last: State)
    requires Inv(s) && Accepts(s, token)
    requires p !in s.phases && tok !in s.used && refresh !in s.used && tok != refresh
    ensures Run(dir, s, steps, last) && Uses(last.log, token) == Uses(s.log, token) + 1
    ensures NeverAgain(dir, last, token) <==> Holders(s, token) == {}
  {
    hide Run, IndexInv, LogInv, AccessInv, RefreshToken, NeverAgain, Uses, Keeps, Spent;
    assert token in s.table.byToken by { hide Blank; }
    StoredIsSpent(s, token);
    steps, last := OneRefreshUsesUpItsToken(dir, s, p, token, tok, refresh);
    RunEvolves(dir, s, steps, last);
    UsesAfter(s.log, last.log[|s.log|], token);
    assert last.log == s.log + [last.log[|s.log|]];
    OnlyHoldersUse(dir, last, token);
  }

  // ---------------------------------------------------------------- the same along one run

  /** Along the steps from `s`, refresh `q` rotates with the token. */
  ghost predicate RotatesIn(dir: Directory, s: State, steps: seq<Step>, q: nat, token: string)
    decreases |steps|
  {
    && steps != [] && InRange(s.table) && Enabled(dir, s, steps[0])
    && (UsesNow(s, steps[0], q, token) || RotatesIn(dir, Next(dir, s, steps[0]), steps[1..], q, token))
  }

  predicate UsesNow(s: State, step: Step, q: nat, token: string) {
    step.RefreshRotate? && step.p == q && q in Holders(s, token)
  }

  lemma {:induction false} WhoeverRotatesHeldIt(dir: Directory, s: State, steps: seq<Step>, q: nat, token: string)
    requires Inv(s) && Dead(s, token) && RotatesIn(dir, s, steps, q, token)
    ensures q in Holders(s, token)
    decreases |steps|
  {
    hide IndexInv, LogInv, AccessInv, Next, Enabled, Holders, Dead, Uses;
    if !UsesNow(s, steps[0], q, token) {
      StepKeepsInv(dir, s, steps[0]);
      DeadStep(dir, s, steps[0], token);
      WhoeverRotatesHeldIt(dir, Next(dir, s, steps[0]), steps[1..], q, token);
    }
  }

  /** A step gives a dead token a rotation exactly when one of its holders rotates. */
  lemma UseIsCounted(dir: Directory, s: State, step: Step, token: string)
    requires Inv(s) && Enabled(dir, s, step) && Dead(s, token)
    ensures Uses(Next(dir, s, step).log, token)
            == Uses(s.log, token) + if exists q :: UsesNow(s, step, q, token) then 1 else 0
  {
    hide IndexInv, LogInv, AccessInv, Uses, Dead, RefreshToken, Rotated;
    match step {
      case LoginCreate(p) =>
        UsesAfter(s.log, Stored(s.phases[p].session.sessionID, s.phases[p].session.refreshToken, None), token);
      case RefreshRotate(p, refresh) =>
        var x := s.phases[p].found;
        RenewingIsStored(s, p);
        UsesAfter(s.log, Stored(x.sessionID, RefreshToken(refresh), Some(x.refreshToken)), token);
        assert UsesNow(s, step, p, token) <==> x.refreshToken == token;
      case _ =>
        NothingStartsWith(dir, s, step, token);
    }
  }

  /**
   Along any run after a token's first rotation, it gets another one exactly when some refresh that had been accepted
   with it by then, and had not rotated yet, rotates.
   */
  lemma {:induction false} SecondRotationIff(dir: Directory, s: State, steps: seq<Step>, t: State, token: string)
    requires Inv(s) && Run(dir, s, steps, t) && Dead(s, token)
    ensures Uses(t.log, token) > Uses(s.log, token) <==>
            exists q :: q in Holders(s, token) && RotatesIn(dir, s, steps, q, token)
    decreases |steps|
  {
    hide IndexInv, LogInv, AccessInv, Next, Enabled, Holders, Dead, Uses;
    if steps != [] {
      var (step, rest) := (steps[0], steps[1..]);
      assert InRange(s.table) && Enabled(dir, s, step);
      var mid := Next(dir, s, step);
      StepKeepsInv(dir, s, step);
      DeadStep(dir, s, step, token);
      UseIsCounted(dir, s, step, token);
      SecondRotationIff(dir, mid, rest, t, token);
      LogGrows(dir, mid, rest, t);
      UsesGrow(mid.log, t.log, token);
      if q :| UsesNow(s, step, q, token) {
        assert RotatesIn(dir, s, steps, q, token);
      } else {
        forall q | RotatesIn(dir, mid, rest, q, token) ensures q in Holders(mid, token) {
          WhoeverRotatesHeldIt(dir, mid, rest, q, token);
        }
        assert forall q :: RotatesIn(dir, s, steps, q, token) <==> RotatesIn(dir, mid, rest, q, token);
      }
    }
  }
}

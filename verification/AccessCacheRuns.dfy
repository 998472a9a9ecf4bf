/**
 The cache under interleaving. A request passes through the read section, the look at the clock, the
 delete section, the base resolver and the put section as separate steps; requests of any number of
 workers mix freely, and any of them may stop half way.
 */
module AccessCacheRuns {
  import opened Prelude
  import opened Text
  import opened Authorization
  import opened AuthorizationFacts
  import opened AccessCache
  import opened Runs

  /** What the base resolver answers at each instant. */
  type Base = (Time, string, string) -> Option<EffectiveAccess>

  /** The base resolver names the pair it was asked for. */
  ghost predicate NamesThePair(base: Base) {
    forall t, m, c :: base(t, m, c).Some? ==> base(t, m, c).value.membershipID == m && base(t, m, c).value.companyID == c
  }

  /** `latency` bounds the time between a base answer and its put; 0 makes the two one step. */
  datatype Config = Config(base: Base, ttl: Time, latency: nat)

  ghost predicate Sound(cfg: Config) { NamesThePair(cfg.base) && cfg.ttl > 0 }

  datatype Phase =
    | HasRead(m: string, c: string, item: Option<Entry>)
    | Stale(m: string, c: string)
    | Missed(m: string, c: string)
    | Resolved(snapshot: EffectiveAccess, resolvedAt: Time)

  datatype Served = Served(m: string, c: string, snapshot: EffectiveAccess, at: Time)

  datatype State = State(now: Time, items: map<string, Entry>, phases: map<nat, Phase>, served: seq<Served>)

  datatype Step =
    | Advance(d: nat)
    | Read(p: nat, m: string, c: string)
    | Decide(p: nat)
    | Delete(p: nat)
    | Ask(p: nat)
    | PutBack(p: nat)
    | Stop(p: nat)

  ghost predicate Enabled(cfg: Config, s: State, step: Step) {
    match step
    case Advance(_) => true
    case Read(p, _, _) => p !in s.phases
    case Decide(p) => p in s.phases && s.phases[p].HasRead?
    case Delete(p) => p in s.phases && s.phases[p].Stale?
    case Ask(p) => p in s.phases && s.phases[p].Missed?
    case PutBack(p) => p in s.phases && s.phases[p].Resolved? && s.now - s.phases[p].resolvedAt <= cfg.latency
    case Stop(p) => p in s.phases
  }

  ghost function Next(cfg: Config, s: State, step: Step): State
    requires Enabled(cfg, s, step)
  {
    match step
    case Advance(d) => s.(now := s.now + d)
    case Read(p, m, c) => s.(phases := s.phases[p := HasRead(m, c, Lookup(s.items, Key(m, c)))])
    case Decide(p) =>
      var HasRead(m, c, item) := s.phases[p];
      var hit := HitAt(item, s.now);
      if hit.Some? then s.(phases := s.phases - {p}, served := s.served + [Served(m, c, hit.value, s.now)])
      else s.(phases := s.phases[p := if item.Some? then Stale(m, c) else Missed(m, c)])
    case Delete(p) =>
      var Stale(m, c) := s.phases[p];
      s.(items := s.items - {Key(m, c)}, phases := s.phases[p := Missed(m, c)])
    case Ask(p) =>
      var Missed(m, c) := s.phases[p];
      var answer := cfg.base(s.now, m, c);
      if answer.Some? then s.(phases := s.phases[p := Resolved(answer.value, s.now)]) else s.(phases := s.phases - {p})
    case PutBack(p) =>
      var snapshot := s.phases[p].snapshot;
      s.(items := s.items[KeyOf(snapshot) := Entry(snapshot, s.now + cfg.ttl)],
         phases := s.phases - {p},
         served := s.served + [Served(snapshot.membershipID, snapshot.companyID, snapshot, s.now)])
    case Stop(p) => s.(phases := s.phases - {p})
  }

  ghost predicate Takes(cfg: Config, s: State, step: Step, t: State) { Enabled(cfg, s, step) && t == Next(cfg, s, step) }

  ghost function Machine(cfg: Config): (State, Step, State) -> bool { (s, step, t) => Takes(cfg, s, step, t) }

  ghost predicate Run(cfg: Config, first: State, steps: seq<Step>, last: State) { Leads(Machine(cfg), first, steps, last) }

  function Empty(now: Time): State { State(now, map[], map[], []) }

  // ---------------------------------------------------------------- the invariant

  /** The base gave `snapshot` between `low` and `high`. */
  ghost predicate Given(cfg: Config, snapshot: EffectiveAccess, low: Time, high: Time) {
    exists t :: low <= t <= high && cfg.base(t, snapshot.membershipID, snapshot.companyID) == Some(snapshot)
  }

  /** An entry holds what the base gave, at most `latency` before it was put. */
  ghost predicate GoodEntry(cfg: Config, now: Time, key: string, e: Entry) {
    && KeyOf(e.snapshot) == key
    && e.expires <= now + cfg.ttl
    && Given(cfg, e.snapshot, e.expires - cfg.ttl - cfg.latency, e.expires - cfg.ttl)
  }

  ghost predicate GoodPhase(cfg: Config, now: Time, ph: Phase) {
    match ph
    case HasRead(m, c, item) => item.Some? ==> GoodEntry(cfg, now, Key(m, c), item.value)
    case Stale(_, _) => true
    case Missed(_, _) => true
    case Resolved(snapshot, at) =>
      at <= now && cfg.base(at, snapshot.membershipID, snapshot.companyID) == Some(snapshot)
  }

  /** What was served is what the base gave, at most `ttl + latency` ago, to a pair with the same key. */
  ghost predicate Timely(cfg: Config, x: Served) {
    KeyOf(x.snapshot) == Key(x.m, x.c) && Given(cfg, x.snapshot, x.at - cfg.ttl - cfg.latency, x.at)
  }

  ghost predicate Inv(cfg: Config, s: State) {
    && (forall k :: k in s.items ==> GoodEntry(cfg, s.now, k, s.items[k]))
    && (forall p :: p in s.phases ==> GoodPhase(cfg, s.now, s.phases[p]))
    && (forall i :: 0 <= i < |s.served| ==> Timely(cfg, s.served[i]))
  }

  lemma StepKeepsInv(cfg: Config, s: State, step: Step)
    requires Sound(cfg) && Inv(cfg, s) && Enabled(cfg, s, step)
    ensures Inv(cfg, Next(cfg, s, step))
  {
    hide Key, KeyOf;
    match step
    case Decide(p) =>
      assert GoodPhase(cfg, s.now, s.phases[p]);
    case Ask(p) =>
      var Missed(m, c) := s.phases[p];
      assert cfg.base(s.now, m, c).Some? ==> cfg.base(s.now, m, c).value.membershipID == m;
    case PutBack(p) =>
      var Resolved(snapshot, at) := s.phases[p];
      assert GoodPhase(cfg, s.now, s.phases[p]);
      assert Given(cfg, snapshot, s.now - cfg.latency, s.now);
      assert Given(cfg, snapshot, s.now - cfg.ttl - cfg.latency, s.now);
      assert Timely(cfg, Served(snapshot.membershipID, snapshot.companyID, snapshot, s.now)) by { KeyOfIsKey(snapshot); }
    case _ =>
  }

  lemma KeyOfIsKey(snapshot: EffectiveAccess)
    ensures KeyOf(snapshot) == Key(snapshot.membershipID, snapshot.companyID)
  {
  }

  /** Whatever the interleaving, every snapshot ever served is timely. */
  lemma {:induction false} EverythingServedIsTimely(cfg: Config, first: State, steps: seq<Step>, last: State)
    requires Sound(cfg) && Inv(cfg, first) && Run(cfg, first, steps, last)
    ensures Inv(cfg, last)
    decreases |steps|
  {
    hide Inv, Next;
    if steps != [] {
      StepKeepsInv(cfg, first, steps[0]);
      EverythingServedIsTimely(cfg, Next(cfg, first, steps[0]), steps[1..], last);
    }
  }

  // ---------------------------------------------------------------- decisions

  /** The base has given the same answer for the pair since `from`. */
  ghost predicate Steady(cfg: Config, m: string, c: string, from: Time, to: Time) {
    forall t :: from <= t <= to ==> cfg.base(t, m, c) == cfg.base(to, m, c)
  }

  /** The lookups of an uncached service at `at`, and of one whose resolver returned `snapshot`. */
  function Uncached(cfg: Config, policy: (string, string) -> Option<Policy>, at: Time): Lookups {
    Lookups((m, c) => cfg.base(at, m, c), policy)
  }

  function Cached(snapshot: EffectiveAccess, policy: (string, string) -> Option<Policy>): Lookups {
    Lookups((m, c) => Some(snapshot), policy)
  }

  /** With a key of its own and a base steady for `ttl + latency`, a pair is decided as if there were no cache. */
  lemma CacheIsInvisible(cfg: Config, first: State, steps: seq<Step>, last: State, i: nat, req: Request,
                         policy: (string, string) -> Option<Policy>)
    requires Sound(cfg) && Inv(cfg, first) && Run(cfg, first, steps, last)
    requires i < |last.served|
    requires var x := last.served[i];
             && req.subject.membershipID == x.m && req.subject.companyID == x.c
             && '@' !in x.m && '@' !in x.c
             && Steady(cfg, x.m, x.c, x.at - cfg.ttl - cfg.latency, x.at)
    ensures var x := last.served[i];
            Authorize(Cached(x.snapshot, policy), req) == Authorize(Uncached(cfg, policy, x.at), req)
  {
    hide Authorization.Decide, Trim;
    EverythingServedIsTimely(cfg, first, steps, last);
    var x := last.served[i];
    assert Timely(cfg, x);
    OnlyOneSplit(x.m, x.c, x.snapshot.membershipID, x.snapshot.companyID);
    assert cfg.base(x.at, x.m, x.c) == Some(x.snapshot);
  }

  /**
   Even when pairs share a key, an allow was computed on the subject's own snapshot: at some instant of the
   last `ttl + latency` the base gave it for this very pair, so that an uncached check would have allowed too.
   A snapshot of another pair is always denied.
   */
  lemma AllowIsOnOwnSnapshot(cfg: Config, first: State, steps: seq<Step>, last: State, i: nat, req: Request,
                             policy: (string, string) -> Option<Policy>)
    requires Sound(cfg) && Inv(cfg, first) && Run(cfg, first, steps, last)
    requires i < |last.served|
    requires req.subject.membershipID == last.served[i].m && req.subject.companyID == last.served[i].c
    ensures var x := last.served[i];
            var d := Authorize(Cached(x.snapshot, policy), req);
            && (d.Ok? && d.value.allow ==>
                  exists t :: x.at - cfg.ttl - cfg.latency <= t <= x.at && Authorize(Uncached(cfg, policy, t), req) == d)
            && (d.Ok? && (x.snapshot.membershipID != x.m || x.snapshot.companyID != x.c) ==>
                  d.value == Deny(CompanyScopeMismatch, [], []))
  {
    hide Trim, Contains, ScopeReasons, WorkflowStateOK, EligibleActorOK, IsApproval, Key;
    EverythingServedIsTimely(cfg, first, steps, last);
    var x := last.served[i];
    assert Timely(cfg, x);
    var d := Authorize(Cached(x.snapshot, policy), req);
    if d.Ok? && d.value.allow {
      var t :| x.at - cfg.ttl - cfg.latency <= t <= x.at
               && cfg.base(t, x.snapshot.membershipID, x.snapshot.companyID) == Some(x.snapshot);
      assert Authorize(Uncached(cfg, policy, t), req) == d;
    }
  }

  /** The sharing of keys is real: after ("a", "b@c") was put, ("a@b", "c") is served the other's snapshot. */
  lemma SharedKeyServesTheOther(cfg: Config, now: Time)
    requires Sound(cfg) && cfg.base(now, "a", "b@c").Some?
    ensures exists steps: seq<Step>, last: State ::
              && Run(cfg, Empty(now), steps, last) && |last.served| == 2
              && last.served[1].m == "a@b" && last.served[1].c == "c"
              && last.served[1].snapshot.membershipID == "a" && last.served[1].snapshot.companyID == "b@c"
  {
    var e := cfg.base(now, "a", "b@c").value;
    SharedKey();
    var s0 := Empty(now);
    assert Run(cfg, s0, [], s0);
    var s1 := OneMore(cfg, s0, [], s0, Read(0, "a", "b@c"));
    var to1 := [] + [Read(0, "a", "b@c")];
    var s2 := OneMore(cfg, s0, to1, s1, Decide(0));
    var to2 := to1 + [Decide(0)];
    var s3 := OneMore(cfg, s0, to2, s2, Ask(0));
    assert s3.phases[0] == Resolved(e, now);
    var to3 := to2 + [Ask(0)];
    var s4 := OneMore(cfg, s0, to3, s3, PutBack(0));
    assert s4.items[KeyOf(e)] == Entry(e, now + cfg.ttl);
    var to4 := to3 + [PutBack(0)];
    var s5 := OneMore(cfg, s0, to4, s4, Read(0, "a@b", "c"));
    assert s5.phases[0] == HasRead("a@b", "c", Some(Entry(e, now + cfg.ttl)));
    var s6 := OneMore(cfg, s0, to4 + [Read(0, "a@b", "c")], s5, Decide(0));
    assert s6.served == [Served("a", "b@c", e, now), Served("a@b", "c", e, now)];
  }

  lemma OneMore(cfg: Config, first: State, steps: seq<Step>, mid: State, step: Step) returns (last: State)
    requires Run(cfg, first, steps, mid) && Enabled(cfg, mid, step)
    ensures last == Next(cfg, mid, step) && Run(cfg, first, steps + [step], last)
  {
    hide Next, Enabled;
    last := Next(cfg, mid, step);
    LeadsOn(Machine(cfg), first, steps, mid, step, last);
  }

  lemma SharedKey()
    ensures Key("a", "b@c") == Key("a@b", "c")
  {
  }

  // ---------------------------------------------------------------- the sequential resolver is one of the runs

  /** Once missed: ask the base, let `d` pass, put. */
  lemma MissedRuns(cfg: Config, first: State, steps: seq<Step>, s: State, p: nat, d: nat) returns (all: seq<Step>, last: State)
    requires Run(cfg, first, steps, s) && p in s.phases && s.phases[p].Missed? && d <= cfg.latency
    ensures Run(cfg, first, all, last)
    ensures var answer := cfg.base(s.now, s.phases[p].m, s.phases[p].c);
            && last.phases == s.phases - {p}
            && last.items == (if answer.None? then s.items
                              else s.items[KeyOf(answer.value) := Entry(answer.value, s.now + d + cfg.ttl)])
            && (answer.Some? ==> |last.served| == |s.served| + 1 && last.served[|s.served|].snapshot == answer.value)
  {
    hide Run, Key, KeyOf;
    last := OneMore(cfg, first, steps, s, Ask(p));
    all := steps + [Ask(p)];
    if p in last.phases {
      var waited := OneMore(cfg, first, all, last, Advance(d));
      all := all + [Advance(d)];
      last := OneMore(cfg, first, all, waited, PutBack(p));
      all := all + [PutBack(p)];
      assert last.phases == s.phases - {p};
    }
  }

  /** An uninterrupted resolve by an idle worker is a run that leaves the entries the resolver leaves. */
  lemma ResolveIsRun(cfg: Config, s: State, p: nat, m: string, c: string, d: nat) returns (steps: seq<Step>, last: State)
    requires p !in s.phases && d <= cfg.latency
    ensures Run(cfg, s, steps, last) && last.phases == s.phases
    ensures last.items == Refilled(s.items, Key(m, c), cfg.base(s.now, m, c), s.now, s.now + d, cfg.ttl)
    ensures var answer := Answer(s.items, Key(m, c), cfg.base(s.now, m, c), s.now);
            answer.Some? ==> |last.served| == |s.served| + 1 && last.served[|s.served|].snapshot == answer.value
  {
    hide Key, KeyOf;
    assert Run(cfg, s, [], s);
    hide Run;
    var read := OneMore(cfg, s, [], s, Read(p, m, c));
    last := OneMore(cfg, s, [] + [Read(p, m, c)], read, Decide(p));
    steps := [] + [Read(p, m, c)] + [Decide(p)];
    if p in last.phases && last.phases[p].Stale? {
      last := OneMore(cfg, s, steps, last, Delete(p));
      steps := steps + [Delete(p)];
    }
    if p in last.phases {
      steps, last := MissedRuns(cfg, s, steps, last, p, d);
    }
    PutThenDrop(s.phases, p, HasRead(m, c, Lookup(s.items, Key(m, c))));
    PutThenDrop(s.phases, p, Stale(m, c));
    PutThenDrop(s.phases, p, Missed(m, c));
  }
}

/**
 The reserve / execute / complete-or-abandon protocol under any interleaving. Insert, load, service call,
 completion and removal are separate steps of separate requests; a request may stop between any two of them,
 and a completion or a removal may be lost. Reservation ids are never repeated.
 */
module IdempotencyRuns {
  import opened Prelude
  import opened Idempotency
  import opened Runs

  /** Where a request is. */
  datatype Phase =
    | Duplicate(k: RowKey, hash: string)                        // the insert was refused, the row not yet read
    | Holding(k: RowKey, hash: string, id: string)              // reserved, service not yet called
    | Succeeded(k: RowKey, hash: string, id: string, body: string)
    | Failed(k: RowKey, hash: string, id: string)

  datatype Call = Call(k: RowKey, hash: string, result: Option<string>)

  datatype Given = Given(k: RowKey, hash: string, answer: Answer)

  datatype State = State(
    rows: Table, usedIDs: set<string>, phases: map<nat, Phase>, calls: seq<Call>, answers: seq<Given>)

  datatype Step =
    | Insert(p: nat, k: RowKey, hash: string, id: string, companyID: string, now: Time)
    | Load(p: nat)
    | Serve(p: nat, result: Option<string>)
    | Complete(p: nat)
    | CompletionLost(p: nat)
    | Abandon(p: nat)
    | RemovalLost(p: nat)
    | Stop(p: nat)

  ghost predicate Enabled(s: State, step: Step) {
    match step
    case Insert(p, _, _, id, _, _) => p !in s.phases && id !in s.usedIDs && id != ""
    case Load(p) => p in s.phases && s.phases[p].Duplicate?
    case Serve(p, _) => p in s.phases && s.phases[p].Holding?
    case Complete(p) => p in s.phases && s.phases[p].Succeeded?
    case CompletionLost(p) => p in s.phases && s.phases[p].Succeeded?
    case Abandon(p) => p in s.phases && s.phases[p].Failed?
    case RemovalLost(p) => p in s.phases && s.phases[p].Failed?
    case Stop(p) => p in s.phases
  }

  function AnswerOf(r: Result<Outcome, Failure>): Answer {
    match r
    case Err(f) => StoreError(f)
    case Ok(Replay(status, body)) => Replayed(status, body)
    case Ok(_) => Conflicted
  }

  function Answered(s: State, p: nat, k: RowKey, hash: string, answer: Answer): State {
    s.(phases := s.phases - {p}, answers := s.answers + [Given(k, hash, answer)])
  }

  function AfterInsert(s: State, p: nat, k: RowKey, hash: string, id: string, companyID: string, now: Time): State {
    if k in s.rows then s.(usedIDs := s.usedIDs + {id}, phases := s.phases[p := Duplicate(k, hash)])
    else s.(rows := s.rows[k := NewRow(id, companyID, hash, now)], usedIDs := s.usedIDs + {id},
            phases := s.phases[p := Holding(k, hash, id)])
  }

  function AfterServe(s: State, p: nat, ph: Phase, result: Option<string>): State
    requires ph.Holding?
  {
    s.(calls := s.calls + [Call(ph.k, ph.hash, result)],
       phases := s.phases[p := if result.Some? then Succeeded(ph.k, ph.hash, ph.id, result.value) else Failed(ph.k, ph.hash, ph.id)])
  }

  ghost function Next(s: State, step: Step): State
    requires Enabled(s, step)
  {
    match step
    case Insert(p, k, hash, id, companyID, now) => AfterInsert(s, p, k, hash, id, companyID, now)
    case Load(p) =>
      Answered(s, p, s.phases[p].k, s.phases[p].hash, AnswerOf(LoadedFrom(s.rows, s.phases[p].k, s.phases[p].hash)))
    case Serve(p, result) => AfterServe(s, p, s.phases[p], result)
    case Complete(p) =>
      var ph := s.phases[p];
      Answered(s.(rows := CompletedTable(s.rows, ph.id, Kept(ph.body))), p, ph.k, ph.hash, Done(ph.body))
    case CompletionLost(p) => Answered(s, p, s.phases[p].k, s.phases[p].hash, Done(s.phases[p].body))
    case Abandon(p) =>
      Answered(s.(rows := Without(s.rows, s.phases[p].id)), p, s.phases[p].k, s.phases[p].hash, ServiceError)
    case RemovalLost(p) => Answered(s, p, s.phases[p].k, s.phases[p].hash, ServiceError)
    case Stop(p) => s.(phases := s.phases - {p})
  }

  ghost predicate Takes(s: State, step: Step, t: State) { Enabled(s, step) && t == Next(s, step) }

  ghost predicate Run(first: State, steps: seq<Step>, last: State) { Leads(Takes, first, steps, last) }

  function Empty(): State { State(map[], {}, map[], [], []) }

  // ---------------------------------------------------------------- the invariant

  /** The body and hash of the one successful call for a key, if there was one. */
  function SuccessOf(calls: seq<Call>, k: RowKey): Option<Call> {
    if calls == [] then None
    else if calls[|calls| - 1].k == k && calls[|calls| - 1].result.Some? then Some(calls[|calls| - 1])
    else SuccessOf(calls[..|calls| - 1], k)
  }

  function Successes(calls: seq<Call>, k: RowKey): nat {
    if calls == [] then 0
    else Successes(calls[..|calls| - 1], k) + if calls[|calls| - 1].k == k && calls[|calls| - 1].result.Some? then 1 else 0
  }

  function CallsOf(calls: seq<Call>, k: RowKey): nat {
    if calls == [] then 0 else CallsOf(calls[..|calls| - 1], k) + if calls[|calls| - 1].k == k then 1 else 0
  }

  lemma AfterCall(calls: seq<Call>, c: Call, k: RowKey)
    ensures Successes(calls + [c], k) == Successes(calls, k) + if c.k == k && c.result.Some? then 1 else 0
    ensures SuccessOf(calls + [c], k) == if c.k == k && c.result.Some? then Some(c) else SuccessOf(calls, k)
    ensures CallsOf(calls + [c], k) == CallsOf(calls, k) + if c.k == k then 1 else 0
  {
    assert (calls + [c])[..|calls|] == calls;
  }

  predicate Owns(ph: Phase, k: RowKey) { !ph.Duplicate? && ph.k == k }

  /** An owner's row is there, in progress, with the owner's id; before the call nothing has succeeded for its key. */
  ghost predicate OwnerOK(s: State, ph: Phase) {
    !ph.Duplicate? ==>
      && ph.k in s.rows && s.rows[ph.k].id == ph.id && s.rows[ph.k].status.InProgress?
      && (ph.Holding? ==> s.rows[ph.k].requestHash == NullIfEmpty(ph.hash))
      && (ph.Succeeded? ==> s.rows[ph.k].requestHash == NullIfEmpty(ph.hash)
                            && SuccessOf(s.calls, ph.k) == Some(Call(ph.k, ph.hash, Some(ph.body))))
      && (ph.Holding? || ph.Failed? ==> Successes(s.calls, ph.k) == 0)
  }

  ghost predicate RowOK(s: State, k: RowKey) {
    && Successes(s.calls, k) <= 1
    && (Successes(s.calls, k) == 1 <==> SuccessOf(s.calls, k).Some?)
    && (Successes(s.calls, k) == 1 ==> k in s.rows)
    && (k in s.rows ==>
          && s.rows[k].id in s.usedIDs && s.rows[k].id != "" && !s.rows[k].status.Unknown?
          && (s.rows[k].status.Completed? ==>
                && Successes(s.calls, k) == 1
                && s.rows[k].requestHash == NullIfEmpty(SuccessOf(s.calls, k).value.hash)
                && SuccessOf(s.calls, k).value.result.Some?
                && s.rows[k].response == Some(Kept(SuccessOf(s.calls, k).value.result.value))))
  }

  ghost predicate Inv(s: State) {
    && (forall p :: p in s.phases ==> OwnerOK(s, s.phases[p]))
    && (forall k :: RowOK(s, k))
    && (forall k, l :: k in s.rows && l in s.rows && s.rows[k].id == s.rows[l].id ==> k == l)
    && (forall p, q :: p in s.phases && q in s.phases && p != q && Owns(s.phases[p], s.phases[p].k) ==>
                         !Owns(s.phases[q], s.phases[p].k))
  }

  lemma InsertKeepsInv(s: State, p: nat, k: RowKey, hash: string, id: string, companyID: string, now: Time)
    requires Inv(s) && p !in s.phases && id !in s.usedIDs && id != ""
    ensures Inv(AfterInsert(s, p, k, hash, id, companyID, now))
  {
    hide Successes, SuccessOf;
    var t := AfterInsert(s, p, k, hash, id, companyID, now);
    assert RowOK(s, k);
    forall l ensures RowOK(t, l) { assert RowOK(s, l); }
    forall q | q in t.phases ensures OwnerOK(t, t.phases[q]) {
      if q in s.phases && q != p { assert OwnerOK(s, s.phases[q]); }
    }
    forall l, m | l in t.rows && m in t.rows && t.rows[l].id == t.rows[m].id ensures l == m {
      assert l in s.rows ==> RowOK(s, l);
      assert m in s.rows ==> RowOK(s, m);
    }
  }

  lemma ServeKeepsInv(s: State, p: nat, result: Option<string>)
    requires Inv(s) && p in s.phases && s.phases[p].Holding?
    ensures Inv(AfterServe(s, p, s.phases[p], result))
  {
    hide Successes, SuccessOf, NullIfEmpty;
    var ph := s.phases[p];
    var c := Call(ph.k, ph.hash, result);
    var t := AfterServe(s, p, ph, result);
    assert OwnerOK(s, ph);
    forall l ensures RowOK(t, l) {
      assert RowOK(s, l);
      AfterCall(s.calls, c, l);
    }
    forall q | q in t.phases ensures OwnerOK(t, t.phases[q]) {
      assert OwnerOK(s, s.phases[q]);
      AfterCall(s.calls, c, t.phases[q].k);
      if q != p { assert Owns(ph, ph.k) && !Owns(s.phases[q], ph.k); }
    }
  }

  lemma CompletedOnly(s: State, ph: Phase, response: Response)
    requires Inv(s) && OwnerOK(s, ph) && !ph.Duplicate?
    ensures CompletedTable(s.rows, ph.id, response)
            == s.rows[ph.k := s.rows[ph.k].(status := Completed, response := Some(response))]
    ensures Without(s.rows, ph.id) == s.rows - {ph.k}
  {
    hide Successes, SuccessOf, RowOK;
  }

  lemma CompleteKeepsInv(s: State, p: nat)
    requires Inv(s) && p in s.phases && s.phases[p].Succeeded?
    ensures Inv(Next(s, Complete(p)))
  {
    hide Successes, SuccessOf, NullIfEmpty, CompletedTable, Without;
    var ph := s.phases[p];
    var t := Next(s, Complete(p));
    assert OwnerOK(s, ph);
    CompletedOnly(s, ph, Kept(ph.body));
    forall l ensures RowOK(t, l) {
      assert RowOK(s, l);
    }
    forall q | q in t.phases ensures OwnerOK(t, t.phases[q]) {
      assert OwnerOK(s, s.phases[q]);
      assert Owns(ph, ph.k) && !Owns(s.phases[q], ph.k);
    }
  }

  lemma AbandonKeepsInv(s: State, p: nat)
    requires Inv(s) && p in s.phases && s.phases[p].Failed?
    ensures Inv(Next(s, Abandon(p)))
  {
    hide Successes, SuccessOf, NullIfEmpty, CompletedTable, Without;
    var ph := s.phases[p];
    var t := Next(s, Abandon(p));
    assert OwnerOK(s, ph);
    CompletedOnly(s, ph, Garbled);
    forall l ensures RowOK(t, l) {
      assert RowOK(s, l);
    }
    forall q | q in t.phases ensures OwnerOK(t, t.phases[q]) {
      assert OwnerOK(s, s.phases[q]);
      assert Owns(ph, ph.k) && !Owns(s.phases[q], ph.k);
    }
  }

  lemma LeavingKeepsInv(s: State, t: State)
    requires Inv(s) && t.rows == s.rows && t.usedIDs == s.usedIDs && t.calls == s.calls
    requires forall p :: p in t.phases ==> p in s.phases && t.phases[p] == s.phases[p]
    ensures Inv(t)
  {
    hide Successes, SuccessOf, NullIfEmpty;
    forall l ensures RowOK(t, l) { assert RowOK(s, l); }
    forall q | q in t.phases ensures OwnerOK(t, t.phases[q]) { assert OwnerOK(s, s.phases[q]); }
  }

  lemma StepKeepsInv(s: State, step: Step)
    requires Inv(s) && Enabled(s, step)
    ensures Inv(Next(s, step))
  {
    hide Inv, LoadedFrom;
    match step
    case Insert(p, k, hash, id, companyID, now) => InsertKeepsInv(s, p, k, hash, id, companyID, now);
    case Serve(p, result) => ServeKeepsInv(s, p, result);
    case Complete(p) => CompleteKeepsInv(s, p);
    case Abandon(p) => AbandonKeepsInv(s, p);
    case Load(_) => LeavingKeepsInv(s, Next(s, step));
    case CompletionLost(_) => LeavingKeepsInv(s, Next(s, step));
    case RemovalLost(_) => LeavingKeepsInv(s, Next(s, step));
    case Stop(_) => LeavingKeepsInv(s, Next(s, step));
  }

  lemma {:induction false} RunKeepsInv(first: State, steps: seq<Step>, last: State)
    requires Inv(first) && Run(first, steps, last)
    ensures Inv(last)
    decreases |steps|
  {
    hide Inv, Next, Enabled;
    if steps != [] {
      StepKeepsInv(first, steps[0]);
      RunKeepsInv(Next(first, steps[0]), steps[1..], last);
    }
  }

  lemma EmptyHoldsInv()
    ensures Inv(Empty())
  {
  }

  // ---------------------------------------------------------------- results

  /** At most one service call ever succeeds for a key, and a row is completed only with that call's body. */
  lemma AtMostOneSuccess(first: State, steps: seq<Step>, last: State, k: RowKey)
    requires Inv(first) && Run(first, steps, last)
    ensures Successes(last.calls, k) <= 1
    ensures k in last.rows && last.rows[k].status.Completed? ==>
              exists c :: c in last.calls && c.k == k && c.result.Some?
                          && last.rows[k].response == Some(Kept(c.result.value))
                          && last.rows[k].requestHash == NullIfEmpty(c.hash)
  {
    hide Successes, Run;
    RunKeepsInv(first, steps, last);
    assert RowOK(last, k);
    if SuccessOf(last.calls, k).Some? { SuccessIsCall(last.calls, k); }
  }

  lemma {:induction false} SuccessIsCall(calls: seq<Call>, k: RowKey)
    requires SuccessOf(calls, k).Some?
    ensures var c := SuccessOf(calls, k).value; c in calls && c.k == k && c.result.Some?
    decreases |calls|
  {
    var n := |calls| - 1;
    if !(calls[n].k == k && calls[n].result.Some?) { SuccessIsCall(calls[..n], k); }
  }

  /** A row that no request can still finish: it is completed, or in progress without an owner. */
  ghost predicate Settled(s: State, k: RowKey) {
    k in s.rows && forall p :: p in s.phases ==> !Owns(s.phases[p], k)
  }

  /** Answers given between two states. */
  ghost predicate AnswersSince(s: State, t: State, k: RowKey, row: Row) {
    |s.answers| <= |t.answers|
    && forall i :: |s.answers| <= i < |t.answers| && t.answers[i].k == k ==>
                     t.answers[i].answer == AnswerOf(Loaded(row, t.answers[i].hash))
  }

  lemma SettledStep(s: State, step: Step, k: RowKey)
    requires Inv(s) && Enabled(s, step) && Settled(s, k)
    ensures var t := Next(s, step);
            && Settled(t, k) && t.rows[k] == s.rows[k] && CallsOf(t.calls, k) == CallsOf(s.calls, k)
            && AnswersSince(s, t, k, s.rows[k])
  {
    hide Successes, SuccessOf, NullIfEmpty, CompletedTable, Without, CallsOf, Loaded, AnswerOf, RowOK;
    match step {
      case Serve(p, result) => AfterCall(s.calls, Call(s.phases[p].k, s.phases[p].hash, result), k);
      case Complete(p) => CompletedOnly(s, s.phases[p], Kept(s.phases[p].body));
      case Abandon(p) => CompletedOnly(s, s.phases[p], Garbled);
      case _ =>
    }
  }

  /**
   A settled row never changes and its key causes no further service call, successful or not; every later
   request for the key is answered from the row.
   */
  lemma {:induction false} SettledForever(s: State, steps: seq<Step>, t: State, k: RowKey)
    requires Inv(s) && Run(s, steps, t) && Settled(s, k)
    ensures Settled(t, k) && t.rows[k] == s.rows[k] && CallsOf(t.calls, k) == CallsOf(s.calls, k)
    ensures AnswersSince(s, t, k, s.rows[k])
    decreases |steps|
  {
    hide Inv, Next, Enabled, CallsOf, Loaded, AnswerOf, Settled;
    assert k in s.rows by { SettledHasRow(s, k); }
    if steps != [] {
      var mid := Next(s, steps[0]);
      StepKeepsInv(s, steps[0]);
      SettledStep(s, steps[0], k);
      SettledHasRow(mid, k);
      SettledForever(mid, steps[1..], t, k);
      AnswersKept(mid, steps[1..], t);
      SettledHasRow(t, k);
    }
  }

  lemma SettledHasRow(s: State, k: RowKey)
    requires Settled(s, k)
    ensures k in s.rows
  {
  }

  lemma {:induction false} AnswersKept(s: State, steps: seq<Step>, t: State)
    requires Run(s, steps, t)
    ensures s.answers <= t.answers
    decreases |steps|
  {
    if steps != [] { AnswersKept(Next(s, steps[0]), steps[1..], t); }
  }

  /** A completed row is settled, so a later request with its hash replays it and any other gets a conflict. */
  lemma CompletedReplays(s: State, steps: seq<Step>, t: State, k: RowKey, i: nat)
    requires Inv(s) && Run(s, steps, t) && k in s.rows && s.rows[k].status.Completed?
    requires |s.answers| <= i < |t.answers| && t.answers[i].k == k
    ensures k in t.rows && t.rows[k] == s.rows[k] && CallsOf(t.calls, k) == CallsOf(s.calls, k)
    ensures var c := SuccessOf(s.calls, k);
            c.Some? && c.value.result.Some?
            && t.answers[i].answer == if t.answers[i].hash == c.value.hash && c.value.hash != ""
                                      then Replayed(200, c.value.result.value) else Conflicted
  {
    hide Run, Successes, SuccessOf, CallsOf;
    assert RowOK(s, k);
    forall p | p in s.phases ensures !Owns(s.phases[p], k) { assert OwnerOK(s, s.phases[p]); }
    SettledForever(s, steps, t, k);
  }

  /** A key settled in progress answers conflict for ever. */
  lemma OrphanConflicts(s: State, steps: seq<Step>, t: State, k: RowKey, i: nat)
    requires Inv(s) && Run(s, steps, t) && Settled(s, k) && s.rows[k].status.InProgress?
    requires |s.answers| <= i < |t.answers| && t.answers[i].k == k
    ensures k in t.rows && t.rows[k] == s.rows[k] && t.answers[i].answer == Conflicted
  {
    hide Run, Inv;
    SettledForever(s, steps, t, k);
  }

  /** An owner that stops, or whose completion or removal is lost, settles its key in progress; no other step does. */
  predicate GivesUp(step: Step, p: nat) {
    step == Stop(p) || step == CompletionLost(p) || step == RemovalLost(p)
  }

  lemma SettledInProgressExactlyBy(s: State, step: Step, p: nat, k: RowKey)
    requires Inv(s) && Enabled(s, step) && p in s.phases && Owns(s.phases[p], k)
    ensures var t := Next(s, step);
            Settled(t, k) && t.rows[k].status.InProgress? <==> GivesUp(step, p)
  {
    hide Successes, SuccessOf, NullIfEmpty, RowOK, CompletedTable, Without;
    var t := Next(s, step);
    OwnerIsOK(s, p);
    if step == Complete(p) {
      CompletedOnly(s, s.phases[p], Kept(s.phases[p].body));
    } else if step == Abandon(p) {
      CompletedOnly(s, s.phases[p], Garbled);
    } else if !GivesUp(step, p) {
      assert p in t.phases && Owns(t.phases[p], k);
    }
  }

  /** The run gives some request for `k` another answer than a conflict. */
  ghost predicate Answers(s: State, steps: seq<Step>, t: State, k: RowKey) {
    && Run(s, steps, t) && |s.answers| < |t.answers|
    && t.answers[|t.answers| - 1].k == k && t.answers[|t.answers| - 1].answer != Conflicted
  }

  lemma OwnerCanAnswer(s: State, p: nat, k: RowKey) returns (steps: seq<Step>, t: State)
    requires Inv(s) && p in s.phases && Owns(s.phases[p], k)
    ensures Answers(s, steps, t, k)
  {
    OwnerIsOK(s, p);
    assert Run(s, [], s);
    hide Run, Inv, CompletedTable, Without;
    if s.phases[p].Holding? {
      var body := "";
      var served := OneMore(s, [], s, Serve(p, Some(body)));
      t := OneMore(s, [] + [Serve(p, Some(body))], served, Complete(p));
      steps := [] + [Serve(p, Some(body))] + [Complete(p)];
    } else {
      var close := if s.phases[p].Succeeded? then Complete(p) else Abandon(p);
      t := OneMore(s, [], s, close);
      steps := [] + [close];
    }
  }

  /** A key in progress can still be answered otherwise than with a conflict exactly when some request owns it. */
  lemma CanAnswerIffOwned(s: State, k: RowKey)
    requires Inv(s) && k in s.rows && s.rows[k].status.InProgress?
    ensures (exists steps, t :: Answers(s, steps, t, k)) <==> exists p :: p in s.phases && Owns(s.phases[p], k)
  {
    hide Inv;
    if p :| p in s.phases && Owns(s.phases[p], k) {
      var steps, t := OwnerCanAnswer(s, p, k);
    } else {
      forall steps, t ensures !Answers(s, steps, t, k) {
        if Run(s, steps, t) && |s.answers| < |t.answers| && t.answers[|t.answers| - 1].k == k {
          OrphanConflicts(s, steps, t, k, |t.answers| - 1);
        }
      }
    }
  }

  /** While a key's row is in progress every request that finds it is told of a conflict, and calls nothing. */
  lemma InFlightConflicts(s: State, p: nat)
    requires Inv(s) && p in s.phases && s.phases[p].Duplicate?
    requires s.phases[p].k in s.rows && s.rows[s.phases[p].k].status.InProgress?
    ensures var t := Next(s, Load(p));
            t.calls == s.calls && t.rows == s.rows && t.answers == s.answers + [Given(s.phases[p].k, s.phases[p].hash, Conflicted)]
  {
    hide Inv;
  }

  // ---------------------------------------------------------------- one result for everyone

  /** The answer is the success of its key's one successful call, made for a request with the same hash. */
  ghost predicate SameResult(s: State, g: Given) {
    var c := SuccessOf(s.calls, g.k);
    match g.answer
    case Done(body) => c == Some(Call(g.k, g.hash, Some(body)))
    case Replayed(status, body) => c == Some(Call(g.k, g.hash, Some(body))) && status == 200
    case _ => true
  }

  ghost predicate AnswersOK(s: State) {
    forall i :: 0 <= i < |s.answers| ==> SameResult(s, s.answers[i])
  }

  lemma LoadGivesResult(s: State, k: RowKey, hash: string)
    requires Inv(s)
    ensures SameResult(s, Given(k, hash, AnswerOf(LoadedFrom(s.rows, k, hash))))
  {
    hide Successes, SuccessOf;
    assert RowOK(s, k);
    if SuccessOf(s.calls, k).Some? { SuccessIsCall(s.calls, k); }
  }

  lemma StepKeepsAnswers(s: State, step: Step)
    requires Inv(s) && AnswersOK(s) && Enabled(s, step)
    ensures AnswersOK(Next(s, step))
  {
    hide Inv, Successes, SuccessOf, LoadedFrom, AnswerOf, CompletedTable, Without;
    match step {
      case Load(p) => LoadGivesResult(s, s.phases[p].k, s.phases[p].hash);
      case Serve(p, result) => ServeKeepsAnswers(s, p, result);
      case Complete(p) => OwnerIsOK(s, p);
      case CompletionLost(p) => OwnerIsOK(s, p);
      case _ =>
    }
  }

  lemma OwnerIsOK(s: State, p: nat)
    requires Inv(s) && p in s.phases
    ensures OwnerOK(s, s.phases[p])
  {
  }

  lemma ServeKeepsAnswers(s: State, p: nat, result: Option<string>)
    requires Inv(s) && AnswersOK(s) && p in s.phases && s.phases[p].Holding?
    ensures AnswersOK(AfterServe(s, p, s.phases[p], result))
  {
    hide Successes, SuccessOf, OwnerOK;
    var ph := s.phases[p];
    NoSuccessYet(s, p);
    forall i | 0 <= i < |s.answers| ensures SameResult(AfterServe(s, p, ph, result), s.answers[i]) {
      assert SameResult(s, s.answers[i]);
      AfterCall(s.calls, Call(ph.k, ph.hash, result), s.answers[i].k);
    }
  }

  lemma NoSuccessYet(s: State, p: nat)
    requires Inv(s) && p in s.phases && s.phases[p].Holding?
    ensures SuccessOf(s.calls, s.phases[p].k) == None
  {
    hide Successes, SuccessOf;
    assert OwnerOK(s, s.phases[p]);
    assert RowOK(s, s.phases[p].k);
  }

  /** In every run, all the successful answers for a key, first or replayed, carry the one result of its one call. */
  lemma {:induction false} EveryoneGetsOneResult(first: State, steps: seq<Step>, last: State)
    requires Inv(first) && AnswersOK(first) && Run(first, steps, last)
    ensures Inv(last) && AnswersOK(last)
    decreases |steps|
  {
    hide Inv, AnswersOK, Next, Enabled;
    if steps != [] {
      StepKeepsInv(first, steps[0]);
      StepKeepsAnswers(first, steps[0]);
      EveryoneGetsOneResult(Next(first, steps[0]), steps[1..], last);
    }
  }

  // ---------------------------------------------------------------- the uninterrupted handler is one of the runs

  lemma OneMore(first: State, steps: seq<Step>, mid: State, step: Step) returns (last: State)
    requires Run(first, steps, mid) && Enabled(mid, step)
    ensures last == Next(mid, step) && Run(first, steps + [step], last)
  {
    hide Next, Enabled;
    last := Next(mid, step);
    LeadsOn(Takes, first, steps, mid, step, last);
  }

  /** The rows after one request for `k`, as the handler leaves them. */
  function HandledRows(rows: Table, k: RowKey, row: Row, result: Option<string>): Table {
    if k in rows || result.None? then rows
    else rows[k := row.(status := Completed, response := Some(Kept(result.value)))]
  }

  function HandledAnswer(rows: Table, k: RowKey, hash: string, result: Option<string>): Answer {
    if k in rows then AnswerOf(LoadedFrom(rows, k, hash))
    else match result case None => ServiceError case Some(body) => Done(body)
  }

  /**
   A request of an idle worker, handled without interruption, is a run: it leaves the rows and gets the answer
   that the handler's contract states, and calls the service exactly when its key was free.
   */
  lemma HandleIsRun(s: State, p: nat, k: RowKey, hash: string, id: string, companyID: string, now: Time, result: Option<string>)
    returns (steps: seq<Step>, last: State)
    requires Inv(s) && p !in s.phases && id !in s.usedIDs && id != ""
    ensures !IDTaken(s.rows, id)
    ensures Run(s, steps, last) && last.phases == s.phases
    ensures last.rows == HandledRows(s.rows, k, NewRow(id, companyID, hash, now), result)
    ensures last.answers == s.answers + [Given(k, hash, HandledAnswer(s.rows, k, hash, result))]
    ensures last.calls == if k in s.rows then s.calls else s.calls + [Call(k, hash, result)]
  {
    FreshIDIsFree(s, id);
    assert Run(s, [], s);
    hide Run, Inv, LoadedFrom, CompletedTable, Without, NewRow, AnswerOf;
    var insert := Step.Insert(p, k, hash, id, companyID, now);
    var one := OneMore(s, [], s, insert);
    if k in s.rows {
      last := OneMore(s, [] + [insert], one, Load(p));
      steps := [] + [insert] + [Load(p)];
      PutThenDrop(s.phases, p, Duplicate(k, hash));
    } else {
      StepKeepsInv(s, insert);
      steps, last := ServeAndClose(s, [] + [insert], one, p, result);
      PutThenDrop(s.phases, p, Holding(k, hash, id));
      PutThenDrop(s.rows, k, NewRow(id, companyID, hash, now));
    }
  }

  lemma FreshIDIsFree(s: State, id: string)
    requires Inv(s) && id !in s.usedIDs
    ensures !IDTaken(s.rows, id)
  {
    hide Successes, SuccessOf;
    forall k | k in s.rows ensures s.rows[k].id != id { assert RowOK(s, k); }
  }

  lemma ServeAndClose(first: State, steps: seq<Step>, s: State, p: nat, result: Option<string>)
    returns (all: seq<Step>, last: State)
    requires Inv(s) && Run(first, steps, s) && p in s.phases && s.phases[p].Holding?
    ensures Run(first, all, last) && last.phases == s.phases - {p}
    ensures var (k, hash) := (s.phases[p].k, s.phases[p].hash);
            && k in s.rows
            && last.calls == s.calls + [Call(k, hash, result)]
            && (result.Some? ==>
                  && last.rows == s.rows[k := s.rows[k].(status := Completed, response := Some(Kept(result.value)))]
                  && last.answers == s.answers + [Given(k, hash, Done(result.value))])
            && (result.None? ==>
                  && last.rows == s.rows - {k} && last.answers == s.answers + [Given(k, hash, ServiceError)])
  {
    OwnerIsOK(s, p);
    hide Run, Inv, CompletedTable, Without, Successes, SuccessOf, OwnerOK, Kept;
    var ph := s.phases[p];
    var served := OneMore(first, steps, s, Serve(p, result));
    StepKeepsInv(s, Serve(p, result));
    OwnerIsOK(served, p);
    PutThenDrop(s.phases, p, served.phases[p]);
    OwnerHasRow(served, p);
    CompletedOnly(served, served.phases[p], if result.Some? then Kept(result.value) else Garbled);
    var close := if result.Some? then Complete(p) else Abandon(p);
    last := OneMore(first, steps + [Serve(p, result)], served, close);
    all := steps + [Serve(p, result)] + [close];
  }

  lemma OwnerHasRow(s: State, p: nat)
    requires p in s.phases && OwnerOK(s, s.phases[p]) && !s.phases[p].Duplicate?
    ensures s.phases[p].k in s.rows
  {
  }
}

/** Events that no worker will ever finish: what strands them, and that nothing else does. */
module OutboxStranding {
  import opened Prelude
  import opened OutboxModel
  import opened OutboxProtocol
  import opened OutboxRuns

  /** In processing, and in no worker's batch. */
  ghost predicate Stranded(s: State, id: string) {
    id in s.rows && id in s.attempts && s.rows[id].status == Processing && forall w, i :: !At(s, w, i, id)
  }

  // ---------------------------------------------------------------- how an event gets there

  /** A crash strands every event its worker still holds. */
  lemma CrashStrands(s: State, w: nat, i: int, id: string)
    requires Inv(s) && At(s, w, i, id)
    ensures WellKeyed(s.rows) && Enabled(s, Crash(w)) && Stranded(Apply(s, Crash(w)), id)
  {
    hide History, HistoryOf;
    assert Holds(s, w, i);
    var s' := Apply(s, Crash(w));
    forall v, j ensures !At(s', v, j, id) { assert At(s, v, j, id) ==> v == w; }
  }

  /** A lost mark strands the event it was for; the worker goes on with the rest of its batch. */
  lemma MarkLostStrands(s: State, w: nat)
    requires Inv(s) && ReadyToMark(s, w)
    ensures WellKeyed(s.rows) && Enabled(s, MarkLost(w))
    ensures var s' := Apply(s, MarkLost(w));
            && Stranded(s', s.workers[w].batch[0].eventID)
            && w in s'.workers && s'.workers[w].batch == s.workers[w].batch[1..]
  {
    hide History, HistoryOf;
    var id := s.workers[w].batch[0].eventID;
    assert Holds(s, w, 0) && At(s, w, 0, id);
    var s' := Apply(s, MarkLost(w));
    forall v, j ensures !At(s', v, j, id) {
      if j >= 0 { assert !At(s, v, if v == w then j + 1 else j, id); }
    }
  }

  /** Nothing else does: a held event is stranded exactly by the crash of its worker or the loss of its mark. */
  lemma StrandedExactlyBy(s: State, step: Step, w: nat, i: int, id: string)
    requires Inv(s) && Enabled(s, step) && At(s, w, i, id)
    ensures Stranded(Apply(s, step), id) <==> step == Crash(w) || (step == MarkLost(w) && i == 0)
  {
    hide History, HistoryOf, Backoff, MaxJitter, IsClaim;
    assert Holds(s, w, i);
    var s' := Apply(s, step);
    if step == Crash(w) {
      CrashStrands(s, w, i, id);
    } else if step == MarkLost(w) && i == 0 {
      MarkLostStrands(s, w);
    } else if step.Mark? && step.w == w && i == 0 {
      assert s.workers[w].batch[0].eventID == id;
      assert s'.rows[id].status != Processing;
    } else if (step.Mark? || step.MarkLost?) && step.w == w {
      assert At(s', w, i - 1, id);
    } else {
      assert At(s', w, i, id);
    }
  }

  // ---------------------------------------------------------------- and never leaves

  lemma StrandedStep(s: State, step: Step, id: string)
    requires Inv(s) && Enabled(s, step) && Stranded(s, id)
    ensures var s' := Apply(s, step);
            Stranded(s', id) && s'.rows[id] == s.rows[id] && s'.attempts[id] == s.attempts[id]
  {
    hide History, HistoryOf, Holds, Exclusive, Backoff, MaxJitter;
    var s' := Apply(s, step);
    match step {
      case Claim(w, pick, batch) =>
        ClaimedAreDue(s, pick, batch);
        hide IsClaim, Candidates;
        assert id !in Ids(batch);
        forall v, i ensures !At(s', v, i, id) { assert !At(s, v, i, id); }
      case Handle(w, err) =>
        assert !At(s, w, 0, id);
        forall v, i ensures !At(s', v, i, id) { assert !At(s, v, i, id); }
      case Mark(w, at, jitter) =>
        assert !At(s, w, 0, id);
        forall v, i ensures !At(s', v, i, id) { assert !At(s, v, if v == w then i + 1 else i, id); }
      case MarkLost(w) =>
        forall v, i ensures !At(s', v, i, id) { assert !At(s, v, if v == w then i + 1 else i, id); }
      case _ =>
        forall v, i ensures !At(s', v, i, id) { assert !At(s, v, i, id); }
    }
  }

  /** A stranded event is in processing in every later state, and is never handled again. */
  lemma {:induction false} StrandedForever(s: State, steps: seq<Step>, k: nat, id: string)
    requires Inv(s) && IsRun(s, steps) && k <= |steps| && Stranded(s, id)
    ensures var s' := StateAt(s, steps, k);
            Stranded(s', id) && s'.rows[id] == s.rows[id] && s'.attempts[id] == s.attempts[id]
    decreases k
  {
    hide Stranded, Exclusive, History, HistoryOf, Holds;
    if k > 0 {
      StrandedStep(s, steps[0], id);
      StepKeepsInv(s, steps[0]);
      StrandedForever(Apply(s, steps[0]), steps[1..], k - 1, id);
    }
  }

  // ---------------------------------------------------------------- exactly when an event can leave processing

  /** The run ends with the event out of processing. */
  ghost predicate Leaves(s: State, steps: seq<Step>, id: string)
    requires Inv(s)
  {
    IsRun(s, steps) && StatusAt(s, steps, |steps|, id) != Some(Processing)
  }

  lemma LeavesLater(s: State, step: Step, rest: seq<Step>, id: string)
    requires Inv(s) && Enabled(s, step) && Inv(Apply(s, step)) && Leaves(Apply(s, step), rest, id)
    ensures Leaves(s, [step] + rest, id)
  {
    hide Inv, Enabled, Apply, IsRun, StateAt;
    RunStep(s, step, rest);
  }

  /** Its worker can go on to the event and mark it. */
  lemma {:induction false} HeldCanLeave(s: State, w: nat, i: int, id: string) returns (steps: seq<Step>)
    requires Inv(s) && At(s, w, i, id)
    ensures Leaves(s, steps, id)
    decreases i, 1
  {
    hide History, HistoryOf, Holds, Exclusive, Leaves, Backoff, MaxJitter;
    if ReadyToMark(s, w) {
      steps := ReadyCanLeave(s, w, i, id);
    } else {
      var step := Step.Handle(w, None);
      StepKeepsInv(s, step);
      var rest := ReadyCanLeave(Apply(s, step), w, i, id);
      LeavesLater(s, step, rest, id);
      steps := [step] + rest;
    }
  }

  lemma {:induction false} ReadyCanLeave(s: State, w: nat, i: int, id: string) returns (steps: seq<Step>)
    requires Inv(s) && At(s, w, i, id) && ReadyToMark(s, w)
    ensures Leaves(s, steps, id)
    decreases i, 0
  {
    hide History, HistoryOf, Exclusive, Leaves, Backoff;
    var step := Step.Mark(w, s.clock, 0);
    StepKeepsInv(s, step);
    var s' := Apply(s, step);
    var rest: seq<Step> := [];
    if i == 0 {
      assert Holds(s, w, 0);
      assert s'.rows[id].status != Processing;
      assert Leaves(s', [], id) by { LeftAlready(s', id); }
    } else {
      assert At(s', w, i - 1, id);
      rest := HeldCanLeave(s', w, i - 1, id);
    }
    LeavesLater(s, step, rest, id);
    steps := [step] + rest;
  }

  lemma LeftAlready(s: State, id: string)
    requires Inv(s) && StatusOf(s.rows, id) != Some(Processing)
    ensures Leaves(s, [], id)
  {
    hide Inv;
  }

  /** An event in processing can leave it in some continuation exactly when some worker holds it. */
  lemma CanLeaveIffHeld(s: State, id: string)
    requires Inv(s) && id in s.rows && s.rows[id].status == Processing
    ensures (exists steps :: Leaves(s, steps, id)) <==> exists w, i :: At(s, w, i, id)
  {
    if w, i :| At(s, w, i, id) {
      var steps := HeldCanLeave(s, w, i, id);
    } else {
      assert Stranded(s, id);
      hide Stranded, Inv;
      forall steps ensures !Leaves(s, steps, id) {
        if IsRun(s, steps) {
          StrandedForever(s, steps, |steps|, id);
          assert StatusAt(s, steps, |steps|, id) == Some(Processing) by { StrandedStatus(StateAt(s, steps, |steps|), id); }
        }
      }
    }
  }

  lemma StrandedStatus(s: State, id: string)
    requires Stranded(s, id)
    ensures StatusOf(s.rows, id) == Some(Processing)
  {
  }
}

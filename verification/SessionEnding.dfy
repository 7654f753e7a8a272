/**
 Every session ends: an open one always has its timer armed or the timer's abort on its way, a closed one
 has carried out its whole ending or has one goroutine that carries out exactly the rest of it.
 */
module SessionEnding {
  import opened Wrappers
  import opened SessionState
  import opened SessionProtocol

  predicate TimesOut(t: Thread) {
    t.pc == AbortNow(SessionTimeout)
  }

  /** An open session is bound to end by its timer. */
  predicate Bound(w: World) {
    !w.s.closed ==> w.s.timer == Some(true) || exists i :: 0 <= i < |w.threads| && TimesOut(w.threads[i])
  }

  /** A step of goroutine `i` that leaves the others alone, and the timer running or the session closed. */
  predicate KeepsTimer(w: World, w': World, i: nat) {
    && |w.threads| <= |w'.threads| && (forall k :: 0 <= k < |w.threads| && k != i ==> w'.threads[k] == w.threads[k])
    && (w'.s.closed || (!w.s.closed && (w'.s.timer == w.s.timer || w'.s.timer == Some(true))))
    && (i < |w.threads| && TimesOut(w.threads[i]) ==> w'.s.closed)
  }

  lemma BoundStays(w: World, w': World, i: nat)
    requires Bound(w) && KeepsTimer(w, w', i)
    ensures Bound(w')
  {
    if !w'.s.closed && w'.s.timer != Some(true) {
      var k :| 0 <= k < |w.threads| && TimesOut(w.threads[k]);
      assert TimesOut(w'.threads[k]);
    }
  }

  // ---------------------------------------------------------------- steps of a goroutine

  lemma SummaryStepKeepsTimer(w: World, i: nat, ok: bool)
    requires i < |w.threads| && InSummary(w.threads[i].pc)
    ensures KeepsTimer(w, Run(w, i, ok), i)
  {
  }

  lemma GoStepKeepsTimer(w: World, i: nat, ok: bool)
    requires i < |w.threads| && InGo(w.threads[i].pc)
    ensures KeepsTimer(w, Run(w, i, ok), i)
  {
  }

  lemma EndStepKeepsTimer(w: World, i: nat, ok: bool)
    requires i < |w.threads|
    requires var pc := w.threads[i].pc; pc.AbortNow? || pc.Apply? || pc.Start? || pc.Idle? || pc.Done?
    ensures KeepsTimer(w, Run(w, i, ok), i)
  {
  }

  lemma RunKeepsTimer(w: World, i: nat, ok: bool)
    requires i < |w.threads|
    ensures KeepsTimer(w, Run(w, i, ok), i)
  {
    var pc := w.threads[i].pc;
    if pc.AbortNow? || pc.Apply? || pc.Start? || pc.Idle? || pc.Done? {
      EndStepKeepsTimer(w, i, ok);
    } else if InGo(pc) {
      GoStepKeepsTimer(w, i, ok);
    } else {
      SummaryStepKeepsTimer(w, i, ok);
    }
  }

  // ---------------------------------------------------------------- messages

  lemma ProgressKeepsTimer(w: World, i: nat, progress: Progress)
    requires Serves(w, i)
    ensures KeepsTimer(w, OnProgress(w, i, progress), i)
  {
  }

  lemma MessageKeepsTimer(w: World, w': World, step: Step)
    requires NextBy(w, w', step) && !step.Advance? && !step.TimerFires?
    ensures KeepsTimer(w, w', if step.Join? then |w.threads| else step.i)
  {
    if step.GetProgress? {
      ProgressKeepsTimer(w, step.i, step.progress);
    } else if step.GetReport? || step.GetReady? {
      RecordKeepsTimer(w, w', step);
    }
  }

  lemma RecordKeepsTimer(w: World, w': World, step: Step)
    requires NextBy(w, w', step) && (step.GetReport? || step.GetReady?)
    ensures KeepsTimer(w, w', step.i)
  {
  }

  lemma NextKeepsBound(w: World, w': World)
    requires Bound(w) && Next(w, w')
    ensures Bound(w')
  {
    var step :| NextBy(w, w', step);
    if step.TimerFires? {
      assert TimesOut(w'.threads[|w.threads|]);
    } else if step.Advance? {
      RunKeepsTimer(w, step.i, step.ok);
      BoundStays(w, w', step.i);
    } else {
      MessageKeepsTimer(w, w', step);
      BoundStays(w, w', if step.Join? then |w.threads| else step.i);
    }
  }

  /** In every run an open session has its timer armed, or a goroutine about to abort it for the timeout. */
  lemma {:induction false} OpenIsBoundToEnd(run: seq<World>, k: nat)
    requires IsRun(run) && k < |run|
    ensures Bound(run[k])
  {
    if k > 0 {
      OpenIsBoundToEnd(run, k - 1);
      assert StepAt(run, k - 1);
      NextKeepsBound(run[k - 1], run[k]);
    }
  }

  // ---------------------------------------------------------------- the rest of an ending

  /** Goroutine `i` has exactly `todo` of the ending left to do. */
  predicate Applies(w: World, i: nat, todo: seq<Event>) {
    && i < |w.threads| && w.threads[i].pc == Apply(todo)
    && Completed(w.log) + todo == Ending(w.s.telemetry.outcome, w.visitor, w.attached)
  }

  predicate Ended(w: World) {
    && w.s.closed && NoneIn(w.threads, Applying)
    && Completed(w.log) == Ending(w.s.telemetry.outcome, w.visitor, w.attached)
  }

  /** A closed session has ended, or one goroutine, and only one, has the rest of its ending to do. */
  lemma ClosedIsEnding(run: seq<World>, k: nat) returns (i: nat)
    requires IsRun(run) && k < |run| && run[k].s.closed
    ensures var w := run[k];
            || Ended(w)
            || (i < |w.threads| && w.threads[i].pc.Apply? && Applies(w, i, w.threads[i].pc.todo)
                && forall j :: 0 <= j < |w.threads| && j != i ==> !Has(w.threads[j], Applying))
  {
    RunsKeepInv(run, k);
    EffectsAreEnding(run[k]);
    var w := run[k];
    i := 0;
    if !NoneIn(w.threads, Applying) {
      i :| 0 <= i < |w.threads| && Has(w.threads[i], Applying);
      assert ThreadOk(w, w.threads[i]);
    }
  }

  /** Established needs summary, GO, a provider, and the transports of both roles; nothing else ends that way. */
  lemma EstablishedNeeds(run: seq<World>, k: nat)
    requires IsRun(run) && k < |run| && run[k].s.telemetry.outcome == Established
    ensures var s := run[k].s;
            && s.closed && s.summarySent && s.goSent && run[k].attached.Some?
            && s.visitorReady && s.providerReady && s.telemetry.visitorUp && s.telemetry.providerUp
  {
    RunsKeepInv(run, k);
  }

  lemma Extend(run: seq<World>, w: World)
    requires IsRun(run) && Next(run[|run| - 1], w)
    ensures IsRun(run + [w])
  {
    var longer := run + [w];
    forall k | 0 <= k < |longer| - 1 ensures StepAt(longer, k) {
      if k < |run| - 1 { assert StepAt(run, k); }
    }
  }

  lemma Go(run: seq<World>, i: nat) returns (longer: seq<World>)
    requires IsRun(run) && i < |run[|run| - 1].threads|
    ensures IsRun(longer) && longer == run + [Run(run[|run| - 1], i, true)]
  {
    var w := run[|run| - 1];
    assert NextBy(w, Run(w, i, true), Advance(i, true));
    longer := run + [Run(w, i, true)];
    Extend(run, Run(w, i, true));
  }

  /** The goroutine that has the rest of an ending to do ends the session in that many steps of its own and one more. */
  lemma {:induction false} FinishEnding(run: seq<World>, i: nat) returns (longer: seq<World>)
    requires IsRun(run) && run[|run| - 1].s.closed
    requires i < |run[|run| - 1].threads| && run[|run| - 1].threads[i].pc.Apply?
    ensures IsRun(longer) && run <= longer && Ended(longer[|longer| - 1])
    ensures |longer| == |run| + |run[|run| - 1].threads[i].pc.todo| + 1
    decreases |run[|run| - 1].threads[i].pc.todo|
  {
    var w := run[|run| - 1];
    var todo := w.threads[i].pc.todo;
    longer := Go(run, i);
    var w' := longer[|longer| - 1];
    assert w'.s == w.s;
    if todo == [] {
      NobodyElse(run, i);
      CompletesExactlyOnce(longer, |longer| - 1);
    } else {
      assert w'.threads[i].pc == Apply(todo[1..]);
      longer := FinishEnding(longer, i);
    }
  }

  lemma NobodyElse(run: seq<World>, i: nat)
    requires IsRun(run) && i < |run[|run| - 1].threads| && run[|run| - 1].threads[i].pc == Apply([])
    ensures NoneIn(Run(run[|run| - 1], i, true).threads, Applying)
  {
    RunsKeepInv(run, |run| - 1);
  }

  /** A goroutine that is about to abort an open session closes it with its next step, and becomes its applier. */
  lemma AbortCloses(w: World, i: nat)
    requires i < |w.threads| && w.threads[i].pc.AbortNow? && !w.s.closed
    ensures var w' := Run(w, i, true); w'.s.closed && i < |w'.threads| && w'.threads[i].pc.Apply?
  {
  }

  /**
   Every run can be continued to the end of its session: by the goroutine that is ending it, by one that is
   about to abort it, or by the timer, whose steps nobody can take away or hold up.
   */
  lemma EveryRunEnds(run: seq<World>) returns (longer: seq<World>)
    requires IsRun(run)
    ensures IsRun(longer) && run <= longer && Ended(longer[|longer| - 1])
  {
    var w := run[|run| - 1];
    if w.s.closed {
      var i := ClosedIsEnding(run, |run| - 1);
      longer := run;
      if !Ended(w) { longer := FinishEnding(run, i); }
    } else {
      OpenIsBoundToEnd(run, |run| - 1);
      longer := TimeoutEnds(run);
    }
  }

  lemma TimeoutEnds(run: seq<World>) returns (longer: seq<World>)
    requires IsRun(run) && !run[|run| - 1].s.closed && Bound(run[|run| - 1])
    ensures IsRun(longer) && run <= longer && Ended(longer[|longer| - 1])
  {
    var i;
    longer, i := ReachAbort(run);
    AbortCloses(longer[|longer| - 1], i);
    longer := Go(longer, i);
    longer := FinishEnding(longer, i);
  }

  lemma ReachAbort(run: seq<World>) returns (longer: seq<World>, i: nat)
    requires IsRun(run) && !run[|run| - 1].s.closed && Bound(run[|run| - 1])
    ensures IsRun(longer) && run <= longer && !longer[|longer| - 1].s.closed
    ensures i < |longer[|longer| - 1].threads| && TimesOut(longer[|longer| - 1].threads[i])
  {
    var w := run[|run| - 1];
    longer := run;
    if w.s.timer == Some(true) {
      assert NextBy(w, OnTimer(w), TimerFires);
      Extend(run, OnTimer(w));
      longer := run + [OnTimer(w)];
      i := |w.threads|;
    } else {
      i :| 0 <= i < |w.threads| && TimesOut(w.threads[i]);
    }
  }
}

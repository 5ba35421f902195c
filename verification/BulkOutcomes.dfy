/** How far durable progress lags behind the loop, and which answers a call that entered the loop can give. */
module BulkOutcomes {
  import opened Wrappers
  import opened BulkModel
  import opened BulkProtocol
  import opened BulkInvariant
  import opened BulkSafety
  import opened BulkTheorems

  // ---- durable progress against what was sent and acknowledged ----

  /** Progress calls a target NotAttempted though its PATCH is out exactly while that PATCH is the one not yet saved. */
  lemma UnsavedPatchIsTheOnlyLag(states: seq<Sys>, events: seq<Event>, i: nat, key: string, k: nat)
    requires Run(states, events) && i < |states| && key in states[i].rows && states[i].rows[key].progress.Some?
    requires k < |states[i].rows[key].progress.value.results|
    ensures var s := states[i]; var r := s.rows[key].progress.value;
            && s.rows[key].started.Some? && Worker(s.rows[key]) in s.handlers
            && var l := s.handlers[Worker(s.rows[key])];
            (r.results[k].status == NotAttempted && Logged(s.issued, Worker(s.rows[key]), k)
             <==> r.failed == 0 && k == r.applied && l.sent == r.applied + 1)
  {
    ReachableInv(states, events, i);
    RecordedRow(states[i], key);
    var s := states[i];
    var r := s.rows[key].progress.value;
    var l := s.handlers[Worker(s.rows[key])];
    LoggedIsSent(s, Worker(s.rows[key]), k);
    ProgressAgainstCounters(s.rows[key], l);
    assert r.results[k].status == StatusAt(k, r.applied, r.failed);
  }

  /** Progress calls an acknowledged target anything but Applied exactly while that outcome is not yet saved. */
  lemma UnsavedAcknowledgementIsTheOnlyLag(states: seq<Sys>, events: seq<Event>, i: nat, key: string, k: nat)
    requires Run(states, events) && i < |states| && key in states[i].rows && states[i].rows[key].progress.Some?
    requires k < |states[i].rows[key].progress.value.results|
    ensures var s := states[i]; var r := s.rows[key].progress.value;
            && s.rows[key].started.Some? && Worker(s.rows[key]) in s.handlers
            && var l := s.handlers[Worker(s.rows[key])];
            && (r.results[k].status == Applied ==> (Worker(s.rows[key]), k) in s.acked)
            && ((Worker(s.rows[key]), k) in s.acked && r.results[k].status != Applied
                <==> k == r.applied && l.acks == r.applied + 1)
  {
    ReachableInv(states, events, i);
    RecordedRow(states[i], key);
    var s := states[i];
    var r := s.rows[key].progress.value;
    ProgressAgainstCounters(s.rows[key], s.handlers[Worker(s.rows[key])]);
    assert r.results[k].status == StatusAt(k, r.applied, r.failed);
  }

  lemma ProgressAgainstCounters(row: Row, l: Handler)
    requires HandlerFits(l) && l.entered && RowFits(row, l) && row.progress.Some?
    ensures var r := row.progress.value;
            && Shape(r, l.plan, r.applied, r.failed) && r.applied <= l.acks <= l.sent <= r.applied + 1
            && (r.failed == 1 ==> l.acks == r.applied)
  {
    hide ResultsFit;
  }

  /** A stored receipt is the stored progress, with the receipt shape and counts that sum to the targets; it is Partial
      exactly when its worker failed. */
  lemma FinalReceiptIsShaped(states: seq<Sys>, events: seq<Event>, i: nat, key: string)
    requires Run(states, events) && i < |states| && key in states[i].rows && states[i].rows[key].receipt.Some?
    ensures var s := states[i]; var r := s.rows[key].receipt.value;
            && s.rows[key].progress == Some(r) && s.rows[key].started.Some? && Worker(s.rows[key]) in s.handlers
            && var l := s.handlers[Worker(s.rows[key])];
            && Shape(r, l.plan, r.applied, r.failed)
            && r.applied + r.failed + r.notAttempted == |l.plan.targets| == |r.results|
            && (r.status == Partial <==> l.failure.Some?)
  {
    ReachableInv(states, events, i);
    RecordedRow(states[i], key);
  }

  // ---- every answer behind the loop ----

  /** A handler that entered the loop and answered gave one of four answers. */
  lemma FourAnswers(states: seq<Sys>, events: seq<Event>, i: nat, h: nat)
    requires Run(states, events) && i < |states| && h in states[i].handlers
    requires states[i].handlers[h].entered && states[i].handlers[h].pc.Done?
    ensures var response := states[i].handlers[h].pc.response;
            response.Pending? || response.TerminalFailure? || response.PartialFailure? || response.Succeeded?
  {
    ReachableInv(states, events, i);
    assert HandlerFits(states[i].handlers[h]);
  }

  /** A store statement or an audit append behind the consumed token that does not report success. */
  predicate Fails(pc: Pc, a: Answer) {
    if pc.Conclude? then !a.ok
    else !a.store.Committed?
         && (pc.SaveInitial? || pc.SaveProgress? || pc.SaveStop? || pc.SaveTerminal? || pc.SaveReceipt?)
  }

  lemma LoopFailsToPending(v: View, l: Handler, a: Answer)
    requires Ready(l) && InLoop(l.pc)
    ensures LoopStep(v, l, a).next.pc == Done(Pending) <==> Fails(l.pc, a)
    ensures l.entered ==> LoopStep(v, l, a).next.entered
  {
    hide MarkedApplied, MarkedNotAttemptedAfter, MarkedFailedAndRemaining, WithProgress;
  }

  lemma ConcludeFailsToPending(v: View, l: Handler, a: Answer)
    requires l.pc.Conclude? || l.pc.SaveTerminal? || l.pc.SaveReceipt?
    ensures ConcludeStep(v, l, a).next.pc == Done(Pending) <==> Fails(l.pc, a)
  {
    hide Recounted, TerminalError, WithTerminal, WithReceipt;
  }

  /** Where a handler that entered the loop can be. */
  predicate Inside(pc: Pc) {
    InLoop(pc) || pc.Conclude? || pc.SaveTerminal? || pc.SaveReceipt? || pc.Done? || pc.Crashed?
  }

  lemma EnteredIsInside(l: Handler)
    requires HandlerFits(l) && l.entered
    ensures Inside(l.pc)
  {
  }

  lemma StepFailsToPending(s: Sys, h: nat, a: Answer)
    requires Inv(s) && h in s.handlers && s.handlers[h].entered && !Stopped(s.handlers[h])
    ensures Enabled(s, Move(h, a))
    ensures Do(s, Move(h, a)).handlers[h].pc == Done(Pending) <==> Fails(s.handlers[h].pc, a)
  {
    hide LoopStep, ConcludeStep, AcquireStep, PreflightStep, Inv, HandlerFits, Fails, Kept;
    var l := s.handlers[h];
    assert HandlerFits(l) by { InvGivesHandler(s, h); }
    EnteredIsInside(l);
    MoveFacts(s, h, a);
    if InLoop(l.pc) {
      LoopFailsToPending(ViewOf(s, l), l, a);
    } else {
      ConcludeFailsToPending(ViewOf(s, l), l, a);
    }
  }

  lemma InvGivesHandler(s: Sys, h: nat)
    requires Inv(s) && h in s.handlers
    ensures HandlerFits(s.handlers[h])
  {
    hide HandlerFits;
  }

  /** The move at which a handler that entered the loop failed to store or to audit. */
  ghost predicate FailedMove(states: seq<Sys>, events: seq<Event>, k: nat, h: nat) {
    && k < |states| && Moves(events, k, h) && h in states[k].handlers && states[k].handlers[h].entered
    && Fails(states[k].handlers[h].pc, events[k].a)
  }

  lemma EnteringStarts(v: View, h: nat, l: Handler, a: Answer)
    requires Ready(l) && !Stopped(l) && !l.entered && LocalStep(v, h, l, a).next.entered
    ensures LocalStep(v, h, l, a).next.pc == SaveInitial
  {
    hide MarkedApplied, MarkedNotAttemptedAfter, MarkedFailedAndRemaining, Recounted, ExpectedTokens, TerminalError;
  }

  lemma {:induction false} StoppedStays(states: seq<Sys>, events: seq<Event>, k: nat, i: nat, h: nat)
    requires Run(states, events) && k <= i < |states| && h in states[k].handlers && Stopped(states[k].handlers[h])
    ensures h in states[i].handlers && states[i].handlers[h] == states[k].handlers[h]
  {
    hide Do;
    if k == i {
    } else {
      StoppedStays(states, events, k, i - 1, h);
      hide Enabled;
      StepKeepsStopped(states[i - 1], events[i - 1], h);
    }
  }

  lemma StepKeepsStopped(s: Sys, e: Event, h: nat)
    requires Enabled(s, e) && h in s.handlers && Stopped(s.handlers[h])
    ensures h in Do(s, e).handlers && Do(s, e).handlers[h] == s.handlers[h]
  {
    hide LocalStep;
  }

  /** The move behind a Pending answer. */
  lemma {:induction false} PendingHasACause(states: seq<Sys>, events: seq<Event>, i: nat, h: nat) returns (k: nat)
    requires Run(states, events) && i < |states| && h in states[i].handlers
    requires states[i].handlers[h].entered && states[i].handlers[h].pc == Done(Pending)
    ensures k < i && FailedMove(states, events, k, h)
  {
    hide Do, Inv, Fails;
    assert i > 0;
    var s, e := states[i - 1], events[i - 1];
    ReachableInv(states, events, i - 1);
    CauseStep(s, e, h);
    hide Enabled;
    if e.Move? && e.h == h {
      k := i - 1;
    } else {
      k := PendingHasACause(states, events, i - 1, h);
    }
  }

  lemma CauseStep(s: Sys, e: Event, h: nat)
    requires Inv(s) && Enabled(s, e) && h in Do(s, e).handlers
    requires Do(s, e).handlers[h].entered && Do(s, e).handlers[h].pc == Done(Pending)
    ensures h in s.handlers && s.handlers[h].entered
    ensures if e.Move? && e.h == h then Fails(s.handlers[h].pc, e.a) else s.handlers[h] == Do(s, e).handlers[h]
  {
    hide Inv, LocalStep, Fails;
    if e.Move? && e.h == h {
      if s.handlers[h].entered {
        StepFailsToPending(s, h, e.a);
      } else {
        EnteringStarts(ViewOf(s, s.handlers[h]), h, s.handlers[h], e.a);
      }
    }
  }

  /** Behind the loop, the answer is Pending exactly when a store statement or an audit append of that call failed. */
  lemma PendingExactly(states: seq<Sys>, events: seq<Event>, i: nat, h: nat)
    requires Run(states, events) && i < |states| && h in states[i].handlers
    requires states[i].handlers[h].entered && states[i].handlers[h].pc.Done?
    ensures states[i].handlers[h].pc.response.Pending? <==> exists k :: 0 <= k < i && FailedMove(states, events, k, h)
  {
    hide Do, Enabled, Inv, Fails;
    if states[i].handlers[h].pc.response.Pending? {
      var k := PendingHasACause(states, events, i, h);
    }
    if k :| 0 <= k < i && FailedMove(states, events, k, h) {
      ReachableInv(states, events, k);
      assert !Stopped(states[k].handlers[h]) by { FailingIsNotStopped(states[k].handlers[h].pc, events[k].a); }
      StepFailsToPending(states[k], h, events[k].a);
      assert states[k + 1] == Do(states[k], Move(h, events[k].a));
      assert h in states[k + 1].handlers by { MovedIsThere(states[k], h, events[k].a); }
      StoppedStays(states, events, k + 1, i, h);
    }
  }

  lemma FailingIsNotStopped(pc: Pc, a: Answer)
    requires Fails(pc, a)
    ensures !pc.Done? && !pc.Crashed?
  {
  }

  lemma MovedIsThere(s: Sys, h: nat, a: Answer)
    requires Enabled(s, Move(h, a))
    ensures h in Do(s, Move(h, a)).handlers
  {
    hide LocalStep;
  }
}

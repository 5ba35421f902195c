/** What an Applied result is evidence of: the read before its PATCH, and the answer or read behind it. */
module BulkEvidence {
  import opened Wrappers
  import opened BulkModel
  import opened BulkProtocol
  import opened BulkInvariant
  import opened BulkSafety
  import opened BulkTheorems
  import opened BulkHistory
  import opened BulkLone
  import opened BulkAdmission

  // ---- one move ----

  /** Between the recheck of target `i` and its receipt. */
  predicate AtTarget(pc: Pc, i: nat) {
    pc == SendPatch(i) || pc == AwaitPatch(i) || pc == PostRead(i) || (pc.Cohere? && pc.i == i)
  }

  predicate IsApplied(r: Receipt, k: nat) {
    k < |r.results| && r.results[k].status == Applied
  }

  /** The receipt's word on target `k`: stamped `observed`, with the old value of each field as it was last read. */
  predicate Tells(r: Receipt, k: nat, current: Snapshot, observed: string) {
    && IsApplied(r, k) && r.results[k].observed == observed
    && forall f :: f in r.results[k].changed ==>
         r.results[k].changed[f].before == Sha256(if f in current.fields then current.fields[f] else "")
  }

  /** The receipt after a move of target `i` says no more of another target than before. */
  predicate AddsOnly(before: Receipt, after: Receipt, i: nat, k: nat) {
    IsApplied(after, k) && k != i ==> IsApplied(before, k) && after.results[k] == before.results[k]
  }

  /** What stamps a result: the PATCH's own answer, else the read behind it, else the read in front of it. */
  predicate Stamps(pc: Pc, a: Answer, k: nat, current: Snapshot, observed: string) {
    || (pc == AwaitPatch(k) && a.patch == PatchAcknowledged(Some(observed)))
    || (pc == PostRead(k) && a.read.ReadOk? && a.read.snapshot.stamp == observed)
    || (pc == PostRead(k) && a.read.ReadErr? && current.stamp == observed)
  }

  lemma MarkingTells(l: Handler, i: nat, observed: string, k: nat)
    requires i < |l.plan.targets| && i < |l.receipt.results|
    ensures Tells(ApplyAt(l, i, observed), i, l.current, observed)
    ensures AddsOnly(l.receipt, ApplyAt(l, i, observed), i, k)
  {
  }

  lemma ClearingKeeps(r: Receipt, i: nat, k: nat)
    requires i < |r.results|
    ensures var cleared := MarkedNotAttemptedAfter(r, i);
            && cleared.results[i] == r.results[i]
            && (IsApplied(cleared, k) ==> IsApplied(r, k) && cleared.results[k] == r.results[k])
  {
  }

  lemma FailingKeeps(r: Receipt, i: nat, code: FailureCode, observed: string, k: nat)
    requires i < |r.results|
    ensures var failed := MarkedFailedAndRemaining(r, i, code, observed);
            IsApplied(failed, k) ==> IsApplied(r, k) && failed.results[k] == r.results[k]
  {
    ClearingKeeps(r.(results := r.results[i := FailedResult(r.results[i], code, observed)]), i, k);
  }

  lemma LosingTells(l: Handler, i: nat, observed: string, k: nat)
    requires i < |l.plan.targets| && i < |l.receipt.results|
    ensures var lost := LoseCoherence(l, i, observed);
            && lost.pc == SaveStop && lost.current == l.current
            && Tells(lost.receipt, i, l.current, observed) && AddsOnly(l.receipt, lost.receipt, i, k)
  {
    var dimmed := l.(receipt := l.receipt.(cacheCoherent := false));
    MarkingTells(dimmed, i, observed, k);
    ClearingKeeps(ApplyAt(dimmed, i, observed), i, k);
    hide ApplyAt, MarkedNotAttemptedAfter;
  }

  /** Where the Applied results and the values at hand behind one loop move come from. */
  ghost predicate LoopMoveFits(l: Handler, a: Answer, l': Handler, k: nat) {
    && (IsApplied(l'.receipt, k) ==>
          || (IsApplied(l.receipt, k) && l'.receipt.results[k] == l.receipt.results[k])
          || (l.pc.Cohere? && l.pc.i == k && Tells(l'.receipt, k, l.current, l.pc.observed))
          || (l.pc == PostRead(k) && a.read.ReadErr? && Tells(l'.receipt, k, l.current, l.current.stamp)))
    && (AtTarget(l'.pc, k) ==>
          || (l.pc == LoopRead(k) && a.read == ReadOk(l'.current))
          || (AtTarget(l.pc, k) && l'.current == l.current))
    && (l'.pc.Cohere? && l'.pc.i == k ==> Stamps(l.pc, a, k, l.current, l'.pc.observed) && l.pc != LoopRead(k))
  }

  lemma LoopMove(v: View, l: Handler, a: Answer, k: nat)
    requires Ready(l) && InLoop(l.pc)
    ensures LoopMoveFits(l, a, LoopStep(v, l, a).next, k)
  {
    hide ApplyAt, LoseCoherence, MarkedFailedAndRemaining, Tells;
    match l.pc {
      case LoopRead(i) =>
        if i < |l.plan.targets| {
          match a.read
          case ReadErr(code) => FailingKeeps(l.receipt, i, ReadFailed(code), "", k);
          case ReadOk(current) => FailingKeeps(l.receipt, i, ConcurrencyConflict, current.stamp, k);
        }
      case AwaitPatch(i) => FailingKeeps(l.receipt, i, UpstreamError, l.current.stamp, k);
      case PostRead(i) => LosingTells(l, i, l.current.stamp, k);
      case Cohere(i, observed) =>
        LosingTells(l, i, observed, k);
        MarkingTells(l, i, observed, k);
      case _ =>
    }
  }

  lemma PreflightMove(v: View, h: nat, l: Handler, a: Answer, k: nat)
    requires Preflighting(l.pc)
    ensures LoopMoveFits(l, a, LocalStep(v, h, l, a).next, k)
  {
    hide ValidateRecord, ValidateReplay, ExpectedTokens, Tells, TargetLimit, AcquireStep, ConcludeStep, LoopStep;
  }

  lemma RestMove(v: View, h: nat, l: Handler, a: Answer, k: nat)
    requires Ready(l) && !Stopped(l) && !InLoop(l.pc) && !Preflighting(l.pc)
    ensures LoopMoveFits(l, a, LocalStep(v, h, l, a).next, k)
  {
    hide TerminalError, ConsumeRefusal, Tells, PreflightStep, LoopStep;
  }

  lemma MoveFits(v: View, h: nat, l: Handler, a: Answer, k: nat)
    requires Ready(l) && !Stopped(l)
    ensures LoopMoveFits(l, a, LocalStep(v, h, l, a).next, k)
  {
    hide LoopMoveFits;
    if InLoop(l.pc) {
      LoopMove(v, l, a, k);
      LoopIsLocal(v, h, l, a);
      hide LocalStep;
    } else if Preflighting(l.pc) {
      PreflightMove(v, h, l, a, k);
    } else {
      RestMove(v, h, l, a, k);
    }
  }

  /** An event that is not this handler's move neither adds to its receipt nor brings it to a target. */
  ghost predicate EventFits(s: Sys, e: Event, h: nat, l': Handler, k: nat) {
    if Moving(s, e, h) then LoopMoveFits(s.handlers[h], e.a, l', k)
    else
      && (IsApplied(l'.receipt, k) ==> h in s.handlers && l'.receipt == s.handlers[h].receipt)
      && (AtTarget(l'.pc, k) ==> h in s.handlers && l' == s.handlers[h])
  }

  lemma EventIsFit(s: Sys, e: Event, h: nat, k: nat)
    requires Enabled(s, e) && h in Do(s, e).handlers
    ensures EventFits(s, e, h, Do(s, e).handlers[h], k)
  {
    hide LocalStep, LoopMoveFits;
    if Moving(s, e, h) {
      MoveFits(ViewOf(s, s.handlers[h]), h, s.handlers[h], e.a, k);
    }
  }

  // ---- whole runs ----

  /** Between the recheck of a target and its receipt, what is at hand is what that recheck read. */
  lemma {:induction false} CurrentWasRead(states: seq<Sys>, events: seq<Event>, j: nat, h: nat, i: nat) returns (k: nat)
    requires Run(states, events) && j < |states| && h in states[j].handlers && AtTarget(states[j].handlers[h].pc, i)
    ensures k < j && MoveAt(states, events, k, h, LoopRead(i))
    ensures events[k].a.read == ReadOk(states[j].handlers[h].current)
  {
    hide Enabled, Do, Tells, Stamps;
    k := 0;
    if j == 0 {
      assert false;
    } else {
      var s, e := states[j - 1], events[j - 1];
      EventIsFit(s, e, h, i);
      if Moving(s, e, h) && s.handlers[h].pc == LoopRead(i) {
        k := j - 1;
      } else {
        k := CurrentWasRead(states, events, j - 1, h, i);
      }
    }
  }

  /** The stamp a result is about to carry came from the PATCH's answer or from the read behind it. */
  lemma {:induction false} StampWasSeen(states: seq<Sys>, events: seq<Event>, j: nat, h: nat, i: nat)
    returns (k: nat, pc: Pc)
    requires Run(states, events) && j < |states| && h in states[j].handlers
    requires var pc := states[j].handlers[h].pc; pc.Cohere? && pc.i == i
    ensures k < j && MoveAt(states, events, k, h, pc)
    ensures Stamps(pc, events[k].a, i, states[j].handlers[h].current, states[j].handlers[h].pc.observed)
  {
    hide Enabled, Do, Tells, Stamps, IsApplied;
    k, pc := 0, LoadPlan;
    if j == 0 {
      assert false;
    } else {
      var s, e := states[j - 1], events[j - 1];
      EventIsFit(s, e, h, i);
      if Moving(s, e, h) {
        k, pc := j - 1, s.handlers[h].pc;
        StampingIsAtTarget(pc, e.a, i, s.handlers[h].current, states[j].handlers[h].pc.observed);
      } else {
        k, pc := StampWasSeen(states, events, j - 1, h, i);
      }
    }
  }

  lemma StampingIsAtTarget(pc: Pc, a: Answer, i: nat, current: Snapshot, observed: string)
    requires Stamps(pc, a, i, current, observed)
    ensures AtTarget(pc, i) && !pc.LoopRead?
  {
  }

  /** Every result a handler calls Applied rests on two of its own moves: a read of that target, whose values its
      before-hashes are taken from, and behind it the answer or read that stamps it. */
  lemma {:induction false} AppliedWasSeen(states: seq<Sys>, events: seq<Event>, j: nat, h: nat, i: nat)
    returns (read: nat, stamp: nat, pc: Pc, current: Snapshot, observed: string)
    requires Run(states, events) && j < |states| && h in states[j].handlers
              && IsApplied(states[j].handlers[h].receipt, i)
    ensures Tells(states[j].handlers[h].receipt, i, current, observed)
    ensures read < j && MoveAt(states, events, read, h, LoopRead(i)) && events[read].a.read == ReadOk(current)
    ensures stamp < j && MoveAt(states, events, stamp, h, pc) && Stamps(pc, events[stamp].a, i, current, observed)
  {
    hide Enabled, Do, Tells, Stamps;
    read, stamp, pc, current, observed := 0, 0, LoadPlan, Snapshot("", map[]), "";
    if j == 0 {
      assert false;
    } else {
      var s, e := states[j - 1], events[j - 1];
      EventIsFit(s, e, h, i);
      if h in s.handlers && IsApplied(s.handlers[h].receipt, i)
         && states[j].handlers[h].receipt.results[i] == s.handlers[h].receipt.results[i] {
        read, stamp, pc, current, observed := AppliedWasSeen(states, events, j - 1, h, i);
        SameResultTells(s.handlers[h].receipt, states[j].handlers[h].receipt, i, current, observed);
      } else {
        var l := s.handlers[h];
        current := l.current;
        read := CurrentWasRead(states, events, j - 1, h, i);
        if l.pc.Cohere? {
          observed := l.pc.observed;
          stamp, pc := StampWasSeen(states, events, j - 1, h, i);
        } else {
          observed, stamp, pc := l.current.stamp, j - 1, l.pc;
          FallbackStamps(e.a, i, l.current);
        }
      }
    }
  }

  lemma SameResultTells(before: Receipt, after: Receipt, i: nat, current: Snapshot, observed: string)
    requires Tells(before, i, current, observed) && i < |after.results| && after.results[i] == before.results[i]
    ensures Tells(after, i, current, observed)
  {
  }

  lemma FallbackStamps(a: Answer, i: nat, current: Snapshot)
    requires a.read.ReadErr?
    ensures Stamps(PostRead(i), a, i, current, current.stamp)
  {
  }

  /** So does every target a stored receipt calls Applied. */
  lemma StoredReceiptRestsOnReads(states: seq<Sys>, events: seq<Event>, j: nat, key: string, i: nat)
    returns (read: nat, stamp: nat, pc: Pc, current: Snapshot, observed: string)
    requires Run(states, events) && j < |states| && key in states[j].rows
    requires states[j].rows[key].receipt.Some? && IsApplied(states[j].rows[key].receipt.value, i)
    ensures states[j].rows[key].started.Some?
    ensures Tells(states[j].rows[key].receipt.value, i, current, observed)
    ensures var h := Worker(states[j].rows[key]);
            && read < j && MoveAt(states, events, read, h, LoopRead(i)) && events[read].a.read == ReadOk(current)
            && stamp < j && MoveAt(states, events, stamp, h, pc) && Stamps(pc, events[stamp].a, i, current, observed)
  {
    hide Run, Inv, Tells, Stamps, IsApplied;
    ReachableInv(states, events, j);
    RecordedRow(states[j], key);
    var row := states[j].rows[key];
    FinalIsTheHandlers(row, states[j].handlers[Worker(row)]);
    read, stamp, pc, current, observed := AppliedWasSeen(states, events, j, Worker(row), i);
  }

  lemma FinalIsTheHandlers(row: Row, l: Handler)
    requires RowFits(row, l) && l.entered && row.receipt.Some?
    ensures row.receipt.value == l.receipt
  {
    hide Concluded;
  }

  // ---- the failed target ----

  predicate IsFailed(r: Receipt, k: nat) {
    k < |r.results| && r.results[k].status == Failed
  }

  /** The failed result and the answer behind it: a read that failed, a read that found another stamp, or a PATCH that
      was not acknowledged. It carries the stamp last read, which but for the second is the planned one. */
  predicate FailsFor(res: TargetResult, t: Target, pc: Pc, a: Answer, k: nat) {
    match res.error
    case Some(ReadFailed(code)) => pc == LoopRead(k) && a.read == ReadErr(code) && res.observed == t.stamp
    case Some(ConcurrencyConflict) =>
      && pc == LoopRead(k) && a.read.ReadOk? && a.read.snapshot.stamp != t.stamp
      && res.observed == if a.read.snapshot.stamp != "" then a.read.snapshot.stamp else t.stamp
    case Some(UpstreamError) => pc == AwaitPatch(k) && a.patch == PatchErr && res.observed == t.stamp
    case _ => false
  }

  lemma FailingTells(r: Receipt, i: nat, code: FailureCode, observed: string, k: nat)
    requires i < |r.results|
    ensures var failed := MarkedFailedAndRemaining(r, i, code, observed);
            IsFailed(failed, k) ==>
              if k == i then
                && failed.results[k].error == Some(code)
                && failed.results[k].observed == if observed != "" then observed else r.results[k].observed
              else IsFailed(r, k) && failed.results[k] == r.results[k]
  {
  }

  lemma LosingFailsNothing(l: Handler, i: nat, observed: string, k: nat)
    requires i < |l.plan.targets| && i < |l.receipt.results|
    ensures IsFailed(LoseCoherence(l, i, observed).receipt, k) || IsFailed(ApplyAt(l, i, observed), k) ==>
              IsFailed(l.receipt, k)
  {
  }

  lemma LoopFails(v: View, l: Handler, a: Answer, k: nat)
    requires HandlerFits(l) && InLoop(l.pc) && Ready(l)
    ensures var l' := LoopStep(v, l, a).next;
            IsFailed(l'.receipt, k) ==>
              || (IsFailed(l.receipt, k) && l'.receipt.results[k] == l.receipt.results[k])
              || (k < |l.plan.targets| && FailsFor(l'.receipt.results[k], l.plan.targets[k], l.pc, a, k))
  {
    hide ApplyAt, LoseCoherence, MarkedFailedAndRemaining, Running, Concluded;
    match l.pc {
      case LoopRead(i) =>
        FitsAt(l, i, k);
        if i < |l.plan.targets| {
          match a.read
          case ReadErr(code) => FailingTells(l.receipt, i, ReadFailed(code), "", k);
          case ReadOk(current) => FailingTells(l.receipt, i, ConcurrencyConflict, current.stamp, k);
        }
      case AwaitPatch(i) =>
        FitsAt(l, i, k);
        FailingTells(l.receipt, i, UpstreamError, l.current.stamp, k);
      case PostRead(i) =>
        FitsAt(l, i, k);
        LosingFailsNothing(l, i, l.current.stamp, k);
      case Cohere(i, observed) =>
        FitsAt(l, i, k);
        LosingFailsNothing(l, i, observed, k);
      case _ =>
    }
  }

  lemma RestFails(v: View, h: nat, l: Handler, a: Answer, k: nat)
    requires Ready(l) && !Stopped(l) && !InLoop(l.pc)
    ensures var l' := LocalStep(v, h, l, a).next;
            IsFailed(l'.receipt, k) ==> IsFailed(l.receipt, k) && l'.receipt.results[k] == l.receipt.results[k]
  {
    hide TerminalError, ConsumeRefusal, ValidateRecord, ValidateReplay, ExpectedTokens, TargetLimit, LoopStep, Count;
  }

  /** In the loop no result has failed yet, and those not reached carry their planned stamp. */
  lemma FitsAt(l: Handler, i: nat, k: nat)
    requires Running(l, i) && i <= |l.plan.targets|
    ensures |l.receipt.results| == |l.plan.targets| && !IsFailed(l.receipt, k)
    ensures i <= k < |l.plan.targets| ==> l.receipt.results[k].observed == l.plan.targets[k].stamp
  {
    if k < |l.plan.targets| {
      assert Fits(l.receipt.results[k], l.plan.targets[k], StatusAt(k, i, 0));
    }
  }

  lemma EnteredMove(s: Sys, h: nat, a: Answer)
    requires Inv(s) && Enabled(s, Move(h, a))
    ensures var l, l' := s.handlers[h], Moved(s, h, a).handlers[h];
            && (l'.entered ==> l.entered || l.pc.ConsumeUpdate?)
            && (l.entered || l.pc.ConsumeUpdate? ==> !Preflighting(l.pc) && SameCall(l, l'))
  {
    hide Inv, LocalStep;
    var l := s.handlers[h];
    NothingOwnedYet(s, h);
    if InLoop(l.pc) {
      LoopStaysEntered(ViewOf(s, l), l, a);
      LoopIsLocal(ViewOf(s, l), h, l, a);
    } else {
      RestConsumes(ViewOf(s, l), h, l, a);
    }
    if !Preflighting(l.pc) {
      BehindTheChecks(ViewOf(s, l), h, l, a);
    }
  }


  /** The failed result of a handler in the loop came about by this event, in the way described, or stood before. */
  ghost predicate FailedBefore(s: Sys, e: Event, h: nat, l': Handler, k: nat)
    requires IsFailed(l'.receipt, k)
  {
    && h in s.handlers && SameCall(s.handlers[h], l')
    && (|| (IsFailed(s.handlers[h].receipt, k) && l'.receipt.results[k] == s.handlers[h].receipt.results[k])
        || (Moving(s, e, h) && k < |l'.plan.targets|
            && FailsFor(l'.receipt.results[k], l'.plan.targets[k], s.handlers[h].pc, e.a, k)))
  }

  lemma FailingMove(s: Sys, h: nat, a: Answer, k: nat)
    requires Inv(s) && Enabled(s, Move(h, a))
    requires var l' := Moved(s, h, a).handlers[h]; l'.entered && IsFailed(l'.receipt, k)
    ensures FailedBefore(s, Move(h, a), h, Moved(s, h, a).handlers[h], k)
  {
    hide Inv, LocalStep, HandlerFits, FailsFor;
    var l, v := s.handlers[h], ViewOf(s, s.handlers[h]);
    EnteredMove(s, h, a);
    if InLoop(l.pc) {
      HandlerIsFit(s, h);
      LoopFails(v, l, a, k);
      LoopIsLocal(v, h, l, a);
    } else {
      RestFails(v, h, l, a, k);
    }
  }

  lemma HandlerIsFit(s: Sys, h: nat)
    requires Inv(s) && h in s.handlers
    ensures HandlerFits(s.handlers[h])
  {
  }

  /** The one failed result of a call goes back to one of its own moves, in the way `FailsFor` describes. */
  lemma {:induction false} FailedWasSeen(states: seq<Sys>, events: seq<Event>, j: nat, h: nat, i: nat)
    returns (k: nat, pc: Pc)
    requires Run(states, events) && j < |states| && h in states[j].handlers
    requires states[j].handlers[h].entered && IsFailed(states[j].handlers[h].receipt, i)
    ensures k < j && MoveAt(states, events, k, h, pc) && i < |states[j].handlers[h].plan.targets|
    ensures var l := states[j].handlers[h]; FailsFor(l.receipt.results[i], l.plan.targets[i], pc, events[k].a, i)
  {
    hide Enabled, Do, Inv, FailsFor;
    k, pc := 0, LoadPlan;
    if j == 0 {
      assert false;
    } else {
      var s, e := states[j - 1], events[j - 1];
      ReachableInv(states, events, j - 1);
      FailingEvent(s, e, h, i);
      if IsFailed(s.handlers[h].receipt, i)
         && states[j].handlers[h].receipt.results[i] == s.handlers[h].receipt.results[i] {
        FailedIsEntered(s, e, h, i);
        k, pc := FailedWasSeen(states, events, j - 1, h, i);
      } else {
        k, pc := j - 1, s.handlers[h].pc;
      }
    }
  }

  lemma EnteringFailsNothing(v: View, h: nat, l: Handler, a: Answer, k: nat)
    requires l.pc.ConsumeUpdate? && !l.entered
    ensures var l' := LocalStep(v, h, l, a).next; l'.entered ==> !IsFailed(l'.receipt, k)
  {
  }

  lemma FailedIsEntered(s: Sys, e: Event, h: nat, k: nat)
    requires Inv(s) && Enabled(s, e) && h in Do(s, e).handlers && h in s.handlers
    requires var l' := Do(s, e).handlers[h]; l'.entered && IsFailed(l'.receipt, k)
    ensures s.handlers[h].entered
  {
    hide Inv, LocalStep;
    if e.Move? && e.h == h {
      EnteredMove(s, h, e.a);
      if s.handlers[h].pc.ConsumeUpdate? && !s.handlers[h].entered {
        EnteringFailsNothing(ViewOf(s, s.handlers[h]), h, s.handlers[h], e.a, k);
      }
    } else {
      OtherEventsKeep(s, e, h);
    }
  }

  lemma FailingEvent(s: Sys, e: Event, h: nat, k: nat)
    requires Inv(s) && Enabled(s, e) && h in Do(s, e).handlers
    requires var l' := Do(s, e).handlers[h]; l'.entered && IsFailed(l'.receipt, k)
    ensures FailedBefore(s, e, h, Do(s, e).handlers[h], k)
  {
    hide Inv, Moved, FailsFor;
    if e.Move? && e.h == h {
      FailingMove(s, h, e.a, k);
    } else {
      OtherEventsKeep(s, e, h);
      if h !in s.handlers {
        ArrivesEmpty(s, e, h);
      }
    }
  }


  // ---- the times of a receipt ----

  /** The receipt starts when the call read the clock in front of its mark, and completes no earlier. */
  predicate Timed(l: Handler, now: nat) {
    && (l.owner || l.entered ==> l.startedAt <= now)
    && (l.entered ==> l.receipt.startedAt == l.startedAt <= l.receipt.completedAt <= now)
  }

  lemma LoopKeepsTimes(v: View, l: Handler, a: Answer)
    requires Ready(l) && InLoop(l.pc)
    ensures var l' := LoopStep(v, l, a).next;
            && l'.startedAt == l.startedAt && l'.owner == l.owner && l'.entered == l.entered
            && l'.receipt.startedAt == l.receipt.startedAt && l'.receipt.completedAt == l.receipt.completedAt
  {
    hide ClearedAfter, AppliedResult, FailedResult, Count;
  }

  lemma RestKeepsTimes(v: View, h: nat, l: Handler, a: Answer)
    requires Ready(l) && !Stopped(l) && !InLoop(l.pc) && !Preflighting(l.pc) && Timed(l, v.now)
    requires (l.pc.ConsumeUpdate? || l.pc.ClearStarted? ==> l.owner) && (l.pc.MarkStarted? ==> !l.entered)
    ensures var o := LocalStep(v, h, l, a);
            && Timed(o.next, v.now)
            && (if l.pc.MarkStarted? then o.next.startedAt == v.now else o.next.startedAt == l.startedAt)
  {
    hide TerminalError, ConsumeRefusal, Count;
  }

  /** A mark carries the start time of the handler that set it. */
  ghost predicate RowTimed(s: Sys, key: string) {
    key in s.rows && s.rows[key].started.Some? ==>
      && s.rows[key].started.value.owner in s.handlers
      && s.handlers[s.rows[key].started.value.owner].startedAt == s.rows[key].started.value.at
  }

  ghost predicate AllTimed(s: Sys) {
    && (forall h :: h in s.handlers ==> Timed(s.handlers[h], s.now))
    && (forall key :: RowTimed(s, key))
  }

  /** What one move does to the times: its own handler's, and the mark on its row. */
  ghost predicate MoveTimed(v: View, h: nat, l: Handler, o: Outcome) {
    && Timed(o.next, v.now) && (!l.pc.MarkStarted? ==> o.next.startedAt == l.startedAt)
    && (o.row.Some? && o.row.value.started.Some? ==>
          || (v.row.Some? && o.row.value.started == v.row.value.started)
          || (o.row.value.started == Some(Mark(o.next.startedAt, h)) && l.pc.MarkStarted?))
  }

  lemma PreflightIsTimed(v: View, h: nat, l: Handler, a: Answer)
    requires Ready(l) && Preflighting(l.pc) && !l.owner && !l.entered
    ensures MoveTimed(v, h, l, LocalStep(v, h, l, a))
  {
    hide ValidateRecord, ValidateReplay, ExpectedTokens, TargetLimit, AcquireStep, ConcludeStep, LoopStep;
  }

  lemma RowIsTimed(v: View, h: nat, l: Handler, a: Answer)
    requires Ready(l) && !Stopped(l) && !Preflighting(l.pc) && !InLoop(l.pc)
    ensures var o := LocalStep(v, h, l, a);
            o.row.Some? && o.row.value.started.Some? ==>
              || (v.row.Some? && o.row.value.started == v.row.value.started)
              || (o.row.value.started == Some(Mark(o.next.startedAt, h)) && l.pc.MarkStarted?)
  {
    hide TerminalError, ConsumeRefusal, Recounted, InitialReceipt;
  }

  lemma LoopRowIsTimed(v: View, l: Handler, a: Answer)
    requires Ready(l) && InLoop(l.pc)
    ensures var o := LoopStep(v, l, a);
            o.row.Some? && o.row.value.started.Some? ==> v.row.Some? && o.row.value.started == v.row.value.started
  {
    hide MarkedApplied, MarkedNotAttemptedAfter, MarkedFailedAndRemaining;
  }

  lemma MoveIsTimed(s: Sys, h: nat, a: Answer)
    requires Inv(s) && Enabled(s, Move(h, a)) && Timed(s.handlers[h], s.now)
    ensures MoveTimed(ViewOf(s, s.handlers[h]), h, s.handlers[h],
              LocalStep(ViewOf(s, s.handlers[h]), h, s.handlers[h], a))
  {
    hide Inv, LocalStep;
    var l, v := s.handlers[h], ViewOf(s, s.handlers[h]);
    NothingOwnedYet(s, h);
    ConsumersOwn(s, h);
    if Preflighting(l.pc) {
      PreflightIsTimed(v, h, l, a);
    } else if InLoop(l.pc) {
      LoopIsLocal(v, h, l, a);
      LoopKeepsTimes(v, l, a);
      LoopRowIsTimed(v, l, a);
    } else {
      RestKeepsTimes(v, h, l, a);
      RowIsTimed(v, h, l, a);
    }
  }

  lemma ConsumersOwn(s: Sys, h: nat)
    requires Inv(s) && h in s.handlers
    ensures s.handlers[h].pc.ConsumeUpdate? || s.handlers[h].pc.ClearStarted? ==> s.handlers[h].owner
    ensures s.handlers[h].pc.MarkStarted? ==> !s.handlers[h].owner && !s.handlers[h].entered
    ensures forall key :: key in s.rows && s.rows[key].started.Some? && s.rows[key].started.value.owner == h ==>
              s.handlers[h].owner
  {
    assert HandlerFits(s.handlers[h]);
  }

  lemma MoveKeepsTimes(s: Sys, h: nat, a: Answer)
    requires Inv(s) && Enabled(s, Move(h, a)) && AllTimed(s)
    ensures AllTimed(Moved(s, h, a))
  {
    hide Inv, LocalStep, Timed;
    var s', l := Moved(s, h, a), s.handlers[h];
    MoveIsTimed(s, h, a);
    ConsumersOwn(s, h);
    forall key ensures RowTimed(s', key) {
      assert RowTimed(s, key) && RowTimed(s, l.req.key);
    }
  }

  lemma EventKeepsTimes(s: Sys, e: Event)
    requires Inv(s) && Enabled(s, e) && AllTimed(s)
    ensures AllTimed(Do(s, e))
  {
    hide Inv, Moved;
    if e.Move? {
      MoveKeepsTimes(s, e.h, e.a);
    } else {
      forall key ensures RowTimed(Do(s, e), key) {
        assert RowTimed(s, key);
      }
    }
  }

  lemma {:induction false} TimesHold(states: seq<Sys>, events: seq<Event>, i: nat)
    requires Run(states, events) && i < |states|
    ensures AllTimed(states[i])
  {
    hide Enabled, Do, AllTimed, Inv;
    if i == 0 {
      StartIsTimed();
    } else {
      TimesHold(states, events, i - 1);
      ReachableInv(states, events, i - 1);
      EventKeepsTimes(states[i - 1], events[i - 1]);
    }
  }

  lemma StartIsTimed()
    ensures AllTimed(START)
  {
  }

  /** A stored receipt starts at the time of the mark on its row and completes between then and now. */
  lemma StoredReceiptIsTimed(states: seq<Sys>, events: seq<Event>, i: nat, key: string)
    requires Run(states, events) && i < |states| && key in states[i].rows && states[i].rows[key].receipt.Some?
    ensures var row := states[i].rows[key];
            && row.started.Some? && row.receipt.value.startedAt == row.started.value.at
            && row.started.value.at <= row.receipt.value.completedAt <= states[i].now
  {
    hide Run, Inv;
    ReachableInv(states, events, i);
    TimesHold(states, events, i);
    RecordedRow(states[i], key);
    var row := states[i].rows[key];
    FinalIsTheHandlers(row, states[i].handlers[Worker(row)]);
    assert RowTimed(states[i], key);
    hide HandlerFits, RowFits;
  }
}

/** What a handler behind the checks has seen: in every run, the moments at which plan, key, token and targets passed.
    */
module BulkHistory {
  import opened Wrappers
  import opened BulkModel
  import opened BulkProtocol
  import opened BulkInvariant
  import opened BulkSafety
  import opened BulkTheorems
  import opened BulkLone
  import opened BulkAdmission

  // ---- how far a handler has come ----

  predicate PlanPassed(l: Handler) {
    !l.pc.LoadPlan? && (Stopped(l) ==> l.owner || l.entered)
  }

  predicate KeyPassed(l: Handler) {
    PlanPassed(l) && !l.pc.LookupKey? && !l.pc.ReplayCheck?
  }

  predicate TokenPassed(l: Handler) {
    KeyPassed(l) && !l.pc.LookupToken?
  }

  predicate TargetPassed(l: Handler, i: nat) {
    TokenPassed(l) && (l.pc.PreflightRead? ==> i < l.pc.i)
  }

  /** Behind the checks: about to mark the key, or having marked it or entered the loop. */
  predicate ChecksPassed(l: Handler) {
    TokenPassed(l) && !l.pc.PreflightRead?
  }

  // ---- the moments ----

  /** Move `k` of the run is this handler's, at the given point of its program. */
  ghost predicate MoveAt(states: seq<Sys>, events: seq<Event>, k: nat, h: nat, pc: Pc) {
    Moves(events, k, h) && k < |states| && h in states[k].handlers && states[k].handlers[h].pc == pc
  }

  /** The plan the handler carries was stored, unexpired and within both limits, and fitted request and caller. */
  ghost predicate PlanSeen(s: Sys, l: Handler) {
    && l.cfg.enabled && l.req.planId in s.plans && s.plans[l.req.planId] == l.plan
    && PlanStands(l.plan, l.req, l.cfg, s.now)
  }

  /** Its key had a live row of the plan, without outcome and without mark. */
  ghost predicate KeySeen(s: Sys, l: Handler) {
    LiveRow(Get(s.rows, l.req.key), l.plan, s.now) && Unused(s.rows[l.req.key])
  }

  /** Its token was unrevoked, unconsumed, unexpired and bound to the plan and the caller. */
  ghost predicate TokenSeen(s: Sys, l: Handler) {
    l.req.token in s.tokens && TokenStands(Some(s.tokens[l.req.token]), l.plan, l.cfg, s.now)
  }

  /** A read of target `i` found the planned stamp. */
  ghost predicate TargetSeen(e: Event, l: Handler, i: nat) {
    e.Move? && e.a.read.ReadOk? && i < |l.plan.targets| && e.a.read.snapshot.stamp == l.plan.targets[i].stamp
  }

  // ---- one event ----

  ghost predicate SameCall(l: Handler, l': Handler) {
    l'.req == l.req && l'.cfg == l.cfg && l'.plan == l.plan
  }

  lemma LoopStaysInside(v: View, l: Handler, a: Answer)
    requires Ready(l) && InLoop(l.pc)
    ensures var l' := LoopStep(v, l, a).next; SameCall(l, l') && !Preflighting(l'.pc)
  {
    hide MarkedApplied, MarkedNotAttemptedAfter, MarkedFailedAndRemaining;
  }

  lemma RestStaysInside(v: View, h: nat, l: Handler, a: Answer)
    requires Ready(l) && !Stopped(l) && !InLoop(l.pc) && !Preflighting(l.pc)
    ensures var l' := LocalStep(v, h, l, a).next; SameCall(l, l') && !Preflighting(l'.pc)
  {
    hide Recounted, TerminalError, InitialReceipt, ConsumeRefusal;
  }

  lemma BehindTheChecks(v: View, h: nat, l: Handler, a: Answer)
    requires Ready(l) && !Stopped(l) && !Preflighting(l.pc)
    ensures var l' := LocalStep(v, h, l, a).next; SameCall(l, l') && !Preflighting(l'.pc)
  {
    hide LoopStep, AcquireStep, ConcludeStep, PreflightStep;
    if InLoop(l.pc) {
      LoopStaysInside(v, l, a);
    } else {
      RestStaysInside(v, h, l, a);
    }
  }

  lemma InFrontOfTheChecks(v: View, h: nat, l: Handler, a: Answer)
    requires Ready(l) && Preflighting(l.pc) && !l.owner && !l.entered
    ensures var l' := LocalStep(v, h, l, a).next;
            && l'.req == l.req && l'.cfg == l.cfg && !l'.owner && !l'.entered
            && (!l.pc.LoadPlan? ==> SameCall(l, l'))
            && (PlanPassed(l') && l.pc.LoadPlan? ==>
                  l'.pc == LookupKey && v.plan == Some(l'.plan) && l.cfg.enabled
                  && PlanStands(l'.plan, l.req, l.cfg, v.now))
            && (KeyPassed(l') ==>
                  !l.pc.LoadPlan? && !l.pc.ReplayCheck?
                  && (l.pc.LookupKey? ==> l'.pc == LookupToken && LiveRow(v.row, l.plan, v.now) && Unused(v.row.value)))
            && (TokenPassed(l') ==>
                  !l.pc.LookupKey?
                  && (l.pc.LookupToken? ==> l'.pc == PreflightRead(0) && TokenStands(v.token, l.plan, l.cfg, v.now)))
            && (l.pc.PreflightRead? && PlanPassed(l') ==>
                  if l.pc.i < |l.plan.targets|
                  then l'.pc == PreflightRead(l.pc.i + 1) && a.read.ReadOk?
                       && a.read.snapshot.stamp == l.plan.targets[l.pc.i].stamp
                  else l'.pc == MarkStarted)
  {
    match l.pc {
      case LoadPlan => PlanAnswers(v, l, a);
      case LookupKey => KeyAnswers(v, l, a);
      case ReplayCheck(_) => ReplayAnswers(v, l, a);
      case LookupToken => TokenAnswers(v, l, a);
      case PreflightRead(_) => ReadAnswers(v, l, a);
    }
    hide PreflightStep, PlanStands, TokenStands, LiveRow, ReplayRefusedAs, RefusedAs, PlanAnswersAs;
  }

  ghost predicate Moving(s: Sys, e: Event, h: nat) {
    e.Move? && e.h == h && h in s.handlers
  }

  /** A handler that has passed a check passed it by this event, at the moment described, or had passed it before. */
  ghost predicate PassedBefore(s: Sys, e: Event, h: nat, l': Handler) {
    && (PlanPassed(l') ==>
          && h in s.handlers
          && ((Moving(s, e, h) && s.handlers[h].pc == LoadPlan && PlanSeen(s, l'))
              || (PlanPassed(s.handlers[h]) && SameCall(s.handlers[h], l'))))
    && (KeyPassed(l') ==>
          && h in s.handlers && SameCall(s.handlers[h], l')
          && ((Moving(s, e, h) && s.handlers[h].pc == LookupKey && KeySeen(s, l')) || KeyPassed(s.handlers[h])))
    && (TokenPassed(l') ==>
          && h in s.handlers && SameCall(s.handlers[h], l')
          && ((Moving(s, e, h) && s.handlers[h].pc == LookupToken && TokenSeen(s, l')) || TokenPassed(s.handlers[h])))
    && (forall i: nat :: TargetPassed(l', i) && i < |l'.plan.targets| ==>
          && h in s.handlers && SameCall(s.handlers[h], l')
          && ((Moving(s, e, h) && s.handlers[h].pc == PreflightRead(i) && TargetSeen(e, l', i))
              || TargetPassed(s.handlers[h], i)))
  }

  lemma NothingOwnedYet(s: Sys, h: nat)
    requires Inv(s) && h in s.handlers
    ensures Preflighting(s.handlers[h].pc) ==> !s.handlers[h].owner && !s.handlers[h].entered
  {
    assert HandlerFits(s.handlers[h]);
  }

  lemma MovePasses(s: Sys, h: nat, a: Answer)
    requires Inv(s) && Enabled(s, Move(h, a))
    ensures PassedBefore(s, Move(h, a), h, Moved(s, h, a).handlers[h])
  {
    hide LocalStep, Inv, HandlerFits, PlanStands, BoundTo, Ready, Unused;
    var l := s.handlers[h];
    NothingOwnedYet(s, h);
    if Preflighting(l.pc) {
      InFrontOfTheChecks(ViewOf(s, l), h, l, a);
    } else {
      BehindTheChecks(ViewOf(s, l), h, l, a);
    }
  }

  lemma OtherEventsKeep(s: Sys, e: Event, h: nat)
    requires Enabled(s, e) && h in Do(s, e).handlers && !(e.Move? && e.h == h)
    ensures var l' := Do(s, e).handlers[h];
            if h in s.handlers then l' == s.handlers[h] || l' == s.handlers[h].(pc := Crashed) else l'.pc == LoadPlan
  {
    hide LocalStep;
  }

  lemma KeptPasses(s: Sys, e: Event, h: nat, l': Handler)
    requires h in s.handlers && (l' == s.handlers[h] || l' == s.handlers[h].(pc := Crashed))
    requires Preflighting(s.handlers[h].pc) ==> !s.handlers[h].owner && !s.handlers[h].entered
    ensures PassedBefore(s, e, h, l')
  {
    hide PlanSeen, KeySeen, TokenSeen, TargetSeen;
  }

  lemma EventPasses(s: Sys, e: Event, h: nat)
    requires Inv(s) && Enabled(s, e) && h in Do(s, e).handlers
    ensures PassedBefore(s, e, h, Do(s, e).handlers[h])
  {
    hide Inv, Moved, PassedBefore;
    if e.Move? && e.h == h {
      MovePasses(s, h, e.a);
    } else {
      OtherEventsKeep(s, e, h);
      if h in s.handlers {
        NothingOwnedYet(s, h);
        KeptPasses(s, e, h, Do(s, e).handlers[h]);
      } else {
        ArrivedPassed(s, e, h, Do(s, e).handlers[h]);
      }
    }
  }

  lemma ArrivedPassed(s: Sys, e: Event, h: nat, l': Handler)
    requires l'.pc == LoadPlan
    ensures PassedBefore(s, e, h, l')
  {
  }

  // ---- whole runs ----

  /** Every handler behind the plan check saw its plan stored, unexpired, within the limits and fitting its request. */
  lemma {:induction false} PlanWasSeen(states: seq<Sys>, events: seq<Event>, j: nat, h: nat) returns (k: nat)
    requires Run(states, events) && j < |states| && h in states[j].handlers && PlanPassed(states[j].handlers[h])
    ensures k < j && MoveAt(states, events, k, h, LoadPlan) && PlanSeen(states[k], states[j].handlers[h])
  {
    hide Enabled, Do, Inv, PlanPassed, PlanStands;
    k := 0;
    if j == 0 {
      assert false;
    } else {
      ReachableInv(states, events, j - 1);
      EventPasses(states[j - 1], events[j - 1], h);
      if Moving(states[j - 1], events[j - 1], h) && states[j - 1].handlers[h].pc == LoadPlan
         && PlanSeen(states[j - 1], states[j].handlers[h]) {
        k := j - 1;
      } else {
        k := PlanWasSeen(states, events, j - 1, h);
      }
    }
  }

  /** Every handler behind the key check saw a live row of its plan, without outcome and without mark. */
  lemma {:induction false} KeyWasSeen(states: seq<Sys>, events: seq<Event>, j: nat, h: nat) returns (k: nat)
    requires Run(states, events) && j < |states| && h in states[j].handlers && KeyPassed(states[j].handlers[h])
    ensures k < j && MoveAt(states, events, k, h, LookupKey) && KeySeen(states[k], states[j].handlers[h])
  {
    hide Enabled, Do, Inv, KeyPassed, LiveRow;
    k := 0;
    if j == 0 {
      assert false;
    } else {
      ReachableInv(states, events, j - 1);
      EventPasses(states[j - 1], events[j - 1], h);
      if Moving(states[j - 1], events[j - 1], h) && states[j - 1].handlers[h].pc == LookupKey
         && KeySeen(states[j - 1], states[j].handlers[h]) {
        k := j - 1;
      } else {
        k := KeyWasSeen(states, events, j - 1, h);
      }
    }
  }

  /** Every handler behind the token check saw its token live, unconsumed and bound to its plan and caller. */
  lemma {:induction false} TokenWasSeen(states: seq<Sys>, events: seq<Event>, j: nat, h: nat) returns (k: nat)
    requires Run(states, events) && j < |states| && h in states[j].handlers && TokenPassed(states[j].handlers[h])
    ensures k < j && MoveAt(states, events, k, h, LookupToken) && TokenSeen(states[k], states[j].handlers[h])
  {
    hide Enabled, Do, Inv, TokenPassed, TokenStands;
    k := 0;
    if j == 0 {
      assert false;
    } else {
      ReachableInv(states, events, j - 1);
      EventPasses(states[j - 1], events[j - 1], h);
      if Moving(states[j - 1], events[j - 1], h) && states[j - 1].handlers[h].pc == LookupToken
         && TokenSeen(states[j - 1], states[j].handlers[h]) {
        k := j - 1;
      } else {
        k := TokenWasSeen(states, events, j - 1, h);
      }
    }
  }

  /** Every handler behind the preflight has read each of its targets and found the planned stamp. */
  lemma {:induction false} TargetWasSeen(states: seq<Sys>, events: seq<Event>, j: nat, h: nat, i: nat) returns (k: nat)
    requires Run(states, events) && j < |states| && h in states[j].handlers && TargetPassed(states[j].handlers[h], i)
    requires i < |states[j].handlers[h].plan.targets|
    ensures k < j && MoveAt(states, events, k, h, PreflightRead(i))
    ensures TargetSeen(events[k], states[j].handlers[h], i)
  {
    hide Enabled, Do, Inv, TargetPassed;
    k := 0;
    if j == 0 {
      assert false;
    } else {
      ReachableInv(states, events, j - 1);
      EventPasses(states[j - 1], events[j - 1], h);
      if Moving(states[j - 1], events[j - 1], h) && states[j - 1].handlers[h].pc == PreflightRead(i)
         && TargetSeen(events[j - 1], states[j].handlers[h], i) {
        k := j - 1;
      } else {
        k := TargetWasSeen(states, events, j - 1, h, i);
      }
    }
  }

  /** A handler that marked its key or sent a PATCH had passed every check, target by target. */
  lemma ActingCallsWereAdmitted(states: seq<Sys>, events: seq<Event>, j: nat, h: nat, i: nat)
    returns (plan: nat, key: nat, token: nat, target: nat)
    requires Run(states, events) && j < |states| && h in states[j].handlers
    requires var l := states[j].handlers[h]; (l.owner || l.sent > 0) && i < |l.plan.targets|
    ensures plan < j && MoveAt(states, events, plan, h, LoadPlan) && PlanSeen(states[plan], states[j].handlers[h])
    ensures key < j && MoveAt(states, events, key, h, LookupKey) && KeySeen(states[key], states[j].handlers[h])
    ensures token < j && MoveAt(states, events, token, h, LookupToken)
    ensures TokenSeen(states[token], states[j].handlers[h])
    ensures target < j && MoveAt(states, events, target, h, PreflightRead(i))
    ensures TargetSeen(events[target], states[j].handlers[h], i)
  {
    hide Run, Inv, PlanSeen, KeySeen, TokenSeen, TargetSeen, MoveAt;
    ReachableInv(states, events, j);
    NothingOwnedYet(states[j], h);
    SendersAreEntered(states[j], h);
    plan := PlanWasSeen(states, events, j, h);
    key := KeyWasSeen(states, events, j, h);
    token := TokenWasSeen(states, events, j, h);
    target := TargetWasSeen(states, events, j, h, i);
  }

  lemma SendersAreEntered(s: Sys, h: nat)
    requires Inv(s) && h in s.handlers
    ensures s.handlers[h].sent > 0 ==> s.handlers[h].entered
    ensures s.handlers[h].entered ==> s.handlers[h].owner
  {
    assert HandlerFits(s.handlers[h]);
  }

  // ---- consuming and replaying ----

  predicate Consuming(l: Handler) {
    l.entered || l.pc.ConsumeUpdate?
  }

  lemma LoopStaysEntered(v: View, l: Handler, a: Answer)
    requires Ready(l) && InLoop(l.pc)
    ensures var l' := LoopStep(v, l, a).next; l'.entered == l.entered && !l'.pc.ConsumeUpdate?
  {
    hide MarkedApplied, MarkedNotAttemptedAfter, MarkedFailedAndRemaining;
  }

  lemma RestConsumes(v: View, h: nat, l: Handler, a: Answer)
    requires Ready(l) && !Stopped(l) && !InLoop(l.pc)
    ensures var l' := LocalStep(v, h, l, a).next;
            && (l'.entered ==> l.entered || l.pc.ConsumeUpdate?)
            && (l'.pc.ConsumeUpdate? ==> l.pc.ConsumeSelect? && a.ok && TokenStands(v.token, l.plan, l.cfg, v.now))
  {
    if l.pc == ConsumeSelect {
      ConsumeAnswers(v, h, l, a, NotFound);
    }
    hide Recounted, TerminalError, InitialReceipt, ConsumeRefusal, ValidateRecord, ValidateReplay, ExpectedTokens;
  }

  /** A handler consumes its token only after a select at which the token stood. */
  ghost predicate ConsumedBefore(s: Sys, e: Event, h: nat, l': Handler) {
    Consuming(l') ==>
      && h in s.handlers && SameCall(s.handlers[h], l')
      && ((Moving(s, e, h) && s.handlers[h].pc == ConsumeSelect && TokenSeen(s, l')) || Consuming(s.handlers[h]))
  }

  lemma MoveConsumes(s: Sys, h: nat, a: Answer)
    requires Inv(s) && Enabled(s, Move(h, a))
    ensures ConsumedBefore(s, Move(h, a), h, Moved(s, h, a).handlers[h])
  {
    hide LocalStep, Inv, HandlerFits, BoundTo;
    var l := s.handlers[h];
    NothingOwnedYet(s, h);
    if InLoop(l.pc) {
      LoopStaysEntered(ViewOf(s, l), l, a);
      LoopIsLocal(ViewOf(s, l), h, l, a);
    } else {
      RestConsumes(ViewOf(s, l), h, l, a);
    }
    if !Preflighting(l.pc) {
      BehindTheChecks(ViewOf(s, l), h, l, a);
    }
  }

  lemma LoopIsLocal(v: View, h: nat, l: Handler, a: Answer)
    requires Ready(l) && InLoop(l.pc)
    ensures LocalStep(v, h, l, a) == LoopStep(v, l, a)
  {
    hide LoopStep;
  }

  lemma EventConsumes(s: Sys, e: Event, h: nat)
    requires Inv(s) && Enabled(s, e) && h in Do(s, e).handlers
    ensures ConsumedBefore(s, e, h, Do(s, e).handlers[h])
  {
    hide Inv, Moved;
    if e.Move? && e.h == h {
      hide ConsumedBefore;
      MoveConsumes(s, h, e.a);
    } else {
      OtherEventsKeep(s, e, h);
      if h !in s.handlers {
        ArrivesEmpty(s, e, h);
      }
    }
  }

  lemma ArrivesEmpty(s: Sys, e: Event, h: nat)
    requires Enabled(s, e) && h in Do(s, e).handlers && h !in s.handlers
    ensures !Consuming(Do(s, e).handlers[h])
  {
    hide LocalStep;
  }

  /** A handler in the loop consumed its token after a select that found it live, unconsumed and bound to its plan. */
  lemma {:induction false} ConsumedTokenWasSeen(states: seq<Sys>, events: seq<Event>, j: nat, h: nat) returns (k: nat)
    requires Run(states, events) && j < |states| && h in states[j].handlers && Consuming(states[j].handlers[h])
    ensures k < j && MoveAt(states, events, k, h, ConsumeSelect) && TokenSeen(states[k], states[j].handlers[h])
  {
    hide Enabled, Do, Inv, Consuming, TokenStands;
    k := 0;
    if j == 0 {
      assert false;
    } else {
      ReachableInv(states, events, j - 1);
      EventConsumes(states[j - 1], events[j - 1], h);
      if Moving(states[j - 1], events[j - 1], h) && states[j - 1].handlers[h].pc == ConsumeSelect
         && TokenSeen(states[j - 1], states[j].handlers[h]) {
        k := j - 1;
      } else {
        k := ConsumedTokenWasSeen(states, events, j - 1, h);
      }
    }
  }

  /** The token lets a stored outcome out: unrevoked, unexpired and bound to the plan and the caller. */
  ghost predicate ReplayAllowed(s: Sys, l: Handler) {
    && l.req.token in s.tokens
    && var token := s.tokens[l.req.token];
    !token.revoked && s.now < token.expiresAt && BoundTo(token, l.plan, l.cfg)
  }

  lemma ReplayingMove(v: View, h: nat, l: Handler, a: Answer)
    requires Ready(l) && !Stopped(l)
    ensures var l' := LocalStep(v, h, l, a).next;
            l'.pc.Done? && Replaying(l'.pc.response) ==>
              && l.pc.ReplayCheck? && SameCall(l, l') && a.ok && v.token.Some?
              && !v.token.value.revoked && v.now < v.token.value.expiresAt && BoundTo(v.token.value, l.plan, l.cfg)
              && l'.pc.response == match l.pc.stored
                                   case StoredError(error) => ReplayedError(error)
                                   case StoredReceipt(r) => ReplayedReceipt(r.(replay := true))
  {
    if !Preflighting(l.pc) {
      MoveGoesOn(v, h, l, a);
      hide LocalStep;
    } else {
      hide LoopStep, AcquireStep, ConcludeStep, ValidateRecord, ExpectedTokens;
    }
  }

  /** A replay was let out by a look at the token that found it unrevoked, unexpired and bound to the plan. */
  lemma {:induction false} ReplayWasAllowed(states: seq<Sys>, events: seq<Event>, j: nat, h: nat)
    returns (k: nat, stored: Stored)
    requires Run(states, events) && j < |states| && h in states[j].handlers
    requires states[j].handlers[h].pc.Done? && Replaying(states[j].handlers[h].pc.response)
    ensures k < j && MoveAt(states, events, k, h, ReplayCheck(stored))
              && ReplayAllowed(states[k], states[j].handlers[h])
    ensures states[j].handlers[h].pc.response == Replayed(stored)
  {
    hide Enabled, Do, Inv, BoundTo;
    k, stored := 0, StoredError(RpcError(0, ""));
    if j == 0 {
      assert false;
    } else {
      var s, e := states[j - 1], events[j - 1];
      ReplayComesFrom(s, e, h);
      if Moving(s, e, h) && s.handlers[h].pc.ReplayCheck? {
        k, stored := j - 1, s.handlers[h].pc.stored;
      } else {
        k, stored := ReplayWasAllowed(states, events, j - 1, h);
      }
    }
  }

  lemma ReplayComesFrom(s: Sys, e: Event, h: nat)
    requires Enabled(s, e) && h in Do(s, e).handlers
    requires var pc := Do(s, e).handlers[h].pc; pc.Done? && Replaying(pc.response)
    ensures h in s.handlers
    ensures if e.Move? && e.h == h then
              && s.handlers[h].pc.ReplayCheck? && ReplayAllowed(s, Do(s, e).handlers[h])
              && Do(s, e).handlers[h].pc.response == Replayed(s.handlers[h].pc.stored)
            else s.handlers[h] == Do(s, e).handlers[h]
  {
    hide LocalStep, BoundTo;
    if e.Move? && e.h == h {
      ReplayingMove(ViewOf(s, s.handlers[h]), h, s.handlers[h], e.a);
    }
  }
}

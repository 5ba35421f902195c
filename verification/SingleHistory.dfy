/** What a single-write handler has seen before it acts, in every run, and what that means for two submits of one key.
    */
module SingleHistory {
  import opened Wrappers
  import opened SingleApply
  import opened SingleSafety
  import opened SingleAdmission

  ghost predicate Moving(s: Sys, e: Event, h: nat) {
    e.Move? && e.h == h && h in s.handlers
  }

  /** Move `k` of the run is this handler's, at the given point of its program, and the statement there succeeded. */
  ghost predicate MoveAt(states: seq<Sys>, events: seq<Event>, k: nat, h: nat, pc: Pc) {
    && k < |events| && k < |states| && Moving(states[k], events[k], h) && states[k].handlers[h].pc == pc
    && events[k].a.ok
  }

  // ---- the token ----

  /** The token was there, unrevoked, unexpired, unconsumed and bound to the request. */
  ghost predicate TokenSeen(s: Sys, l: Handler) {
    l.req.token in s.tokens && Unspent(Some(s.tokens[l.req.token]), l.req, s.now)
  }

  /** Behind the token check of the discipline. */
  predicate TokenPassed(d: Discipline, l: Handler) {
    || l.sent || l.consumed
    || (if d.ConsumeFirst? then !l.pc.LookupToken? && !Stopped(l)
        else l.pc.MarkStarted? || l.pc.Send? || l.pc.Await? || l.pc.ClearStarted? || l.pc.ConsumeSelect?
             || l.pc.ConsumeUpdate? || l.pc.SaveReceipt?)
  }

  lemma TokenMove(d: Discipline, v: View, h: nat, l: Handler, a: Answer)
    requires !Stopped(l)
    ensures var l' := LocalStep(d, v, h, l, a).next;
            TokenPassed(d, l') ==>
              TokenPassed(d, l) || (l.pc == LookupToken && a.ok && Unspent(v.token, l.req, v.now))
  {
    if l.pc == LookupToken {
      TokenAnswers(d, v, h, l, a);
      hide LocalStep;
    } else {
      hide Valid, TryMarked, Coalesced, Cleared, WithReceipt, Fresh, Unless, Free;
    }
  }

  lemma TokenEvent(d: Discipline, s: Sys, e: Event, h: nat)
    requires Enabled(s, e) && h in Do(d, s, e).handlers && TokenPassed(d, Do(d, s, e).handlers[h])
    ensures h in s.handlers && Do(d, s, e).handlers[h].req == s.handlers[h].req
    ensures || (Moving(s, e, h) && s.handlers[h].pc == LookupToken && e.a.ok && TokenSeen(s, s.handlers[h]))
            || TokenPassed(d, s.handlers[h])
  {
    hide LocalStep, BoundTo;
    if e.Move? && e.h == h {
      TokenMove(d, ViewOf(s, s.handlers[h]), h, s.handlers[h], e.a);
    }
  }

  /** In every discipline, a handler that marks, writes or consumes has looked its token up and found it unrevoked,
      unexpired, unconsumed and bound to its own request. */
  lemma {:induction false} TokenWasSeen(d: Discipline, states: seq<Sys>, events: seq<Event>, i: nat, h: nat)
    returns (k: nat)
    requires Run(d, states, events) && i < |states| && h in states[i].handlers && TokenPassed(d, states[i].handlers[h])
    ensures k < i && MoveAt(states, events, k, h, LookupToken) && TokenSeen(states[k], states[i].handlers[h])
  {
    hide Enabled, Do, TokenPassed, BoundTo;
    k := 0;
    if i == 0 {
      assert false;
    } else {
      var s, e := states[i - 1], events[i - 1];
      TokenEvent(d, s, e, h);
      if Moving(s, e, h) && s.handlers[h].pc == LookupToken && e.a.ok && TokenSeen(s, s.handlers[h]) {
        k := i - 1;
      } else {
        k := TokenWasSeen(d, states, events, i - 1, h);
      }
    }
  }

  // ---- consuming ----

  predicate Consuming(l: Handler) {
    l.consumed || l.pc.ConsumeUpdate?
  }

  lemma ConsumeMove(d: Discipline, v: View, h: nat, l: Handler, a: Answer)
    requires !Stopped(l)
    ensures var l' := LocalStep(d, v, h, l, a).next;
            Consuming(l') ==>
              Consuming(l) || (l.pc == ConsumeSelect && a.ok && Unspent(v.token, l.req, v.now))
  {
    if l.pc == ConsumeSelect {
      ConsumeAnswers(d, v, h, l, a);
      hide LocalStep;
    } else {
      hide Valid, TryMarked, Coalesced, Cleared, WithReceipt, Fresh, Unless, Free;
    }
  }

  lemma ConsumeEvent(d: Discipline, s: Sys, e: Event, h: nat)
    requires Enabled(s, e) && h in Do(d, s, e).handlers && Consuming(Do(d, s, e).handlers[h])
    ensures h in s.handlers && Do(d, s, e).handlers[h].req == s.handlers[h].req
    ensures || (Moving(s, e, h) && s.handlers[h].pc == ConsumeSelect && e.a.ok && TokenSeen(s, s.handlers[h]))
            || Consuming(s.handlers[h])
  {
    hide LocalStep, BoundTo;
    if e.Move? && e.h == h {
      ConsumeMove(d, ViewOf(s, s.handlers[h]), h, s.handlers[h], e.a);
    }
  }

  /** A handler that consumed its token selected it first and found it unrevoked, unexpired, unconsumed and bound. */
  lemma {:induction false} ConsumedTokenWasSeen(d: Discipline, states: seq<Sys>, events: seq<Event>, i: nat, h: nat)
    returns (k: nat)
    requires Run(d, states, events) && i < |states| && h in states[i].handlers && Consuming(states[i].handlers[h])
    ensures k < i && MoveAt(states, events, k, h, ConsumeSelect) && TokenSeen(states[k], states[i].handlers[h])
  {
    hide Enabled, Do, Consuming, BoundTo;
    k := 0;
    if i == 0 {
      assert false;
    } else {
      var s, e := states[i - 1], events[i - 1];
      ConsumeEvent(d, s, e, h);
      if Moving(s, e, h) && s.handlers[h].pc == ConsumeSelect && e.a.ok && TokenSeen(s, s.handlers[h]) {
        k := i - 1;
      } else {
        k := ConsumedTokenWasSeen(d, states, events, i - 1, h);
      }
    }
  }

  // ---- replaying ----

  /** The token stood: unrevoked, unexpired and bound to the request, consumed or not. */
  ghost predicate TokenStood(s: Sys, l: Handler) {
    l.req.token in s.tokens && TokenStands(Some(s.tokens[l.req.token]), l.req, s.now)
  }

  predicate Replaying(l: Handler) {
    l.pc.SpentLookup? || (l.pc.Done? && l.pc.response.Replayed?)
  }

  lemma ReplayMove(d: Discipline, v: View, h: nat, l: Handler, a: Answer)
    requires !Stopped(l)
    ensures var l' := LocalStep(d, v, h, l, a).next;
            Replaying(l') ==>
              || Replaying(l)
              || ((l.pc == LookupToken || l.pc.ReplayCheck?) && a.ok && TokenStands(v.token, l.req, v.now))
  {
    match l.pc {
      case Lookup => LookupAnswers(d, v, h, l, a);
      case CheckSelect => RecordAnswers(d, v, h, l, a);
      case CheckDelete => ReplaceAnswers(d, v, h, l, a);
      case CheckInsert => ReplaceAnswers(d, v, h, l, a);
      case LookupToken => TokenAnswers(d, v, h, l, a);
      case ReplayCheck(_) => ReplayAnswers(d, v, h, l, a);
      case ConsumeSelect => ConsumeAnswers(d, v, h, l, a);
      case ConsumeUpdate => ConsumeAnswers(d, v, h, l, a);
      case MarkStarted => MarkAnswers(d, v, h, l, a);
      case Send => WriteAnswers(d, v, h, l, a);
      case Await => WriteAnswers(d, v, h, l, a);
      case ClearStarted => ClosingAnswers(d, v, h, l, a);
      case LostLookup => ClosingAnswers(d, v, h, l, a);
      case SaveReceipt => ClosingAnswers(d, v, h, l, a);
      case _ =>
    }
    hide KeyStep, WriteStep, BoundTo, Valid, CanConsume;
  }

  lemma ReplayEvent(d: Discipline, s: Sys, e: Event, h: nat)
    requires Enabled(s, e) && h in Do(d, s, e).handlers && Replaying(Do(d, s, e).handlers[h])
    ensures h in s.handlers && Do(d, s, e).handlers[h].req == s.handlers[h].req
    ensures || (Moving(s, e, h) && e.a.ok && (s.handlers[h].pc == LookupToken || s.handlers[h].pc.ReplayCheck?)
                && TokenStood(s, s.handlers[h]))
            || Replaying(s.handlers[h])
  {
    hide LocalStep, BoundTo;
    if e.Move? && e.h == h {
      ReplayMove(d, ViewOf(s, s.handlers[h]), h, s.handlers[h], e.a);
    }
  }

  /** A handler that gave a stored receipt out had looked its token up and found it standing. */
  lemma {:induction false} ReplayWasAllowed(d: Discipline, states: seq<Sys>, events: seq<Event>, i: nat, h: nat)
    returns (k: nat, pc: Pc)
    requires Run(d, states, events) && i < |states| && h in states[i].handlers && Replaying(states[i].handlers[h])
    ensures k < i && MoveAt(states, events, k, h, pc) && TokenStood(states[k], states[i].handlers[h])
    ensures pc == LookupToken || pc.ReplayCheck?
  {
    hide Enabled, Do, Replaying, BoundTo;
    k, pc := 0, LookupToken;
    if i == 0 {
      assert false;
    } else {
      var s, e := states[i - 1], events[i - 1];
      ReplayEvent(d, s, e, h);
      if Moving(s, e, h) && e.a.ok && (s.handlers[h].pc == LookupToken || s.handlers[h].pc.ReplayCheck?)
         && TokenStood(s, s.handlers[h]) {
        k, pc := i - 1, s.handlers[h].pc;
      } else {
        k, pc := ReplayWasAllowed(d, states, events, i - 1, h);
      }
    }
  }

  // ---- the key of a catalog submit ----

  /** The key had no unexpired row. */
  ghost predicate KeyFree(s: Sys, l: Handler) {
    l.req.key !in s.rows || s.rows[l.req.key].expiresAt <= s.now
  }

  /** Behind the check that records the key. */
  predicate KeyPassed(l: Handler) {
    || l.sent || l.consumed || l.pc.CheckDelete? || l.pc.CheckInsert? || l.pc.ConsumeSelect? || l.pc.ConsumeUpdate?
    || l.pc.MarkStarted? || l.pc.Send? || l.pc.Await? || l.pc.ClearStarted? || l.pc.SaveReceipt?
  }

  lemma KeyMove(v: View, h: nat, l: Handler, a: Answer)
    requires !Stopped(l)
    ensures var l' := LocalStep(ConsumeFirst, v, h, l, a).next;
            KeyPassed(l') ==> KeyPassed(l) || (l.pc == CheckSelect && a.ok && !InUse(v.row, v.now))
  {
    if l.pc == CheckSelect {
      RecordAnswers(ConsumeFirst, v, h, l, a);
      hide LocalStep;
    } else {
      hide Valid, TryMarked, Coalesced, Cleared, WithReceipt, Fresh, Unless, Free;
    }
  }

  lemma KeyEvent(s: Sys, e: Event, h: nat)
    requires Enabled(s, e) && h in Do(ConsumeFirst, s, e).handlers && KeyPassed(Do(ConsumeFirst, s, e).handlers[h])
    ensures h in s.handlers && Do(ConsumeFirst, s, e).handlers[h].req == s.handlers[h].req
    ensures || (Moving(s, e, h) && s.handlers[h].pc == CheckSelect && e.a.ok && KeyFree(s, s.handlers[h]))
            || KeyPassed(s.handlers[h])
  {
    hide LocalStep;
    if e.Move? && e.h == h {
      KeyMove(ViewOf(s, s.handlers[h]), h, s.handlers[h], e.a);
    }
  }

  /** A catalog submit that consumed its token or wrote had found its key without an unexpired row. */
  lemma {:induction false} KeyWasFree(states: seq<Sys>, events: seq<Event>, i: nat, h: nat) returns (k: nat)
    requires Run(ConsumeFirst, states, events) && i < |states| && h in states[i].handlers
    requires KeyPassed(states[i].handlers[h])
    ensures k < i && MoveAt(states, events, k, h, CheckSelect) && KeyFree(states[k], states[i].handlers[h])
  {
    hide Enabled, Do, KeyPassed;
    k := 0;
    if i == 0 {
      assert false;
    } else {
      var s, e := states[i - 1], events[i - 1];
      KeyEvent(s, e, h);
      if Moving(s, e, h) && s.handlers[h].pc == CheckSelect && e.a.ok && KeyFree(s, s.handlers[h]) {
        k := i - 1;
      } else {
        k := KeyWasFree(states, events, i - 1, h);
      }
    }
  }

  /** At its check, a catalog submit on a key in use changes nothing but itself, and its next answer is the row's: a
      conflict, a receipt still to be let out by the token, or pending. */
  lemma KeyInUseAnswers(s: Sys, h: nat, a: Answer)
    requires Enabled(s, Move(h, a)) && s.handlers[h].pc == CheckSelect && a.ok
    requires InUse(Get(s.rows, s.handlers[h].req.key), s.now)
    ensures var l := s.handlers[h]; var row := s.rows[l.req.key]; var s' := Moved(ConsumeFirst, s, h, a);
            && s' == s.(step := s.step + 1, handlers := s.handlers[h := l.(pc := s'.handlers[h].pc)])
            && s'.handlers[h].pc ==
                 if row.opHash != l.req.binding.opHash then Done(Conflict)
                 else if row.receipt.Some? then ReplayCheck(row.receipt.value) else Done(Pending)
  {
    var l := s.handlers[h];
    RecordAnswers(ConsumeFirst, ViewOf(s, l), h, l, a);
    assert Set(s.rows, l.req.key, Get(s.rows, l.req.key)) == s.rows;
    hide LocalStep;
  }

  // ---- one submit after another on one key ----

  ghost predicate Replacing(l: Handler) {
    l.pc.CheckDelete? || l.pc.CheckInsert?
  }

  /** Until `expiresAt` the key has its row, and no handler is about to replace it. */
  ghost predicate Held(s: Sys, key: string, expiresAt: nat) {
    s.now < expiresAt ==>
      Live(s, key, expiresAt) && forall h :: For(s, h, key) ==> !Replacing(s.handlers[h])
  }

  lemma HeldMove(v: View, h: nat, l: Handler, a: Answer)
    requires !Stopped(l) && !Replacing(l) && InUse(v.row, v.now)
    ensures var o := LocalStep(ConsumeFirst, v, h, l, a);
            && o.next.req == l.req && !Replacing(o.next)
            && o.row.Some? && o.row.value.expiresAt == v.row.value.expiresAt
  {
    if l.pc == CheckSelect {
      RecordAnswers(ConsumeFirst, v, h, l, a);
    }
    hide Valid, CanConsume;
  }

  lemma HeldStep(s: Sys, e: Event, key: string, expiresAt: nat)
    requires Enabled(s, e) && Held(s, key, expiresAt)
    ensures Held(Do(ConsumeFirst, s, e), key, expiresAt)
  {
    hide LocalStep;
    if s.now < expiresAt && e.Move? {
      if For(s, e.h, key) {
        HeldMove(ViewOf(s, s.handlers[e.h]), e.h, s.handlers[e.h], e.a);
      } else {
        OtherKeyMove(ConsumeFirst, s, e.h, e.a, key);
      }
    }
  }

  lemma {:induction false} StaysHeld(states: seq<Sys>, events: seq<Event>, key: string, expiresAt: nat, i: nat, j: nat)
    requires Run(ConsumeFirst, states, events) && i <= j < |states| && Held(states[i], key, expiresAt)
    ensures Held(states[j], key, expiresAt)
  {
    hide Enabled, Do, Held;
    if i == j {
    } else {
      StaysHeld(states, events, key, expiresAt, i, j - 1);
      HeldStep(states[j - 1], events[j - 1], key, expiresAt);
    }
  }

  lemma StepKeepsHandler(d: Discipline, s: Sys, e: Event, h: nat)
    requires Enabled(s, e) && h in s.handlers
    ensures h in Do(d, s, e).handlers
  {
    hide LocalStep;
  }

  lemma {:induction false} HandlersStay(d: Discipline, states: seq<Sys>, events: seq<Event>, i: nat, j: nat, h: nat)
    requires Run(d, states, events) && i <= j < |states| && h in states[i].handlers
    ensures h in states[j].handlers
  {
    hide Enabled, Do;
    if i == j {
    } else {
      HandlersStay(d, states, events, i, j - 1, h);
      StepKeepsHandler(d, states[j - 1], events[j - 1], h);
    }
  }

  /** While a key is held, no call that arrives consumes a token for it or submits, whatever its token. */
  lemma HeldKeyKeepsSubmitsOut(states: seq<Sys>, events: seq<Event>, key: string, expiresAt: nat, i: nat, j: nat,
      g: nat)
    requires Run(ConsumeFirst, states, events) && i <= j < |states| && Held(states[i], key, expiresAt)
    requires states[j].now < expiresAt && g !in states[i].handlers && For(states[j], g, key)
    ensures !states[j].handlers[g].sent && !states[j].handlers[g].consumed
  {
    hide Run, Held;
    if KeyPassed(states[j].handlers[g]) {
      var k := KeyWasFree(states, events, j, g);
      if k <= i {
        HandlersStay(ConsumeFirst, states, events, k, i, g);
      }
      ClockAdvances(ConsumeFirst, states, events, k, j);
      StaysHeld(states, events, key, expiresAt, i, k);
      HeldIsLive(states[k], key, expiresAt);
      assert false;
    }
  }

  lemma HeldIsLive(s: Sys, key: string, expiresAt: nat)
    requires Held(s, key, expiresAt) && s.now < expiresAt
    ensures key in s.rows && s.now < s.rows[key].expiresAt
  {
  }

  /** No two calls of the key are under way at once. */
  ghost predicate OneAtATime(s: Sys, key: string) {
    forall h, g :: For(s, h, key) && For(s, g, key) && !Stopped(s.handlers[h]) && !Stopped(s.handlers[g]) ==> h == g
  }

  /** Behind the check of its key and not yet at its answer. */
  predicate Committing(pc: Pc) {
    Settling(pc) || pc.MarkStarted? || pc.Send? || pc.Await?
  }

  lemma CommittingMove(v: View, h: nat, l: Handler, a: Answer)
    requires !Stopped(l)
    ensures var o := LocalStep(ConsumeFirst, v, h, l, a);
            && o.next.req == l.req
            && (Committing(o.next.pc) && (Committing(l.pc) ==> v.row.Some?) ==> o.row.Some?)
            && (Committing(l.pc) && v.row.Some? ==> o.row.Some?)
  {
    match l.pc {
      case Lookup => LookupAnswers(ConsumeFirst, v, h, l, a);
      case CheckSelect => RecordAnswers(ConsumeFirst, v, h, l, a);
      case CheckDelete => ReplaceAnswers(ConsumeFirst, v, h, l, a);
      case CheckInsert => ReplaceAnswers(ConsumeFirst, v, h, l, a);
      case ConsumeSelect => ConsumeAnswers(ConsumeFirst, v, h, l, a);
      case ConsumeUpdate => ConsumeAnswers(ConsumeFirst, v, h, l, a);
      case MarkStarted => MarkAnswers(ConsumeFirst, v, h, l, a);
      case Send => WriteAnswers(ConsumeFirst, v, h, l, a);
      case Await => WriteAnswers(ConsumeFirst, v, h, l, a);
      case ClearStarted => ClosingAnswers(ConsumeFirst, v, h, l, a);
      case SaveReceipt => ClosingAnswers(ConsumeFirst, v, h, l, a);
      case _ =>
    }
    hide KeyStep, WriteStep, BoundTo, Valid, CanConsume;
  }

  /** A call under way that has recorded its key finds the row there. */
  ghost predicate Placed(s: Sys, key: string, h: nat) {
    For(s, h, key) && Committing(s.handlers[h].pc) ==> key in s.rows
  }

  lemma PlacedStep(s: Sys, e: Event, key: string, h: nat)
    requires Enabled(s, e) && OneAtATime(s, key) && (h in s.handlers ==> Placed(s, key, h))
    ensures Placed(Do(ConsumeFirst, s, e), key, h)
    ensures For(s, h, key) && Committing(s.handlers[h].pc) ==> key in Do(ConsumeFirst, s, e).rows
  {
    hide LocalStep;
    if e.Move? {
      if For(s, e.h, key) {
        CommittingMove(ViewOf(s, s.handlers[e.h]), e.h, s.handlers[e.h], e.a);
      } else {
        OtherKeyMove(ConsumeFirst, s, e.h, e.a, key);
      }
    }
  }

  lemma {:induction false} StaysPlaced(states: seq<Sys>, events: seq<Event>, key: string, i: nat, h: nat)
    requires Run(ConsumeFirst, states, events) && i < |states|
    requires forall m :: 0 <= m < i ==> OneAtATime(states[m], key)
    ensures Placed(states[i], key, h)
  {
    hide Enabled, Do, OneAtATime, Placed;
    if i == 0 {
      NobodyThere(states[0], key, h);
    } else {
      StaysPlaced(states, events, key, i - 1, h);
      PlacedStep(states[i - 1], events[i - 1], key, h);
    }
  }

  lemma NobodyThere(s: Sys, key: string, h: nat)
    requires s.handlers == map[]
    ensures Placed(s, key, h)
  {
  }

  /** The event with which a call ends. */
  ghost predicate EndsAt(states: seq<Sys>, i: nat, key: string, h: nat) {
    && 0 < i < |states| && For(states[i - 1], h, key) && !Stopped(states[i - 1].handlers[h])
    && For(states[i], h, key) && Stopped(states[i].handlers[h])
  }

  lemma EndingStep(s: Sys, e: Event, key: string, h: nat)
    requires Enabled(s, e) && For(s, h, key) && !Stopped(s.handlers[h]) && CatalogInv(s) && OneAtATime(s, key)
    requires Placed(s, key, h)
    requires var s' := Do(ConsumeFirst, s, e); h in s'.handlers && Stopped(s'.handlers[h]) && s'.handlers[h].sent
    ensures var s' := Do(ConsumeFirst, s, e); key in s'.rows && Held(s', key, s'.rows[key].expiresAt)
  {
    PlacedStep(s, e, key, h);
    if e.Move? && e.h == h {
      SenderIsCommitting(ViewOf(s, s.handlers[h]), h, s.handlers[h], e.a);
    }
    hide LocalStep, Placed;
  }

  lemma SenderIsCommitting(v: View, h: nat, l: Handler, a: Answer)
    requires !Stopped(l) && CatalogFits(l)
    ensures var l' := LocalStep(ConsumeFirst, v, h, l, a).next;
            l'.sent && Stopped(l') ==> Committing(l.pc)
  {
    hide Valid, CanConsume;
  }

  /** Of two submits of one key, one after the other, at most one happens while the first one's row has not expired,
      whatever tokens the calls bring. */
  lemma SequentialSubmitsOnce(states: seq<Sys>, events: seq<Event>, key: string, i: nat, j: nat, h: nat, g: nat)
    requires Run(ConsumeFirst, states, events) && i <= j < |states|
    requires forall m :: 0 <= m <= i ==> OneAtATime(states[m], key)
    requires EndsAt(states, i, key, h) && states[i].handlers[h].sent
    requires g !in states[i].handlers && For(states[j], g, key)
    ensures key in states[i].rows
    ensures states[j].now < states[i].rows[key].expiresAt ==>
              !states[j].handlers[g].sent && !states[j].handlers[g].consumed
  {
    hide Held, OneAtATime, Do, Enabled;
    StaysPlaced(states, events, key, i - 1, h);
    CatalogHolds(states, events, i - 1);
    EndingStep(states[i - 1], events[i - 1], key, h);
    if states[j].now < states[i].rows[key].expiresAt {
      HeldKeyKeepsSubmitsOut(states, events, key, states[i].rows[key].expiresAt, i, j, g);
    }
  }
}

/** What each discipline of the single-write handlers guarantees, in every interleaving. */
module SingleSafety {
  import opened Wrappers
  import opened SingleApply

  predicate Recording(pc: Pc) {
    pc.Lookup? || pc.CheckSelect? || pc.CheckDelete? || pc.CheckInsert?
  }

  /** Before the marker, in the lease and the kept discipline. */
  predicate Early(pc: Pc) {
    Recording(pc) || pc.ReplayCheck? || pc.Review? || pc.LookupToken? || pc.SpentLookup? || pc.MarkStarted?
  }

  predicate Settling(pc: Pc) {
    pc.ConsumeSelect? || pc.ConsumeUpdate? || pc.SaveReceipt?
  }

  /** The row of `key` as it was reserved, not yet expired. */
  ghost predicate Live(s: Sys, key: string, expiresAt: nat) {
    key in s.rows && s.rows[key].expiresAt == expiresAt && s.now < expiresAt
  }

  ghost predicate For(s: Sys, h: nat, key: string) {
    h in s.handlers && s.handlers[h].req.key == key
  }

  /** The key is there and no call has named it yet: planning has just reserved it, whatever else is under way. */
  ghost predicate PlannedAt(states: seq<Sys>, key: string, r: nat) {
    r < |states| && key in states[r].rows && Unnamed(states[r], key)
  }

  ghost predicate Unnamed(s: Sys, key: string) {
    forall h :: h in s.handlers ==> s.handlers[h].req.key != key
  }

  /** Reserving a key that nobody has named, at any point of a run, is such a point. */
  lemma ReservingPlans(d: Discipline, states: seq<Sys>, events: seq<Event>, key: string, i: nat)
    requires Run(d, states, events) && i < |events| && events[i].ReserveKey? && events[i].key == key
    requires Unnamed(states[i], key)
    ensures PlannedAt(states, key, i + 1)
    ensures states[i + 1].rows[key] == Row(events[i].opHash, None, None, events[i].expiresAt)
  {
    assert states[i + 1] == Do(d, states[i], events[i]);
  }

  lemma {:induction false} ClockAdvances(d: Discipline, states: seq<Sys>, events: seq<Event>, i: nat, j: nat)
    requires Run(d, states, events) && i <= j < |states|
    ensures states[i].now <= states[j].now && states[i].step + (j - i) == states[j].step
  {
    if i == j {
    } else {
      ClockAdvances(d, states, events, i, j - 1);
    }
  }

  // ---- the single-Incident lease ----

  ghost predicate LeaseFits(l: Handler) {
    if Early(l.pc) || l.pc.LostLookup? then !l.owner && !l.sent && !l.acked
    else if l.pc.Send? then l.owner && !l.sent && !l.acked
    else if l.pc.Await? || l.pc.ClearStarted? then l.owner && l.sent && !l.acked
    else if Settling(l.pc) then l.owner && l.sent && l.acked
    else l.acked ==> l.owner && l.sent
  }

  /** While the row is live: each lease on it is held by the handler the row names. */
  ghost predicate LeaseInv(s: Sys, key: string, expiresAt: nat) {
    s.now < expiresAt ==>
      && Live(s, key, expiresAt)
      && forall h :: For(s, h, key) ==>
           var l := s.handlers[h];
           && LeaseFits(l) && !l.pc.CheckDelete? && !l.pc.CheckInsert?
           && (l.owner ==> s.rows[key].started.Some? && s.rows[key].started.value.owner == h)
  }

  lemma LeaseMove(v: View, h: nat, l: Handler, a: Answer)
    requires LeaseFits(l) && !Stopped(l) && !l.pc.CheckDelete? && !l.pc.CheckInsert?
    requires v.row.Some? && v.now < v.row.value.expiresAt
    requires l.owner ==> v.row.value.started.Some? && v.row.value.started.value.owner == h
    ensures var o := LocalStep(Lease, v, h, l, a);
            && LeaseFits(o.next) && !o.next.pc.CheckDelete? && !o.next.pc.CheckInsert?
            && o.next.req == l.req
            && o.row.Some? && o.row.value.expiresAt == v.row.value.expiresAt
            && (o.next.owner ==> o.row.value.started.Some? && o.row.value.started.value.owner == h)
            && (v.row.value.started.Some? && v.row.value.started.value.owner != h ==>
                  o.row.value.started == v.row.value.started)
  {
  }

  lemma LeaseStep(s: Sys, e: Event, key: string, expiresAt: nat)
    requires Enabled(s, e) && LeaseInv(s, key, expiresAt)
    ensures LeaseInv(Do(Lease, s, e), key, expiresAt)
  {
    var s' := Do(Lease, s, e);
    if s'.now < expiresAt {
      if e.Move? && For(s, e.h, key) {
        LeaseMove(ViewOf(s, s.handlers[e.h]), e.h, s.handlers[e.h], e.a);
      }
      if e.Move? && !For(s, e.h, key) {
        OtherKeyMove(Lease, s, e.h, e.a, key);
      }
      hide LocalStep;
    }
  }

  /** A handler works on its own key's row only. */
  lemma OtherKeyMove(d: Discipline, s: Sys, h: nat, a: Answer, key: string)
    requires Enabled(s, Move(h, a)) && s.handlers[h].req.key != key
    ensures Get(Moved(d, s, h, a).rows, key) == Get(s.rows, key)
    ensures Moved(d, s, h, a).handlers[h].req == s.handlers[h].req
  {
    hide LocalStep;
  }

  lemma {:induction false} LeaseHolds(states: seq<Sys>, events: seq<Event>, key: string, r: nat, i: nat)
    requires Run(Lease, states, events) && r <= i < |states| && PlannedAt(states, key, r)
    ensures LeaseInv(states[i], key, states[r].rows[key].expiresAt)
  {
    hide Enabled, Do, LeaseFits;
    if i == r {
    } else {
      LeaseHolds(states, events, key, r, i - 1);
      LeaseStep(states[i - 1], events[i - 1], key, states[r].rows[key].expiresAt);
    }
  }

  /** At most one handler holds the lease at any moment, so at most one has a PATCH out or acknowledged. */
  lemma LeaseIsExclusive(states: seq<Sys>, events: seq<Event>, key: string, r: nat, i: nat, h: nat, g: nat)
    requires Run(Lease, states, events) && r <= i < |states| && PlannedAt(states, key, r)
    requires states[i].now < states[r].rows[key].expiresAt
    requires For(states[i], h, key) && For(states[i], g, key) && states[i].handlers[h].owner
              && states[i].handlers[g].owner
    ensures h == g
  {
    LeaseHolds(states, events, key, r, i);
  }

  /** On an unexpired row at most one PATCH per key is ever acknowledged, whatever was released and retried before. */
  lemma OneAcknowledgedPatch(states: seq<Sys>, events: seq<Event>, key: string, r: nat, i: nat, h: nat, g: nat)
    requires Run(Lease, states, events) && r <= i < |states| && PlannedAt(states, key, r)
    requires states[i].now < states[r].rows[key].expiresAt
    requires For(states[i], h, key) && For(states[i], g, key) && states[i].handlers[h].acked
              && states[i].handlers[g].acked
    ensures h == g
  {
    LeaseHolds(states, events, key, r, i);
  }

  /** An acknowledged PATCH, a lost local coherence included, keeps the marker: nobody can send again. */
  lemma AcknowledgementKeepsTheLease(states: seq<Sys>, events: seq<Event>, key: string, r: nat, i: nat, h: nat, g: nat)
    requires Run(Lease, states, events) && r <= i < |states| && PlannedAt(states, key, r)
    requires states[i].now < states[r].rows[key].expiresAt
    requires For(states[i], h, key) && states[i].handlers[h].acked
    requires For(states[i], g, key) && g != h
    ensures key in states[i].rows && states[i].rows[key].started.Some?
    ensures !states[i].handlers[g].pc.Send? && !states[i].handlers[g].pc.Await?
  {
    LeaseHolds(states, events, key, r, i);
  }

  // ---- the kept marker ----

  ghost predicate KeptFits(l: Handler) {
    if Early(l.pc) then l.marked.None? && !l.sent
    else if l.pc.ClearStarted? || l.pc.LostLookup? then false
    else if l.pc.Send? || l.pc.Await? || Settling(l.pc) then l.marked.Some?
    else l.sent ==> l.marked.Some?
  }

  /** What a handler remembers lies between its arrival and now. */
  ghost predicate Dated(l: Handler, step: nat) {
    && l.arrived < step
    && (l.looked.Some? ==> l.arrived < l.looked.value < step)
    && (l.marked.Some? ==> l.arrived < l.marked.value < step)
    && (l.looked.Some? && l.marked.Some? ==> l.looked.value < l.marked.value)
    && (l.pc.Lookup? ==> l.looked.None?)
  }

  ghost predicate LookedBefore(looker: Handler, marker: Handler) {
    looker.looked.Some? && marker.marked.Some? ==> looker.looked.value < marker.marked.value
  }

  /** While the row is live: a mark stays, and no handler saw the row unmarked after a mark. */
  ghost predicate KeptInv(s: Sys, key: string, expiresAt: nat) {
    s.now < expiresAt ==>
      && Live(s, key, expiresAt)
      && (forall h :: For(s, h, key) ==>
            var l := s.handlers[h];
            && KeptFits(l) && Dated(l, s.step) && !l.pc.CheckDelete? && !l.pc.CheckInsert?
            && (l.marked.Some? ==> s.rows[key].started.Some?))
      && (forall h, g :: For(s, h, key) && For(s, g, key) ==> LookedBefore(s.handlers[g], s.handlers[h]))
  }

  /** What a move of a handler on a live row leaves behind. */
  ghost predicate KeptAfter(v: View, l: Handler, o: Outcome) {
    && KeptFits(o.next) && Dated(o.next, v.step + 1) && !o.next.pc.CheckDelete? && !o.next.pc.CheckInsert?
    && o.next.req == l.req
    && v.row.Some? && o.row.Some? && o.row.value.expiresAt == v.row.value.expiresAt
    && (v.row.value.started.Some? || o.next.marked.Some? ==> o.row.value.started.Some?)
    && (o.next.marked == l.marked || o.next.marked == Some(v.step))
    && (o.next.looked == l.looked || (o.next.looked == Some(v.step) && v.row.value.started.None?))
    && (o.next.looked != l.looked ==> o.next.marked == l.marked)
  }

  ghost predicate KeptBefore(v: View, l: Handler) {
    && KeptFits(l) && Dated(l, v.step) && !Stopped(l) && !l.pc.CheckDelete? && !l.pc.CheckInsert?
    && v.row.Some? && v.now < v.row.value.expiresAt
    && (l.marked.Some? ==> v.row.value.started.Some?)
  }

  lemma KeptKeyMove(v: View, l: Handler, a: Answer)
    requires KeptBefore(v, l) && (l.pc.Lookup? || l.pc.CheckSelect?)
    ensures KeptAfter(v, l, KeyStep(Kept, v, l, a))
  {
  }

  lemma KeptWriteMove(v: View, h: nat, l: Handler, a: Answer)
    requires KeptBefore(v, l) && (l.pc.MarkStarted? || l.pc.Send? || l.pc.Await? || l.pc.SaveReceipt?)
    ensures KeptAfter(v, l, WriteStep(Kept, v, h, l, a))
  {
  }

  lemma KeptTokenMove(v: View, l: Handler, a: Answer)
    requires KeptBefore(v, l)
    requires l.pc.ReplayCheck? || l.pc.Review? || l.pc.LookupToken? || l.pc.SpentLookup?
          || l.pc.ConsumeSelect? || l.pc.ConsumeUpdate?
    ensures KeptAfter(v, l, TokenStep(Kept, v, l, a))
  {
    hide Valid, CanConsume;
  }

  lemma KeptMove(v: View, h: nat, l: Handler, a: Answer)
    requires KeptBefore(v, l)
    ensures KeptAfter(v, l, LocalStep(Kept, v, h, l, a))
  {
    if l.pc.Lookup? || l.pc.CheckSelect? {
      KeptKeyMove(v, l, a);
    } else if l.pc.MarkStarted? || l.pc.Send? || l.pc.Await? || l.pc.SaveReceipt? {
      KeptWriteMove(v, h, l, a);
    } else {
      KeptTokenMove(v, l, a);
    }
    hide KeyStep, WriteStep, TokenStep, KeptAfter;
  }

  lemma KeptMoveKeeps(s: Sys, h: nat, a: Answer, key: string, expiresAt: nat)
    requires Enabled(s, Move(h, a)) && KeptInv(s, key, expiresAt) && s.now < expiresAt && For(s, h, key)
    ensures KeptInv(Moved(Kept, s, h, a), key, expiresAt)
  {
    var l, s' := s.handlers[h], Moved(Kept, s, h, a);
    KeptMove(ViewOf(s, l), h, l, a);
    hide LocalStep, KeptFits;
    forall g | For(s', g, key) ensures Dated(s'.handlers[g], s'.step) {
      assert Dated(s.handlers[g], s.step);
    }
    hide Dated;
    forall g | For(s', g, key)
      ensures LookedBefore(s'.handlers[g], s'.handlers[h]) && LookedBefore(s'.handlers[h], s'.handlers[g])
    {
      assert For(s, g, key) && LookedBefore(s.handlers[g], l) && LookedBefore(l, s.handlers[g]);
    }
  }

  lemma KeptOtherMoveKeeps(s: Sys, h: nat, a: Answer, key: string, expiresAt: nat)
    requires Enabled(s, Move(h, a)) && KeptInv(s, key, expiresAt) && s.now < expiresAt && !For(s, h, key)
    ensures KeptInv(Moved(Kept, s, h, a), key, expiresAt)
  {
    OtherKeyMove(Kept, s, h, a, key);
    hide LocalStep, KeptFits;
  }

  lemma CrashedFits(l: Handler)
    requires KeptFits(l)
    ensures KeptFits(l.(pc := Crashed))
  {
  }

  lemma ArrivedFits(req: Request, step: nat)
    ensures KeptFits(NewHandler(Kept, req, step))
  {
  }

  lemma KeptEnvironmentKeeps(s: Sys, e: Event, key: string, expiresAt: nat)
    requires Enabled(s, e) && !e.Move? && KeptInv(s, key, expiresAt)
    ensures KeptInv(Do(Kept, s, e), key, expiresAt)
  {
    hide Moved, KeptFits;
    if e.Crash? && s.now < expiresAt && For(s, e.h, key) {
      CrashedFits(s.handlers[e.h]);
    } else if e.Arrive? {
      ArrivedFits(e.req, s.step);
    }
  }

  lemma KeptStep(s: Sys, e: Event, key: string, expiresAt: nat)
    requires Enabled(s, e) && KeptInv(s, key, expiresAt)
    ensures KeptInv(Do(Kept, s, e), key, expiresAt)
  {
    hide Moved, KeptFits, Dated, LookedBefore;
    if !e.Move? {
      KeptEnvironmentKeeps(s, e, key, expiresAt);
    } else if s.now < expiresAt && For(s, e.h, key) {
      KeptMoveKeeps(s, e.h, e.a, key, expiresAt);
    } else if s.now < expiresAt {
      KeptOtherMoveKeeps(s, e.h, e.a, key, expiresAt);
    } else {
      ClockIsKept(s, e.h, e.a);
    }
  }

  lemma ClockIsKept(s: Sys, h: nat, a: Answer)
    requires Enabled(s, Move(h, a))
    ensures Moved(Kept, s, h, a).now == s.now
  {
    hide LocalStep;
  }

  lemma {:induction false} KeptHolds(states: seq<Sys>, events: seq<Event>, key: string, r: nat, i: nat)
    requires Run(Kept, states, events) && r <= i < |states| && PlannedAt(states, key, r)
    ensures KeptInv(states[i], key, states[r].rows[key].expiresAt)
  {
    hide Enabled, Do, KeptFits;
    if i == r {
    } else {
      KeptHolds(states, events, key, r, i - 1);
      KeptStep(states[i - 1], events[i - 1], key, states[r].rows[key].expiresAt);
    }
  }

  /** Two handlers of one key that both looked the key up and both wrote must have overlapped: each looked before the
      other marked. The marker is kept whatever the write answers, so a lost response changes nothing. */
  lemma TwoWritersOverlapped(states: seq<Sys>, events: seq<Event>, key: string, r: nat, i: nat, h: nat, g: nat)
    requires Run(Kept, states, events) && r <= i < |states| && PlannedAt(states, key, r)
    requires states[i].now < states[r].rows[key].expiresAt
    requires For(states[i], h, key) && states[i].handlers[h].sent && states[i].handlers[h].looked.Some?
    requires For(states[i], g, key) && states[i].handlers[g].sent && states[i].handlers[g].looked.Some?
    ensures states[i].handlers[h].marked.Some? && states[i].handlers[g].marked.Some?
    ensures states[i].handlers[h].looked.value < states[i].handlers[g].marked.value
    ensures states[i].handlers[g].looked.value < states[i].handlers[h].marked.value
  {
    KeptHolds(states, events, key, r, i);
  }

  lemma MarkIsWrittenOnce(v: View, h: nat, l: Handler, a: Answer)
    requires !Stopped(l) && KeptFits(l) && l.marked.Some?
    ensures LocalStep(Kept, v, h, l, a).next.marked == l.marked && LocalStep(Kept, v, h, l, a).next.req == l.req
  {
    hide Valid, CanConsume, TryMarked, Coalesced, Cleared, WithReceipt, Fresh, Unless, Free;
  }

  lemma StepKeepsMark(s: Sys, e: Event, key: string, expiresAt: nat, h: nat)
    requires Enabled(s, e) && KeptInv(s, key, expiresAt) && s.now < expiresAt
    requires For(s, h, key) && s.handlers[h].marked.Some?
    ensures For(Do(Kept, s, e), h, key) && Do(Kept, s, e).handlers[h].marked == s.handlers[h].marked
  {
    if e.Move? && e.h == h {
      MarkIsWrittenOnce(ViewOf(s, s.handlers[h]), h, s.handlers[h], e.a);
    }
    hide LocalStep;
  }

  lemma {:induction false} MarkStays(states: seq<Sys>, events: seq<Event>, key: string, r: nat, i: nat, j: nat, h: nat)
    requires Run(Kept, states, events) && r <= i <= j < |states| && PlannedAt(states, key, r)
    requires states[j].now < states[r].rows[key].expiresAt
    requires For(states[i], h, key) && states[i].handlers[h].marked.Some?
    ensures For(states[j], h, key) && states[j].handlers[h].marked == states[i].handlers[h].marked
  {
    hide Do, Enabled, KeptInv;
    if i == j {
    } else {
      ClockAdvances(Kept, states, events, j - 1, j);
      MarkStays(states, events, key, r, i, j - 1, h);
      KeptHolds(states, events, key, r, j - 1);
      StepKeepsMark(states[j - 1], events[j - 1], key, states[r].rows[key].expiresAt, h);
    }
  }

  lemma StepKeepsArrival(d: Discipline, s: Sys, e: Event, g: nat)
    requires Enabled(s, e) && g in Do(d, s, e).handlers
    ensures Do(d, s, e).handlers[g].arrived == if g in s.handlers then s.handlers[g].arrived else s.step
  {
    hide LocalStep;
  }

  lemma {:induction false} ArrivesLater(d: Discipline, states: seq<Sys>, events: seq<Event>, i: nat, j: nat, g: nat)
    requires Run(d, states, events) && i <= j < |states| && g !in states[i].handlers && g in states[j].handlers
    ensures states[i].step <= states[j].handlers[g].arrived
  {
    hide Do, Enabled;
    assert i < j;
    ClockAdvances(d, states, events, i, j - 1);
    StepKeepsArrival(d, states[j - 1], events[j - 1], g);
    if g in states[j - 1].handlers {
      ArrivesLater(d, states, events, i, j - 1, g);
    }
  }

  /** Once an attempt has written, one that arrives later writes only without having seen the key unmarked: after a
      lookup that failed. */
  lemma LaterAttemptDoesNotWrite(states: seq<Sys>, events: seq<Event>, key: string, r: nat, i: nat, j: nat, h: nat,
                                 g: nat)
    requires Run(Kept, states, events) && r <= i <= j < |states| && PlannedAt(states, key, r)
    requires states[j].now < states[r].rows[key].expiresAt
    requires For(states[i], h, key) && states[i].handlers[h].sent && g !in states[i].handlers
    requires For(states[j], g, key) && states[j].handlers[g].sent
    ensures states[j].handlers[g].looked.None?
  {
    ClockAdvances(Kept, states, events, i, j);
    KeptHolds(states, events, key, r, i);
    KeptHolds(states, events, key, r, j);
    MarkStays(states, events, key, r, i, j, h);
    ArrivesLater(Kept, states, events, i, j, g);
    assert Dated(states[i].handlers[h], states[i].step) && Dated(states[j].handlers[g], states[j].step);
    assert LookedBefore(states[j].handlers[g], states[j].handlers[h]);
  }

  // ---- consume before write ----

  ghost predicate CatalogFits(l: Handler) {
    if l.pc.MarkStarted? || l.pc.Send? then l.consumed && !l.sent
    else if l.pc.LostLookup? then false
    else if l.pc.Await? || l.pc.SaveReceipt? || Stopped(l) then l.sent ==> l.consumed
    else !l.sent && !l.consumed
  }

  /** A token is turned on by one handler at most, and every submit follows its own handler's consume. */
  ghost predicate CatalogInv(s: Sys) {
    && (forall h :: h in s.handlers ==> CatalogFits(s.handlers[h]))
    && (forall h :: h in s.handlers && s.handlers[h].consumed ==>
          s.handlers[h].req.token in s.tokens && s.tokens[s.handlers[h].req.token].consumed)
    && (forall h, g ::
          h in s.handlers && g in s.handlers && h != g && s.handlers[h].consumed && s.handlers[g].consumed ==>
          s.handlers[h].req.token != s.handlers[g].req.token)
  }

  lemma CatalogMove(v: View, h: nat, l: Handler, a: Answer)
    requires CatalogFits(l) && !Stopped(l)
    ensures var o := LocalStep(ConsumeFirst, v, h, l, a);
            && CatalogFits(o.next) && o.next.req == l.req
            && (o.consumes ==> CanConsume(v.token))
            && (o.next.consumed <==> l.consumed || o.consumes)
            && (o.next.sent && !l.sent ==> l.consumed)
  {
  }

  lemma CatalogStep(s: Sys, e: Event)
    requires Enabled(s, e) && CatalogInv(s)
    ensures CatalogInv(Do(ConsumeFirst, s, e))
  {
    if e.Move? {
      CatalogMove(ViewOf(s, s.handlers[e.h]), e.h, s.handlers[e.h], e.a);
    }
    hide LocalStep;
  }

  lemma {:induction false} CatalogHolds(states: seq<Sys>, events: seq<Event>, i: nat)
    requires Run(ConsumeFirst, states, events) && i < |states|
    ensures CatalogInv(states[i])
  {
    if i == 0 {
    } else {
      CatalogHolds(states, events, i - 1);
      CatalogStep(states[i - 1], events[i - 1]);
    }
  }

  /** Each confirmation token leads to at most one submit, whatever idempotency keys the callers choose. */
  lemma OneSubmitPerToken(states: seq<Sys>, events: seq<Event>, i: nat, h: nat, g: nat)
    requires Run(ConsumeFirst, states, events) && i < |states|
    requires h in states[i].handlers && states[i].handlers[h].sent
    requires g in states[i].handlers && states[i].handlers[g].sent
    requires states[i].handlers[h].req.token == states[i].handlers[g].req.token
    ensures h == g
  {
    CatalogHolds(states, events, i);
  }

  /** A submit is preceded by that handler's own successful consume. */
  lemma SubmitFollowsOwnConsume(states: seq<Sys>, events: seq<Event>, i: nat, h: nat)
    requires Run(ConsumeFirst, states, events) && i < |events|
    requires h in states[i].handlers && h in states[i + 1].handlers
    requires states[i + 1].handlers[h].sent && !states[i].handlers[h].sent
    ensures states[i].handlers[h].consumed
    ensures states[i].handlers[h].req.token in states[i].tokens
              && states[i].tokens[states[i].handlers[h].req.token].consumed
  {
    CatalogHolds(states, events, i);
    var s, e := states[i], events[i];
    if e.Move? && e.h == h {
      CatalogMove(ViewOf(s, s.handlers[h]), h, s.handlers[h], e.a);
    }
    hide LocalStep;
  }
}

/** The single-Incident lease and the writes that take effect: one per key, but for releases after an upstream error. */
module SingleEffects {
  import opened Wrappers
  import opened SingleApply
  import opened SingleSafety
  import opened SingleRuns
  import opened SingleLone
  import opened SingleRefinement

  /** The write was answered with an upstream error, and the marker was given back. */
  predicate Released(l: Handler) {
    l.sent && !l.owner
  }

  ghost predicate SomeoneSent(s: Sys, key: string) {
    exists h :: For(s, h, key) && s.handlers[h].sent
  }

  ghost predicate Unowned(s: Sys, key: string) {
    forall h :: For(s, h, key) ==> !s.handlers[h].owner
  }

  /** Once somebody has sent, the mark on the row is an owner's; an owner that goes on has no receipt in its way; and
      only what was sent can have taken effect. */
  ghost predicate MarkInv(s: Sys, key: string, expiresAt: nat) {
    s.now < expiresAt ==>
      && Live(s, key, expiresAt)
      && (forall h :: For(s, h, key) && s.handlers[h].owner && s.rows[key].receipt.Some? ==> Stopped(s.handlers[h]))
      && (SomeoneSent(s, key) && s.rows[key].started.Some? ==>
            var m := s.rows[key].started.value.owner; For(s, m, key) && s.handlers[m].owner)
  }

  ghost predicate EffectsFit(s: Sys) {
    && (forall h :: h in s.effected ==> h in s.handlers && s.handlers[h].sent)
    && (forall h :: h in s.handlers && s.handlers[h].pc.Await? ==> s.handlers[h].sent)
  }

  lemma MarkMove(v: View, h: nat, l: Handler, a: Answer)
    requires LeaseFits(l) && !Stopped(l) && !l.pc.CheckDelete? && !l.pc.CheckInsert?
    requires v.row.Some? && v.now < v.row.value.expiresAt
    requires l.owner ==> v.row.value.started.Some? && v.row.value.started.value.owner == h && v.row.value.receipt.None?
    ensures var o := LocalStep(Lease, v, h, l, a);
            && o.row.Some? && (o.next.owner && o.row.value.receipt.Some? ==> Stopped(o.next))
            && (o.row.value.receipt != v.row.value.receipt ==> l.owner)
            && (o.row.value.started == v.row.value.started
                || (o.row.value.started == Some(Mark(v.now, h)) && o.next.owner) || o.row.value.started.None?)
            && (l.owner && o.row.value.started.Some? ==> o.next.owner)
            && (o.next.sent && !l.sent ==> l.owner)
  {
  }

  lemma MarkMoveKeeps(s: Sys, h: nat, a: Answer, key: string, expiresAt: nat)
    requires Enabled(s, Move(h, a)) && LeaseInv(s, key, expiresAt) && MarkInv(s, key, expiresAt)
    requires s.now < expiresAt && For(s, h, key)
    ensures MarkInv(Moved(Lease, s, h, a), key, expiresAt)
  {
    hide LocalStep, LeaseFits;
    LeaseMove(ViewOf(s, s.handlers[h]), h, s.handlers[h], a);
    MarkMove(ViewOf(s, s.handlers[h]), h, s.handlers[h], a);
    var s' := Moved(Lease, s, h, a);
    assert key in s'.rows;
    forall k | For(s', k, key) && s'.handlers[k].owner && s'.rows[key].receipt.Some? ensures Stopped(s'.handlers[k]) {
      if k != h {
        assert For(s, k, key);
      }
    }
    if SomeoneSent(s', key) && s'.rows[key].started.Some? {
      if !SomeoneSent(s, key) {
        assert s.handlers[h].owner;
      }
    }
  }

  lemma MarkStep(s: Sys, e: Event, key: string, expiresAt: nat)
    requires Enabled(s, e) && LeaseInv(s, key, expiresAt) && MarkInv(s, key, expiresAt)
    ensures MarkInv(Do(Lease, s, e), key, expiresAt)
  {
    hide LocalStep, LeaseFits;
    var s' := Do(Lease, s, e);
    if s'.now < expiresAt {
      if e.Move? && For(s, e.h, key) {
        MarkMoveKeeps(s, e.h, e.a, key, expiresAt);
      } else {
        if e.Move? {
          OtherKeyMove(Lease, s, e.h, e.a, key);
        }
        assert SomeoneSent(s', key) ==> SomeoneSent(s, key) by {
          if h :| For(s', h, key) && s'.handlers[h].sent {
            assert For(s, h, key) && s.handlers[h].sent;
          }
        }
      }
    }
  }

  lemma EffectsStep(d: Discipline, s: Sys, e: Event)
    requires Enabled(s, e) && EffectsFit(s)
    ensures EffectsFit(Do(d, s, e))
  {
    hide LocalStep;
    if e.Move? {
      SendsOnce(d, ViewOf(s, s.handlers[e.h]), e.h, s.handlers[e.h], e.a);
    }
  }

  lemma SendsOnce(d: Discipline, v: View, h: nat, l: Handler, a: Answer)
    requires !Stopped(l)
    ensures var n := LocalStep(d, v, h, l, a).next;
            && (l.sent ==> n.sent) && (n.acked && !l.acked ==> l.pc.Await?) && (n.pc.Await? ==> n.sent)
  {
    hide KeyStep, TokenStep, Valid, CanConsume, TryMarked, Coalesced, Cleared, WithReceipt, Fresh, Unless, Free;
  }

  lemma {:induction false} MarkHolds(states: seq<Sys>, events: seq<Event>, key: string, r: nat, i: nat)
    requires Run(Lease, states, events) && r <= i < |states| && PlannedAt(states, key, r)
    ensures MarkInv(states[i], key, states[r].rows[key].expiresAt)
  {
    hide Enabled, Do;
    if i == r {
    } else {
      MarkHolds(states, events, key, r, i - 1);
      LeaseHolds(states, events, key, r, i - 1);
      MarkStep(states[i - 1], events[i - 1], key, states[r].rows[key].expiresAt);
    }
  }

  lemma {:induction false} EffectsHold(d: Discipline, states: seq<Sys>, events: seq<Event>, i: nat)
    requires Run(d, states, events) && i < |states|
    ensures EffectsFit(states[i])
  {
    hide Enabled, Do;
    if i == 0 {
    } else {
      EffectsHold(d, states, events, i - 1);
      EffectsStep(d, states[i - 1], events[i - 1]);
    }
  }

  // ---- what the lease says about effects ----

  /** Of two writes under one key that took effect, one was answered with an upstream error and released the marker. */
  lemma TwoEffectsNeedARelease(states: seq<Sys>, events: seq<Event>, key: string, r: nat, i: nat, h: nat, g: nat)
    requires Run(Lease, states, events) && r <= i < |states| && PlannedAt(states, key, r)
    requires states[i].now < states[r].rows[key].expiresAt
    requires For(states[i], h, key) && For(states[i], g, key) && h != g && {h, g} <= states[i].effected
    ensures Released(states[i].handlers[h]) || Released(states[i].handlers[g])
  {
    assert h in states[i].effected && g in states[i].effected;
    EffectsHold(Lease, states, events, i);
    LeaseHolds(states, events, key, r, i);
  }

  /** Once somebody has sent, the marker can be taken again exactly when every sender has released it, nobody else
      holds it and no receipt is stored. */
  lemma FreeExactlyWhenReleased(states: seq<Sys>, events: seq<Event>, key: string, r: nat, i: nat)
    requires Run(Lease, states, events) && r <= i < |states| && PlannedAt(states, key, r)
    requires states[i].now < states[r].rows[key].expiresAt && SomeoneSent(states[i], key)
    ensures key in states[i].rows
    ensures Free(Some(states[i].rows[key])) <==> states[i].rows[key].receipt.None? && Unowned(states[i], key)
    ensures Unowned(states[i], key) ==>
              forall h :: For(states[i], h, key) && states[i].handlers[h].sent ==> Released(states[i].handlers[h])
  {
    LeaseHolds(states, events, key, r, i);
    MarkHolds(states, events, key, r, i);
  }

  /** A handler about to look its key up, with a usable token, and six good answers. */
  ghost predicate Prepared(w: World, c: Cell) {
    && w.d == Lease && c.l.pc.Lookup? && !c.l.sent
    && c.row.Some? && w.now < c.row.value.expiresAt && c.row.value.opHash == c.l.req.binding.opHash
    && Valid(c.token, c.l.req.binding, w.now) && !c.token.value.consumed
    && forall k :: 0 <= k < 6 ==> w.answers(k).ok && w.answers(k).store.Committed?
  }

  lemma UndisturbedAttempt(w: World, c0: Cell)
    requires Prepared(w, c0)
    ensures Alone(w, c0, 6).l.sent <==> Free(c0.row)
  {
    assert Alone(w, c0, 0) == c0;
    NextCell(w, c0, 0);
    NextCell(w, c0, 1);
    hide Alone;
    if Free(c0.row) {
      assert Alone(w, c0, 1).l.pc == CheckSelect && Alone(w, c0, 1).row == c0.row && Alone(w, c0, 1).token == c0.token;
      assert Alone(w, c0, 2).l.pc == Review && Alone(w, c0, 2).row == c0.row && Alone(w, c0, 2).token == c0.token;
      UndisturbedSend(w, c0);
    } else {
      assert Stopped(Alone(w, c0, 1).l) || Alone(w, c0, 1).l.pc.ReplayCheck?;
      var c := Alone(w, c0, 2);
      assert Stopped(c.l) && !c.l.sent;
      NextCell(w, c0, 2);
      NextCell(w, c0, 3);
      NextCell(w, c0, 4);
      NextCell(w, c0, 5);
    }
  }

  lemma UndisturbedSend(w: World, c0: Cell)
    requires Prepared(w, c0) && Free(c0.row)
    requires var c := Alone(w, c0, 2);
             c.l == c0.l.(pc := Review, looked := c.l.looked) && c.row == c0.row && c.token == c0.token
    ensures Alone(w, c0, 6).l.sent
  {
    hide Alone;
    NextCell(w, c0, 2);
    NextCell(w, c0, 3);
    var c := Alone(w, c0, 4);
    assert c.l == c0.l.(pc := MarkStarted, looked := c.l.looked) && c.row == c0.row;
    NextCell(w, c0, 4);
    assert Alone(w, c0, 5).l.pc == Send;
    NextCell(w, c0, 5);
  }

  /** After a send, a fresh attempt that nothing disturbs leads to a second write with effect exactly when the marker
      was released by every sender, is held by nobody, and no receipt is stored. */
  lemma SecondEffectExactly(states: seq<Sys>, events: seq<Event>, key: string, r: nat, h: nat, g: nat,
                            answers: nat -> Answer)
    returns (states': seq<Sys>, events': seq<Event>)
    requires Run(Lease, states, events) && PlannedAt(states, key, r) && Last(states).step > 0
    requires Last(states).now < states[r].rows[key].expiresAt
    requires For(Last(states), h, key) && Last(states).handlers[h].sent && For(Last(states), g, key) && g != h
    requires var s := Last(states); Prepared(World(Lease, s.now, s.step - 1, g, answers), CellOf(s, g))
    ensures Run(Lease, states', events') && Continues(states, states')
    ensures key in Last(states).rows
    ensures {h, g} <= Last(states').effected <==>
              Last(states).rows[key].receipt.None? && Unowned(Last(states), key)
  {
    hide Enabled, Do, Prepared, Alone, LeaseInv, MarkInv, Free;
    var s := Last(states);
    UndisturbedAttempt(World(Lease, s.now, s.step - 1, g, answers), CellOf(s, g));
    FreeExactlyWhenReleased(states, events, key, r, |states| - 1);
    var s6, e6 := LoneRunIsARun(Lease, states, events, g, answers, 6);
    EffectsHold(Lease, s6, e6, |s6| - 1);
    if Last(s6).handlers[g].sent {
      var s7, e7 := TakesEffect(Lease, s6, e6, h);
      ContinuesOn(states, s6, s7);
      states', events' := TakesEffect(Lease, s7, e7, g);
      ContinuesOn(states, s7, states');
    } else {
      states', events' := s6, e6;
      assert g !in Last(s6).effected;
    }
  }

  // ---- a run with two writes in effect under one key ----

  lemma ClearSteps(s: Sys, h: nat)
    requires h in s.handlers && s.handlers[h].pc.ClearStarted? && s.handlers[h].req.key in s.rows
    requires s.rows[s.handlers[h].req.key].receipt.None?
    ensures var l := s.handlers[h]; var row := s.rows[l.req.key];
            && Enabled(s, Move(h, Well(UpstreamError)))
            && Do(Lease, s, Move(h, Well(UpstreamError))) == s.(
                 step := s.step + 1, rows := s.rows[l.req.key := row.(started := None)],
                 handlers := s.handlers[h := l.(owner := false, pc := Done(UpstreamFailed))])
  {
    hide KeyStep, TokenStep;
  }

  /** The first PATCH is answered with an upstream error and lands all the same; the retry sends the second. */
  lemma ReleasedRetryHasASecondEffect() returns (states: seq<Sys>, events: seq<Event>)
    ensures Run(Lease, states, events) && PlannedAt(states, "key", 0)
    ensures Last(states).now < states[0].rows["key"].expiresAt
    ensures For(Last(states), 1, "key") && For(Last(states), 2, "key") && {1, 2} <= Last(states).effected
  {
    hide Run, Enabled, Do;
    PlannedRun(Lease);
    states, events := Arrives(Lease, [PLANNED], [], 1);
    states, events := LookAndReview(Lease, states, events, 1, true);
    states, events := MarkAndSend(Lease, states, events, 1);
    ErrorSteps(Lease, Last(states), 1);
    states, events := Extend(Lease, states, events, Move(1, Well(UpstreamError)));
    ClearSteps(Last(states), 1);
    states, events := Extend(Lease, states, events, Move(1, Well(UpstreamError)));
    states, events := Arrives(Lease, states, events, 2);
    states, events := LookAndReview(Lease, states, events, 2, true);
    states, events := MarkAndSend(Lease, states, events, 2);
    states, events := TakesEffect(Lease, states, events, 1);
    states, events := TakesEffect(Lease, states, events, 2);
  }
}

/** The kept marker: what later attempts are told, what one attempt after the other can do, and what overlap can do. */
module SingleSequence {
  import opened Wrappers
  import opened SingleApply
  import opened SingleSafety
  import opened SingleRuns
  import opened SingleAdmission

  // ---- what a later attempt is told ----

  /** On a marked, unexpired key a lookup that succeeds ends in a replay, a conflict or a pending answer; one that fails
      is taken for an absent row. */
  lemma MarkedKeyAnswers(states: seq<Sys>, events: seq<Event>, key: string, r: nat, i: nat, h: nat, g: nat, a: Answer)
    requires Run(Kept, states, events) && r <= i < |states| && PlannedAt(states, key, r)
    requires states[i].now < states[r].rows[key].expiresAt
    requires For(states[i], h, key) && states[i].handlers[h].marked.Some?
    requires For(states[i], g, key) && states[i].handlers[g].pc.Lookup?
    ensures Enabled(states[i], Move(g, a)) && key in states[i].rows
    ensures var pc := Do(Kept, states[i], Move(g, a)).handlers[g].pc; var row := states[i].rows[key];
            && (pc == CheckSelect <==> !a.ok)
            && (a.ok ==> pc == if row.opHash != states[i].handlers[g].req.binding.opHash then Done(Conflict)
                               else if row.receipt.Some? then ReplayCheck(row.receipt.value) else Done(Pending))
  {
    KeptHolds(states, events, key, r, i);
  }

  // ---- one attempt after the other ----

  predicate LooksUp(s: Sys, e: Event, key: string) {
    e.Move? && e.h in s.handlers && s.handlers[e.h].req.key == key && s.handlers[e.h].pc.Lookup?
  }

  /** No lookup of the key fails. */
  ghost predicate LookupsSucceed(states: seq<Sys>, events: seq<Event>, key: string) {
    forall i :: 0 <= i < |events| && i < |states| && LooksUp(states[i], events[i], key) ==> events[i].a.ok
  }

  /** Past its lookup a handler has seen the row unmarked, or has nothing more to do. */
  ghost predicate HasLooked(l: Handler) {
    l.looked.Some? || (!l.sent && (l.pc.Lookup? || l.pc.ReplayCheck? || Stopped(l)))
  }

  lemma LookingMove(v: View, h: nat, l: Handler, a: Answer)
    requires HasLooked(l) && !Stopped(l) && v.row.Some? && v.now < v.row.value.expiresAt && (l.pc.Lookup? ==> a.ok)
    ensures HasLooked(LocalStep(Kept, v, h, l, a).next)
  {
    hide Valid, CanConsume, Unless, Coalesced, TryMarked, Cleared, WithReceipt, Fresh;
  }

  lemma LookingStep(s: Sys, e: Event, key: string, g: nat)
    requires Enabled(s, e) && For(Do(Kept, s, e), g, key) && (For(s, g, key) ==> HasLooked(s.handlers[g]))
    requires key in s.rows && s.now < s.rows[key].expiresAt
    requires LooksUp(s, e, key) ==> e.a.ok
    ensures HasLooked(Do(Kept, s, e).handlers[g])
  {
    hide LocalStep;
    if e.Move? && e.h == g {
      LookingMove(ViewOf(s, s.handlers[g]), g, s.handlers[g], e.a);
    }
  }

  lemma {:induction false} LookingHolds(states: seq<Sys>, events: seq<Event>, key: string, r: nat, i: nat, g: nat)
    requires Run(Kept, states, events) && r <= i < |states| && PlannedAt(states, key, r)
    requires states[i].now < states[r].rows[key].expiresAt && LookupsSucceed(states, events, key)
              && For(states[i], g, key)
    ensures HasLooked(states[i].handlers[g])
  {
    hide Enabled, Do, KeptFits, HasLooked, Dated, LookedBefore;
    if i == r {
      assert false;
    } else {
      ClockAdvances(Kept, states, events, i - 1, i);
      KeptHolds(states, events, key, r, i - 1);
      if For(states[i - 1], g, key) {
        LookingHolds(states, events, key, r, i - 1, g);
      }
      LookingStep(states[i - 1], events[i - 1], key, g);
    }
  }

  lemma StepKeepsStopped(d: Discipline, s: Sys, e: Event, h: nat)
    requires Enabled(s, e) && h in s.handlers && Stopped(s.handlers[h])
    ensures h in Do(d, s, e).handlers && Do(d, s, e).handlers[h] == s.handlers[h]
  {
    hide LocalStep;
  }

  lemma {:induction false} StoppedStays(d: Discipline, states: seq<Sys>, events: seq<Event>, i: nat, j: nat, h: nat)
    requires Run(d, states, events) && i <= j < |states|
    requires h in states[i].handlers && Stopped(states[i].handlers[h])
    ensures h in states[j].handlers && states[j].handlers[h] == states[i].handlers[h]
  {
    hide Enabled, Do;
    if i == j {
    } else {
      StoppedStays(d, states, events, i, j - 1, h);
      StepKeepsStopped(d, states[j - 1], events[j - 1], h);
    }
  }

  /** Of two attempts of which one had ended before the other arrived, at most one writes. */
  lemma SequentialAttemptsWriteOnce(states: seq<Sys>, events: seq<Event>, key: string, r: nat, i: nat, j: nat,
                                    h: nat, g: nat)
    requires Run(Kept, states, events) && r <= i <= j < |states| && PlannedAt(states, key, r)
    requires states[j].now < states[r].rows[key].expiresAt && LookupsSucceed(states, events, key)
    requires For(states[i], h, key) && Stopped(states[i].handlers[h])
    requires g !in states[i].handlers && For(states[j], g, key)
    ensures For(states[j], h, key) && !(states[j].handlers[h].sent && states[j].handlers[g].sent)
  {
    StoppedStays(Kept, states, events, i, j, h);
    if states[j].handlers[h].sent && states[j].handlers[g].sent {
      LaterAttemptDoesNotWrite(states, events, key, r, i, j, h, g);
      LookingHolds(states, events, key, r, j, g);
      assert false;
    }
  }

  // ---- the gate in front of the write ----

  /** What a handler sees at one of its moves, and what the outside decides there. */
  datatype Meeting = Meeting(view: View, answer: Answer)

  function Next(d: Discipline, h: nat, l: Handler, m: Meeting): Handler {
    if Stopped(l) then l else LocalStep(d, m.view, h, l, m.answer).next
  }

  /** A handler after five moves of its own, whatever others do in between. */
  function AfterFive(d: Discipline, h: nat, l: Handler, ms: seq<Meeting>): Handler
    requires |ms| == 5
  {
    Next(d, h, Next(d, h, Next(d, h, Next(d, h, Next(d, h, l, ms[0]), ms[1]), ms[2]), ms[3]), ms[4])
  }

  ghost predicate LiveFor(m: Meeting, l: Handler) {
    InUse(m.view.row, m.view.now) && m.view.row.value.opHash == l.req.binding.opHash
  }

  ghost predicate FindsToken(m: Meeting, l: Handler) {
    m.answer.ok && Unspent(m.view.token, l.req, m.view.now)
  }

  /** A single Incident's marker goes to a row that is still without mark and receipt; the others' always. */
  ghost predicate Marks(d: Discipline, m: Meeting) {
    m.answer.store.Committed? && (d.Lease? ==> Unmarked(m.view.row))
  }

  /** A handler comes to write iff its lookup failed or found the key without mark and receipt, its second look found no
      receipt, and its own checks and statements pass. Only a single Incident is kept out by a mark set after that. */
  lemma SendGate(d: Discipline, h: nat, l: Handler, ms: seq<Meeting>)
    requires !d.ConsumeFirst? && l.pc.Lookup? && |ms| == 5 && LiveFor(ms[0], l) && LiveFor(ms[1], l)
    ensures AfterFive(d, h, l, ms).pc == Send <==>
              && (ms[0].answer.ok ==> ms[0].view.row.value.started.None? && ms[0].view.row.value.receipt.None?)
              && ms[1].answer.ok && ms[1].view.row.value.receipt.None?
              && ms[2].answer.ok && FindsToken(ms[3], l) && Marks(d, ms[4])
  {
    var l1 := Next(d, h, l, ms[0]);
    var l2 := Next(d, h, l1, ms[1]);
    LookupGate(d, h, l, ms[0]);
    SelectGate(d, h, l1, ms[1]);
    LateGates(d, h, l2, ms[2], ms[3], ms[4]);
  }

  lemma LookupGate(d: Discipline, h: nat, l: Handler, m: Meeting)
    requires l.pc.Lookup? && LiveFor(m, l)
    ensures var n := Next(d, h, l, m);
            && n.req == l.req && (n.pc == CheckSelect || n.pc.ReplayCheck? || Stopped(n))
            && (n.pc == CheckSelect <==>
                  (m.answer.ok ==> m.view.row.value.started.None? && m.view.row.value.receipt.None?))
  {
    LookupAnswers(d, m.view, h, l, m.answer);
    hide LocalStep;
  }

  lemma SelectGate(d: Discipline, h: nat, l: Handler, m: Meeting)
    requires !d.ConsumeFirst? && LiveFor(m, l) && (l.pc == CheckSelect || l.pc.ReplayCheck? || Stopped(l))
    ensures var n := Next(d, h, l, m);
            && n.req == l.req && (n.pc == Review || n.pc.ReplayCheck? || Stopped(n))
            && (n.pc == Review <==> l.pc == CheckSelect && m.answer.ok && m.view.row.value.receipt.None?)
  {
    if l.pc == CheckSelect {
      RecordAnswers(d, m.view, h, l, m.answer);
    } else if l.pc.ReplayCheck? {
      ReplayAnswers(d, m.view, h, l, m.answer);
    }
    hide LocalStep, TokenStands;
  }

  lemma LateGates(d: Discipline, h: nat, l: Handler, m2: Meeting, m3: Meeting, m4: Meeting)
    requires !d.ConsumeFirst? && (l.pc == Review || l.pc.ReplayCheck? || Stopped(l))
    ensures Next(d, h, Next(d, h, Next(d, h, l, m2), m3), m4).pc == Send <==>
              l.pc == Review && m2.answer.ok && FindsToken(m3, l) && Marks(d, m4)
  {
    var l3 := Next(d, h, l, m2);
    assert l3.req == l.req && (l3.pc == LookupToken <==> l.pc == Review && m2.answer.ok);
    assert l3.pc == LookupToken || Stopped(l3);
    hide LocalStep, TokenStands;
    var l4 := Next(d, h, l3, m3);
    if l3.pc == LookupToken {
      TokenAnswers(d, m3.view, h, l3, m3.answer);
    }
    if l4.pc == MarkStarted {
      MarkAnswers(d, m4.view, h, l4, m4.answer);
    } else if l4.pc == SpentLookup {
      SpentAnswers(d, m4.view, h, l4, m4.answer);
    }
  }

  // ---- two runs with two writes ----

  /** Two overlapping attempts: both look the key up and review the plan, where the code waits for a read; then each in
      one go takes its token, marks and writes. Both writes take effect. */
  lemma OverlappingAttemptsBothWrite() returns (states: seq<Sys>, events: seq<Event>)
    ensures Run(Kept, states, events) && PlannedAt(states, "key", 0)
    ensures Last(states).now < states[0].rows["key"].expiresAt
    ensures var s := Last(states);
            && For(s, 1, "key") && s.handlers[1].sent && For(s, 2, "key") && s.handlers[2].sent
            && s.handlers[1].looked.Some? && s.handlers[2].looked.Some? && {1, 2} <= s.effected
  {
    hide Run, Enabled, Do;
    PlannedRun(Kept);
    states, events := Arrives(Kept, [PLANNED], [], 1);
    states, events := Arrives(Kept, states, events, 2);
    states, events := LookAndReview(Kept, states, events, 1, true);
    states, events := LookAndReview(Kept, states, events, 2, true);
    states, events := MarkAndSend(Kept, states, events, 1);
    states, events := MarkAndSend(Kept, states, events, 2);
    states, events := TakesEffect(Kept, states, events, 1);
    states, events := TakesEffect(Kept, states, events, 2);
  }

  /** One attempt after the other: the first loses its response, the second cannot read the row, and both write. */
  lemma FailedLookupWritesAgain() returns (states: seq<Sys>, events: seq<Event>, i: nat)
    ensures Run(Kept, states, events) && PlannedAt(states, "key", 0)
    ensures Last(states).now < states[0].rows["key"].expiresAt
    ensures i < |states| && For(states[i], 1, "key") && Stopped(states[i].handlers[1]) && 2 !in states[i].handlers
    ensures var s := Last(states);
            && For(s, 1, "key") && s.handlers[1].sent && For(s, 2, "key") && s.handlers[2].sent && {1, 2} <= s.effected
  {
    hide Run, Enabled, Do;
    PlannedRun(Kept);
    states, events := Arrives(Kept, [PLANNED], [], 1);
    states, events := LookAndReview(Kept, states, events, 1, true);
    states, events := MarkAndSend(Kept, states, events, 1);
    ErrorSteps(Kept, Last(states), 1);
    states, events := Extend(Kept, states, events, Move(1, Well(UpstreamError)));
    i := |states| - 1;
    states, events := Arrives(Kept, states, events, 2);
    states, events := LookAndReview(Kept, states, events, 2, false);
    states, events := MarkAndSend(Kept, states, events, 2);
    states, events := TakesEffect(Kept, states, events, 1);
    states, events := TakesEffect(Kept, states, events, 2);
  }
}

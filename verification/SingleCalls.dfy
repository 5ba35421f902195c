/** The imperative single-write calls in the middle of any run: what the machine guarantees of their writes. */
module SingleCalls {
  import opened Wrappers
  import opened SingleApply
  import opened SingleSafety
  import opened SingleLone
  import opened SingleHandlers
  import opened SingleRefinement
  import opened SingleRuns
  import opened SingleAdmission

  /** An answer that upstream has the write goes with an acknowledgement. */
  ghost predicate AnswerFits(l: Handler) {
    && (Settling(l.pc) ==> l.acked)
    && (l.pc.Done? && (l.pc.response.Succeeded? || l.pc.response.CoherenceFailed?) ==> l.acked)
  }

  lemma AnswerMove(v: View, h: nat, l: Handler, a: Answer)
    requires AnswerFits(l) && !Stopped(l)
    ensures AnswerFits(LocalStep(Lease, v, h, l, a).next)
  {
    hide Valid, CanConsume, TryMarked, Coalesced, Cleared, WithReceipt, Fresh, Unless, Free;
  }

  lemma AnswerStep(s: Sys, e: Event, h: nat)
    requires Enabled(s, e) && h in Do(Lease, s, e).handlers && (h in s.handlers ==> AnswerFits(s.handlers[h]))
    ensures AnswerFits(Do(Lease, s, e).handlers[h])
  {
    hide LocalStep;
    if e.Move? && e.h == h {
      AnswerMove(ViewOf(s, s.handlers[h]), h, s.handlers[h], e.a);
    }
  }

  lemma {:induction false} AnswersHold(states: seq<Sys>, events: seq<Event>, i: nat, h: nat)
    requires Run(Lease, states, events) && i < |states| && h in states[i].handlers
    ensures AnswerFits(states[i].handlers[h])
  {
    hide Enabled, Do, AnswerFits;
    if i == 0 {
      assert false;
    } else {
      if h in states[i - 1].handlers {
        AnswersHold(states, events, i - 1, h);
      }
      AnswerStep(states[i - 1], events[i - 1], h);
    }
  }

  /** A call that has just arrived, with the objects holding what the machine's state holds. */
  ghost predicate JustArrived(s: Sys, w: World, req: Request, rows: Rows, tokens: map<string, Confirmation>) {
    && s.step > 0 && w == World(w.d, s.now, s.step - 1, w.h, w.answers)
    && w.h in s.handlers && s.handlers[w.h] == NewHandler(w.d, req, w.step)
    && rows == s.rows && tokens == s.tokens
  }

  /** The end of a run in which handler `h` has answered, with the rows and the number of writes the call leaves. */
  ghost predicate Ended(s: Sys, h: nat, response: Response, rows: Rows, writes: nat, more: nat) {
    && h in s.handlers && s.handlers[h].pc == Done(response) && rows == s.rows
    && more == writes + if s.handlers[h].sent then 1 else 0
  }

  ghost predicate OnlyAcknowledged(s: Sys, key: string, h: nat) {
    forall g :: For(s, g, key) && s.handlers[g].acked ==> g == h
  }

  ghost predicate OnlySubmit(s: Sys, token: string, h: nat) {
    forall g :: g in s.handlers && s.handlers[g].sent && s.handlers[g].req.token == token ==> g == h
  }

  /** A single-Incident call made at any point of a run in which its key has been planned: it writes at most once, and
      while the row is unexpired nobody else's write under the key is acknowledged once this one's is. */
  method ApplyInLeaseRun(daemon: Daemon, w: World, req: Request, ghost states: seq<Sys>, ghost events: seq<Event>,
                         ghost r: nat)
    returns (response: Response, ghost states': seq<Sys>, ghost events': seq<Event>)
    requires Run(Lease, states, events) && PlannedAt(states, req.key, r) && w.d == Lease
    requires JustArrived(Last(states), w, req, daemon.store.rows, daemon.confirmations.tokens)
    modifies daemon.store, daemon.confirmations, daemon.client
    ensures Run(Lease, states', events') && Continues(states, states')
    ensures Ended(Last(states'), w.h, response, daemon.store.rows, old(daemon.client.writes), daemon.client.writes)
    ensures response.Succeeded? || response.CoherenceFailed? ==> Last(states').handlers[w.h].acked
    ensures Last(states').now < states[r].rows[req.key].expiresAt && Last(states').handlers[w.h].acked ==>
              OnlyAcknowledged(Last(states'), req.key, w.h)
  {
    hide Run, Alone, Enabled;
    var k;
    response, k := daemon.HandleApply(w, req);
    states', events' := LoneRunIsARun(Lease, states, events, w.h, w.answers, k);
    AnswersHold(states', events', |states'| - 1, w.h);
    ghost var s := Last(states');
    if s.now < states[r].rows[req.key].expiresAt && s.handlers[w.h].acked {
      forall g | For(s, g, req.key) && s.handlers[g].acked ensures g == w.h {
        OneAcknowledgedPatch(states', events', req.key, r, |states'| - 1, g, w.h);
      }
    }
  }

  /** A catalog call made at any point of a run: its submit, if any, is the only one its token ever leads to. */
  method SubmitInRun(daemon: Daemon, w: World, req: Request, ghost states: seq<Sys>, ghost events: seq<Event>)
    returns (response: Response, ghost states': seq<Sys>, ghost events': seq<Event>)
    requires Run(ConsumeFirst, states, events) && w.d == ConsumeFirst
    requires JustArrived(Last(states), w, req, daemon.store.rows, daemon.confirmations.tokens)
    modifies daemon.store, daemon.confirmations, daemon.client
    ensures Run(ConsumeFirst, states', events') && Continues(states, states')
    ensures Ended(Last(states'), w.h, response, daemon.store.rows, old(daemon.client.writes), daemon.client.writes)
    ensures daemon.client.writes > old(daemon.client.writes) ==> OnlySubmit(Last(states'), req.token, w.h)
  {
    assert states != [];
    hide Run, Alone, Enabled;
    var k;
    response, k := daemon.HandleCatalogSubmit(w, req);
    states', events' := LoneRunIsARun(ConsumeFirst, states, events, w.h, w.answers, k);
    ghost var s := Last(states');
    if s.handlers[w.h].sent {
      forall g | g in s.handlers && s.handlers[g].sent && s.handlers[g].req.token == req.token ensures g == w.h {
        OneSubmitPerToken(states', events', |states'| - 1, g, w.h);
      }
    }
  }

  /** Two catalog submits with one key, one after the other: whatever their tokens and whatever goes wrong, they write
      at most once until the window of the first has passed. */
  method SubmitTwice(daemon: Daemon, w: World, first: Request, w': World, second: Request)
    returns (answer: Response, answer': Response)
    requires w.d == ConsumeFirst == w'.d && first.key == second.key
    modifies daemon.store, daemon.confirmations, daemon.client
    ensures w'.now < w.now + first.window ==> daemon.client.writes <= old(daemon.client.writes) + 1
    ensures old(daemon.client.writes) <= daemon.client.writes <= old(daemon.client.writes) + 2
  {
    hide Alone, TokenStands;
    var k: nat;
    answer, k := daemon.HandleCatalogSubmit(w, first);
    answer', k := daemon.HandleCatalogSubmit(w', second);
  }
}

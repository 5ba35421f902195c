/** What holds in every run of the bulk protocol: any interleaving, with crashes, store failures and row purges. */
module BulkTheorems {
  import opened Wrappers
  import opened BulkModel
  import opened BulkProtocol
  import opened BulkInvariant
  import opened BulkSafety
  import Ordering

  // ---- at most once ----

  /** At most one handler per idempotency key, and at most one per confirmation token, ever enters the PATCH loop. */
  lemma OneEntryPerKeyAndToken(states: seq<Sys>, events: seq<Event>, i: nat, h: nat, g: nat)
    requires Run(states, events) && i < |states|
    requires h in states[i].handlers && states[i].handlers[h].entered
    requires g in states[i].handlers && states[i].handlers[g].entered
    ensures states[i].handlers[h].req.key == states[i].handlers[g].req.key ==> h == g
    ensures states[i].handlers[h].req.token == states[i].handlers[g].req.token ==> h == g
  {
    ReachableInv(states, events, i);
  }

  /** No two PATCHes ever issued share a target and a key, nor a target and a token. */
  lemma AtMostOnePatchPerTarget(states: seq<Sys>, events: seq<Event>, i: nat, p: nat, q: nat)
    requires Run(states, events) && i < |states| && p < q < |states[i].issued|
    requires states[i].issued[p].sysId == states[i].issued[q].sysId
    ensures states[i].issued[p].key != states[i].issued[q].key
    ensures states[i].issued[p].token != states[i].issued[q].token
  {
    ReachableInv(states, events, i);
    DistinctEntries(states[i], p, q);
  }

  lemma OneHandlerOtherTarget(s: Sys, p: nat, q: nat)
    requires Inv(s) && p < q < |s.issued| && s.issued[p].h == s.issued[q].h
    ensures s.issued[p].sysId != s.issued[q].sysId
  {
    var e, f := s.issued[p], s.issued[q];
    assert EntryFits(e, s.handlers[e.h]) && EntryFits(f, s.handlers[f.h]) && HandlerFits(s.handlers[e.h]);
    var ts := s.handlers[e.h].plan.targets;
    Ordering.AscendingIsDistinct(ts, SysIdOf);
    assert SysIdOf(ts[e.index]) != SysIdOf(ts[f.index]);
  }

  lemma DistinctEntries(s: Sys, p: nat, q: nat)
    requires Inv(s) && p < q < |s.issued|
    requires s.issued[p].sysId == s.issued[q].sysId
    ensures s.issued[p].key != s.issued[q].key && s.issued[p].token != s.issued[q].token
  {
    var e, f := s.issued[p], s.issued[q];
    assert EntryFits(e, s.handlers[e.h]) && EntryFits(f, s.handlers[f.h]);
    assert HandlerFits(s.handlers[e.h]) && HandlerFits(s.handlers[f.h]);
    if e.h == f.h {
      OneHandlerOtherTarget(s, p, q);
    }
  }

  // ---- durable progress ----

  /** How many PATCHes were issued under a key. */
  function PatchesFor(issued: seq<Sent>, key: string): nat {
    if issued == [] then 0
    else PatchesFor(issued[..|issued| - 1], key) + if issued[|issued| - 1].key == key then 1 else 0
  }

  /** Rising indices below a bound leave room for no more entries than the bound. */
  lemma {:induction false} RisingIndicesAreFew(issued: seq<Sent>, key: string, bound: nat)
    requires forall p, q :: 0 <= p < q < |issued| && issued[p].key == key == issued[q].key
              ==> issued[p].index < issued[q].index
    requires forall p :: 0 <= p < |issued| && issued[p].key == key ==> issued[p].index < bound
    ensures PatchesFor(issued, key) <= bound
  {
    if issued == [] {
    } else {
      var last := issued[|issued| - 1];
      RisingIndicesAreFew(issued[..|issued| - 1], key, if last.key == key then last.index else bound);
    }
  }

  /** While the row is there, durable progress with `a` applied targets means PATCHes went to targets 0..=a only. */
  lemma WriteAheadBound(states: seq<Sys>, events: seq<Event>, i: nat, key: string)
    requires Run(states, events) && i < |states| && key in states[i].rows
    ensures var progress := states[i].rows[key].progress; var issued := states[i].issued;
            if progress.None? then PatchesFor(issued, key) == 0
            else
              && PatchesFor(issued, key) <= progress.value.applied + 1
              && forall p :: 0 <= p < |issued| && issued[p].key == key ==> issued[p].index <= progress.value.applied
  {
    ReachableInv(states, events, i);
    var s := states[i];
    var progress := s.rows[key].progress;
    var bound := if progress.None? then 0 else progress.value.applied + 1;
    forall p | 0 <= p < |s.issued| && s.issued[p].key == key ensures s.issued[p].index < bound {
      EntryIsDurable(s, p);
    }
    forall p, q | 0 <= p < q < |s.issued| && s.issued[p].key == key == s.issued[q].key
      ensures s.issued[p].index < s.issued[q].index
    {
      SameKeySameHandler(s, p, q);
    }
    RisingIndicesAreFew(s.issued, key, bound);
  }

  lemma SameKeySameHandler(s: Sys, p: nat, q: nat)
    requires Inv(s) && p < q < |s.issued| && s.issued[p].key == s.issued[q].key
    ensures s.issued[p].h == s.issued[q].h && s.issued[p].index < s.issued[q].index
  {
    assert EntryFits(s.issued[p], s.handlers[s.issued[p].h]) && EntryFits(s.issued[q], s.handlers[s.issued[q].h]);
    assert HandlerFits(s.handlers[s.issued[p].h]) && HandlerFits(s.handlers[s.issued[q].h]);
  }

  lemma EntryIsDurable(s: Sys, p: nat)
    requires Inv(s) && p < |s.issued| && s.issued[p].key in s.rows
    ensures var progress := s.rows[s.issued[p].key].progress;
            progress.Some? && s.issued[p].index <= progress.value.applied
  {
    var e := s.issued[p];
    assert EntryFits(e, s.handlers[e.h]);
    assert HandlerFits(s.handlers[e.h]) && Owned(e.h, s.handlers[e.h], Get(s.rows, e.key));
    hide Shape;
  }

  // ---- truthful receipts ----

  /** The handler whose work a row records. */
  function Worker(row: Row): nat
    requires row.started.Some?
  {
    row.started.value.owner
  }

  lemma RecordedRow(s: Sys, key: string)
    requires Inv(s) && key in s.rows
    requires s.rows[key].progress.Some? || s.rows[key].receipt.Some? || s.rows[key].terminal.Some?
    ensures s.rows[key].started.Some?
    ensures var h := Worker(s.rows[key]);
            && h in s.handlers && s.handlers[h].entered && s.handlers[h].req.key == key
            && HandlerFits(s.handlers[h]) && RowFits(s.rows[key], s.handlers[h])
  {
    var h := Worker(s.rows[key]);
    assert HandlerFits(s.handlers[h]) && Owned(h, s.handlers[h], Get(s.rows, key));
    hide Shape, PcFits;
  }

  /** Durable progress is Applied^a Failed^{0,1} NotAttempted^*, and every target it calls applied was acknowledged. */
  lemma ProgressIsTruthful(states: seq<Sys>, events: seq<Event>, i: nat, key: string)
    requires Run(states, events) && i < |states| && key in states[i].rows && states[i].rows[key].progress.Some?
    ensures var s := states[i]; var r := s.rows[key].progress.value;
            && s.rows[key].started.Some?
            && var h := Worker(s.rows[key]);
            && h in s.handlers && Shape(r, s.handlers[h].plan, r.applied, r.failed)
            && r.applied + r.failed + r.notAttempted == |s.handlers[h].plan.targets| == |r.results|
            && forall k :: 0 <= k < |r.results| && r.results[k].status == Applied ==> (h, k) in s.acked
  {
    ReachableInv(states, events, i);
    RecordedRow(states[i], key);
  }

  /** A final receipt says Applied exactly of the acknowledged targets and NotAttempted only of unsent ones; of the one
      Failed target a PATCH was sent exactly if its own error is an upstream error. */
  lemma FinalReceiptIsTruthful(states: seq<Sys>, events: seq<Event>, i: nat, key: string, k: nat)
    requires Run(states, events) && i < |states| && key in states[i].rows && states[i].rows[key].receipt.Some?
    requires k < |states[i].rows[key].receipt.value.results|
    ensures var s := states[i]; var res := s.rows[key].receipt.value.results[k];
            && s.rows[key].started.Some?
            && var h := Worker(s.rows[key]);
            && h in s.handlers
            && (res.status == Applied <==> (h, k) in s.acked)
            && (res.status == NotAttempted ==> !Logged(s.issued, h, k))
            && (res.status == Failed ==>
                  && (Logged(s.issued, h, k) <==> res.error == Some(UpstreamError))
                  && (Logged(s.issued, h, k) <==> s.handlers[h].failure == Some(Failure(UpstreamError, false))))
  {
    ReachableInv(states, events, i);
    RecordedRow(states[i], key);
    var s := states[i];
    var h := Worker(s.rows[key]);
    var r := s.rows[key].receipt.value;
    assert IsFinal(s.handlers[h], r);
    assert r.results[k].status == StatusAt(k, r.applied, r.failed);
    LoggedIsSent(s, h, k);
  }

  lemma LoggedIsSent(s: Sys, h: nat, k: nat)
    requires Inv(s) && h in s.handlers
    ensures Logged(s.issued, h, k) <==> k < s.handlers[h].sent
  {
    if Logged(s.issued, h, k) {
      var p :| 0 <= p < |s.issued| && s.issued[p].h == h && s.issued[p].index == k;
      assert EntryFits(s.issued[p], s.handlers[h]);
    }
  }

  // ---- outcomes ----

  ghost predicate Acknowledged(s: Sys, h: nat) {
    exists k: nat :: (h, k) in s.acked
  }

  /** The three final answers, told apart by the failure and by what upstream acknowledged. */
  lemma OutcomeIsExact(states: seq<Sys>, events: seq<Event>, i: nat, h: nat)
    requires Run(states, events) && i < |states| && h in states[i].handlers && states[i].handlers[h].pc.Done?
    ensures var s := states[i]; var l := s.handlers[h]; var response := l.pc.response;
            response.TerminalFailure? || response.PartialFailure? || response.Succeeded? ==>
              && (response.TerminalFailure? <==> l.failure.Some? && !Acknowledged(s, h))
              && (response.PartialFailure? <==> l.failure.Some? && Acknowledged(s, h))
              && (response.Succeeded? <==> l.failure.None?)
              && (response.Succeeded? ==>
                    && response.receipt.status == Success && response.receipt.cacheCoherent
                    && forall k :: 0 <= k < |l.plan.targets| ==> (h, k) in s.acked)
              && (response.PartialFailure? ==>
                    response.receipt.status == Partial && response.failure == l.failure.value)
  {
    ReachableInv(states, events, i);
    var s := states[i];
    assert HandlerFits(s.handlers[h]);
    assert Acknowledged(s, h) <==> s.handlers[h].acks > 0 by {
      if s.handlers[h].acks > 0 {
        assert (h, 0) in s.acked;
      }
    }
  }

  /** A lost local coherence is never reported as zero writes, wherever in the plan it happens. */
  lemma LostCoherenceIsPartial(states: seq<Sys>, events: seq<Event>, i: nat, h: nat)
    requires Run(states, events) && i < |states| && h in states[i].handlers
    requires states[i].handlers[h].failure.Some? && states[i].handlers[h].failure.value.code == LocalCoherenceFailed
    ensures states[i].handlers[h].pc.Done? ==>
      var response := states[i].handlers[h].pc.response;
      && !response.TerminalFailure? && !response.Succeeded?
      && (response.PartialFailure? ==>
            response.failure.upstreamApplied && response.receipt.applied >= 1 && !response.receipt.cacheCoherent)
  {
    ReachableInv(states, events, i);
    assert HandlerFits(states[i].handlers[h]);
  }

  /** A terminal error means no acknowledged write. It means no possible write at all exactly when the failure was not
      the upstream's: after an upstream error the first target's PATCH left and may still take effect. */
  lemma TerminalErrorBoundsEffects(states: seq<Sys>, events: seq<Event>, i: nat, h: nat, k: nat)
    requires Run(states, events) && i < |states| && h in states[i].handlers
    requires states[i].handlers[h].pc.Done? && states[i].handlers[h].pc.response.TerminalFailure?
    ensures (h, k) !in states[i].acked
    ensures states[i].handlers[h].failure.Some?
    ensures Enabled(states[i], UpstreamApplies(h, k)) <==>
            k == 0 && states[i].handlers[h].failure.value.code == UpstreamError
    ensures (h, k) in states[i].effected ==>
            k == 0 && states[i].handlers[h].failure.value.code == UpstreamError
    ensures states[i].handlers[h].pc.response.error.message != "UPSTREAM_ERROR" ==> (h, k) !in states[i].effected
  {
    ReachableInv(states, events, i);
    assert HandlerFits(states[i].handlers[h]);
  }

  /** Behind a terminal error the first PATCH was sent exactly if the failure was the upstream's, and no other was. */
  lemma TerminalErrorSentExactly(states: seq<Sys>, events: seq<Event>, i: nat, h: nat, k: nat)
    requires Run(states, events) && i < |states| && h in states[i].handlers
    requires states[i].handlers[h].pc.Done? && states[i].handlers[h].pc.response.TerminalFailure?
    ensures states[i].handlers[h].failure.Some?
    ensures Logged(states[i].issued, h, k) <==> k == 0 && states[i].handlers[h].failure.value.code == UpstreamError
  {
    ReachableInv(states, events, i);
    assert HandlerFits(states[i].handlers[h]);
    LoggedIsSent(states[i], h, k);
  }

  /** The read codes without a message of their own. */
  predicate Unlisted(code: ReadCode) {
    code in {LookupIncomplete, IncidentNotFound, NumberAmbiguous, LookupUnavailable, InvalidParams}
  }

  /** The codes reported as UPSTREAM_ERROR: the upstream's own, and every read failure without a message of its own. */
  lemma UpstreamMessageExactly(code: FailureCode)
    ensures TerminalError(code).message == "UPSTREAM_ERROR" <==>
              code == UpstreamError || code == LocalCoherenceFailed || (code.ReadFailed? && Unlisted(code.code))
  {
  }

  /** The number and message of every stored error. */
  lemma PublicErrorsExactly(code: FailureCode)
    ensures TerminalError(code) ==
              if code == ConcurrencyConflict then RpcError(-32053, "CONCURRENCY_CONFLICT")
              else if code == ReadFailed(AclDenied) then RpcError(-32003, "ACL_DENIED")
              else if code == ReadFailed(ServiceNowUnavailable) then RpcError(-32001, "SERVICENOW_UNAVAILABLE")
              else if code == ReadFailed(StateUnresolved) then RpcError(-32602, "INCIDENT_STATE_UNRESOLVED")
              else if code == ReadFailed(ServiceNowError) then RpcError(-32000, "SERVICENOW_ERROR")
              else RpcError(-32059, "UPSTREAM_ERROR")
  {
  }

  /** In a run, a terminal answer carries the number and message of the failure that stopped the call. */
  lemma TerminalAnswerNamesTheFailure(states: seq<Sys>, events: seq<Event>, i: nat, h: nat)
    requires Run(states, events) && i < |states| && h in states[i].handlers
    requires states[i].handlers[h].pc.Done? && states[i].handlers[h].pc.response.TerminalFailure?
    ensures states[i].handlers[h].failure.Some?
    ensures var error := states[i].handlers[h].pc.response.error; var code := states[i].handlers[h].failure.value.code;
            && (error == RpcError(-32053, "CONCURRENCY_CONFLICT") <==> code == ConcurrencyConflict)
            && (error == RpcError(-32003, "ACL_DENIED") <==> code == ReadFailed(AclDenied))
            && (error == RpcError(-32001, "SERVICENOW_UNAVAILABLE") <==> code == ReadFailed(ServiceNowUnavailable))
            && (error == RpcError(-32602, "INCIDENT_STATE_UNRESOLVED") <==> code == ReadFailed(StateUnresolved))
            && (error == RpcError(-32000, "SERVICENOW_ERROR") <==> code == ReadFailed(ServiceNowError))
            && (error == RpcError(-32059, "UPSTREAM_ERROR") <==>
                  code == UpstreamError || (code.ReadFailed? && Unlisted(code.code)))
  {
    hide Run, Inv;
    ReachableInv(states, events, i);
    TerminalAnswerFits(states[i], h);
    PublicErrorsExactly(states[i].handlers[h].failure.value.code);
  }

  lemma TerminalAnswerFits(s: Sys, h: nat)
    requires Inv(s) && h in s.handlers && s.handlers[h].pc.Done? && s.handlers[h].pc.response.TerminalFailure?
    ensures var l := s.handlers[h];
            && l.failure.Some? && l.pc.response.error == TerminalError(l.failure.value.code)
            && l.failure.value.code != LocalCoherenceFailed
  {
    assert HandlerFits(s.handlers[h]);
    hide Shape;
  }

  // ---- write-once outcomes and replay ----

  lemma StepKeepsUsedKeys(s: Sys, e: Event)
    requires Enabled(s, e)
    ensures s.usedKeys <= Do(s, e).usedKeys
  {
    hide LocalStep, ViewOf;
  }

  lemma {:induction false} UsedKeysGrow(states: seq<Sys>, events: seq<Event>, i: nat, j: nat)
    requires Run(states, events) && i <= j < |states|
    ensures states[i].usedKeys <= states[j].usedKeys
  {
    hide Enabled, Do;
    if i == j {
    } else {
      UsedKeysGrow(states, events, i, j - 1);
      StepKeepsUsedKeys(states[j - 1], events[j - 1]);
    }
  }

  lemma MoveKeepsOutcome(s: Sys, h: nat, a: Answer, key: string)
    requires Inv(s) && Enabled(s, Move(h, a)) && key in s.rows
    requires s.rows[key].receipt.Some? || s.rows[key].terminal.Some?
    ensures var s' := Moved(s, h, a);
            && key in s'.rows && s'.rows[key].receipt == s.rows[key].receipt
            && s'.rows[key].terminal == s.rows[key].terminal
  {
    hide LocalStep, Joint, Advances;
    MoveFacts(s, h, a);
  }

  lemma StepKeepsOutcome(s: Sys, e: Event, key: string)
    requires Inv(s) && Enabled(s, e) && key in s.rows && key in Do(s, e).rows
    requires s.rows[key].receipt.Some? || s.rows[key].terminal.Some?
    ensures Do(s, e).rows[key].receipt == s.rows[key].receipt
    ensures Do(s, e).rows[key].terminal == s.rows[key].terminal
  {
    hide Moved, HandlersFit, RowsFit, Exclusive, TokensFit, ReplaysFit, LogFits;
    RowIsUsed(s, key);
    if e.Move? {
      MoveKeepsOutcome(s, e.h, e.a, key);
    }
  }

  lemma RowIsUsed(s: Sys, key: string)
    requires Inv(s) && key in s.rows
    ensures key in s.usedKeys
  {
  }

  /** A row never holds both outcomes, and a recorded outcome stays as it is for as long as the row lives. */
  lemma {:induction false} OutcomeIsWriteOnce(states: seq<Sys>, events: seq<Event>, i: nat, j: nat, key: string)
    requires Run(states, events) && i <= j < |states|
    requires key in states[i].rows && key in states[j].rows
    requires states[i].rows[key].receipt.Some? || states[i].rows[key].terminal.Some?
    ensures states[j].rows[key].receipt == states[i].rows[key].receipt
    ensures states[j].rows[key].terminal == states[i].rows[key].terminal
    ensures states[j].rows[key].receipt.None? || states[j].rows[key].terminal.None?
  {
    hide Inv, Enabled, Do;
    ReachableInv(states, events, j);
    RecordedRowIsSingle(states[j], key);
    if i == j {
    } else {
      ReachableInv(states, events, i);
      RowIsUsed(states[i], key);
      ReachableInv(states, events, j - 1);
      UsedKeysGrow(states, events, i, j - 1);
      RowWasThere(states[j - 1], events[j - 1], key);
      OutcomeIsWriteOnce(states, events, i, j - 1, key);
      StepKeepsOutcome(states[j - 1], events[j - 1], key);
    }
  }

  lemma RecordedRowIsSingle(s: Sys, key: string)
    requires Inv(s) && key in s.rows
    ensures s.rows[key].receipt.None? || s.rows[key].terminal.None?
  {
    if s.rows[key].receipt.Some? {
      RecordedRow(s, key);
    }
  }

  /** A used key gets no second row. */
  lemma RowWasThere(s: Sys, e: Event, key: string)
    requires Enabled(s, e) && key in Do(s, e).rows && key in s.usedKeys
    ensures key in s.rows
  {
    hide LocalStep;
  }

  /** A replay sent nothing and answered with what the row still holds, marked as a replay and otherwise the same. */
  lemma ReplayIsFaithful(states: seq<Sys>, events: seq<Event>, i: nat, h: nat, k: nat)
    requires Run(states, events) && i < |states| && h in states[i].handlers && states[i].handlers[h].pc.Done?
    ensures var s := states[i]; var l := s.handlers[h]; var key := l.req.key;
            && (l.pc.response.ReplayedReceipt? ==>
                  && !Logged(s.issued, h, k)
                  && (key in s.rows ==>
                        s.rows[key].receipt.Some?
                        && l.pc.response.receipt == s.rows[key].receipt.value.(replay := true)))
            && (l.pc.response.ReplayedError? ==>
                  && !Logged(s.issued, h, k)
                  && (key in s.rows ==> s.rows[key].terminal == Some(l.pc.response.error)))
  {
    ReachableInv(states, events, i);
    assert HandlerFits(states[i].handlers[h]);
    assert ReplayFits(states[i].handlers[h], Get(states[i].rows, states[i].handlers[h].req.key));
    LoggedIsSent(states[i], h, k);
  }

  // ---- zero-write preflight, no blind write, termination ----

  /** Until it marks the key, a handler's moves change nothing but the handler. */
  lemma PreflightTouchesNothing(s: Sys, h: nat, a: Answer)
    requires Enabled(s, Move(h, a))
    requires var pc := s.handlers[h].pc;
             pc.LoadPlan? || pc.LookupKey? || pc.ReplayCheck? || pc.LookupToken? || pc.PreflightRead?
    ensures Moved(s, h, a) == s.(handlers := Moved(s, h, a).handlers)
    ensures forall g :: g in s.handlers && g != h ==> Moved(s, h, a).handlers[g] == s.handlers[g]
  {
    assert Put(s.rows, s.handlers[h].req.key, Get(s.rows, s.handlers[h].req.key)) == s.rows;
  }

  /** A denial, a refusal, an internal error or a replay proves zero writes and leaves no mark of this handler's. */
  lemma RefusalProvesZeroWrites(states: seq<Sys>, events: seq<Event>, i: nat, h: nat, k: nat, key: string)
    requires Run(states, events) && i < |states| && h in states[i].handlers && states[i].handlers[h].pc.Done?
    requires var r := states[i].handlers[h].pc.response;
             r.Denied? || r.Internal? || r.Refused? || r.ReplayedError? || r.ReplayedReceipt?
    ensures !Logged(states[i].issued, h, k) && (h, k) !in states[i].effected
    ensures key in states[i].rows && states[i].rows[key].started.Some? ==> Worker(states[i].rows[key]) != h
  {
    ReachableInv(states, events, i);
    assert HandlerFits(states[i].handlers[h]);
    LoggedIsSent(states[i], h, k);
  }

  ghost predicate Moves(events: seq<Event>, k: nat, h: nat) {
    k < |events| && events[k].Move? && events[k].h == h
  }

  /** Event `k` is this handler's read of target `i`, and it found the planned stamp. */
  ghost predicate MatchingRead(states: seq<Sys>, events: seq<Event>, k: nat, h: nat, i: nat, stamp: string) {
    && Moves(events, k, h) && k < |states| && h in states[k].handlers && states[k].handlers[h].pc == LoopRead(i)
    && events[k].a.read.ReadOk? && events[k].a.read.snapshot.stamp == stamp
  }

  /** Before each PATCH, the handler's last move was a read of that very target that found the planned stamp. */
  lemma {:induction false} NoBlindWrite(states: seq<Sys>, events: seq<Event>, j: nat, h: nat, i: nat) returns (k: nat)
    requires Run(states, events) && j < |states|
    requires h in states[j].handlers && states[j].handlers[h].pc == SendPatch(i)
    ensures i < |states[j].handlers[h].plan.targets|
    ensures k < j && MatchingRead(states, events, k, h, i, states[j].handlers[h].plan.targets[i].stamp)
    ensures forall m :: k < m < j ==> !Moves(events, m, h)
  {
    hide Enabled, Do;
    assert j > 0;
    SendComesFrom(states[j - 1], events[j - 1], h, i);
    if Moves(events, j - 1, h) {
      k := j - 1;
    } else {
      k := NoBlindWrite(states, events, j - 1, h, i);
    }
  }

  lemma SendComesFrom(s: Sys, e: Event, h: nat, i: nat)
    requires Enabled(s, e) && h in Do(s, e).handlers && Do(s, e).handlers[h].pc == SendPatch(i)
    ensures h in s.handlers
    ensures if e.Move? && e.h == h then
              && s.handlers[h].pc == LoopRead(i) && i < |Do(s, e).handlers[h].plan.targets|
              && e.a.read.ReadOk? && e.a.read.snapshot.stamp == Do(s, e).handlers[h].plan.targets[i].stamp
            else s.handlers[h] == Do(s, e).handlers[h]
  {
    if e.Move? && e.h == h {
      OnlyReadsLeadToSend(ViewOf(s, s.handlers[h]), h, s.handlers[h], e.a, i);
    }
    hide LocalStep;
  }

  lemma OnlyReadsLeadToSend(v: View, h: nat, l: Handler, a: Answer, i: nat)
    requires Ready(l) && !Stopped(l) && LocalStep(v, h, l, a).next.pc == SendPatch(i)
    ensures l.pc == LoopRead(i) && i < |l.plan.targets| && LocalStep(v, h, l, a).next.plan == l.plan
    ensures a.read.ReadOk? && a.read.snapshot.stamp == l.plan.targets[i].stamp
  {
    hide MarkedApplied, MarkedNotAttemptedAfter, MarkedFailedAndRemaining, Recounted;
  }

  /** A bound on the moves a handler has left. */
  function Rank(l: Handler): nat {
    var n := |l.plan.targets|;
    match l.pc
    case LoadPlan => 500
    case LookupKey => 450
    case LookupToken => 440
    case PreflightRead(i) => if i <= n <= MAX_TARGETS then 400 + n - i else 400
    case MarkStarted => 399
    case ConsumeSelect => 398
    case ConsumeUpdate => 397
    case SaveInitial => 300
    case LoopRead(i) => if i <= n then 20 + 6 * (n - i) else 20
    case SendPatch(i) => if i < n then 19 + 6 * (n - i) else 19
    case AwaitPatch(i) => if i < n then 18 + 6 * (n - i) else 18
    case PostRead(i) => if i < n then 17 + 6 * (n - i) else 17
    case Cohere(i, _) => if i < n then 16 + 6 * (n - i) else 16
    case SaveProgress(i) => if i < n then 15 + 6 * (n - i) else 15
    case SaveStop => 5
    case Conclude => 4
    case SaveTerminal(_) => 3
    case SaveReceipt => 3
    case ReplayCheck(_) => 2
    case ClearStarted(_) => 2
    case Done(_) => 0
    case Crashed => 0
  }

  lemma LoopLowersRank(v: View, l: Handler, a: Answer)
    requires HandlerFits(l) && InLoop(l.pc)
    ensures Ready(l) && Rank(LoopStep(v, l, a).next) < Rank(l)
  {
    hide MarkedApplied, MarkedNotAttemptedAfter, MarkedFailedAndRemaining, Recounted, ResultsFit, IsTerminal, IsFinal;
  }

  lemma PreflightLowersRank(v: View, l: Handler, a: Answer)
    requires HandlerFits(l) && (v.plan.Some? ==> WellFormed(v.plan.value))
    requires l.pc.LoadPlan? || l.pc.LookupKey? || l.pc.ReplayCheck? || l.pc.LookupToken? || l.pc.PreflightRead?
    ensures Rank(PreflightStep(v, l, a)) < Rank(l)
  {
    hide Running, Concluded, IsTerminal, IsFinal;
  }

  lemma MoveLowersRank(v: View, h: nat, l: Handler, a: Answer)
    requires HandlerFits(l) && !Stopped(l) && (v.plan.Some? ==> WellFormed(v.plan.value))
    ensures Ready(l) && Rank(LocalStep(v, h, l, a).next) < Rank(l)
  {
    hide LoopStep, PreflightStep, Running, Concluded, IsTerminal, IsFinal, Recounted, WithReceipt, WithTerminal;
    if InLoop(l.pc) {
      LoopLowersRank(v, l, a);
    } else if l.pc.LoadPlan? || l.pc.LookupKey? || l.pc.ReplayCheck? || l.pc.LookupToken? || l.pc.PreflightRead? {
      PreflightLowersRank(v, l, a);
    }
  }

  function MovesOf(events: seq<Event>, h: nat): nat {
    if events == [] then 0
    else MovesOf(events[..|events| - 1], h) + if events[|events| - 1].Move? && events[|events| - 1].h == h then 1 else 0
  }

  function RankIn(s: Sys, h: nat): nat {
    if h in s.handlers then Rank(s.handlers[h]) else 500
  }

  lemma RankEnds(s: Sys, e: Event, h: nat)
    requires Enabled(s, e)
    ensures h in s.handlers ==> Rank(s.handlers[h].(pc := Crashed)) == 0
    ensures e.Arrive? ==> Rank(NewHandler(e.req, e.cfg)) == 500
  {
  }

  lemma EventLowersRank(s: Sys, e: Event, h: nat)
    requires Inv(s) && Enabled(s, e)
    ensures RankIn(Do(s, e), h) + (if e.Move? && e.h == h then 1 else 0) <= RankIn(s, h)
  {
    hide LocalStep, HandlerFits, Owned, RowsFit, Exclusive, TokensFit, ReplaysFit, LogFits, Rank;
    RankEnds(s, e, h);
    if e.Move? && e.h == h {
      MoveLowersRank(ViewOf(s, s.handlers[h]), h, s.handlers[h], e.a);
    }
  }

  /** No handler waits or retries for ever: in any run, it makes at most 500 moves. */
  lemma {:induction false} HandlersStop(states: seq<Sys>, events: seq<Event>, i: nat, h: nat)
    requires Run(states, events) && i < |states|
    ensures MovesOf(events[..i], h) + RankIn(states[i], h) <= 500
  {
    hide Inv, Enabled, Do;
    if i == 0 {
    } else {
      HandlersStop(states, events, i - 1, h);
      ReachableInv(states, events, i - 1);
      assert events[..i][..i - 1] == events[..i - 1];
      EventLowersRank(states[i - 1], events[i - 1], h);
    }
  }
}

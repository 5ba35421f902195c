/** A call on a finished key answers with the stored outcome exactly when plan and token still allow it. */
module BulkReplay {
  import opened Wrappers
  import opened BulkModel
  import opened BulkProtocol
  import opened BulkLone
  import opened BulkAdmission

  /** The token is bound to this plan and caller, unexpired and unrevoked; it may have been consumed. */
  predicate Allows(token: Option<Confirmation>, p: Plan, cfg: Config, now: nat) {
    token.Some? && !token.value.revoked && now < token.value.expiresAt && BoundTo(token.value, p, cfg)
  }

  lemma AllowsOrRefuses(token: Option<Confirmation>, p: Plan, cfg: Config, now: nat) returns (e: ConfirmationError)
    ensures Allows(token, p, cfg, now) ==> forall other :: !ReplayRefusedAs(token, p, cfg, now, other)
    ensures !Allows(token, p, cfg, now) ==> ReplayRefusedAs(token, p, cfg, now, e)
  {
    e := if token.None? then NotFound else if token.value.revoked then Revoked
         else if token.value.expiresAt <= now then Expired else BindingMismatch;
  }

  /** On a finished row the third move answers: with the stored outcome iff the token can be read and is bound, and
      otherwise with a refusal; nothing was sent and neither row nor token changed. */
  lemma FinishedRowReplays(w: World, c0: Cell, req: Request, cfg: Config)
    requires c0.l == NewHandler(req, cfg) && KeyFound(w, c0, req, cfg) && Finished(c0.row.value)
    ensures var c := Alone(w, c0, 3); var replays := w.answers(2).ok && Allows(c0.token, w.plan.value, cfg, w.now);
            && c == Loaded(w, c0, c.l.pc) && c.l.sent == 0
            && c.l.pc.Done? && (c.l.pc.response.Refused? <==> !replays)
            && (replays ==> c.l.pc.response == StoredAnswer(c0.row.value))
  {
    hide Alone, PlanStands, ReplayRefusedAs, TokenStands, ReadsAs;
    ReplayMoves(w, c0, req, cfg);
    var token := if w.answers(2).ok then c0.token else None;
    var e := AllowsOrRefuses(token, w.plan.value, cfg, w.now);
    var pc := Alone(w, c0, 3).l.pc;
    assert pc == Done(Refused(e)) <==> ReplayRefusedAs(token, w.plan.value, cfg, w.now, e);
    if pc.response.Refused? {
      assert ReplayRefusedAs(token, w.plan.value, cfg, w.now, pc.response.refusal);
    }
  }

  /** The two outcomes spelled out; a terminal error is looked for first. */
  lemma StoredOutcomeIsReturned(w: World, c0: Cell, req: Request, cfg: Config)
    requires c0.l == NewHandler(req, cfg) && KeyFound(w, c0, req, cfg)
    requires w.answers(2).ok && Allows(c0.token, w.plan.value, cfg, w.now)
    ensures c0.row.value.terminal.Some? ==> Alone(w, c0, 3).l.pc == Done(ReplayedError(c0.row.value.terminal.value))
    ensures c0.row.value.terminal.None? && c0.row.value.receipt.Some? ==>
              Alone(w, c0, 3).l.pc == Done(ReplayedReceipt(c0.row.value.receipt.value.(replay := true)))
  {
    hide Alone, PlanStands;
    if Finished(c0.row.value) {
      FinishedRowReplays(w, c0, req, cfg);
    }
  }

  // ---- without an outcome there is no replay ----

  /** The handler has not seen an outcome, and while it still may look, there is none. */
  ghost predicate NothingToReplay(c: Cell) {
    && !c.l.pc.ReplayCheck? && (c.l.pc.Done? ==> !Replaying(c.l.pc.response))
    && (c.l.pc.LoadPlan? || c.l.pc.LookupKey? ==> c.row.Some? ==> !Finished(c.row.value))
  }

  lemma StepFindsNothing(w: World, c: Cell, a: Answer)
    requires NothingToReplay(c)
    ensures NothingToReplay(CellStep(w, c, a))
  {
    hide LoopStep, AcquireStep, ConcludeStep, ValidateRecord, ExpectedTokens, Ready;
    if Ready(c.l) && !Stopped(c.l) && !Preflighting(c.l.pc) {
      MoveGoesOn(ViewIn(w, c), w.h, c.l, a);
      hide LocalStep;
    }
  }

  /** A call that starts when its row, if any, holds no outcome never answers with a replay. */
  lemma {:induction false} NoOutcomeNoReplay(w: World, c0: Cell, k: nat)
    requires c0.l.pc == LoadPlan && (c0.row.Some? ==> !Finished(c0.row.value))
    ensures NothingToReplay(Alone(w, c0, k))
  {
    hide CellStep;
    if k == 0 {
    } else {
      NoOutcomeNoReplay(w, c0, k - 1);
      StepFindsNothing(w, Alone(w, c0, k - 1), w.answers(k - 1));
    }
  }
}

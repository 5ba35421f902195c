/** How a lone call takes its key and token, and how it reports: each ending with what it leaves in the store. */
module BulkEndings {
  import opened Wrappers
  import opened BulkModel
  import opened BulkProtocol
  import opened BulkLone
  import opened BulkAdmission

  // ---- taking the key and the token ----

  predicate Markable(row: Option<Row>) {
    row.Some? && Unused(row.value)
  }

  /** The row without its mark, unless it holds an outcome. */
  predicate Released(before: Row, after: Option<Row>) {
    after.Some? && (if Finished(before) then after.value == before else after.value == before.(started := None))
  }

  /** A mark that is not confirmed ends in a pending answer; it may be there all the same. */
  lemma UnmarkedEndsPending(w: World, c0: Cell, k: nat)
    requires var c := Alone(w, c0, k); c.l.pc == MarkStarted && (!Markable(c.row) || !w.answers(k).store.Committed?)
    ensures var c, c' := Alone(w, c0, k), Alone(w, c0, k + 1);
            && c'.l.pc == Done(Pending) && c'.token == c.token
            && c'.row == (if Markable(c.row) && w.answers(k).store.FailedAfterCommit?
                          then Some(c.row.value.(started := Some(Mark(w.now, w.h)))) else c.row)
            && (c'.l.owner <==> c'.row != c.row)
  {
    AcquireMoves(w, c0, k);
    hide Alone;
  }

  /** A marked key is given back when the token does not let itself be consumed: the call is then refused, or pending if
      that statement fails, in which case the mark may stay. */
  lemma ReleaseEnds(w: World, c0: Cell, k: nat, e: ConfirmationError)
    requires var c := Alone(w, c0, k); c.l.pc == ClearStarted(e) && c.row.Some?
    ensures var c, c' := Alone(w, c0, k), Alone(w, c0, k + 1); var a := w.answers(k).store;
            && c'.l.pc == Done(if a.Committed? then Refused(e) else Pending) && c'.token == c.token
            && (if a.FailedBeforeCommit? then c'.row == c.row else Released(c.row.value, c'.row))
  {
    AcquireMoves(w, c0, k);
    hide Alone;
  }

  lemma MarkingMove(w: World, c0: Cell, k: nat)
    requires var c := Alone(w, c0, k); c.l.pc == MarkStarted && Markable(c.row) && w.answers(k).store.Committed?
    ensures var c := Alone(w, c0, k);
            Alone(w, c0, k + 1) == Cell(Some(c.row.value.(started := Some(Mark(w.now, w.h)))), c.token,
                                        c.l.(owner := true, startedAt := w.now, pc := ConsumeSelect))
  {
    AcquireMoves(w, c0, k);
    hide Alone;
  }

  lemma SelectMove(w: World, c0: Cell, k: nat, e: ConfirmationError)
    requires Alone(w, c0, k).l.pc == ConsumeSelect
    ensures var c, c' := Alone(w, c0, k), Alone(w, c0, k + 1); var token := if w.answers(k).ok then c.token else None;
            && c' == c.(l := c.l.(pc := c'.l.pc))
            && (c'.l.pc == ConsumeUpdate <==> TokenStands(token, c.l.plan, c.l.cfg, w.now))
            && (c'.l.pc == ClearStarted(e) <==> ConsumeRefusedAs(token, c.l.plan, c.l.cfg, w.now, e))
            && (c'.l.pc == ConsumeUpdate || c'.l.pc.ClearStarted?)
  {
    hide Alone, AcquireStep, TokenStands, ConsumeRefusedAs;
    AcquireMoves(w, c0, k);
    ConsumeAnswers(ViewIn(w, Alone(w, c0, k)), w.h, Alone(w, c0, k).l, w.answers(k), e);
  }

  lemma UpdateMove(w: World, c0: Cell, k: nat)
    requires var c := Alone(w, c0, k); c.l.pc == ConsumeUpdate && TokenStands(c.token, c.l.plan, c.l.cfg, w.now)
    ensures var c, c' := Alone(w, c0, k), Alone(w, c0, k + 1); var a := w.answers(k).store;
            && c'.row == c.row && c'.token == Some(c.token.value.(consumed := !a.FailedBeforeCommit?))
            && c'.l.pc == (if a.Committed? then SaveInitial else ClearStarted(NotFound))
            && (c'.l.entered <==> a.Committed? || c.l.entered)
  {
    AcquireMoves(w, c0, k);
    hide Alone, InitialReceipt;
  }

  /** From the mark on, three more answers decide: the call enters the loop exactly if the token stands at its select
      and the update commits. An update that took effect without saying so spends the token and refuses the call. */
  lemma AcquiringIsExact(w: World, c0: Cell, k: nat, e: ConfirmationError)
    requires var c := Alone(w, c0, k); c.l.pc == MarkStarted && Markable(c.row) && w.answers(k).store.Committed?
    ensures var c, c2, c3 := Alone(w, c0, k), Alone(w, c0, k + 2), Alone(w, c0, k + 3);
            var marked := c.row.value.(started := Some(Mark(w.now, w.h)));
            var token := if w.answers(k + 1).ok then c.token else None;
            var u := w.answers(k + 2).store;
            if !TokenStands(token, c.l.plan, c.l.cfg, w.now) then
              && c2.row == Some(marked) && c2.token == c.token && c2.l.pc.ClearStarted?
              && (c2.l.pc == ClearStarted(e) <==> ConsumeRefusedAs(token, c.l.plan, c.l.cfg, w.now, e))
            else
              && c3.row == Some(marked)
              && c3.token == Some(c.token.value.(consumed := !u.FailedBeforeCommit?))
              && c3.l.pc == (if u.Committed? then SaveInitial else ClearStarted(NotFound))
              && (c3.l.entered <==> u.Committed? || c.l.entered)
  {
    hide Alone, BoundTo, ConsumeRefusedAs;
    MarkingMove(w, c0, k);
    SelectMove(w, c0, k + 1, e);
    assert k + 1 + 1 == k + 2;
    if Alone(w, c0, k + 2).l.pc == ConsumeUpdate {
      UpdateMove(w, c0, k + 2);
    }
  }

  // ---- reporting ----

  /** The receipt as it is reported: completed now, and partial behind a failure. */
  function Reported(r: Receipt, failure: Option<Failure>, now: nat): Receipt {
    var counted := Recounted(r.(completedAt := now));
    if failure.Some? then counted.(status := Partial) else counted
  }

  predicate AppliedNothing(l: Handler) {
    l.failure.Some? && Count(l.receipt.results, Applied) == 0
  }

  lemma ClassifyingMove(w: World, c0: Cell, k: nat)
    requires Alone(w, c0, k).l.pc == Conclude
    ensures var c, c' := Alone(w, c0, k), Alone(w, c0, k + 1); var l := c.l;
            && c' == c.(l := c'.l)
            && (!w.answers(k).ok ==> c'.l.pc == Done(Pending))
            && (w.answers(k).ok ==>
                  if AppliedNothing(l) then c'.l.pc == SaveTerminal(TerminalError(l.failure.value.code))
                  else c'.l == l.(receipt := Reported(l.receipt, l.failure, w.now), pc := SaveReceipt))
  {
    ConcludeMoves(w, c0, k);
    hide Alone, TerminalError, Count;
  }

  lemma StoringMove(w: World, c0: Cell, k: nat)
    requires var c := Alone(w, c0, k); (c.l.pc.SaveTerminal? || c.l.pc == SaveReceipt) && c.row.Some?
    ensures var c, c' := Alone(w, c0, k), Alone(w, c0, k + 1); var l, a := c.l, w.answers(k).store;
            && c'.token == c.token
            && c'.l.pc == Done(if !a.Committed? then Pending
                               else if l.pc.SaveTerminal? then TerminalFailure(l.pc.terminal)
                               else if l.failure.Some? then PartialFailure(l.failure.value, l.receipt)
                               else Succeeded(l.receipt))
            && c'.row == (if a.FailedBeforeCommit? then c.row
                          else if l.pc.SaveTerminal? then Some(c.row.value.(terminal := Some(l.pc.terminal)))
                          else Some(c.row.value.(receipt := Some(l.receipt), progress := Some(l.receipt))))
  {
    ConcludeMoves(w, c0, k);
    hide Alone;
  }

  /** From the end of the loop two answers decide, the audit's and the store's: the call ends with a stored terminal
      error when it failed before anything was applied, with a stored receipt otherwise, and pending if either fails. */
  lemma ConcludingIsExact(w: World, c0: Cell, k: nat)
    requires Alone(w, c0, k).l.pc == Conclude && Alone(w, c0, k).row.Some?
    ensures var c := Alone(w, c0, k); var l := c.l; var c' := Alone(w, c0, k + 2);
            var r := Reported(l.receipt, l.failure, w.now); var a := w.answers(k + 1).store;
            && c'.token == c.token && c'.l.pc.Done?
            && (!w.answers(k).ok ==> c'.l.pc == Done(Pending) && c'.row == c.row)
            && (w.answers(k).ok && AppliedNothing(l) ==>
                  var e := TerminalError(l.failure.value.code);
                  && c'.l.pc == Done(if a.Committed? then TerminalFailure(e) else Pending)
                  && c'.row == if a.FailedBeforeCommit? then c.row else Some(c.row.value.(terminal := Some(e))))
            && (w.answers(k).ok && !AppliedNothing(l) ==>
                  && c'.l.pc == Done(if !a.Committed? then Pending
                                     else if l.failure.Some? then PartialFailure(l.failure.value, r) else Succeeded(r))
                  && c'.row == if a.FailedBeforeCommit? then c.row
                               else Some(c.row.value.(receipt := Some(r), progress := Some(r))))
  {
    hide Alone, TerminalError, Reported, Count;
    ClassifyingMove(w, c0, k);
    if Stopped(Alone(w, c0, k + 1).l) {
      StoppedStays(w, c0, k + 1, k + 2);
    } else {
      StoringMove(w, c0, k + 1);
      assert k + 1 + 1 == k + 2;
    }
  }
}

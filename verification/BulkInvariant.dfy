/** What every reachable state of the bulk protocol satisfies, handler by handler and row by row. */
module BulkInvariant {
  import opened Wrappers
  import opened BulkModel
  import opened BulkProtocol

  // ---- one handler ----

  /** Inside the loop with the first `a` targets applied. */
  ghost predicate Running(l: Handler, a: nat) {
    && l.entered && l.failure.None? && Shape(l.receipt, l.plan, a, 0)
    && l.receipt.cacheCoherent && l.receipt.status == Success
  }

  /** Past the loop: the receipt's counts against the PATCHes sent and acknowledged, for each way of stopping. */
  ghost predicate Concluded(l: Handler) {
    && l.entered && Shape(l.receipt, l.plan, l.receipt.applied, l.receipt.failed)
    && l.acks == l.receipt.applied
    && match l.failure {
         case None =>
           l.receipt.applied == |l.plan.targets| && l.receipt.cacheCoherent && l.sent == l.acks
         case Some(Failure(LocalCoherenceFailed, upstream)) =>
           && upstream && l.receipt.failed == 0 && !l.receipt.cacheCoherent
           && l.receipt.applied >= 1 && l.sent == l.acks
         case Some(Failure(UpstreamError, upstream)) =>
           && !upstream && l.receipt.failed == 1 && l.receipt.cacheCoherent && l.sent == l.acks + 1
           && l.receipt.results[l.receipt.applied].error == Some(UpstreamError)
         case Some(Failure(code, upstream)) =>
           && !upstream && l.receipt.failed == 1 && l.receipt.cacheCoherent && l.sent == l.acks
           && l.receipt.results[l.receipt.applied].error == Some(code)
       }
  }

  /** A failure with nothing applied, and the error it is reported as. */
  ghost predicate IsTerminal(l: Handler, e: RpcError) {
    Concluded(l) && l.failure.Some? && l.receipt.applied == 0 && e == TerminalError(l.failure.value.code)
  }

  /** Success exactly without a failure, Partial exactly with one behind at least one applied target. */
  ghost predicate IsFinal(l: Handler, r: Receipt) {
    && Concluded(l) && r == l.receipt && r.applied >= 1
    && (r.status == Success <==> l.failure.None?)
  }

  ghost predicate ResponseFits(l: Handler, response: Response) {
    match response
    case Pending => true
    case TerminalFailure(e) => IsTerminal(l, e)
    case PartialFailure(failure, r) => l.failure == Some(failure) && IsFinal(l, r)
    case Succeeded(r) => l.failure.None? && IsFinal(l, r)
    case _ => !l.entered && !l.owner
  }

  ghost predicate PcFits(l: Handler) {
    match l.pc
    case LoadPlan => !l.owner && !l.entered
    case LookupKey => !l.owner && !l.entered && WellFormed(l.plan)
    case ReplayCheck(_) => !l.owner && !l.entered && WellFormed(l.plan)
    case LookupToken => !l.owner && !l.entered && WellFormed(l.plan)
    case PreflightRead(_) => !l.owner && !l.entered && WellFormed(l.plan)
    case MarkStarted => !l.owner && !l.entered && WellFormed(l.plan)
    case ConsumeSelect => l.owner && !l.entered && WellFormed(l.plan) && l.failure.None?
    case ConsumeUpdate => l.owner && !l.entered && WellFormed(l.plan) && l.failure.None?
    case ClearStarted(_) => l.owner && !l.entered
    case SaveInitial => Running(l, 0) && l.sent == 0
    case LoopRead(i) => i <= |l.plan.targets| && Running(l, i) && l.sent == i == l.acks
    case SendPatch(i) =>
      && i < |l.plan.targets| && Running(l, i) && l.sent == i == l.acks
      && l.current.stamp == l.plan.targets[i].stamp
    case AwaitPatch(i) =>
      && i < |l.plan.targets| && Running(l, i) && l.sent == i + 1 && l.acks == i
      && l.current.stamp == l.plan.targets[i].stamp
    case PostRead(i) => i < |l.plan.targets| && Running(l, i) && l.sent == i + 1 == l.acks
    case Cohere(i, _) => i < |l.plan.targets| && Running(l, i) && l.sent == i + 1 == l.acks
    case SaveProgress(i) => i < |l.plan.targets| && Running(l, i + 1) && l.sent == i + 1 == l.acks
    case SaveStop => Concluded(l) && l.failure.Some?
    case Conclude => Concluded(l) && l.receipt.status == Success
    case SaveTerminal(e) => IsTerminal(l, e)
    case SaveReceipt => IsFinal(l, l.receipt)
    case Done(response) => ResponseFits(l, response)
    case Crashed => true
  }

  ghost predicate HandlerFits(l: Handler) {
    && l.acks <= l.sent <= l.acks + 1 && l.sent <= |l.plan.targets|
    && (l.entered ==> l.owner && WellFormed(l.plan))
    && (!l.entered ==> l.sent == 0 && l.failure.None?)
    && (l.pc.SaveStop? ==> l.receipt.status == Success)
    && PcFits(l)
  }

  // ---- a handler and the row it marked ----

  /** Durable progress lags the loop by at most one PATCH. */
  ghost predicate ProgressFits(progress: Option<Receipt>, l: Handler) {
    match progress
    case None => l.sent == 0 && (l.pc.SaveInitial? || Stopped(l))
    case Some(r) =>
      && Shape(r, l.plan, r.applied, r.failed)
      && r.applied <= l.acks && l.sent <= r.applied + 1
      && (r.failed == 1 ==> l.acks == r.applied && !InLoop(l.pc))
      && match l.pc {
           case LoopRead(i) => r.applied == i
           case SendPatch(i) => r.applied == i
           case _ => true
         }
  }

  ghost predicate RowFits(row: Row, l: Handler) {
    if !l.entered then row.progress.None? && row.receipt.None? && row.terminal.None?
    else
      && (row.receipt.None? ==> ProgressFits(row.progress, l))
      && (row.receipt.Some? ==>
            row.terminal.None? && row.progress == row.receipt && Stopped(l) && IsFinal(l, row.receipt.value))
      && (row.terminal.Some? ==> Stopped(l) && IsTerminal(l, row.terminal.value))
  }

  ghost predicate Blank(row: Row) {
    row.started.None? ==> row.progress.None? && row.receipt.None? && row.terminal.None?
  }

  /** The row, if it is still there, carries this owner's mark and matches how far it got. */
  ghost predicate Owned(h: nat, l: Handler, row: Option<Row>) {
    l.owner && row.Some? ==>
      row.value.started.Some? && row.value.started.value.owner == h && RowFits(row.value, l)
  }

  ghost predicate Joint(h: nat, l: Handler, row: Option<Row>) {
    && HandlerFits(l) && Owned(h, l, row)
    && (row.Some? ==> Blank(row.value))
  }

  lemma JointIsReady(h: nat, l: Handler, row: Option<Row>)
    requires Joint(h, l, row)
    ensures Ready(l)
  {
  }

  /** What a move may do to the row: only its owner writes, only outcomes that were absent appear. */
  ghost predicate Writes(h: nat, l: Handler, o: Outcome, row: Option<Row>) {
    && (o.row.Some? <==> row.Some?)
    && (o.row != row ==> o.next.owner || l.owner)
    && (row.Some? ==>
          && o.row.value.opHash == row.value.opHash && o.row.value.expiresAt == row.value.expiresAt
          && (row.value.receipt.Some? || row.value.terminal.Some? ==>
                o.row.value.receipt == row.value.receipt && o.row.value.terminal == row.value.terminal))
    && (o.next.owner && !l.owner ==> CanMark(row))
    && (o.row.Some? && o.row.value.started.Some? && !o.next.owner ==> o.row == row && !l.owner)
  }

  /** What a move may do to the handler itself. */
  ghost predicate Advances(l: Handler, o: Outcome) {
    && o.next.req == l.req
    && (l.pc != LoadPlan ==> o.next.plan == l.plan)
    && (o.sends <==> l.pc.SendPatch?) && o.next.sent == l.sent + (if o.sends then 1 else 0)
    && (o.acks ==> l.pc.AwaitPatch?) && o.next.acks == l.acks + (if o.acks then 1 else 0)
    && (o.next.entered && !l.entered ==> o.consumes)
    && (l.entered ==> o.next.entered)
    && (l.owner && !o.next.owner ==> !l.entered)
  }

  /** One move leaves the handler, its row and everybody else's claims in order. */
  ghost predicate Kept(h: nat, l: Handler, row: Option<Row>, o: Outcome) {
    Joint(h, o.next, o.row) && Writes(h, l, o, row) && Advances(l, o)
  }

  lemma PreflightKeeps(v: View, h: nat, l: Handler, a: Answer)
    requires Joint(h, l, v.row) && (v.plan.Some? ==> WellFormed(v.plan.value))
    requires l.pc.LoadPlan? || l.pc.LookupKey? || l.pc.ReplayCheck? || l.pc.LookupToken? || l.pc.PreflightRead?
    ensures Kept(h, l, v.row, Outcome(PreflightStep(v, l, a), v.row, false, false, false))
  {
    hide Running, Concluded, IsTerminal, IsFinal, ProgressFits;
    var n := PreflightStep(v, l, a);
    assert n == l.(pc := n.pc, plan := n.plan);
    assert l.sent == 0;
  }

  lemma AcquireKeeps(v: View, h: nat, l: Handler, a: Answer)
    requires Joint(h, l, v.row)
    requires l.pc.MarkStarted? || l.pc.ConsumeSelect? || l.pc.ConsumeUpdate? || l.pc.ClearStarted?
    ensures Kept(h, l, v.row, AcquireStep(v, h, l, a))
  {
    InitialShape(l.plan, a.auditId, v.now);
  }

  lemma FailureConcludes(l: Handler, i: nat, code: FailureCode, observed: string, next: Pc)
    requires Running(l, i) && i < |l.plan.targets| && l.acks == i
    requires code != LocalCoherenceFailed && l.sent == if code == UpstreamError then i + 1 else i
    ensures i < |l.receipt.results|
    ensures Concluded(FailAt(l, i, code, observed, next))
    ensures FailAt(l, i, code, observed, next).receipt.applied == i
    ensures FailAt(l, i, code, observed, next).receipt.failed == 1
    ensures FailAt(l, i, code, observed, next).receipt.status == Success
  {
    FailedShape(l.receipt, l.plan, i, code, observed);
  }

  lemma LostCoherenceConcludes(l: Handler, i: nat, observed: string)
    requires Running(l, i) && i < |l.plan.targets| && l.sent == i + 1 == l.acks
    ensures i < |l.receipt.results|
    ensures Concluded(LoseCoherence(l, i, observed))
    ensures LoseCoherence(l, i, observed).receipt.applied == i + 1
    ensures LoseCoherence(l, i, observed).receipt.failed == 0
    ensures LoseCoherence(l, i, observed).receipt.status == Success
  {
    var incoherent := l.(receipt := l.receipt.(cacheCoherent := false));
    AppliedShape(incoherent.receipt, l.plan, i, l.current.fields, observed);
    ClearingIsIdle(ApplyAt(incoherent, i, observed), l.plan, i);
  }

  lemma SaveInitialKeeps(v: View, h: nat, l: Handler, a: Answer)
    requires Joint(h, l, v.row) && l.pc.SaveInitial?
    ensures Kept(h, l, v.row, LoopStep(v, l, a))
  {
  }

  lemma ReadKeeps(v: View, h: nat, l: Handler, a: Answer)
    requires Joint(h, l, v.row) && l.pc.LoopRead?
    ensures Ready(l) && Kept(h, l, v.row, LoopStep(v, l, a))
  {
    hide ResultsFit, MarkedFailedAndRemaining;
    if l.pc.i < |l.plan.targets| {
      match a.read
      case ReadErr(code) => FailureConcludes(l, l.pc.i, ReadFailed(code), "", Conclude);
      case ReadOk(current) => FailureConcludes(l, l.pc.i, ConcurrencyConflict, current.stamp, Conclude);
    }
  }

  lemma SendKeeps(v: View, h: nat, l: Handler, a: Answer)
    requires Joint(h, l, v.row) && l.pc.SendPatch?
    ensures Ready(l) && Kept(h, l, v.row, LoopStep(v, l, a))
  {
  }

  lemma AwaitKeeps(v: View, h: nat, l: Handler, a: Answer)
    requires Joint(h, l, v.row) && l.pc.AwaitPatch?
    ensures Ready(l) && Kept(h, l, v.row, LoopStep(v, l, a))
  {
    hide ResultsFit, MarkedFailedAndRemaining;
    FailureConcludes(l, l.pc.i, UpstreamError, l.current.stamp, SaveStop);
  }

  lemma CohereKeeps(v: View, h: nat, l: Handler, a: Answer)
    requires Joint(h, l, v.row) && (l.pc.PostRead? || l.pc.Cohere?)
    ensures Ready(l) && Kept(h, l, v.row, LoopStep(v, l, a))
  {
    hide ResultsFit, MarkedApplied, MarkedNotAttemptedAfter;
    var observed := if l.pc.PostRead? then l.current.stamp else l.pc.observed;
    LostCoherenceConcludes(l, l.pc.i, observed);
    AppliedShape(l.receipt, l.plan, l.pc.i, l.current.fields, observed);
  }

  lemma SaveKeeps(v: View, h: nat, l: Handler, a: Answer)
    requires Joint(h, l, v.row) && (l.pc.SaveProgress? || l.pc.SaveStop?)
    ensures Ready(l) && Kept(h, l, v.row, LoopStep(v, l, a))
  {
    hide ResultsFit;
  }

  lemma ConcludeKeeps(v: View, h: nat, l: Handler, a: Answer)
    requires Joint(h, l, v.row) && l.pc.Conclude?
    ensures Kept(h, l, v.row, ConcludeStep(v, l, a))
  {
    hide ResultsFit, Count;
    RecountKeepsFit(l.receipt.(completedAt := v.now), l.plan, l.receipt.applied, l.receipt.failed);
  }

  lemma OutcomeKeeps(v: View, h: nat, l: Handler, a: Answer)
    requires Joint(h, l, v.row) && (l.pc.SaveTerminal? || l.pc.SaveReceipt?)
    ensures Kept(h, l, v.row, ConcludeStep(v, l, a))
  {
    hide Shape;
  }

  lemma LoopKeeps(v: View, h: nat, l: Handler, a: Answer)
    requires Joint(h, l, v.row) && InLoop(l.pc)
    ensures Ready(l) && Kept(h, l, v.row, LoopStep(v, l, a))
  {
    hide Kept, Joint, LoopStep, Ready;
    JointIsReady(h, l, v.row);
    match l.pc
    case SaveInitial => SaveInitialKeeps(v, h, l, a);
    case LoopRead(_) => ReadKeeps(v, h, l, a);
    case SendPatch(_) => SendKeeps(v, h, l, a);
    case AwaitPatch(_) => AwaitKeeps(v, h, l, a);
    case PostRead(_) => CohereKeeps(v, h, l, a);
    case Cohere(_, _) => CohereKeeps(v, h, l, a);
    case _ => SaveKeeps(v, h, l, a);
  }

  lemma StepKeeps(v: View, h: nat, l: Handler, a: Answer)
    requires Joint(h, l, v.row) && !Stopped(l) && (v.plan.Some? ==> WellFormed(v.plan.value))
    ensures Ready(l) && Kept(h, l, v.row, LocalStep(v, h, l, a))
  {
    hide Kept, Joint, LoopStep, ConcludeStep, AcquireStep, PreflightStep, WellFormed, Ready;
    JointIsReady(h, l, v.row);
    if InLoop(l.pc) {
      LoopKeeps(v, h, l, a);
    } else if l.pc.Conclude? {
      ConcludeKeeps(v, h, l, a);
    } else if l.pc.SaveTerminal? || l.pc.SaveReceipt? {
      OutcomeKeeps(v, h, l, a);
    } else if l.pc.MarkStarted? || l.pc.ConsumeSelect? || l.pc.ConsumeUpdate? || l.pc.ClearStarted? {
      AcquireKeeps(v, h, l, a);
    } else {
      PreflightKeeps(v, h, l, a);
    }
  }
}

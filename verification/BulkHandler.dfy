/** The apply handler as the imperative code it is, proved to do exactly what the step machine does.

    The methods below, which update a receipt object and two store objects, end in the very state and with the very
    response in which the lone run of the machine's handler ends, for every sequence of answers from upstream and from
    the store. */
module BulkHandler {
  import opened Wrappers
  import opened BulkModel
  import opened BulkProtocol
  import opened BulkLone
  import opened BulkAdmission
  import opened BulkObjects

  // ---- the loop ----

  function PatchesOf(ts: seq<Target>): (ps: seq<(string, Patch)>)
    ensures |ps| == |ts|
  {
    seq(|ts|, i requires 0 <= i < |ts| => (ts[i].sysId, ts[i].patch))
  }

  /** The objects mirror a cell whose handler is inside the loop or past it. */
  ghost predicate Mirrors(c: Cell, store: BulkStore, receipt: BulkReceipt, client: WriteClient, rows: Rows,
                          req: Request)
    reads store, receipt, client
  {
    && c.l.sent <= |c.l.plan.targets| && client.patches == PatchesOf(c.l.plan.targets)[..c.l.sent]
    && c.l.req == req && c.l.receipt == receipt.Value() && c.l.owner && c.l.entered
    && store.rows == Put(rows, req.key, c.row) && (c.row.Some? <==> req.key in rows)
    && |receipt.results| == |c.l.plan.targets|
  }

  datatype LoopResult = Continue | Stop(failure: Failure) | Unsaved

  /** Where a settled target leaves the lone run. */
  ghost predicate Settled(l: Handler, plan: Plan, i: nat, result: LoopResult) {
    && l.plan == plan
    && match result {
         case Continue => l.pc == LoopRead(i + 1) && l.failure.None? && l.sent == i + 1
         case Stop(failure) => l.pc == Conclude && l.failure == Some(failure)
         case Unsaved => l.pc == Done(Pending)
       }
  }

  /** Saves the receipt's progress and leaves the loop, or the target, with the given result. */
  method SaveAndGo(store: BulkStore, receipt: BulkReceipt, client: WriteClient, w: World, req: Request,
                   result: LoopResult, ghost c0: Cell, k0: nat, ghost rows: Rows)
    returns (r: LoopResult, k: nat)
    requires Mirrors(Alone(w, c0, k0), store, receipt, client, rows, req)
    requires var l := Alone(w, c0, k0).l;
             l.pc.SaveInitial? || l.pc.SaveStop? || (l.pc.SaveProgress? && InRange(l, l.pc.i))
    modifies store
    ensures k == k0 + 1 && Mirrors(Alone(w, c0, k), store, receipt, client, rows, req)
    ensures Alone(w, c0, k).token == Alone(w, c0, k0).token
    ensures r == if w.answers(k0).store.Committed? then result else Unsaved
    ensures store.rows.Keys == old(store.rows.Keys)
  {
    hide Alone;
    SaveMoves(w, c0, k0);
    var saved := store.SaveProgress(req.key, receipt.Value(), w.answers(k0).store);
    return if saved then result else Unsaved, k0 + 1;
  }

  /** Upstream has the write but the local copy is not certain: the target counts as applied and the loop stops. */
  method StopIncoherent(receipt: BulkReceipt, plan: Plan, i: nat, current: Snapshot, observed: string, ghost l: Handler)
    returns (failure: Failure)
    requires i < |plan.targets| && i < |receipt.results|
    requires l.plan == plan && l.current == current && l.receipt == receipt.Value()
    modifies receipt
    ensures receipt.Value() == LoseCoherence(l, i, observed).receipt
    ensures failure == Failure(LocalCoherenceFailed, true)
    ensures |receipt.results| == old(|receipt.results|)
  {
    failure := Failure(LocalCoherenceFailed, true);
    receipt.cacheCoherent := false;
    receipt.MarkApplied(i, plan.targets[i], current.fields, observed);
    receipt.MarkNotAttemptedAfter(i);
  }

  /** From the observed post-write stamp on: local coherence, then the durable outcome. */
  method CohereTarget(store: BulkStore, receipt: BulkReceipt, client: WriteClient, w: World, plan: Plan,
                      req: Request, i: nat, current: Snapshot, observed: string, ghost c0: Cell, k0: nat,
                      ghost rows: Rows)
    returns (result: LoopResult, k: nat)
    requires Mirrors(Alone(w, c0, k0), store, receipt, client, rows, req) && i < |plan.targets|
    requires var l := Alone(w, c0, k0).l;
             l.plan == plan && l.current == current && l.failure.None? && l.sent == i + 1 && l.pc == Cohere(i, observed)
    modifies store, receipt
    ensures k0 < k && Mirrors(Alone(w, c0, k), store, receipt, client, rows, req)
    ensures Alone(w, c0, k).token == Alone(w, c0, k0).token
    ensures Settled(Alone(w, c0, k).l, plan, i, result)
  {
    hide Alone, Put, PatchesOf, MarkedApplied, MarkedFailedAndRemaining, MarkedNotAttemptedAfter;
    CohereMoves(w, c0, k0, i);
    SaveMoves(w, c0, k0 + 1);
    if w.answers(k0).ok {
      receipt.MarkApplied(i, plan.targets[i], current.fields, observed);
      result, k := SaveAndGo(store, receipt, client, w, req, Continue, c0, k0 + 1, rows);
    } else {
      var failure := StopIncoherent(receipt, plan, i, current, observed, Alone(w, c0, k0).l);
      result, k := SaveAndGo(store, receipt, client, w, req, Stop(failure), c0, k0 + 1, rows);
    }
  }

  /** From the acknowledged PATCH on: the post-write stamp, read if the answer did not carry it, and what follows. */
  method SettleTarget(store: BulkStore, receipt: BulkReceipt, client: WriteClient, w: World, plan: Plan,
                      req: Request, i: nat, current: Snapshot, stamp: Option<string>, ghost c0: Cell, k0: nat,
                      ghost rows: Rows)
    returns (result: LoopResult, k: nat)
    requires Mirrors(Alone(w, c0, k0), store, receipt, client, rows, req) && i < |plan.targets|
    requires var l := Alone(w, c0, k0).l;
             && l.plan == plan && l.current == current && l.failure.None? && l.sent == i + 1
             && l.pc == if stamp.Some? then Cohere(i, stamp.value) else PostRead(i)
    modifies store, receipt
    ensures k0 < k && Mirrors(Alone(w, c0, k), store, receipt, client, rows, req)
    ensures Alone(w, c0, k).token == Alone(w, c0, k0).token
    ensures Settled(Alone(w, c0, k).l, plan, i, result)
  {
    hide Alone, Put, PatchesOf, MarkedApplied, MarkedFailedAndRemaining, MarkedNotAttemptedAfter;
    if stamp.Some? {
      result, k := CohereTarget(store, receipt, client, w, plan, req, i, current, stamp.value, c0, k0, rows);
      return;
    }
    PostReadMoves(w, c0, k0, i);
    match w.answers(k0).read
    case ReadOk(after) =>
      result, k := CohereTarget(store, receipt, client, w, plan, req, i, current, after.stamp, c0, k0 + 1, rows);
    case ReadErr(_) =>
      var failure := StopIncoherent(receipt, plan, i, current, current.stamp, Alone(w, c0, k0).l);
      SaveMoves(w, c0, k0 + 1);
      result, k := SaveAndGo(store, receipt, client, w, req, Stop(failure), c0, k0 + 1, rows);
  }

  /** One target: the recheck, the PATCH, and what follows. */
  method ProcessTarget(store: BulkStore, receipt: BulkReceipt, client: WriteClient, w: World, plan: Plan,
                       req: Request, i: nat, ghost c0: Cell, k0: nat, ghost rows: Rows)
    returns (result: LoopResult, k: nat)
    requires Mirrors(Alone(w, c0, k0), store, receipt, client, rows, req) && i < |plan.targets|
    requires var l := Alone(w, c0, k0).l; l.plan == plan && l.failure.None? && l.pc == LoopRead(i) && l.sent == i
    modifies store, receipt, client
    ensures k0 < k && Mirrors(Alone(w, c0, k), store, receipt, client, rows, req)
    ensures Alone(w, c0, k).token == Alone(w, c0, k0).token
    ensures Settled(Alone(w, c0, k).l, plan, i, result)
  {
    hide Alone, Put, MarkedApplied, MarkedFailedAndRemaining, MarkedNotAttemptedAfter;
    ReadMoves(w, c0, k0, i);
    k := k0 + 1;
    match w.answers(k0).read
    case ReadErr(code) =>
      receipt.MarkFailedAndRemaining(i, ReadFailed(code), "");
      result := Stop(Failure(ReadFailed(code), false));
    case ReadOk(current) =>
      if current.stamp != plan.targets[i].stamp {
        receipt.MarkFailedAndRemaining(i, ConcurrencyConflict, current.stamp);
        return Stop(Failure(ConcurrencyConflict, false)), k;
      }
      PatchMoves(w, c0, k, i);
      client.UpdateIncidentWithoutRetry(plan.targets[i].sysId, plan.targets[i].patch);
      match w.answers(k + 1).patch
      case PatchErr =>
        receipt.MarkFailedAndRemaining(i, UpstreamError, current.stamp);
        result, k := SaveAndGo(store, receipt, client, w, req, Stop(Failure(UpstreamError, false)), c0, k + 2, rows);
        SaveMoves(w, c0, k - 1);
      case PatchAcknowledged(stamp) =>
        result, k := SettleTarget(store, receipt, client, w, plan, req, i, current, stamp, c0, k + 2, rows);
  }

  method RunTargets(store: BulkStore, receipt: BulkReceipt, client: WriteClient, w: World, plan: Plan, req: Request,
                    ghost c0: Cell, k0: nat, ghost rows: Rows)
    returns (failure: Option<Failure>, unsaved: bool, k: nat)
    requires Mirrors(Alone(w, c0, k0), store, receipt, client, rows, req)
    requires var l := Alone(w, c0, k0).l; l.plan == plan && l.failure.None? && l.pc == LoopRead(0) && l.sent == 0
    modifies store, receipt, client
    ensures Mirrors(Alone(w, c0, k), store, receipt, client, rows, req)
    ensures Alone(w, c0, k).token == Alone(w, c0, k0).token
    ensures var l := Alone(w, c0, k).l;
            if unsaved then l.pc == Done(Pending) else l.pc == Conclude && l.failure == failure
  {
    hide Alone;
    k := k0;
    for i := 0 to |plan.targets|
      invariant Mirrors(Alone(w, c0, k), store, receipt, client, rows, req)
      invariant Alone(w, c0, k).token == Alone(w, c0, k0).token
      invariant var l := Alone(w, c0, k).l; l.plan == plan && l.failure.None? && l.pc == LoopRead(i) && l.sent == i
    {
      var result: LoopResult;
      result, k := ProcessTarget(store, receipt, client, w, plan, req, i, c0, k, rows);
      match result
      case Continue =>
      case Stop(f) => return Some(f), false, k;
      case Unsaved => return None, true, k;
    }
    LoopEnds(w, c0, k);
    return None, false, k + 1;
  }

  // ---- the outcome ----

  method ReportOutcome(store: BulkStore, receipt: BulkReceipt, client: WriteClient, w: World, req: Request,
                       failure: Option<Failure>, ghost c0: Cell, k0: nat, ghost rows: Rows)
    returns (response: Response, k: nat)
    requires Mirrors(Alone(w, c0, k0), store, receipt, client, rows, req)
    requires var l := Alone(w, c0, k0).l; l.pc == Conclude && l.failure == failure
    modifies store, receipt
    ensures Mirrors(Alone(w, c0, k), store, receipt, client, rows, req) && Alone(w, c0, k).l.pc == Done(response)
    ensures Alone(w, c0, k).token == Alone(w, c0, k0).token
  {
    hide Alone;
    ConcludeMoves(w, c0, k0);
    k := k0 + 1;
    receipt.completedAt := w.now;
    receipt.Recount();
    if failure.Some? && receipt.applied == 0 {
      var error := TerminalError(failure.value.code);
      if !w.answers(k0).ok {
        return Pending, k;
      }
      ConcludeMoves(w, c0, k);
      var saved := store.SaveTerminalError(req.key, error, w.answers(k).store);
      return if saved then TerminalFailure(error) else Pending, k + 1;
    }
    if failure.Some? {
      receipt.status := Partial;
    }
    if !w.answers(k0).ok {
      return Pending, k;
    }
    ConcludeMoves(w, c0, k);
    var saved := store.SaveFinalReceipt(req.key, receipt.Value(), w.answers(k).store);
    if !saved {
      return Pending, k + 1;
    }
    return if failure.Some? then PartialFailure(failure.value, receipt.Value()) else Succeeded(receipt.Value()), k + 1;
  }

  // ---- acquiring the key and the token ----

  /** The objects mirror a cell whose handler has not entered the loop. */
  ghost predicate MirrorsRow(c: Cell, store: BulkStore, confirmations: ConfirmationStore, rows: Rows, key: string,
                             token: string)
    reads store, confirmations
  {
    && store.rows == Put(rows, key, c.row) && (c.row.Some? <==> key in rows)
    && c.token == if token in confirmations.tokens then Some(confirmations.tokens[token]) else None
  }

  /** Gives the key back after a token that could not be consumed. */
  method ReleaseKey(store: BulkStore, confirmations: ConfirmationStore, w: World, req: Request,
                    error: ConfirmationError, ghost c0: Cell, k0: nat, ghost rows: Rows)
    returns (response: Response, k: nat)
    requires MirrorsRow(Alone(w, c0, k0), store, confirmations, rows, req.key, req.token)
    requires Alone(w, c0, k0).l.pc == ClearStarted(error)
    modifies store
    ensures MirrorsRow(Alone(w, c0, k), store, confirmations, rows, req.key, req.token)
    ensures Alone(w, c0, k).l == Alone(w, c0, k0).l.(owner := Alone(w, c0, k).l.owner, pc := Done(response))
  {
    hide Alone;
    AcquireMoves(w, c0, k0);
    var cleared := store.ClearApplyStarted(req.key, w.answers(k0).store);
    return if cleared then Refused(error) else Pending, k0 + 1;
  }

  method AcquireKey(store: BulkStore, confirmations: ConfirmationStore, w: World, req: Request, binding: Binding,
                    ghost c0: Cell, k0: nat, ghost rows: Rows)
    returns (response: Option<Response>, k: nat)
    requires MirrorsRow(Alone(w, c0, k0), store, confirmations, rows, req.key, req.token)
    requires var l := Alone(w, c0, k0).l; l.pc == MarkStarted && BindingOf(l) == binding && l.req == req
    modifies store, confirmations
    ensures confirmations.tokens - {req.token} == old(confirmations.tokens) - {req.token}
    ensures MirrorsRow(Alone(w, c0, k), store, confirmations, rows, req.key, req.token)
    ensures var l := Alone(w, c0, k).l; var l0 := Alone(w, c0, k0).l;
            if response.Some? then l.pc == Done(response.value) && l.sent == l0.sent
            else
              && k > 0
              && l == l0.(owner := true, entered := true, startedAt := w.now, pc := SaveInitial,
                          receipt := InitialReceipt(l0.plan, w.answers(k - 1).auditId, w.now))
  {
    hide Alone;
    AcquireMoves(w, c0, k0);
    var marked := store.MarkApplyStarted(req.key, Mark(w.now, w.h), w.answers(k0).store);
    k := k0 + 1;
    if marked.Err? || !marked.value {
      return Some(Pending), k;
    }
    AcquireMoves(w, c0, k);
    var found := confirmations.Lookup(req.token, w.answers(k).ok);
    var refusal := ConsumeRefusal(if found.Ok? then found.value else None, binding, w.now);
    k := k + 1;
    var r: Response;
    if refusal.Some? {
      r, k := ReleaseKey(store, confirmations, w, req, refusal.value, c0, k, rows);
      return Some(r), k;
    }
    AcquireMoves(w, c0, k);
    var consumed := confirmations.MarkConsumed(req.token, w.answers(k).store);
    k := k + 1;
    if consumed.Err? || !consumed.value {
      r, k := ReleaseKey(store, confirmations, w, req, if consumed.Ok? then AlreadyConsumed else NotFound, c0, k, rows);
      return Some(r), k;
    }
    return None, k;
  }

  // ---- preflight ----

  method CheckPlan(w: World, req: Request, cfg: Config, a: Answer) returns (r: Result<Plan, Response>)
    ensures PlanCheck(View(w.now, w.plan, None, None), NewHandler(req, cfg), a) ==
            match r
            case Ok(plan) => NewHandler(req, cfg).(plan := plan, pc := LookupKey)
            case Err(response) => NewHandler(req, cfg).(pc := Done(response))
  {
    if !cfg.enabled {
      return Err(Denied(PolicyDenied));
    }
    if !a.ok {
      return Err(Internal);
    }
    if w.plan.None? {
      return Err(Denied(PlanNotFound));
    }
    var plan := w.plan.value;
    if plan.expiresAt <= w.now {
      return Err(Denied(PlanExpired));
    }
    var limit := TargetLimit(cfg.planLimit, cfg.applyLimit);
    if limit.None? {
      return Err(Denied(MaxTargetsInvalid));
    }
    if |plan.targets| < MIN_TARGETS || |plan.targets| > limit.value {
      return Err(Denied(TargetCountInvalid));
    }
    if req.stamps != ExpectedTokens(plan.targets) {
      return Err(Denied(ConcurrencyTokenInvalid));
    }
    if plan.actor != cfg.actor || plan.requester != cfg.actor || plan.environment != cfg.environment {
      return Err(Refused(BindingMismatch));
    }
    return Ok(plan);
  }

  /** An expired row is deleted by the lookup that meets it: the machine's `Purge`. */
  ghost predicate PurgedAtMost(now: nat, before: Rows, after: Rows, key: string) {
    after == before || (key in before && before[key].expiresAt <= now && after == before - {key})
  }

  /** The binding, the key and the token, before any target is read. */
  method CheckBindings(store: BulkStore, confirmations: ConfirmationStore, w: World, req: Request, cfg: Config,
                       plan: Plan, binding: Binding, ghost c0: Cell, k0: nat, ghost rows: Rows)
    returns (response: Option<Response>, k: nat)
    requires MirrorsRow(Alone(w, c0, k0), store, confirmations, rows, req.key, req.token) && store.rows == rows
    requires Alone(w, c0, k0).l == NewHandler(req, cfg).(plan := plan, pc := LookupKey)
    requires binding == BindingOf(NewHandler(req, cfg).(plan := plan))
    modifies store
    ensures PurgedAtMost(w.now, rows, store.rows, req.key) && (response.None? ==> store.rows == rows)
    ensures Alone(w, c0, k) == Alone(w, c0, k0).(l := NewHandler(req, cfg).(plan := plan,
              pc := if response.Some? then Done(response.value) else PreflightRead(0)))
  {
    hide Alone;
    PreflightMoves(w, c0, k0);
    var found := store.LookupIdempotency(req.key, w.now, w.answers(k0).ok);
    k := k0 + 1;
    if found.Err? {
      return Some(Internal), k;
    }
    if found.value.None? || found.value.value.opHash != plan.opHash {
      return Some(Denied(IdempotencyConflict)), k;
    }
    var record := found.value.value;
    assert store.rows == rows;
    if record.terminal.Some? || record.receipt.Some? {
      PreflightMoves(w, c0, k);
      var token := confirmations.Lookup(req.token, w.answers(k).ok);
      var refusal := ValidateReplay(if token.Ok? then token.value else None, binding, w.now);
      k := k + 1;
      if refusal.Some? {
        return Some(Refused(refusal.value)), k;
      }
      return Some(if record.terminal.Some? then ReplayedError(record.terminal.value)
                  else ReplayedReceipt(record.receipt.value.(replay := true))), k;
    }
    if record.started.Some? {
      return Some(Pending), k;
    }
    PreflightMoves(w, c0, k);
    var token := confirmations.Lookup(req.token, w.answers(k).ok);
    k := k + 1;
    if token.Err? {
      return Some(Internal), k;
    }
    if token.value.None? {
      return Some(Refused(NotFound)), k;
    }
    var refusal := ValidateRecord(token.value.value, binding, w.now);
    return if refusal.Some? then Some(Refused(refusal.value)) else None, k;
  }

  /** Every target is read once before the first PATCH, and the attempt is audited. */
  method CheckTargets(w: World, req: Request, cfg: Config, plan: Plan, ghost c0: Cell, k0: nat)
    returns (response: Option<Response>, k: nat)
    requires Alone(w, c0, k0).l == NewHandler(req, cfg).(plan := plan, pc := PreflightRead(0))
    ensures Alone(w, c0, k) == Alone(w, c0, k0).(l := NewHandler(req, cfg).(plan := plan,
              pc := if response.Some? then Done(response.value) else MarkStarted))
  {
    hide Alone;
    k := k0;
    for i := 0 to |plan.targets|
      invariant Alone(w, c0, k) == Alone(w, c0, k0).(l := NewHandler(req, cfg).(plan := plan, pc := PreflightRead(i)))
    {
      PreflightMoves(w, c0, k);
      var a := w.answers(k);
      k := k + 1;
      match a.read
      case ReadErr(code) => return Some(Denied(PreflightReadFailed(code))), k;
      case ReadOk(current) =>
        if current.stamp != plan.targets[i].stamp {
          return Some(Denied(PreflightConflict)), k;
        }
    }
    PreflightMoves(w, c0, k);
    return if w.answers(k).ok then None else Some(Internal), k + 1;
  }

  /** The cell a call starts from. */
  function StartCell(rows: Rows, tokens: map<string, Confirmation>, req: Request, cfg: Config): Cell {
    Cell(Get(rows, req.key), if req.token in tokens then Some(tokens[req.token]) else None, NewHandler(req, cfg))
  }

  /** The call's own statements. */
  method Respond(store: BulkStore, confirmations: ConfirmationStore, client: WriteClient, w: World,
                 req: Request, cfg: Config)
    returns (response: Response, k: nat)
    requires client.patches == []
    modifies store, confirmations, client
    ensures confirmations.tokens - {req.token} == old(confirmations.tokens) - {req.token}
    ensures var c0 := StartCell(old(store.rows), old(confirmations.tokens), req, cfg);
            var c := Alone(w, c0, k);
            && c.l.pc == Done(response)
            && PurgedAtMost(w.now, Put(old(store.rows), req.key, c.row), store.rows, req.key)
            && c.token == (if req.token in confirmations.tokens then Some(confirmations.tokens[req.token]) else None)
            && c.l.sent <= |c.l.plan.targets| && client.patches == PatchesOf(c.l.plan.targets)[..c.l.sent]
  {
    ghost var rows := store.rows;
    ghost var c0 := StartCell(rows, confirmations.tokens, req, cfg);
    PreflightMoves(w, c0, 0);
    hide Alone;
    assert Put(rows, req.key, c0.row) == rows;
    var checked := CheckPlan(w, req, cfg, w.answers(0));
    k := 1;
    if checked.Err? {
      return checked.error, k;
    }
    var plan := checked.value;
    var binding := Binding(cfg.actor, cfg.actor, APPLY_TOOL, plan.opHash, cfg.environment);
    var stopped: Option<Response>;
    stopped, k := CheckBindings(store, confirmations, w, req, cfg, plan, binding, c0, k, rows);
    if stopped.Some? {
      return stopped.value, k;
    }
    stopped, k := CheckTargets(w, req, cfg, plan, c0, k);
    if stopped.Some? {
      return stopped.value, k;
    }
    stopped, k := AcquireKey(store, confirmations, w, req, binding, c0, k, rows);
    if stopped.Some? {
      return stopped.value, k;
    }
    response, k := Execute(store, client, w, req, plan, c0, k, rows);
  }

  /** From the consumed token to the response. */
  method Execute(store: BulkStore, client: WriteClient, w: World, req: Request, plan: Plan,
                 ghost c0: Cell, k0: nat, ghost rows: Rows)
    returns (response: Response, k: nat)
    requires k0 > 0 && client.patches == []
    requires var c := Alone(w, c0, k0);
             && c.l.plan == plan && c.l.req == req && c.l.pc == SaveInitial && c.l.failure.None? && c.l.sent == 0
             && c.l.owner && c.l.entered && c.l.receipt == InitialReceipt(plan, w.answers(k0 - 1).auditId, w.now)
             && store.rows == Put(rows, req.key, c.row) && (c.row.Some? <==> req.key in rows)
    modifies store, client
    ensures var c := Alone(w, c0, k);
            && c.l.pc == Done(response) && store.rows == Put(rows, req.key, c.row)
            && c.token == Alone(w, c0, k0).token
            && c.l.sent <= |c.l.plan.targets| && client.patches == PatchesOf(c.l.plan.targets)[..c.l.sent]
  {
    hide Alone;
    var receipt := new BulkReceipt.Initial(plan, w.answers(k0 - 1).auditId, w.now);
    assert |receipt.Value().results| == |plan.targets|;
    SaveMoves(w, c0, k0);
    var begun: LoopResult;
    begun, k := SaveAndGo(store, receipt, client, w, req, Continue, c0, k0, rows);
    if begun.Unsaved? {
      return Pending, k;
    }
    var failure: Option<Failure>, unsaved: bool;
    failure, unsaved, k := RunTargets(store, receipt, client, w, plan, req, c0, k, rows);
    if unsaved {
      return Pending, k;
    }
    response, k := ReportOutcome(store, receipt, client, w, req, failure, c0, k, rows);
  }

  lemma SameTokens(a: map<string, Confirmation>, b: map<string, Confirmation>, token: string)
    requires a - {token} == b - {token} && (token in a <==> token in b) && (token in a ==> a[token] == b[token])
    ensures a == b
  {
    forall t ensures (t in a <==> t in b) && (t in a ==> a[t] == b[t]) {
      assert t != token ==> (t in a <==> t in a - {token}) && (t in b <==> t in b - {token});
    }
  }

  /** A whole apply call, run alone: the same response, rows, tokens and PATCHes as the machine's handler. A call that
      is not admitted sends no PATCH, changes no row and no token, and answers with the condition it fails. */
  method HandleApply(store: BulkStore, confirmations: ConfirmationStore, client: WriteClient, w: World,
                     req: Request, cfg: Config)
    returns (response: Response, k: nat)
    requires client.patches == []
    modifies store, confirmations, client
    ensures confirmations.tokens - {req.token} == old(confirmations.tokens) - {req.token}
    ensures var c0 := StartCell(old(store.rows), old(confirmations.tokens), req, cfg);
            if Admitted(w, c0, req, cfg) then !Denying(response) && !Replaying(response)
            else
              && AnswersAs(w, c0, req, cfg, Done(response)) && client.patches == []
              && confirmations.tokens == old(confirmations.tokens)
              && PurgedAtMost(w.now, old(store.rows), store.rows, req.key)
    ensures var c0 := StartCell(old(store.rows), old(confirmations.tokens), req, cfg);
            var c := Alone(w, c0, k);
            && c.l.pc == Done(response)
            && PurgedAtMost(w.now, Put(old(store.rows), req.key, c.row), store.rows, req.key)
            && c.token == (if req.token in confirmations.tokens then Some(confirmations.tokens[req.token]) else None)
            && c.l.sent <= |c.l.plan.targets| && client.patches == PatchesOf(c.l.plan.targets)[..c.l.sent]
  {
    hide Alone, Admitted, AnswersAs;
    ghost var c0 := StartCell(store.rows, confirmations.tokens, req, cfg);
    assert Put(store.rows, req.key, c0.row) == store.rows;
    ghost var tokens := confirmations.tokens;
    response, k := Respond(store, confirmations, client, w, req, cfg);
    CallAnswers(w, c0, req, cfg, k);
    if !Admitted(w, c0, req, cfg) {
      SameTokens(tokens, confirmations.tokens, req.token);
    }
  }
}

/** The bulk apply protocol as a step machine: any number of handlers over shared rows and tokens.

    Every statement on the store, every upstream request and every upstream response is its own step, so handlers
    interleave between any two of them. What the outside decides (a read's answer, whether a write is acknowledged,
    whether a store statement fails and whether it took effect all the same) arrives in an `Answer`. */
module BulkProtocol {
  import opened Wrappers
  import opened BulkModel

  datatype Config = Config(
    enabled: bool, planLimit: Option<nat>, applyLimit: Option<nat>, actor: string, environment: string)

  datatype Request = Request(planId: string, token: string, key: string, stamps: seq<ConcurrencyToken>)

  datatype Snapshot = Snapshot(stamp: string, fields: Patch)

  datatype ReadAnswer = ReadOk(snapshot: Snapshot) | ReadErr(code: ReadCode)

  datatype PatchAnswer = PatchAcknowledged(stamp: Option<string>) | PatchErr

  datatype Answer = Answer(ok: bool, store: StoreAnswer, read: ReadAnswer, patch: PatchAnswer, auditId: nat)

  datatype Stored = StoredError(error: RpcError) | StoredReceipt(receipt: Receipt)

  datatype Denial =
    | PolicyDenied | PlanNotFound | PlanExpired | MaxTargetsInvalid | TargetCountInvalid
    | ConcurrencyTokenInvalid | IdempotencyConflict | PreflightReadFailed(code: ReadCode) | PreflightConflict

  datatype Response =
    | Denied(why: Denial)
    | Internal
    | Refused(refusal: ConfirmationError)
    | Pending
    | ReplayedError(error: RpcError)
    | ReplayedReceipt(receipt: Receipt)
    | TerminalFailure(error: RpcError)
    | PartialFailure(failure: Failure, receipt: Receipt)
    | Succeeded(receipt: Receipt)

  datatype Pc =
    | LoadPlan | LookupKey | ReplayCheck(stored: Stored) | LookupToken | PreflightRead(i: nat)
    | MarkStarted | ConsumeSelect | ConsumeUpdate | ClearStarted(refusal: ConfirmationError)
    | SaveInitial | LoopRead(i: nat) | SendPatch(i: nat) | AwaitPatch(i: nat) | PostRead(i: nat)
    | Cohere(i: nat, observed: string) | SaveProgress(i: nat) | SaveStop
    | Conclude | SaveTerminal(terminal: RpcError) | SaveReceipt
    | Done(response: Response) | Crashed

  /** `owner` holds from a successful mark until a successful clear, `entered` from the consumed token on; `sent` and
      `acks` count this handler's PATCHes; `startedAt` is the time it read in front of its mark. */
  datatype Handler = Handler(
    req: Request, cfg: Config, plan: Plan, pc: Pc, receipt: Receipt, failure: Option<Failure>, current: Snapshot,
    owner: bool, entered: bool, sent: nat, acks: nat, startedAt: nat)

  const NO_PLAN := Plan("", OpHash([]), "", "", "", [], 0)

  function NewHandler(req: Request, cfg: Config): Handler {
    Handler(req, cfg, NO_PLAN, LoadPlan, InitialReceipt(NO_PLAN, 0, 0), None, Snapshot("", map[]), false, false, 0, 0,
            0)
  }

  predicate Stopped(l: Handler) {
    l.pc.Done? || l.pc.Crashed?
  }

  function BindingOf(l: Handler): Binding {
    Binding(l.cfg.actor, l.cfg.actor, APPLY_TOOL, l.plan.opHash, l.cfg.environment)
  }

  /** What a handler sees of the shared state when it moves. */
  datatype View = View(now: nat, plan: Option<Plan>, row: Option<Row>, token: Option<Confirmation>)

  /** What a move does: the handler's next state, the row it leaves, and its effects on the token and on upstream. */
  datatype Outcome = Outcome(next: Handler, row: Option<Row>, consumes: bool, sends: bool, acks: bool)

  // ---- preflight: reads and local checks only ----

  function PlanCheck(v: View, l: Handler, a: Answer): Handler {
    if !l.cfg.enabled then l.(pc := Done(Denied(PolicyDenied)))
    else if !a.ok then l.(pc := Done(Internal))
    else if v.plan.None? then l.(pc := Done(Denied(PlanNotFound)))
    else
      var p := v.plan.value;
      var limit := TargetLimit(l.cfg.planLimit, l.cfg.applyLimit);
      if p.expiresAt <= v.now then l.(pc := Done(Denied(PlanExpired)))
      else if limit.None? then l.(pc := Done(Denied(MaxTargetsInvalid)))
      else if |p.targets| < MIN_TARGETS || |p.targets| > limit.value then l.(pc := Done(Denied(TargetCountInvalid)))
      else if l.req.stamps != ExpectedTokens(p.targets) then l.(pc := Done(Denied(ConcurrencyTokenInvalid)))
      else if p.actor != l.cfg.actor || p.requester != l.cfg.actor || p.environment != l.cfg.environment
      then l.(pc := Done(Refused(BindingMismatch)))
      else l.(plan := p, pc := LookupKey)
  }

  function KeyCheck(v: View, l: Handler, a: Answer): Handler {
    if !a.ok then l.(pc := Done(Internal))
    else if v.row.None? || v.row.value.expiresAt <= v.now then l.(pc := Done(Denied(IdempotencyConflict)))
    else
      var row := v.row.value;
      if row.opHash != l.plan.opHash then l.(pc := Done(Denied(IdempotencyConflict)))
      else if row.terminal.Some? then l.(pc := ReplayCheck(StoredError(row.terminal.value)))
      else if row.receipt.Some? then l.(pc := ReplayCheck(StoredReceipt(row.receipt.value)))
      else if row.started.Some? then l.(pc := Done(Pending))
      else l.(pc := LookupToken)
  }

  function Replayed(stored: Stored): Response {
    match stored
    case StoredError(e) => ReplayedError(e)
    case StoredReceipt(r) => ReplayedReceipt(r.(replay := true))
  }

  function PreflightStep(v: View, l: Handler, a: Answer): Handler
    requires l.pc.LoadPlan? || l.pc.LookupKey? || l.pc.ReplayCheck? || l.pc.LookupToken? || l.pc.PreflightRead?
  {
    match l.pc
    case LoadPlan => PlanCheck(v, l, a)
    case LookupKey => KeyCheck(v, l, a)
    case ReplayCheck(stored) =>
      var refusal := ValidateReplay(if a.ok then v.token else None, BindingOf(l), v.now);
      l.(pc := Done(if refusal.Some? then Refused(refusal.value) else Replayed(stored)))
    case LookupToken =>
      if !a.ok then l.(pc := Done(Internal))
      else if v.token.None? then l.(pc := Done(Refused(NotFound)))
      else
        var refusal := ValidateRecord(v.token.value, BindingOf(l), v.now);
        l.(pc := if refusal.Some? then Done(Refused(refusal.value)) else PreflightRead(0))
    case PreflightRead(i) =>
      if i < |l.plan.targets| then
        match a.read
        case ReadErr(code) => l.(pc := Done(Denied(PreflightReadFailed(code))))
        case ReadOk(current) =>
          if current.stamp != l.plan.targets[i].stamp then l.(pc := Done(Denied(PreflightConflict)))
          else l.(pc := PreflightRead(i + 1))
      else l.(pc := if a.ok then MarkStarted else Done(Internal))
  }

  // ---- acquiring the key and the token ----

  function AcquireStep(v: View, h: nat, l: Handler, a: Answer): Outcome
    requires l.pc.MarkStarted? || l.pc.ConsumeSelect? || l.pc.ConsumeUpdate? || l.pc.ClearStarted?
  {
    match l.pc
    case MarkStarted =>
      var marked := CanMark(v.row) && !a.store.FailedBeforeCommit?;
      Outcome(l.(owner := marked, startedAt := v.now,
                 pc := if marked && a.store.Committed? then ConsumeSelect else Done(Pending)),
              Unless(v.row, Marked(v.row, Mark(v.now, h)), a.store), false, false, false)
    case ConsumeSelect =>
      var refusal := ConsumeRefusal(if a.ok then v.token else None, BindingOf(l), v.now);
      Outcome(l.(pc := if refusal.Some? then ClearStarted(refusal.value) else ConsumeUpdate),
              v.row, false, false, false)
    case ConsumeUpdate =>
      var effective := CanConsume(v.token) && !a.store.FailedBeforeCommit?;
      if effective && a.store.Committed? then
        Outcome(l.(entered := true, pc := SaveInitial, receipt := InitialReceipt(l.plan, a.auditId, l.startedAt)),
                v.row, true, false, false)
      else
        Outcome(l.(pc := ClearStarted(if a.store.Committed? then AlreadyConsumed else NotFound)),
                v.row, effective, false, false)
    case ClearStarted(refusal) =>
      Outcome(l.(owner := a.store.FailedBeforeCommit?,
        pc := Done(if a.store.Committed? then Refused(refusal) else Pending)),
              Unless(v.row, Unmarked(v.row), a.store), false, false, false)
  }

  // ---- the PATCH loop ----

  /** The statement's report decides where the handler goes; the row changes as the statement did. */
  function Saving(v: View, l: Handler, after: Option<Row>, next: Pc, a: Answer): Outcome {
    Outcome(l.(pc := if a.store.Committed? then next else Done(Pending)), Unless(v.row, after, a.store),
            false, false, false)
  }

  function FailAt(l: Handler, i: nat, code: FailureCode, observed: string, next: Pc): Handler
    requires i < |l.receipt.results|
  {
    l.(failure := Some(Failure(code, false)),
       receipt := MarkedFailedAndRemaining(l.receipt, i, code, observed), pc := next)
  }

  function ApplyAt(l: Handler, i: nat, observed: string): Receipt
    requires i < |l.receipt.results| && i < |l.plan.targets|
  {
    MarkedApplied(l.receipt, i, l.plan.targets[i], l.current.fields, observed)
  }

  function LoseCoherence(l: Handler, i: nat, observed: string): Handler
    requires i < |l.receipt.results| && i < |l.plan.targets|
  {
    l.(failure := Some(Failure(LocalCoherenceFailed, true)), pc := SaveStop,
       receipt := MarkedNotAttemptedAfter(ApplyAt(l.(receipt := l.receipt.(cacheCoherent := false)), i, observed), i))
  }

  predicate InRange(l: Handler, i: nat) {
    i < |l.plan.targets| == |l.receipt.results|
  }

  /** The program counter points at a planned target and the receipt has a result for it. */
  predicate Ready(l: Handler) {
    match l.pc
    case LoopRead(i) => i <= |l.plan.targets| == |l.receipt.results|
    case SendPatch(i) => InRange(l, i)
    case AwaitPatch(i) => InRange(l, i)
    case PostRead(i) => InRange(l, i)
    case Cohere(i, _) => InRange(l, i)
    case SaveProgress(i) => InRange(l, i)
    case _ => true
  }

  predicate InLoop(pc: Pc) {
    pc.SaveInitial? || pc.LoopRead? || pc.SendPatch? || pc.AwaitPatch? || pc.PostRead? || pc.Cohere?
    || pc.SaveProgress? || pc.SaveStop?
  }

  function LoopStep(v: View, l: Handler, a: Answer): Outcome
    requires Ready(l) && InLoop(l.pc)
  {
    match l.pc
    case SaveInitial => Saving(v, l, WithProgress(v.row, l.receipt), LoopRead(0), a)
    case LoopRead(i) =>
      var next :=
        if i == |l.plan.targets| then l.(pc := Conclude)
        else match a.read
             case ReadErr(code) => FailAt(l, i, ReadFailed(code), "", Conclude)
             case ReadOk(current) =>
               if current.stamp != l.plan.targets[i].stamp
               then FailAt(l, i, ConcurrencyConflict, current.stamp, Conclude)
               else l.(current := current, pc := SendPatch(i));
      Outcome(next, v.row, false, false, false)
    case SendPatch(i) => Outcome(l.(sent := l.sent + 1, pc := AwaitPatch(i)), v.row, false, true, false)
    case AwaitPatch(i) =>
      (match a.patch
       case PatchErr => Outcome(FailAt(l, i, UpstreamError, l.current.stamp, SaveStop), v.row, false, false, false)
       case PatchAcknowledged(stamp) =>
         Outcome(l.(acks := l.acks + 1, pc := if stamp.Some? then Cohere(i, stamp.value) else PostRead(i)),
                 v.row, false, false, true))
    case PostRead(i) =>
      var next := if a.read.ReadOk? then l.(pc := Cohere(i, a.read.snapshot.stamp))
                  else LoseCoherence(l, i, l.current.stamp);
      Outcome(next, v.row, false, false, false)
    case Cohere(i, observed) =>
      var next := if a.ok then l.(receipt := ApplyAt(l, i, observed), pc := SaveProgress(i))
                  else LoseCoherence(l, i, observed);
      Outcome(next, v.row, false, false, false)
    case SaveProgress(i) => Saving(v, l, WithProgress(v.row, l.receipt), LoopRead(i + 1), a)
    case SaveStop => Saving(v, l, WithProgress(v.row, l.receipt), Conclude, a)
  }

  // ---- the outcome ----

  function TerminalError(code: FailureCode): RpcError {
    match code
    case ConcurrencyConflict => RpcError(-32053, "CONCURRENCY_CONFLICT")
    case ReadFailed(AclDenied) => RpcError(-32003, "ACL_DENIED")
    case ReadFailed(ServiceNowUnavailable) => RpcError(-32001, "SERVICENOW_UNAVAILABLE")
    case ReadFailed(StateUnresolved) => RpcError(-32602, "INCIDENT_STATE_UNRESOLVED")
    case ReadFailed(ServiceNowError) => RpcError(-32000, "SERVICENOW_ERROR")
    case _ => RpcError(-32059, "UPSTREAM_ERROR")
  }

  function ConcludeStep(v: View, l: Handler, a: Answer): Outcome
    requires l.pc.Conclude? || l.pc.SaveTerminal? || l.pc.SaveReceipt?
  {
    match l.pc
    case Conclude =>
      var counted := Recounted(l.receipt.(completedAt := v.now));
      var next :=
        if l.failure.Some? && counted.applied == 0
        then l.(receipt := counted, pc := SaveTerminal(TerminalError(l.failure.value.code)))
        else l.(receipt := counted.(status := if l.failure.Some? then Partial else counted.status), pc := SaveReceipt);
      Outcome(if a.ok then next else next.(pc := Done(Pending)), v.row, false, false, false)
    case SaveTerminal(e) => Saving(v, l, WithTerminal(v.row, e), Done(TerminalFailure(e)), a)
    case SaveReceipt =>
      var response := if l.failure.Some? then PartialFailure(l.failure.value, l.receipt) else Succeeded(l.receipt);
      Saving(v, l, WithReceipt(v.row, l.receipt), Done(response), a)
  }

  function LocalStep(v: View, h: nat, l: Handler, a: Answer): Outcome
    requires Ready(l) && !Stopped(l)
  {
    if InLoop(l.pc) then LoopStep(v, l, a)
    else if l.pc.Conclude? || l.pc.SaveTerminal? || l.pc.SaveReceipt? then ConcludeStep(v, l, a)
    else if l.pc.MarkStarted? || l.pc.ConsumeSelect? || l.pc.ConsumeUpdate? || l.pc.ClearStarted?
    then AcquireStep(v, h, l, a)
    else Outcome(PreflightStep(v, l, a), v.row, false, false, false)
  }

  // ---- the whole system ----

  /** One PATCH request that left the daemon, with the stamp read just before it. */
  datatype Sent = Sent(h: nat, index: nat, key: string, token: string, sysId: string, patch: Patch, readStamp: string)

  /** `usedKeys` holds every key ever reserved; `issued`, `acked` and `effected` are the history of upstream writes. */
  datatype Sys = Sys(
    now: nat, plans: map<string, Plan>, rows: Rows, usedKeys: set<string>, tokens: map<string, Confirmation>,
    handlers: map<nat, Handler>, issued: seq<Sent>, acked: set<(nat, nat)>, effected: set<(nat, nat)>)

  datatype Event =
    | Move(h: nat, a: Answer)
    | Crash(h: nat)
    | Arrive(h: nat, req: Request, cfg: Config)
    | Tick
    | StorePlan(plan: Plan)
    | IssueToken(token: string, binding: Binding, expiresAt: nat)
    | ReserveKey(key: string, opHash: OpHash, expiresAt: nat)
    | Purge(key: string)
    | Revoke(token: string)
    | SpendElsewhere(token: string)
    | UpstreamApplies(h: nat, index: nat)

  const START := Sys(0, map[], map[], {}, map[], map[], [], {}, {})

  function ViewOf(s: Sys, l: Handler): View {
    View(s.now,
         if l.req.planId in s.plans then Some(s.plans[l.req.planId]) else None,
         Get(s.rows, l.req.key),
         if l.req.token in s.tokens then Some(s.tokens[l.req.token]) else None)
  }

  ghost predicate Enabled(s: Sys, e: Event) {
    match e
    case Move(h, _) => h in s.handlers && !Stopped(s.handlers[h]) && Ready(s.handlers[h])
    case Crash(h) => h in s.handlers && !Stopped(s.handlers[h])
    case Arrive(h, _, _) => h !in s.handlers
    case Tick => true
    case StorePlan(p) => p.planId !in s.plans && WellFormed(p)
    case IssueToken(t, _, _) => t !in s.tokens
    case ReserveKey(k, _, _) => k !in s.usedKeys
    case Purge(k) => k in s.rows && s.rows[k].expiresAt <= s.now
    case Revoke(t) => t in s.tokens
    case SpendElsewhere(t) => t in s.tokens
    case UpstreamApplies(h, i) => h in s.handlers && i < s.handlers[h].sent
  }

  function SentBy(h: nat, l: Handler): Sent
    requires l.pc.SendPatch? && Ready(l)
  {
    var t := l.plan.targets[l.pc.i];
    Sent(h, l.pc.i, l.req.key, l.req.token, t.sysId, t.patch, l.current.stamp)
  }

  function Moved(s: Sys, h: nat, a: Answer): Sys
    requires h in s.handlers && !Stopped(s.handlers[h]) && Ready(s.handlers[h])
  {
    var l := s.handlers[h];
    var o := LocalStep(ViewOf(s, l), h, l, a);
    s.(rows := Put(s.rows, l.req.key, o.row),
       tokens := if o.consumes && l.req.token in s.tokens
                 then s.tokens[l.req.token := s.tokens[l.req.token].(consumed := true)] else s.tokens,
       handlers := s.handlers[h := o.next],
       issued := if o.sends && l.pc.SendPatch? then s.issued + [SentBy(h, l)] else s.issued,
       acked := if o.acks && l.pc.AwaitPatch? then s.acked + {(h, l.pc.i)} else s.acked,
       effected := if o.acks && l.pc.AwaitPatch? then s.effected + {(h, l.pc.i)} else s.effected)
  }

  ghost function Do(s: Sys, e: Event): Sys
    requires Enabled(s, e)
  {
    match e
    case Move(h, a) => Moved(s, h, a)
    case Crash(h) => s.(handlers := s.handlers[h := s.handlers[h].(pc := Crashed)])
    case Arrive(h, req, cfg) => s.(handlers := s.handlers[h := NewHandler(req, cfg)])
    case Tick => s.(now := s.now + 1)
    case StorePlan(p) => s.(plans := s.plans[p.planId := p])
    case IssueToken(t, b, expires) => s.(tokens := s.tokens[t := Confirmation(b, expires, false, false)])
    case ReserveKey(k, opHash, expires) =>
      s.(rows := s.rows[k := Row(opHash, None, None, None, None, expires)], usedKeys := s.usedKeys + {k})
    case Purge(k) => s.(rows := s.rows - {k})
    case Revoke(t) => s.(tokens := s.tokens[t := s.tokens[t].(revoked := true)])
    case SpendElsewhere(t) => s.(tokens := s.tokens[t := s.tokens[t].(consumed := true)])
    case UpstreamApplies(h, i) => s.(effected := s.effected + {(h, i)})
  }

  /** A run: the states visited and the events between them. */
  ghost predicate Run(states: seq<Sys>, events: seq<Event>) {
    && |states| == |events| + 1 && states[0] == START
    && forall i :: 0 <= i < |events| ==> Enabled(states[i], events[i]) && states[i + 1] == Do(states[i], events[i])
  }
}

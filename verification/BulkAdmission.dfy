/** What lets a bulk apply past its checks, said of the plan, the row and the token themselves: exactly when a lone call
    gets as far as marking its key, and the answer it gives when it does not. */
module BulkAdmission {
  import opened Wrappers
  import opened BulkModel
  import opened BulkProtocol
  import opened BulkLone

  // ---- the conditions ----

  /** Both limits are set, and the lesser lies in 3..=25. */
  predicate LimitsSet(cfg: Config) {
    && cfg.planLimit.Some? && 3 <= cfg.planLimit.value
    && cfg.applyLimit.Some? && 3 <= cfg.applyLimit.value
    && (cfg.planLimit.value <= 25 || cfg.applyLimit.value <= 25)
  }

  predicate CountAllowed(p: Plan, cfg: Config)
    requires LimitsSet(cfg)
  {
    3 <= |p.targets| && |p.targets| <= cfg.planLimit.value && |p.targets| <= cfg.applyLimit.value
  }

  /** The supplied tokens name the planned targets, each with its planned stamp, in the plan's order. */
  predicate TokensMatch(stamps: seq<ConcurrencyToken>, ts: seq<Target>) {
    && |stamps| == |ts|
    && forall k :: 0 <= k < |ts| ==> stamps[k].sysId == ts[k].sysId && stamps[k].stamp == ts[k].stamp
  }

  predicate SameCaller(p: Plan, cfg: Config) {
    p.actor == cfg.actor && p.requester == cfg.actor && p.environment == cfg.environment
  }

  predicate PlanStands(p: Plan, req: Request, cfg: Config, now: nat) {
    && now < p.expiresAt && LimitsSet(cfg) && CountAllowed(p, cfg)
    && TokensMatch(req.stamps, p.targets) && SameCaller(p, cfg)
  }

  predicate LiveRow(row: Option<Row>, p: Plan, now: nat) {
    row.Some? && now < row.value.expiresAt && row.value.opHash == p.opHash
  }

  predicate Unused(row: Row) {
    row.terminal.None? && row.receipt.None? && row.started.None?
  }

  predicate BoundTo(c: Confirmation, p: Plan, cfg: Config) {
    && c.binding.actor == cfg.actor && c.binding.requester == cfg.actor
    && c.binding.tool == "incident_bulk_apply_update" && c.binding.opHash == p.opHash
    && c.binding.environment == cfg.environment
  }

  predicate TokenStands(token: Option<Confirmation>, p: Plan, cfg: Config, now: nat) {
    && token.Some? && !token.value.revoked && !token.value.consumed && now < token.value.expiresAt
    && BoundTo(token.value, p, cfg)
  }

  /** The one reason a token is refused in front of the marker. */
  predicate RefusedAs(token: Option<Confirmation>, p: Plan, cfg: Config, now: nat, e: ConfirmationError) {
    match e
    case NotFound => token.None?
    case Revoked => token.Some? && token.value.revoked
    case Expired => token.Some? && !token.value.revoked && token.value.expiresAt <= now
    case AlreadyConsumed =>
      token.Some? && !token.value.revoked && now < token.value.expiresAt && token.value.consumed
    case BindingMismatch =>
      && token.Some? && !token.value.revoked && now < token.value.expiresAt && !token.value.consumed
      && !BoundTo(token.value, p, cfg)
  }

  /** The one reason a token is refused in front of a stored outcome, where it may have been consumed. */
  predicate ReplayRefusedAs(token: Option<Confirmation>, p: Plan, cfg: Config, now: nat, e: ConfirmationError) {
    if token.None? then e == NotFound
    else RefusedAs(Some(token.value.(consumed := false)), p, cfg, now, e)
  }

  /** The one reason a token is not consumed behind the marker; there, consumption is looked at before expiry. */
  predicate ConsumeRefusedAs(token: Option<Confirmation>, p: Plan, cfg: Config, now: nat, e: ConfirmationError) {
    match e
    case NotFound => token.None?
    case Revoked => token.Some? && token.value.revoked
    case AlreadyConsumed => token.Some? && !token.value.revoked && token.value.consumed
    case Expired =>
      token.Some? && !token.value.revoked && !token.value.consumed && token.value.expiresAt <= now
    case BindingMismatch =>
      && token.Some? && !token.value.revoked && !token.value.consumed && now < token.value.expiresAt
      && !BoundTo(token.value, p, cfg)
  }

  // ---- the checks one by one, whatever the shared state ----

  lemma LimitIsTheLesser(cfg: Config, n: nat)
    ensures TargetLimit(cfg.planLimit, cfg.applyLimit).Some? <==> LimitsSet(cfg)
    ensures LimitsSet(cfg) ==>
      var limit := TargetLimit(cfg.planLimit, cfg.applyLimit).value;
      n <= limit <==> n <= cfg.planLimit.value && n <= cfg.applyLimit.value
  {
  }

  lemma TokensAreThePlans(stamps: seq<ConcurrencyToken>, ts: seq<Target>)
    ensures stamps == ExpectedTokens(ts) <==> TokensMatch(stamps, ts)
  {
    if TokensMatch(stamps, ts) {
      forall k | 0 <= k < |ts| ensures stamps[k] == ExpectedTokens(ts)[k] {
        assert stamps[k].sysId == ts[k].sysId;
      }
    }
  }

  /** The plan check passes exactly a plan that stands; otherwise its first failing condition names the answer. */
  lemma PlanAnswers(v: View, l: Handler, a: Answer)
    requires l.pc == LoadPlan
    ensures var l' := PreflightStep(v, l, a); var found := l.cfg.enabled && a.ok && v.plan.Some?;
            && l' == l.(plan := l'.plan, pc := l'.pc) && (l'.pc.LookupKey? || l'.pc.Done?)
            && (l'.pc == LookupKey <==> found && PlanStands(v.plan.value, l.req, l.cfg, v.now))
            && (l'.pc == LookupKey ==> l'.plan == v.plan.value)
            && (l'.pc == Done(Denied(PolicyDenied)) <==> !l.cfg.enabled)
            && (l'.pc == Done(Internal) <==> l.cfg.enabled && !a.ok)
            && (l'.pc == Done(Denied(PlanNotFound)) <==> l.cfg.enabled && a.ok && v.plan.None?)
            && (found ==> PlanAnswersAs(v.plan.value, l.req, l.cfg, v.now, l'.pc))
  {
    LimitIsTheLesser(l.cfg, if v.plan.Some? then |v.plan.value.targets| else 0);
    TokensAreThePlans(l.req.stamps, if v.plan.Some? then v.plan.value.targets else []);
    hide ExpectedTokens, TokensMatch, LimitsSet, TargetLimit;
  }

  /** The answers about a plan that was found. */
  predicate PlanAnswersAs(p: Plan, req: Request, cfg: Config, now: nat, pc: Pc) {
    && (pc == Done(Denied(PlanExpired)) <==> p.expiresAt <= now)
    && (pc == Done(Denied(MaxTargetsInvalid)) <==> now < p.expiresAt && !LimitsSet(cfg))
    && (pc == Done(Denied(TargetCountInvalid)) <==> now < p.expiresAt && LimitsSet(cfg) && !CountAllowed(p, cfg))
    && (pc == Done(Denied(ConcurrencyTokenInvalid)) <==>
          && now < p.expiresAt && LimitsSet(cfg) && CountAllowed(p, cfg) && !TokensMatch(req.stamps, p.targets))
    && (pc == Done(Refused(BindingMismatch)) <==>
          && now < p.expiresAt && LimitsSet(cfg) && CountAllowed(p, cfg) && TokensMatch(req.stamps, p.targets)
          && !SameCaller(p, cfg))
  }

  /** The key check passes exactly an unused live row of the plan; an outcome or a mark answers for itself. */
  lemma KeyAnswers(v: View, l: Handler, a: Answer)
    requires l.pc == LookupKey
    ensures var l' := PreflightStep(v, l, a); var live := LiveRow(v.row, l.plan, v.now);
            && l' == l.(pc := l'.pc)
            && (l'.pc == Done(Internal) <==> !a.ok)
            && (l'.pc == Done(Denied(IdempotencyConflict)) <==> a.ok && !live)
            && (l'.pc == LookupToken <==> a.ok && live && Unused(v.row.value))
            && (a.ok && live ==>
                  && (v.row.value.terminal.Some? ==> l'.pc == ReplayCheck(StoredError(v.row.value.terminal.value)))
                  && (v.row.value.terminal.None? && v.row.value.receipt.Some? ==>
                        l'.pc == ReplayCheck(StoredReceipt(v.row.value.receipt.value)))
                  && (v.row.value.terminal.None? && v.row.value.receipt.None? && v.row.value.started.Some? ==>
                        l'.pc == Done(Pending)))
  {
  }

  /** A stored outcome is given out exactly to a live token bound to this plan and caller. */
  lemma ReplayAnswers(v: View, l: Handler, a: Answer)
    requires l.pc.ReplayCheck?
    ensures var l' := PreflightStep(v, l, a); var token := if a.ok then v.token else None;
            && l' == l.(pc := l'.pc) && l'.pc.Done?
            && (forall e :: l'.pc == Done(Refused(e)) <==> ReplayRefusedAs(token, l.plan, l.cfg, v.now, e))
            && (!l'.pc.response.Refused? ==> l'.pc == Done(Replayed(l.pc.stored)))
            && (token.Some? && !token.value.revoked && v.now < token.value.expiresAt
                  && BoundTo(token.value, l.plan, l.cfg) ==>
                  l'.pc == Done(match l.pc.stored
                                case StoredError(error) => ReplayedError(error)
                                case StoredReceipt(r) => ReplayedReceipt(r.(replay := true))))
  {
  }

  lemma TokenAnswers(v: View, l: Handler, a: Answer)
    requires l.pc == LookupToken
    ensures var l' := PreflightStep(v, l, a);
            && l' == l.(pc := l'.pc)
            && (l'.pc == Done(Internal) <==> !a.ok)
            && (l'.pc == PreflightRead(0) <==> a.ok && TokenStands(v.token, l.plan, l.cfg, v.now))
            && (forall e :: l'.pc == Done(Refused(e)) <==> a.ok && RefusedAs(v.token, l.plan, l.cfg, v.now, e))
            && (a.ok && !TokenStands(v.token, l.plan, l.cfg, v.now) ==> l'.pc.Done? && l'.pc.response.Refused?)
  {
  }

  /** Each target must still carry its planned stamp; behind the last one the attempt is audited. */
  lemma ReadAnswers(v: View, l: Handler, a: Answer)
    requires l.pc.PreflightRead?
    ensures var l' := PreflightStep(v, l, a); var i := l.pc.i;
            && l' == l.(pc := l'.pc)
            && (i < |l.plan.targets| ==>
                  && (forall code :: a.read == ReadErr(code) ==> l'.pc == Done(Denied(PreflightReadFailed(code))))
                  && (a.read.ReadOk? && a.read.snapshot.stamp != l.plan.targets[i].stamp ==>
                        l'.pc == Done(Denied(PreflightConflict)))
                  && (a.read.ReadOk? && a.read.snapshot.stamp == l.plan.targets[i].stamp ==>
                        l'.pc == PreflightRead(i + 1)))
            && (i >= |l.plan.targets| ==> l'.pc == if a.ok then MarkStarted else Done(Internal))
  {
  }

  /** Behind the marker the token is looked at once more. */
  lemma ConsumeAnswers(v: View, h: nat, l: Handler, a: Answer, e: ConfirmationError)
    requires l.pc == ConsumeSelect
    ensures var o := AcquireStep(v, h, l, a); var token := if a.ok then v.token else None;
            && o == Outcome(l.(pc := o.next.pc), v.row, false, false, false)
            && (o.next.pc == ConsumeUpdate <==> TokenStands(token, l.plan, l.cfg, v.now))
            && (o.next.pc == ClearStarted(e) <==> ConsumeRefusedAs(token, l.plan, l.cfg, v.now, e))
            && (o.next.pc == ConsumeUpdate || o.next.pc.ClearStarted?)
  {
  }

  /** The update turns an unconsumed, unrevoked token and no other; only its own confirmed turn lets the call in. */
  lemma UpdateAnswers(v: View, h: nat, l: Handler, a: Answer)
    requires l.pc == ConsumeUpdate
    ensures var o := AcquireStep(v, h, l, a);
            var turns := v.token.Some? && !v.token.value.consumed && !v.token.value.revoked;
            && o.row == v.row && !o.sends && !o.acks && o.next.owner == l.owner
            && (o.consumes <==> turns && !a.store.FailedBeforeCommit?)
            && (o.next.pc == SaveInitial <==> turns && a.store.Committed?)
            && (o.next.pc == ClearStarted(AlreadyConsumed) <==> !turns && a.store.Committed?)
            && (o.next.pc == ClearStarted(NotFound) <==> !a.store.Committed?)
            && (o.next.pc == SaveInitial ==>
                  && o.next.entered && o.next.receipt.auditId == a.auditId && o.next.receipt.status == Success
                  && o.next.receipt.startedAt == o.next.receipt.completedAt == l.startedAt)
  {
  }

  // ---- a lone call ----

  predicate PlanFound(w: World, cfg: Config) {
    cfg.enabled && w.answers(0).ok && w.plan.Some?
  }

  predicate PlanAdmitted(w: World, req: Request, cfg: Config) {
    PlanFound(w, cfg) && PlanStands(w.plan.value, req, cfg, w.now)
  }

  predicate KeyFound(w: World, c0: Cell, req: Request, cfg: Config) {
    PlanAdmitted(w, req, cfg) && w.answers(1).ok && LiveRow(c0.row, w.plan.value, w.now)
  }

  predicate KeyAdmitted(w: World, c0: Cell, req: Request, cfg: Config) {
    KeyFound(w, c0, req, cfg) && Unused(c0.row.value)
  }

  predicate TokenAdmitted(w: World, c0: Cell, req: Request, cfg: Config) {
    KeyAdmitted(w, c0, req, cfg) && w.answers(2).ok && TokenStands(c0.token, w.plan.value, cfg, w.now)
  }

  /** The preflight read of target `i` finds its planned stamp. */
  predicate ReadFinds(w: World, p: Plan, i: nat)
    requires i < |p.targets|
  {
    w.answers(3 + i).read.ReadOk? && w.answers(3 + i).read.snapshot.stamp == p.targets[i].stamp
  }

  predicate Unchanged(w: World, p: Plan, n: nat)
    requires n <= |p.targets|
  {
    forall i :: 0 <= i < n ==> ReadFinds(w, p, i)
  }

  /** The first preflight read that does not. */
  predicate FailsFirst(w: World, p: Plan, i: nat) {
    i < |p.targets| && Unchanged(w, p, i) && !ReadFinds(w, p, i)
  }

  predicate Admitted(w: World, c0: Cell, req: Request, cfg: Config) {
    && TokenAdmitted(w, c0, req, cfg)
    && Unchanged(w, w.plan.value, |w.plan.value.targets|) && w.answers(3 + |w.plan.value.targets|).ok
  }

  /** The moves a call has made when it has passed every check. */
  function Checks(w: World): nat {
    4 + if w.plan.Some? then |w.plan.value.targets| else 0
  }

  predicate Finished(row: Row) {
    row.terminal.Some? || row.receipt.Some?
  }

  /** The stored outcome as it is given out again. */
  function StoredAnswer(row: Row): Response
    requires Finished(row)
  {
    if row.terminal.Some? then ReplayedError(row.terminal.value)
    else ReplayedReceipt(row.receipt.value.(replay := true))
  }

  /** The answer of a call that is not admitted, named by the first condition it fails. */
  ghost predicate AnswersAs(w: World, c0: Cell, req: Request, cfg: Config, pc: Pc) {
    && (!cfg.enabled ==> pc == Done(Denied(PolicyDenied)))
    && (cfg.enabled && !w.answers(0).ok ==> pc == Done(Internal))
    && (cfg.enabled && w.answers(0).ok && w.plan.None? ==> pc == Done(Denied(PlanNotFound)))
    && (PlanFound(w, cfg) && !PlanAdmitted(w, req, cfg) ==>
          pc.Done? && PlanAnswersAs(w.plan.value, req, cfg, w.now, pc))
    && (PlanAdmitted(w, req, cfg) && !w.answers(1).ok ==> pc == Done(Internal))
    && (PlanAdmitted(w, req, cfg) && w.answers(1).ok && !LiveRow(c0.row, w.plan.value, w.now) ==>
          pc == Done(Denied(IdempotencyConflict)))
    && (KeyFound(w, c0, req, cfg) && Finished(c0.row.value) ==> ReplaysAs(w, c0, cfg, pc))
    && (KeyFound(w, c0, req, cfg) && !Finished(c0.row.value) && c0.row.value.started.Some? ==> pc == Done(Pending))
    && (KeyAdmitted(w, c0, req, cfg) && !w.answers(2).ok ==> pc == Done(Internal))
    && (KeyAdmitted(w, c0, req, cfg) && w.answers(2).ok && !TokenAdmitted(w, c0, req, cfg) ==>
          pc.Done? && forall e :: pc == Done(Refused(e)) <==> RefusedAs(c0.token, w.plan.value, cfg, w.now, e))
    && (TokenAdmitted(w, c0, req, cfg) ==> ReadsAs(w, w.plan.value, pc))
  }

  ghost predicate ReplaysAs(w: World, c0: Cell, cfg: Config, pc: Pc)
    requires w.plan.Some? && c0.row.Some? && Finished(c0.row.value)
  {
    var token := if w.answers(2).ok then c0.token else None;
    && pc.Done?
    && (forall e :: pc == Done(Refused(e)) <==> ReplayRefusedAs(token, w.plan.value, cfg, w.now, e))
    && (!pc.response.Refused? ==> pc == Done(StoredAnswer(c0.row.value)))
  }

  ghost predicate ReadsAs(w: World, p: Plan, pc: Pc) {
    && (forall i: nat, code :: FailsFirst(w, p, i) && w.answers(3 + i).read == ReadErr(code) ==>
          pc == Done(Denied(PreflightReadFailed(code))))
    && (forall i: nat :: FailsFirst(w, p, i) && w.answers(3 + i).read.ReadOk? ==> pc == Done(Denied(PreflightConflict)))
    && (Unchanged(w, p, |p.targets|) ==> pc == if w.answers(3 + |p.targets|).ok then MarkStarted else Done(Internal))
  }

  lemma {:induction false} StoppedStays(w: World, c0: Cell, k: nat, n: nat)
    requires k <= n && Stopped(Alone(w, c0, k).l)
    ensures Alone(w, c0, n) == Alone(w, c0, k)
  {
    if k == n {
    } else {
      StoppedStays(w, c0, k, n - 1);
    }
  }

  lemma PlanMoves(w: World, c0: Cell, req: Request, cfg: Config)
    requires c0.l == NewHandler(req, cfg)
    ensures var c := Alone(w, c0, 1);
            && c == c0.(l := c0.l.(plan := c.l.plan, pc := c.l.pc))
            && (PlanAdmitted(w, req, cfg) ==> c.l.pc == LookupKey && c.l.plan == w.plan.value)
            && (!PlanAdmitted(w, req, cfg) ==> c.l.pc.Done? && AnswersAs(w, c0, req, cfg, c.l.pc))
  {
    assert Alone(w, c0, 0) == c0;
    PreflightMoves(w, c0, 0);
    PlanAnswers(ViewIn(w, c0), c0.l, w.answers(0));
    hide Alone, PlanCheck, PlanStands, RefusedAs, ReplaysAs, ReadsAs;
  }

  /** The handler of a call whose plan was admitted. */
  function Loaded(w: World, c0: Cell, pc: Pc): Cell
    requires w.plan.Some?
  {
    c0.(l := c0.l.(plan := w.plan.value, pc := pc))
  }

  lemma KeyMoves(w: World, c0: Cell, req: Request, cfg: Config)
    requires c0.l == NewHandler(req, cfg) && PlanAdmitted(w, req, cfg)
    ensures var c := Alone(w, c0, 2); var pc := c.l.pc;
            && c == Loaded(w, c0, pc)
            && (KeyAdmitted(w, c0, req, cfg) ==> pc == LookupToken)
            && (KeyFound(w, c0, req, cfg) && Finished(c0.row.value) ==>
                  pc.ReplayCheck? && Replayed(pc.stored) == StoredAnswer(c0.row.value))
            && (!KeyAdmitted(w, c0, req, cfg) && !(KeyFound(w, c0, req, cfg) && Finished(c0.row.value)) ==>
                  pc.Done? && AnswersAs(w, c0, req, cfg, pc))
  {
    PlanMoves(w, c0, req, cfg);
    PreflightMoves(w, c0, 1);
    KeyAnswers(ViewIn(w, Alone(w, c0, 1)), Alone(w, c0, 1).l, w.answers(1));
    hide Alone, KeyCheck, PlanStands, RefusedAs, ReplaysAs, ReadsAs;
  }

  lemma ReplayMoves(w: World, c0: Cell, req: Request, cfg: Config)
    requires c0.l == NewHandler(req, cfg) && KeyFound(w, c0, req, cfg) && Finished(c0.row.value)
    ensures var c := Alone(w, c0, 3);
            c == Loaded(w, c0, c.l.pc) && c.l.pc.Done? && AnswersAs(w, c0, req, cfg, c.l.pc)
  {
    hide Alone, PlanStands, RefusedAs, PreflightStep;
    KeyMoves(w, c0, req, cfg);
    PreflightMoves(w, c0, 2);
    ReplayAnswers(ViewIn(w, Alone(w, c0, 2)), Alone(w, c0, 2).l, w.answers(2));
  }

  lemma TokenMoves(w: World, c0: Cell, req: Request, cfg: Config)
    requires c0.l == NewHandler(req, cfg) && KeyAdmitted(w, c0, req, cfg)
    ensures var c := Alone(w, c0, 3); var pc := c.l.pc;
            && c == Loaded(w, c0, pc)
            && (TokenAdmitted(w, c0, req, cfg) ==> pc == PreflightRead(0))
            && (!TokenAdmitted(w, c0, req, cfg) ==> pc.Done? && AnswersAs(w, c0, req, cfg, pc))
  {
    hide Alone, PlanStands, RefusedAs, ReadsAs, ReplaysAs, PreflightStep, LiveRow;
    KeyMoves(w, c0, req, cfg);
    PreflightMoves(w, c0, 2);
    TokenAnswers(ViewIn(w, Alone(w, c0, 2)), Alone(w, c0, 2).l, w.answers(2));
  }

  /** After `n` reads the call stands in front of the next one, or has stopped at the first target that drifted. */
  lemma {:induction false} CheckReadMoves(w: World, c0: Cell, req: Request, cfg: Config, n: nat) returns (first: nat)
    requires c0.l == NewHandler(req, cfg) && TokenAdmitted(w, c0, req, cfg) && n <= |w.plan.value.targets|
    ensures var p, c := w.plan.value, Alone(w, c0, 3 + n);
            if Unchanged(w, p, n) then c == Loaded(w, c0, PreflightRead(n))
            else
              && first < n && FailsFirst(w, p, first) && c == Loaded(w, c0, c.l.pc) && c.l.pc.Done?
              && c.l.pc.response == Denied(match w.answers(3 + first).read
                                           case ReadErr(code) => PreflightReadFailed(code)
                                           case ReadOk(_) => PreflightConflict)
  {
    hide Alone, PlanStands, TokenStands, PreflightStep;
    first := 0;
    var p := w.plan.value;
    if n == 0 {
      TokenMoves(w, c0, req, cfg);
    } else {
      first := CheckReadMoves(w, c0, req, cfg, n - 1);
      assert 3 + (n - 1) + 1 == 3 + n;
      if Unchanged(w, p, n - 1) {
        PreflightMoves(w, c0, 3 + (n - 1));
        ReadAnswers(ViewIn(w, Alone(w, c0, 3 + (n - 1))), Alone(w, c0, 3 + (n - 1)).l, w.answers(3 + (n - 1)));
        if !ReadFinds(w, p, n - 1) {
          first := n - 1;
        }
      } else {
        StoppedStays(w, c0, 3 + (n - 1), 3 + n);
      }
    }
  }

  lemma OneFailsFirst(w: World, p: Plan, i: nat, k: nat)
    requires FailsFirst(w, p, i) && FailsFirst(w, p, k)
    ensures i == k
  {
  }

  lemma TargetMoves(w: World, c0: Cell, req: Request, cfg: Config)
    requires c0.l == NewHandler(req, cfg) && TokenAdmitted(w, c0, req, cfg)
    ensures var c := Alone(w, c0, Checks(w));
            c == Loaded(w, c0, c.l.pc) && ReadsAs(w, w.plan.value, c.l.pc) && (c.l.pc == MarkStarted || c.l.pc.Done?)
            && (c.l.pc == MarkStarted <==> Admitted(w, c0, req, cfg))
  {
    hide Alone, PlanStands, TokenStands, PreflightStep, ReadFinds;
    var p := w.plan.value;
    var n := |p.targets|;
    var first := CheckReadMoves(w, c0, req, cfg, n);
    if Unchanged(w, p, n) {
      PreflightMoves(w, c0, 3 + n);
      ReadAnswers(ViewIn(w, Alone(w, c0, 3 + n)), Alone(w, c0, 3 + n).l, w.answers(3 + n));
    } else {
      StoppedStays(w, c0, 3 + n, 4 + n);
      forall i: nat | FailsFirst(w, p, i) ensures i == first {
        OneFailsFirst(w, p, i, first);
      }
    }
  }

  /** A lone call comes to mark its key exactly if plan, row, token and every target pass; otherwise the first condition
      that fails names its answer. Either way it has sent nothing and changed neither row nor token. */
  lemma AdmissionIsExact(w: World, c0: Cell, req: Request, cfg: Config)
    requires c0.l == NewHandler(req, cfg)
    ensures var c := Alone(w, c0, Checks(w)); var pc := c.l.pc;
            && c == c0.(l := c0.l.(plan := c.l.plan, pc := pc)) && c.l.sent == 0
            && (pc == MarkStarted <==> Admitted(w, c0, req, cfg))
            && (pc == MarkStarted ==> c.l.plan == w.plan.value)
            && (pc != MarkStarted ==> pc.Done? && AnswersAs(w, c0, req, cfg, pc))
  {
    hide Alone, PlanStands, TokenStands, ReadFinds, ReadsAs, ReplaysAs, RefusedAs;
    PlanMoves(w, c0, req, cfg);
    if !PlanAdmitted(w, req, cfg) {
      StoppedStays(w, c0, 1, Checks(w));
    } else {
      KeyMoves(w, c0, req, cfg);
      if KeyFound(w, c0, req, cfg) && Finished(c0.row.value) {
        ReplayMoves(w, c0, req, cfg);
        StoppedStays(w, c0, 3, Checks(w));
      } else if !KeyAdmitted(w, c0, req, cfg) {
        StoppedStays(w, c0, 2, Checks(w));
      } else {
        TokenMoves(w, c0, req, cfg);
        if TokenAdmitted(w, c0, req, cfg) {
          TargetMoves(w, c0, req, cfg);
        } else {
          StoppedStays(w, c0, 3, Checks(w));
        }
      }
    }
  }

  // ---- the answer of a whole call ----

  /** Behind the checks no answer denies the call or replays another. */
  ghost predicate Onward(l: Handler) {
    !Preflighting(l.pc) && (l.pc.Done? ==> !Denying(l.pc.response) && !Replaying(l.pc.response))
  }

  predicate Denying(response: Response) {
    response.Denied? || response.Internal?
  }

  predicate Replaying(response: Response) {
    response.ReplayedError? || response.ReplayedReceipt?
  }

  lemma LoopGoesOn(v: View, l: Handler, a: Answer)
    requires Ready(l) && InLoop(l.pc)
    ensures Onward(LoopStep(v, l, a).next)
  {
    hide MarkedApplied, MarkedNotAttemptedAfter, MarkedFailedAndRemaining;
  }

  lemma RestGoesOn(v: View, h: nat, l: Handler, a: Answer)
    requires Ready(l) && !Stopped(l) && !InLoop(l.pc) && !Preflighting(l.pc)
    ensures Onward(LocalStep(v, h, l, a).next)
  {
    hide Recounted, TerminalError, InitialReceipt, ConsumeRefusal;
  }

  lemma MoveGoesOn(v: View, h: nat, l: Handler, a: Answer)
    requires Ready(l) && !Stopped(l) && !Preflighting(l.pc)
    ensures Onward(LocalStep(v, h, l, a).next)
  {
    hide LoopStep, AcquireStep, ConcludeStep, PreflightStep;
    if InLoop(l.pc) {
      LoopGoesOn(v, l, a);
    } else {
      RestGoesOn(v, h, l, a);
    }
  }

  lemma {:induction false} StaysOnward(w: World, c0: Cell, k: nat, n: nat)
    requires k <= n && Onward(Alone(w, c0, k).l)
    ensures Onward(Alone(w, c0, n).l)
  {
    hide LocalStep;
    if k == n {
    } else {
      StaysOnward(w, c0, k, n - 1);
      var c := Alone(w, c0, n - 1);
      if Ready(c.l) && !Stopped(c.l) {
        MoveGoesOn(ViewIn(w, c), w.h, c.l, w.answers(n - 1));
      }
    }
  }

  ghost predicate CallFits(w: World, c0: Cell, req: Request, cfg: Config, k: nat)
    requires Alone(w, c0, k).l.pc.Done?
  {
    var c := Alone(w, c0, k);
    if Admitted(w, c0, req, cfg) then !Denying(c.l.pc.response) && !Replaying(c.l.pc.response)
    else AnswersAs(w, c0, req, cfg, c.l.pc) && c.l.sent == 0 && c.row == c0.row && c.token == c0.token
  }

  /** However long it runs, a call that is not admitted has sent nothing, changed nothing and answers as said above; one
      that is admitted is never denied and never replays. */
  lemma CallAnswers(w: World, c0: Cell, req: Request, cfg: Config, k: nat)
    requires c0.l == NewHandler(req, cfg) && Alone(w, c0, k).l.pc.Done?
    ensures CallFits(w, c0, req, cfg, k)
  {
    hide Alone, Admitted, AnswersAs;
    AdmissionIsExact(w, c0, req, cfg);
    var n := Checks(w);
    if Admitted(w, c0, req, cfg) {
      if k <= n {
        StoppedStays(w, c0, k, n);
      } else {
        StaysOnward(w, c0, n, k);
      }
    } else if k <= n {
      StoppedStays(w, c0, k, n);
    } else {
      StoppedStays(w, c0, n, k);
    }
  }
}

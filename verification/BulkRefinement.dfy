/** The lone run of `BulkLone` is a run of the step machine, and an undisturbed one applies the whole plan. */
module BulkRefinement {
  import opened Wrappers
  import opened BulkModel
  import opened BulkProtocol
  import opened BulkInvariant
  import opened BulkSafety
  import opened BulkLone
  import opened BulkAdmission

  function CellOf(s: Sys, h: nat): Cell
    requires h in s.handlers
  {
    var v := ViewOf(s, s.handlers[h]);
    Cell(v.row, v.token, s.handlers[h])
  }

  function WorldOf(s: Sys, h: nat, answers: nat -> Answer): World
    requires h in s.handlers
  {
    World(s.now, ViewOf(s, s.handlers[h]).plan, h, answers)
  }

  /** One move of the machine is one step of the lone run. */
  lemma MoveIsCellStep(s: Sys, h: nat, a: Answer, answers: nat -> Answer)
    requires Inv(s) && Enabled(s, Move(h, a))
    ensures CellOf(Moved(s, h, a), h) == CellStep(WorldOf(s, h, answers), CellOf(s, h), a)
    ensures Moved(s, h, a).now == s.now && Moved(s, h, a).plans == s.plans
    ensures Moved(s, h, a).handlers[h].req == s.handlers[h].req
    ensures Moved(s, h, a).rows == Put(s.rows, s.handlers[h].req.key, CellOf(Moved(s, h, a), h).row)
  {
    MoveFacts(s, h, a);
    ConsumesOnce(ViewOf(s, s.handlers[h]), h, s.handlers[h], a);
    hide LocalStep, HandlerFits, Joint, LogFits;
  }

  /** A handler that has not stopped can move, and a stopped one stays where it is. */
  lemma NextMove(s: Sys, h: nat, a: Answer, answers: nat -> Answer)
    requires Inv(s) && h in s.handlers
    ensures if Stopped(s.handlers[h]) then CellStep(WorldOf(s, h, answers), CellOf(s, h), a) == CellOf(s, h)
            else
              && Enabled(s, Move(h, a)) && Do(s, Move(h, a)) == Moved(s, h, a)
              && CellOf(Moved(s, h, a), h) == CellStep(WorldOf(s, h, answers), CellOf(s, h), a)
              && WorldOf(Moved(s, h, a), h, answers) == WorldOf(s, h, answers)
              && Moved(s, h, a).handlers[h].req == s.handlers[h].req
              && Moved(s, h, a).rows == Put(s.rows, s.handlers[h].req.key, CellOf(Moved(s, h, a), h).row)
  {
    if !Stopped(s.handlers[h]) {
      MoveFacts(s, h, a);
      MoveIsCellStep(s, h, a, answers);
    }
    hide LocalStep, HandlerFits, LogFits;
  }

  /** `s` is where `k` lone moves of `h` lead from `from`. */
  ghost predicate LoneAt(from: Sys, s: Sys, h: nat, answers: nat -> Answer, k: nat) {
    && h in from.handlers && h in s.handlers
    && CellOf(s, h) == Alone(WorldOf(from, h, answers), CellOf(from, h), k)
    && WorldOf(s, h, answers) == WorldOf(from, h, answers)
    && s.handlers[h].req == from.handlers[h].req
    && s.rows == Put(from.rows, from.handlers[h].req.key, CellOf(s, h).row)
  }

  lemma LoneNext(from: Sys, s: Sys, h: nat, answers: nat -> Answer, k: nat)
    requires Inv(s) && LoneAt(from, s, h, answers, k)
    ensures if Stopped(s.handlers[h]) then LoneAt(from, s, h, answers, k + 1)
            else
              && Enabled(s, Move(h, answers(k))) && Do(s, Move(h, answers(k))) == Moved(s, h, answers(k))
              && LoneAt(from, Moved(s, h, answers(k)), h, answers, k + 1)
  {
    NextMove(s, h, answers(k), answers);
    hide CellStep, Moved, Inv;
  }

  lemma ExtendedRun(states: seq<Sys>, events: seq<Event>, e: Event)
    requires Run(states, events) && Enabled(states[|states| - 1], e)
    ensures Run(states + [Do(states[|states| - 1], e)], events + [e])
  {
    hide Enabled, Do;
  }

  lemma LoneStart(s: Sys, h: nat, answers: nat -> Answer)
    requires h in s.handlers
    ensures LoneAt(s, s, h, answers, 0)
  {
    assert Put(s.rows, s.handlers[h].req.key, CellOf(s, h).row) == s.rows;
  }

  /** From any reachable state, the lone run of a handler extends the run so far. */
  lemma {:induction false} LoneRunIsARun(states: seq<Sys>, events: seq<Event>, h: nat, answers: nat -> Answer, k: nat)
    returns (states': seq<Sys>, events': seq<Event>)
    requires Run(states, events) && h in states[|states| - 1].handlers
    ensures Run(states', events') && |states| <= |states'| && states'[..|states|] == states
    ensures LoneAt(states[|states| - 1], states'[|states'| - 1], h, answers, k)
  {
    hide Enabled, Do, Moved, Inv, CellOf, WorldOf, Alone, Ready;
    var from := states[|states| - 1];
    if k == 0 {
      states', events' := states, events;
      LoneStart(from, h, answers);
    } else {
      states', events' := LoneRunIsARun(states, events, h, answers, k - 1);
      var s, e := states'[|states'| - 1], Move(h, answers(k - 1));
      ReachableInv(states', events', |states'| - 1);
      LoneNext(from, s, h, answers, k - 1);
      if !Stopped(s.handlers[h]) {
        ExtendedRun(states', events', e);
        assert (states' + [Do(s, e)])[..|states|] == states;
        states', events' := states' + [Do(s, e)], events' + [e];
      }
    }
  }

  // ---- an undisturbed call ----

  ghost predicate ReadsStamp(a: Answer, stamp: string) {
    a.read.ReadOk? && a.read.snapshot.stamp == stamp
  }

  /** Every statement commits, and the preflight finds the planned stamps. */
  ghost predicate Uneventful(w: World, p: Plan) {
    && (forall k :: w.answers(k).ok && w.answers(k).store.Committed?)
    && (forall i :: 0 <= i < |p.targets| ==> ReadsStamp(w.answers(3 + i), p.targets[i].stamp))
  }

  /** Uneventful, every PATCH is acknowledged, and every recheck finds the planned stamp. */
  ghost predicate Smooth(w: World, p: Plan) {
    var n := |p.targets|;
    && Uneventful(w, p)
    && (forall k :: w.answers(k).patch.PatchAcknowledged? && w.answers(k).patch.stamp.Some?)
    && (forall i :: 0 <= i < n ==> ReadsStamp(w.answers(8 + n + 5 * i), p.targets[i].stamp))
  }

  /** The plan, the row and the token are as a fresh plan hands them out, and the request fits them. */
  ghost predicate Admissible(w: World, c: Cell, p: Plan, req: Request, cfg: Config) {
    && w.plan == Some(p) && WellFormed(p) && cfg.enabled && PlanStands(p, req, cfg, w.now)
    && c.l == NewHandler(req, cfg) && LiveRow(c.row, p, w.now) && Unused(c.row.value)
    && TokenStands(c.token, p, cfg, w.now)
  }

  lemma SmoothPreflight(w: World, c0: Cell, p: Plan, req: Request, cfg: Config)
    requires Admissible(w, c0, p, req, cfg) && Uneventful(w, p)
    ensures Alone(w, c0, 3 + |p.targets|) == c0.(l := c0.l.(plan := p, pc := PreflightRead(|p.targets|)))
  {
    hide Alone, PlanStands, TokenStands;
    forall i | 0 <= i < |p.targets| ensures ReadFinds(w, p, i) {
      assert ReadsStamp(w.answers(3 + i), p.targets[i].stamp);
    }
    var first := CheckReadMoves(w, c0, req, cfg, |p.targets|);
  }

  /** The durable row after the key is marked and the receipt `r` saved as progress. */
  function SavedRow(w: World, row: Row, r: Receipt): Option<Row> {
    Some(row.(started := Some(Mark(w.now, w.h)), progress := Some(r)))
  }

  /** In front of target `i`, with everything before it applied and saved. */
  ghost predicate SmoothAt(w: World, c0: Cell, c: Cell, p: Plan, i: nat) {
    && c.l.plan == p && c.l.pc == LoopRead(i) && Running(c.l, i) && c.l.sent == i == c.l.acks
    && c0.row.Some? && c.row == SavedRow(w, c0.row.value, c.l.receipt)
  }

  lemma AuditAndMark(w: World, c0: Cell, k: nat)
    requires var c := Alone(w, c0, k); c.l.pc == PreflightRead(|c.l.plan.targets|) && CanMark(c.row)
    requires w.answers(k).ok && w.answers(k + 1).store.Committed?
    ensures var c := Alone(w, c0, k);
            Alone(w, c0, k + 2) == Cell(Some(c.row.value.(started := Some(Mark(w.now, w.h)))), c.token,
                                        c.l.(owner := true, startedAt := w.now, pc := ConsumeSelect))
  {
    hide Alone;
    PreflightMoves(w, c0, k);
    AcquireMoves(w, c0, k + 1);
  }

  lemma SmoothMark(w: World, c0: Cell, p: Plan, req: Request, cfg: Config)
    requires Admissible(w, c0, p, req, cfg) && Uneventful(w, p)
    ensures Alone(w, c0, 5 + |p.targets|)
         == Cell(Some(c0.row.value.(started := Some(Mark(w.now, w.h)))), c0.token,
                 c0.l.(plan := p, owner := true, startedAt := w.now, pc := ConsumeSelect))
  {
    hide Alone;
    var n := |p.targets|;
    SmoothPreflight(w, c0, p, req, cfg);
    assert 3 + n + 2 == 5 + n;
    AuditAndMark(w, c0, 3 + n);
  }

  lemma Undisturbed(w: World, p: Plan, k: nat)
    requires Uneventful(w, p)
    ensures w.answers(k).ok && w.answers(k).store.Committed?
  {
  }

  /** An admissible token is consumed, and the handler starts empty. */
  lemma AdmissibleFacts(w: World, c0: Cell, p: Plan, req: Request, cfg: Config)
    requires Admissible(w, c0, p, req, cfg)
    ensures ConsumeRefusal(c0.token, BindingOf(c0.l.(plan := p)), w.now).None? && CanConsume(c0.token)
    ensures c0.row.Some? && WellFormed(p) && c0.l == NewHandler(req, cfg)
  {
  }

  lemma SmoothConsume(w: World, c0: Cell, p: Plan, req: Request, cfg: Config)
    requires Admissible(w, c0, p, req, cfg) && Uneventful(w, p)
    ensures var c := Alone(w, c0, 7 + |p.targets|);
            && c.row == Some(c0.row.value.(started := Some(Mark(w.now, w.h))))
            && c.l == c0.l.(plan := p, owner := true, startedAt := w.now, entered := true, pc := SaveInitial,
                            receipt := InitialReceipt(p, w.answers(6 + |p.targets|).auditId, w.now))
  {
    hide Alone, Uneventful, Admissible, InitialReceipt, ConsumeRefusal, WellFormed, CanConsume;
    var n := |p.targets|;
    SmoothMark(w, c0, p, req, cfg);
    AdmissibleFacts(w, c0, p, req, cfg);
    Undisturbed(w, p, 5 + n);
    Undisturbed(w, p, 6 + n);
    AcquireMoves(w, c0, 5 + n);
    AcquireMoves(w, c0, 6 + n);
  }

  lemma SmoothStart(w: World, c0: Cell, p: Plan, req: Request, cfg: Config)
    requires Admissible(w, c0, p, req, cfg) && Uneventful(w, p)
    ensures SmoothAt(w, c0, Alone(w, c0, 8 + |p.targets|), p, 0)
  {
    hide Alone, Uneventful, Admissible, ResultsFit, WellFormed, ConsumeRefusal, CanConsume;
    var n := |p.targets|;
    SmoothConsume(w, c0, p, req, cfg);
    AdmissibleFacts(w, c0, p, req, cfg);
    Undisturbed(w, p, 7 + n);
    InitialShape(p, w.answers(6 + n).auditId, w.now);
    SaveMoves(w, c0, 7 + n);
  }

  /** The answers one target meets in an undisturbed call. */
  ghost predicate SmoothAnswers(w: World, k: nat, t: Target) {
    && w.answers(k).read.ReadOk? && w.answers(k).read.snapshot.stamp == t.stamp
    && w.answers(k + 2).patch.PatchAcknowledged? && w.answers(k + 2).patch.stamp.Some?
    && w.answers(k + 3).ok && w.answers(k + 4).store.Committed?
  }

  lemma SmoothApply(w: World, c0: Cell, p: Plan, i: nat, k: nat)
    requires i < |p.targets| && SmoothAnswers(w, k, p.targets[i])
    requires var l := Alone(w, c0, k).l; l.plan == p && l.pc == LoopRead(i) && |l.receipt.results| == |p.targets|
    ensures var c := Alone(w, c0, k); var a := w.answers(k).read.snapshot;
            Alone(w, c0, k + 4) == c.(l := c.l.(
              sent := c.l.sent + 1, acks := c.l.acks + 1, current := a, pc := SaveProgress(i),
              receipt := MarkedApplied(c.l.receipt, i, p.targets[i], a.fields, w.answers(k + 2).patch.stamp.value)))
  {
    hide Alone, MarkedApplied;
    ReadMoves(w, c0, k, i);
    PatchMoves(w, c0, k + 1, i);
    CohereMoves(w, c0, k + 3, i);
  }

  lemma SmoothTarget(w: World, c0: Cell, p: Plan, i: nat, k: nat)
    requires i < |p.targets| && SmoothAnswers(w, k, p.targets[i])
    requires SmoothAt(w, c0, Alone(w, c0, k), p, i)
    ensures SmoothAt(w, c0, Alone(w, c0, k + 5), p, i + 1)
  {
    hide Alone, ResultsFit, MarkedApplied;
    var l := Alone(w, c0, k).l;
    AppliedShape(l.receipt, p, i, w.answers(k).read.snapshot.fields, w.answers(k + 2).patch.stamp.value);
    SmoothApply(w, c0, p, i, k);
    SaveMoves(w, c0, k + 4);
  }

  lemma SmoothIsUneventful(w: World, p: Plan)
    requires Smooth(w, p)
    ensures Uneventful(w, p)
  {
    hide Uneventful;
  }

  lemma SmoothInstance(w: World, p: Plan, i: nat)
    requires Smooth(w, p) && i < |p.targets|
    ensures SmoothAnswers(w, 8 + |p.targets| + 5 * i, p.targets[i])
  {
  }

  lemma {:induction false} SmoothLoop(w: World, c0: Cell, p: Plan, req: Request, cfg: Config, i: nat)
    requires Admissible(w, c0, p, req, cfg) && Smooth(w, p) && i <= |p.targets|
    ensures SmoothAt(w, c0, Alone(w, c0, 8 + |p.targets| + 5 * i), p, i)
  {
    hide SmoothAt, Alone, Admissible, Smooth, Uneventful;
    if i == 0 {
      SmoothIsUneventful(w, p);
      SmoothStart(w, c0, p, req, cfg);
    } else {
      SmoothLoop(w, c0, p, req, cfg, i - 1);
      SmoothInstance(w, p, i - 1);
      SmoothTarget(w, c0, p, i - 1, 8 + |p.targets| + 5 * (i - 1));
      assert 8 + |p.targets| + 5 * (i - 1) + 5 == 8 + |p.targets| + 5 * i;
    }
  }

  /** From the end of the loop, three undisturbed moves store the receipt and answer with it. */
  lemma SmoothConclude(w: World, c0: Cell, p: Plan, k: nat)
    requires SmoothAt(w, c0, Alone(w, c0, k), p, |p.targets|) && p.targets != []
    requires w.answers(k + 1).ok && w.answers(k + 2).store.Committed?
    ensures var c := Alone(w, c0, k + 3);
            && c.l.pc == Done(Succeeded(c.l.receipt)) && Concluded(c.l) && c.l.failure.None?
            && c.l.plan == p && c.l.receipt.status == Success
            && c.row.Some? && c.row.value.receipt == Some(c.l.receipt) == c.row.value.progress
  {
    hide Alone, ResultsFit;
    var l := Alone(w, c0, k).l;
    LoopEnds(w, c0, k);
    RecountKeepsFit(l.receipt.(completedAt := w.now), p, |p.targets|, 0);
    ConcludeMoves(w, c0, k + 1);
    hide Recounted;
    ConcludeMoves(w, c0, k + 2);
  }

  /** An admissible call that nothing disturbs applies every target and stores the receipt it answers with. */
  lemma SmoothCallSucceeds(w: World, c0: Cell, p: Plan, req: Request, cfg: Config)
    requires Admissible(w, c0, p, req, cfg) && Smooth(w, p)
    ensures var n := |p.targets|; var c := Alone(w, c0, 11 + 6 * n); var r := c.l.receipt;
            && c.l.pc == Done(Succeeded(r))
            && r.status == Success && r.applied == n == c.l.sent == c.l.acks
            && c.row.Some? && c.row.value.receipt == Some(r) == c.row.value.progress
  {
    hide Alone, ResultsFit;
    var n := |p.targets|;
    SmoothLoop(w, c0, p, req, cfg, n);
    SmoothConclude(w, c0, p, 8 + n + 5 * n);
    assert 8 + n + 5 * n + 3 == 11 + 6 * n;
  }
}

/** One handler of the bulk machine, run without interference: the clock stands, and only its own moves change its row
    and its token. */
module BulkLone {
  import opened Wrappers
  import opened BulkModel
  import opened BulkProtocol

  /** One handler with the row and the token it names. */
  datatype Cell = Cell(row: Option<Row>, token: Option<Confirmation>, l: Handler)

  /** What a lone call meets: the clock, the stored plan, its own identity, and the outside's answers in order. */
  datatype World = World(now: nat, plan: Option<Plan>, h: nat, answers: nat -> Answer)

  function Spent(token: Option<Confirmation>): Option<Confirmation> {
    if token.Some? then Some(token.value.(consumed := true)) else None
  }

  function CellStep(w: World, c: Cell, a: Answer): Cell {
    if Ready(c.l) && !Stopped(c.l) then
      var o := LocalStep(View(w.now, w.plan, c.row, c.token), w.h, c.l, a);
      Cell(o.row, if o.consumes then Spent(c.token) else c.token, o.next)
    else c
  }

  function Alone(w: World, c: Cell, k: nat): Cell {
    if k == 0 then c else CellStep(w, Alone(w, c, k - 1), w.answers(k - 1))
  }

  // ---- what single moves of the lone run do ----

  lemma ReadMoves(w: World, c0: Cell, k: nat, i: nat)
    requires var l := Alone(w, c0, k).l; l.pc == LoopRead(i) && i < |l.plan.targets| == |l.receipt.results|
    ensures var c := Alone(w, c0, k); var a := w.answers(k);
            Alone(w, c0, k + 1) == c.(l :=
              match a.read
              case ReadErr(code) => FailAt(c.l, i, ReadFailed(code), "", Conclude)
              case ReadOk(current) =>
                if current.stamp != c.l.plan.targets[i].stamp
                then FailAt(c.l, i, ConcurrencyConflict, current.stamp, Conclude)
                else c.l.(current := current, pc := SendPatch(i)))
  {
    hide PreflightStep, AcquireStep, ConcludeStep, MarkedFailedAndRemaining, LoseCoherence, ApplyAt;
  }

  lemma PatchMoves(w: World, c0: Cell, k: nat, i: nat)
    requires var l := Alone(w, c0, k).l; l.pc == SendPatch(i) && InRange(l, i)
    ensures var c := Alone(w, c0, k); var a := w.answers(k + 1); var sent := c.l.(sent := c.l.sent + 1);
            Alone(w, c0, k + 2) == c.(l :=
              match a.patch
              case PatchErr => FailAt(sent, i, UpstreamError, c.l.current.stamp, SaveStop)
              case PatchAcknowledged(stamp) =>
                sent.(acks := c.l.acks + 1, pc := if stamp.Some? then Cohere(i, stamp.value) else PostRead(i)))
  {
    hide PreflightStep, AcquireStep, ConcludeStep, MarkedFailedAndRemaining, LoseCoherence, ApplyAt;
    var c := Alone(w, c0, k);
    assert Alone(w, c0, k + 1) == c.(l := c.l.(sent := c.l.sent + 1, pc := AwaitPatch(i)));
  }

  lemma PostReadMoves(w: World, c0: Cell, k: nat, i: nat)
    requires var l := Alone(w, c0, k).l; l.pc == PostRead(i) && InRange(l, i)
    ensures var c := Alone(w, c0, k); var a := w.answers(k);
            Alone(w, c0, k + 1) == c.(l :=
              if a.read.ReadOk? then c.l.(pc := Cohere(i, a.read.snapshot.stamp))
              else LoseCoherence(c.l, i, c.l.current.stamp))
  {
    hide PreflightStep, AcquireStep, ConcludeStep, FailAt, LoseCoherence, ApplyAt;
  }

  lemma CohereMoves(w: World, c0: Cell, k: nat, i: nat)
    requires var l := Alone(w, c0, k).l; l.pc.Cohere? && l.pc.i == i && InRange(l, i)
    ensures var c := Alone(w, c0, k);
            Alone(w, c0, k + 1) == c.(l :=
              if w.answers(k).ok then c.l.(receipt := ApplyAt(c.l, i, c.l.pc.observed), pc := SaveProgress(i))
              else LoseCoherence(c.l, i, c.l.pc.observed))
  {
    hide PreflightStep, AcquireStep, ConcludeStep, FailAt, LoseCoherence, ApplyAt;
  }

  function AfterSave(pc: Pc): Pc {
    if pc.SaveProgress? then LoopRead(pc.i + 1) else if pc.SaveInitial? then LoopRead(0) else Conclude
  }

  lemma SaveMoves(w: World, c0: Cell, k: nat)
    requires var l := Alone(w, c0, k).l;
             l.pc.SaveInitial? || l.pc.SaveStop? || (l.pc.SaveProgress? && InRange(l, l.pc.i))
    ensures var c := Alone(w, c0, k); var a := w.answers(k).store;
            Alone(w, c0, k + 1) == Cell(
              Unless(c.row, WithProgress(c.row, c.l.receipt), a), c.token,
              c.l.(pc := if a.Committed? then AfterSave(c.l.pc) else Done(Pending)))
  {
    hide PreflightStep, AcquireStep, ConcludeStep, FailAt, LoseCoherence, ApplyAt;
  }

  function ViewIn(w: World, c: Cell): View {
    View(w.now, w.plan, c.row, c.token)
  }

  predicate Preflighting(pc: Pc) {
    pc.LoadPlan? || pc.LookupKey? || pc.ReplayCheck? || pc.LookupToken? || pc.PreflightRead?
  }

  lemma PreflightMoves(w: World, c0: Cell, k: nat)
    requires Preflighting(Alone(w, c0, k).l.pc)
    ensures var c := Alone(w, c0, k);
            Alone(w, c0, k + 1) == c.(l := PreflightStep(ViewIn(w, c), c.l, w.answers(k)))
  {
    hide PreflightStep, AcquireStep, ConcludeStep, LoopStep;
  }

  lemma AcquireMoves(w: World, c0: Cell, k: nat)
    requires var pc := Alone(w, c0, k).l.pc;
             pc.MarkStarted? || pc.ConsumeSelect? || pc.ConsumeUpdate? || pc.ClearStarted?
    ensures var c := Alone(w, c0, k); var o := AcquireStep(ViewIn(w, c), w.h, c.l, w.answers(k));
            Alone(w, c0, k + 1) == Cell(o.row, if o.consumes then Spent(c.token) else c.token, o.next)
  {
    hide PreflightStep, AcquireStep, ConcludeStep, LoopStep;
  }

  lemma ConcludeMoves(w: World, c0: Cell, k: nat)
    requires var l := Alone(w, c0, k).l;
             l.pc.Conclude? || l.pc.SaveTerminal? || l.pc.SaveReceipt?
    ensures var c := Alone(w, c0, k); var o := ConcludeStep(ViewIn(w, c), c.l, w.answers(k));
            Alone(w, c0, k + 1) == Cell(o.row, c.token, o.next)
  {
    hide PreflightStep, AcquireStep, LoopStep, Recounted;
  }

  lemma LoopEnds(w: World, c0: Cell, k: nat)
    requires var l := Alone(w, c0, k).l; l.pc == LoopRead(|l.plan.targets|) && |l.plan.targets| == |l.receipt.results|
    ensures var c := Alone(w, c0, k); Alone(w, c0, k + 1) == c.(l := c.l.(pc := Conclude))
  {
    hide PreflightStep, AcquireStep, ConcludeStep, FailAt, LoseCoherence, ApplyAt;
  }
}

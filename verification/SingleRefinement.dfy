/** The lone run of the single-write handlers is a run of their step machine. */
module SingleRefinement {
  import opened Wrappers
  import opened SingleApply
  import opened SingleLone

  function CellOf(s: Sys, h: nat): Cell
    requires h in s.handlers
  {
    var v := ViewOf(s, s.handlers[h]);
    Cell(v.row, v.token, s.handlers[h])
  }

  /** `s` is where `k` lone moves of `h` lead from `from`. */
  ghost predicate LoneAt(d: Discipline, from: Sys, s: Sys, h: nat, answers: nat -> Answer, k: nat) {
    && h in from.handlers && h in s.handlers && from.step > 0
    && s.now == from.now && (Stopped(s.handlers[h]) || s.step == from.step + k)
    && CellOf(s, h) == Alone(World(d, from.now, from.step - 1, h, answers), CellOf(from, h), k)
    && s.handlers[h].req == from.handlers[h].req
    && (forall g :: g in from.handlers && g != h ==> g in s.handlers && s.handlers[g] == from.handlers[g])
    && s.rows == Set(from.rows, from.handlers[h].req.key, CellOf(s, h).row)
  }

  lemma MoveIsCellStep(d: Discipline, s: Sys, w: World, h: nat, k: nat)
    requires h in s.handlers && !Stopped(s.handlers[h])
    requires w.d == d && w.now == s.now && w.h == h && s.step == w.step + 1 + k
    ensures var s' := Moved(d, s, h, w.answers(k));
            && CellOf(s', h) == CellStep(w, CellOf(s, h), k)
            && s'.now == s.now && s'.step == s.step + 1 && s'.handlers[h].req == s.handlers[h].req
            && (forall g :: g in s.handlers && g != h ==> g in s'.handlers && s'.handlers[g] == s.handlers[g])
            && s'.rows == Set(s.rows, s.handlers[h].req.key, CellOf(s', h).row)
  {
    hide LocalStep;
    assert ViewOf(s, s.handlers[h]) == View(w.now, w.step + 1 + k, CellOf(s, h).row, CellOf(s, h).token);
  }

  lemma StoppedCell(w: World, c: Cell, k: nat)
    requires Stopped(c.l)
    ensures CellStep(w, c, k) == c
  {
  }

  lemma SetTwice(rows: Rows, key: string, a: Option<Row>, b: Option<Row>)
    ensures Set(Set(rows, key, a), key, b) == Set(rows, key, b)
  {
  }

  lemma LoneNext(d: Discipline, from: Sys, s: Sys, h: nat, answers: nat -> Answer, k: nat)
    requires LoneAt(d, from, s, h, answers, k)
    ensures if Stopped(s.handlers[h]) then LoneAt(d, from, s, h, answers, k + 1)
            else
              && Enabled(s, Move(h, answers(k))) && Do(d, s, Move(h, answers(k))) == Moved(d, s, h, answers(k))
              && LoneAt(d, from, Moved(d, s, h, answers(k)), h, answers, k + 1)
  {
    var w := World(d, from.now, from.step - 1, h, answers);
    hide LocalStep, Alone, CellStep;
    NextCell(w, CellOf(from, h), k);
    if Stopped(s.handlers[h]) {
      StoppedCell(w, CellOf(s, h), k);
    } else {
      hide Moved;
      MoveIsCellStep(d, s, w, h, k);
      SetTwice(from.rows, from.handlers[h].req.key, CellOf(s, h).row, CellOf(Moved(d, s, h, answers(k)), h).row);
    }
  }

  lemma ExtendedRun(d: Discipline, states: seq<Sys>, events: seq<Event>, e: Event)
    requires Run(d, states, events) && Enabled(states[|states| - 1], e)
    ensures Run(d, states + [Do(d, states[|states| - 1], e)], events + [e])
  {
    hide Enabled, Do;
  }

  lemma LoneStart(d: Discipline, s: Sys, h: nat, answers: nat -> Answer)
    requires h in s.handlers && s.step > 0
    ensures LoneAt(d, s, s, h, answers, 0)
  {
    assert Set(s.rows, s.handlers[h].req.key, CellOf(s, h).row) == s.rows;
  }

  /** From any state of any run, the lone run of a handler extends that run. */
  lemma {:induction false} LoneRunIsARun(d: Discipline, states: seq<Sys>, events: seq<Event>, h: nat,
                                         answers: nat -> Answer, k: nat)
    returns (states': seq<Sys>, events': seq<Event>)
    requires Run(d, states, events) && h in states[|states| - 1].handlers && states[|states| - 1].step > 0
    ensures Run(d, states', events') && |states| <= |states'| && states'[..|states|] == states
    ensures LoneAt(d, states[|states| - 1], states'[|states'| - 1], h, answers, k)
  {
    hide Enabled, Do, Moved, CellOf, Alone;
    var from := states[|states| - 1];
    if k == 0 {
      states', events' := states, events;
      LoneStart(d, from, h, answers);
    } else {
      states', events' := LoneRunIsARun(d, states, events, h, answers, k - 1);
      var s, e := states'[|states'| - 1], Move(h, answers(k - 1));
      LoneNext(d, from, s, h, answers, k - 1);
      if !Stopped(s.handlers[h]) {
        ExtendedRun(d, states', events', e);
        assert (states' + [Do(d, s, e)])[..|states|] == states;
        states', events' := states' + [Do(d, s, e)], events' + [e];
      }
    }
  }
}

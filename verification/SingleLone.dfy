/** One single-write handler, run without interference. */
module SingleLone {
  import opened Wrappers
  import opened SingleApply

  datatype Cell = Cell(row: Option<Row>, token: Option<Confirmation>, l: Handler)

  datatype World = World(d: Discipline, now: nat, step: nat, h: nat, answers: nat -> Answer)

  function CellStep(w: World, c: Cell, k: nat): Cell {
    if Stopped(c.l) then c
    else
      var o := LocalStep(w.d, View(w.now, w.step + 1 + k, c.row, c.token), w.h, c.l, w.answers(k));
      Cell(o.row,
           if o.consumes && c.token.Some? then Some(c.token.value.(consumed := true)) else c.token,
           o.next)
  }

  function Alone(w: World, c: Cell, k: nat): Cell {
    if k == 0 then c else CellStep(w, Alone(w, c, k - 1), k - 1)
  }

  lemma NextCell(w: World, c: Cell, k: nat)
    ensures Alone(w, c, k + 1) == CellStep(w, Alone(w, c, k), k)
  {
  }
}

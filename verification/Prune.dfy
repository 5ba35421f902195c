/** Pruning a record: its vault file is staged by a rename, the store deletes its rows, then the staged file goes. */
module Prune {
  import opened Ordering
  import opened Wrappers

  // ---- the vault ----

  /** A file name: text, or bytes that are no text. */
  datatype Name = Text(text: string) | Bytes(raw: nat)

  datatype Path = Path(dir: string, name: Name)

  type Files = map<Path, string>

  const SUFFIX := ".pruning"

  function Staged(p: Path): Path {
    p.(name := Text((if p.name.Text? then p.name.text else "vault") + SUFFIX))
  }

  predicate HasSuffix(text: string) {
    |text| >= |SUFFIX| && text[|text| - |SUFFIX|..] == SUFFIX
  }

  function Original(p: Path): Path {
    p.(name := Text(if p.name.Text? && HasSuffix(p.name.text)
                    then p.name.text[..|p.name.text| - |SUFFIX|] else "vault.md"))
  }

  function Renamed(files: Files, from: Path, to: Path): Files
    requires from in files
  {
    (files - {from})[to := files[from]]
  }

  lemma RenamedHas(files: Files, p: Path)
    ensures p in files ==> Staged(p) in Renamed(files, p, Staged(p))
  {
  }

  /** Restoring undoes staging exactly for a name that is text; any other comes back as "vault". */
  lemma StagingRoundTrip(p: Path)
    ensures Original(Staged(p)) == (if p.name.Text? then p else p.(name := Text("vault")))
    ensures Staged(p) != p && Original(Staged(p)) != Staged(p)
  {
    var base := if p.name.Text? then p.name.text else "vault";
    assert (base + SUFFIX)[..|base|] == base;
    assert (base + SUFFIX)[|base|..] == SUFFIX;
    assert |base + SUFFIX| != |base|;
  }

  // ---- the store ----

  /** A `records` row; `file` is where the vault keeps the record's markdown. */
  datatype Row = Row(number: string, rowId: nat, prunedAt: Option<nat>, rank: nat, file: Path)

  /** The tables that hold rows of a record under its sys_id. */
  datatype Table =
    | CatalogComplete | CatalogNarrowed | Tags | Keywords | Aliases | Articles | ArticleTerms | LocalFiles | Other

  datatype Relation = Relation(source: string, target: string, relType: string)

  datatype Database = Database(
    records: map<string, Row>, texts: set<nat>, relations: set<Relation>, entries: set<(Table, string)>)

  datatype Statement = DeleteFrom(table: Table) | MarkPruned | DeleteText | DeleteRelations | DeleteRecord

  /** One autocommitted statement; the full-text row is found through the record row, which must still be there. */
  function Execute(db: Database, s: Statement, id: string, now: nat): Database {
    match s
    case DeleteFrom(table) => db.(entries := db.entries - {(table, id)})
    case MarkPruned =>
      if id in db.records then db.(records := db.records[id := db.records[id].(prunedAt := Some(now))]) else db
    case DeleteText => if id in db.records then db.(texts := db.texts - {db.records[id].rowId}) else db
    case DeleteRelations => db.(relations := set r | r in db.relations && r.source != id && r.target != id)
    case DeleteRecord => db.(records := db.records - {id})
  }

  const STATEMENTS: seq<Statement> := [
    DeleteFrom(CatalogComplete), DeleteFrom(CatalogNarrowed), MarkPruned, DeleteText, DeleteRelations, DeleteFrom(Tags),
    DeleteFrom(Keywords), DeleteFrom(Aliases), DeleteFrom(Articles), DeleteFrom(ArticleTerms), DeleteFrom(LocalFiles),
    DeleteRecord]

  /** When a table is cleared, counting statements from one. */
  function ClearedBy(t: Table): nat {
    match t
    case CatalogComplete => 1
    case CatalogNarrowed => 2
    case Tags => 6
    case Keywords => 7
    case Aliases => 8
    case Articles => 9
    case ArticleTerms => 10
    case LocalFiles => 11
    case Other => 13
  }

  /** The store after the first `n` statements, part by part. */
  function After(db: Database, id: string, now: nat, n: nat): Database {
    Database(
      if n >= 12 then db.records - {id}
      else if n >= 3 && id in db.records then db.records[id := db.records[id].(prunedAt := Some(now))]
      else db.records,
      if n >= 4 && id in db.records then db.texts - {db.records[id].rowId} else db.texts,
      if n >= 5 then set r | r in db.relations && r.source != id && r.target != id else db.relations,
      set e | e in db.entries && !(e.1 == id && ClearedBy(e.0) <= n))
  }

  lemma StatementsAdvance(db: Database, id: string, now: nat, n: nat)
    requires n < |STATEMENTS|
    ensures After(db, id, now, 0) == db
    ensures Execute(After(db, id, now, n), STATEMENTS[n], id, now) == After(db, id, now, n + 1)
  {
    var s, a, b := STATEMENTS[n], After(db, id, now, n), After(db, id, now, n + 1);
    assert After(db, id, now, 0).entries == db.entries;
    if s.DeleteFrom? {
      assert ClearedBy(s.table) == n + 1;
      assert forall t: Table :: ClearedBy(t) == n + 1 ==> t == s.table;
      assert a.entries - {(s.table, id)} == b.entries;
    } else {
      assert forall t: Table :: ClearedBy(t) != n + 1;
      assert a.entries == b.entries;
    }
    if s.DeleteRecord? {
      assert a.records - {id} == b.records;
    }
  }

  // ---- one prune ----

  datatype Snapshot = Snapshot(files: Files, db: Database)

  /** What goes wrong: a read, a rename, a statement (by its index), the removal, the rename back. */
  datatype Faults = Faults(
    lookupFails: bool, stageFails: bool, failingStatement: Option<nat>, removeFails: bool, restoreFails: bool)

  predicate Precedes(db: Database, a: string, b: string)
    requires a in db.records && b in db.records
  {
    db.records[a].rank < db.records[b].rank || (db.records[a].rank == db.records[b].rank && Less(a, b))
  }

  /** Of several rows under one number a lookup by number returns the first, ties broken by sys_id. */
  predicate IsPrimary(db: Database, number: string, id: string) {
    && id in db.records && db.records[id].number == number
    && forall other :: other in db.records && db.records[other].number == number && other != id ==>
         Precedes(db, id, other)
  }

  /** A lookup by the number of a stored row finds a row, though perhaps not that one. */
  lemma {:induction false} PrimaryExists(db: Database, number: string, ids: set<string>) returns (first: string)
    requires ids != {} && forall id :: id in ids ==> id in db.records && db.records[id].number == number
    ensures first in ids && forall other :: other in ids && other != first ==> Precedes(db, first, other)
    decreases |ids|
  {
    var id :| id in ids;
    first := id;
    if ids != {id} {
      assert ids == (ids - {id}) + {id};
      assert ids - {id} != {};
      var best := PrimaryExists(db, number, ids - {id});
      LessIsTrichotomous(id, best);
      first := if Precedes(db, id, best) then id else best;
      forall other | other in ids && other != first ensures Precedes(db, first, other) {
        if Precedes(db, id, best) && other != best {
          assert Precedes(db, best, other);
          if Less(id, best) && Less(best, other) {
            LessIsTransitive(id, best, other);
          }
        }
      }
    }
  }

  lemma LookupFinds(db: Database, id: string) returns (first: string)
    requires id in db.records
    ensures IsPrimary(db, db.records[id].number, first)
  {
    var ids := set other | other in db.records && db.records[other].number == db.records[id].number;
    assert id in ids;
    first := PrimaryExists(db, db.records[id].number, ids);
  }

  predicate Faultless(f: Faults) {
    !f.lookupFails && !f.stageFails && f.failingStatement.None? && !f.removeFails && !f.restoreFails
  }

  function Committed(f: Faults): nat {
    match f.failingStatement
    case Some(k) => if k < |STATEMENTS| then k else |STATEMENTS|
    case None => |STATEMENTS|
  }

  /** A prune that finds no row has nothing to do; any error ends it. */
  datatype Outcome = Pruned | Missing | Failed

  /** The durable states after each effect, in order, and the answer. */
  datatype Run = Run(trace: seq<Snapshot>, outcome: Outcome)

  function StoreTrace(files: Files, db: Database, id: string, now: nat, n: nat): seq<Snapshot> {
    seq(n, i requires 0 <= i < n => Snapshot(files, After(db, id, now, i + 1)))
  }

  /** What `prune_record` does when the lookup by number leads to the vault file `p`. */
  function Prune(start: Snapshot, id: string, now: nat, p: Path, f: Faults): Run {
    var n := Committed(f);
    if f.lookupFails then Run([], Failed)
    else if id !in start.db.records then Run([], Missing)
    else if p !in start.files then
      Run(StoreTrace(start.files, start.db, id, now, n), if n == |STATEMENTS| then Pruned else Failed)
    else if f.stageFails then Run([], Failed)
    else
      var staged := Renamed(start.files, p, Staged(p));
      var during := [Snapshot(staged, start.db)] + StoreTrace(staged, start.db, id, now, n);
      var last := After(start.db, id, now, n);
      if n == |STATEMENTS| then
        if f.removeFails then Run(during, Failed) else Run(during + [Snapshot(staged - {Staged(p)}, last)], Pruned)
      else if f.restoreFails then Run(during, Failed)
      else Run(during + [Snapshot(Renamed(staged, Staged(p), Original(Staged(p))), last)], Failed)
  }

  function End(start: Snapshot, run: Run): Snapshot {
    if run.trace == [] then start else run.trace[|run.trace| - 1]
  }

  /** Where a prune that found its row and got past the lookup leaves the disk and the store. */
  lemma EndOfPrune(start: Snapshot, id: string, now: nat, p: Path, f: Faults)
    requires id in start.db.records && !f.lookupFails
    ensures var n := Committed(f);
            var end := End(start, Prune(start, id, now, p, f));
            var staged := if p in start.files then Renamed(start.files, p, Staged(p)) else start.files;
            if p in start.files && f.stageFails then end == start
            else if p !in start.files then end == Snapshot(start.files, After(start.db, id, now, n))
            else if n == |STATEMENTS| then
              end == Snapshot(if f.removeFails then staged else staged - {Staged(p)}, After(start.db, id, now, n))
            else
              end == Snapshot(if f.restoreFails then staged else Renamed(staged, Staged(p), Original(Staged(p))),
                              After(start.db, id, now, n))
  {
    hide After;
    StartsUnchanged(start.db, id, now);
  }

  /** A prune answers Missing exactly without a row, and Failed exactly when the lookup, the rename aside, a statement
      or the removal failed; whether the rename back fails makes no difference to the answer. */
  lemma OutcomeIsExact(start: Snapshot, id: string, now: nat, p: Path, f: Faults)
    ensures var outcome := Prune(start, id, now, p, f).outcome;
            var staged, broken := p in start.files, f.failingStatement.Some? && f.failingStatement.value < 12;
            && (outcome == Missing <==> !f.lookupFails && id !in start.db.records)
            && (outcome == Failed <==>
                  || f.lookupFails
                  || (id in start.db.records && (broken || (staged && (f.stageFails || f.removeFails)))))
  {
    hide After, StoreTrace;
  }

  /** The names of a staged file and of what it is restored to. */
  lemma StagedNames(dir: string, text: string, raw: nat)
    ensures Staged(Path(dir, Text(text))) == Path(dir, Text(text + ".pruning"))
    ensures Staged(Path(dir, Bytes(raw))) == Path(dir, Text("vault.pruning"))
    ensures Original(Path(dir, Text(text + ".pruning"))) == Path(dir, Text(text))
    ensures Original(Path(dir, Bytes(raw))) == Path(dir, Text("vault.md"))
    ensures (forall s :: text != s + ".pruning") ==> Original(Path(dir, Text(text))) == Path(dir, Text("vault.md"))
  {
    StagingRoundTrip(Path(dir, Text(text)));
    assert "vault" + ".pruning" == "vault.pruning";
    if HasSuffix(text) {
      assert text == text[..|text| - 8] + ".pruning";
    }
  }

  lemma StopsAtOnce(start: Snapshot, id: string, now: nat, f: Faults)
    requires f.lookupFails
    ensures forall p :: Prune(start, id, now, p, f) == Run([], Failed) && End(start, Run([], Failed)) == start
  {
  }

  lemma StartsUnchanged(db: Database, id: string, now: nat)
    ensures After(db, id, now, 0) == db
  {
    assert After(db, id, now, 0).entries == db.entries;
  }

  // ---- the handler ----

  /** The disk and the store, with every durable state since the machine was made. */
  class Machine {
    var files: Files
    var db: Database
    ghost var trace: seq<Snapshot>

    constructor (files: Files, db: Database)
      ensures this.files == files && this.db == db && trace == []
    {
      this.files, this.db, trace := files, db, [];
    }

    ghost function Now(): Snapshot
      reads this
    {
      Snapshot(files, db)
    }

    method Rename(from: Path, to: Path)
      requires from in files
      modifies `files, `trace
      ensures files == Renamed(old(files), from, to) && trace == old(trace) + [Now()]
    {
      files := (files - {from})[to := files[from]];
      trace := trace + [Now()];
    }

    method Remove(p: Path)
      modifies `files, `trace
      ensures files == old(files) - {p} && trace == old(trace) + [Now()]
    {
      files := files - {p};
      trace := trace + [Now()];
    }

    /** Moves the file aside when there is one; an existing file of the staged name is overwritten. */
    method StageMarkdownForPrune(p: Path, fails: bool) returns (staged: Result<Option<Path>, ()>)
      modifies `files, `trace
      ensures p !in old(files) ==> staged == Ok(None) && files == old(files) && trace == old(trace)
      ensures p in old(files) && fails ==> staged == Err(()) && files == old(files) && trace == old(trace)
      ensures p in old(files) && !fails ==>
                && staged == Ok(Some(Staged(p))) && files == Renamed(old(files), p, Staged(p))
                && trace == old(trace) + [Now()]
    {
      if p !in files {
        return Ok(None);
      }
      if fails {
        return Err(());
      }
      Rename(p, Staged(p));
      staged := Ok(Some(Staged(p)));
    }

    /** Moves a staged file back to the name it was staged from, as far as that can be told. */
    method RestoreStagedMarkdown(staged: Option<Path>, fails: bool) returns (ok: bool)
      modifies `files, `trace
      ensures staged.None? || staged.value !in old(files) ==> ok && files == old(files) && trace == old(trace)
      ensures staged.Some? && staged.value in old(files) && fails ==> !ok && files == old(files) && trace == old(trace)
      ensures staged.Some? && staged.value in old(files) && !fails ==>
                && ok && files == Renamed(old(files), staged.value, Original(staged.value))
                && trace == old(trace) + [Now()]
    {
      ok := true;
      if staged.Some? && staged.value in files {
        if fails {
          return false;
        }
        Rename(staged.value, Original(staged.value));
      }
    }

    /** The store's statements in order; each commits by itself, so a failure leaves those before it. */
    method StorePrune(id: string, now: nat, f: Faults) returns (ok: bool)
      modifies `db, `trace
      ensures ok <==> Committed(f) == |STATEMENTS|
      ensures db == After(old(db), id, now, Committed(f))
      ensures trace == old(trace) + StoreTrace(files, old(db), id, now, Committed(f))
    {
      ok := true;
      StatementsAdvance(db, id, now, 0);
      for k := 0 to |STATEMENTS|
        invariant ok && k <= Committed(f)
        invariant db == After(old(db), id, now, k)
        invariant trace == old(trace) + StoreTrace(files, old(db), id, now, k)
      {
        if f.failingStatement == Some(k) {
          return false;
        }
        StatementsAdvance(old(db), id, now, k);
        db := Execute(db, STATEMENTS[k], id, now);
        trace := trace + [Now()];
      }
    }

    /** Stage the file, prune the rows, then drop the staged file or put it back. */
    method PruneRecord(id: string, now: nat, f: Faults) returns (outcome: Outcome, ghost primary: string)
      modifies this
      ensures id in old(db).records ==> IsPrimary(old(db), old(db).records[id].number, primary)
      ensures id !in old(db).records ==> outcome in {Missing, Failed} && trace == old(trace) && Now() == old(Now())
      ensures id in old(db).records ==>
                var run := Prune(old(Now()), id, now, old(db).records[primary].file, f);
                outcome == run.outcome && trace == old(trace) + run.trace && Now() == End(old(Now()), run)
    {
      hide After, StoreTrace, Committed, IsPrimary, End, Staged, Original, Renamed;
      ghost var start := Now();
      primary := "";
      if id in db.records {
        primary := LookupFinds(db, id);
      }
      if f.lookupFails {
        StopsAtOnce(start, id, now, f);
        return Failed, primary;
      }
      if id !in db.records {
        return Missing, primary;
      }
      var found :| found in db.records && IsPrimary(db, db.records[id].number, found);
      primary := found;
      var p := db.records[found].file;
      EndOfPrune(start, id, now, p, f);
      RenamedHas(files, p);
      var staged := StageMarkdownForPrune(p, f.stageFails);
      if staged.Err? {
        return Failed, primary;
      }
      var pruned := StorePrune(id, now, f);
      if pruned {
        if staged.value.Some? {
          if f.removeFails {
            return Failed, primary;
          }
          Remove(staged.value.value);
        }
        return Pruned, primary;
      }
      var restored := RestoreStagedMarkdown(staged.value, f.restoreFails);
      return Failed, primary;
    }
  }

  // ---- what a prune guarantees ----

  ghost predicate Holds(files: Files, p: Path, content: string) {
    p in files && files[p] == content
  }

  /** At every durable state of a prune in which the row still exists, its markdown is at its path or beside it. */
  lemma MarkdownSurvives(start: Snapshot, id: string, now: nat, p: Path, f: Faults, s: Snapshot)
    requires id in start.db.records && p in start.files
    requires s in Prune(start, id, now, p, f).trace && id in s.db.records
    ensures || Holds(s.files, p, start.files[p]) || Holds(s.files, Staged(p), start.files[p])
            || (p.name.Bytes? && Holds(s.files, Original(Staged(p)), start.files[p]))
  {
    StagingRoundTrip(p);
    TraceStates(start, id, now, p, f, s);
  }

  /** The states of a prune that stages its file: the file aside, then the store step by step, then the last move. */
  lemma TraceStates(start: Snapshot, id: string, now: nat, p: Path, f: Faults, s: Snapshot)
    requires id in start.db.records && s in Prune(start, id, now, p, f).trace && p in start.files
    ensures var staged := Renamed(start.files, p, Staged(p));
            || s.files == staged
            || (s.files == staged - {Staged(p)} && id !in s.db.records)
            || s.files == Renamed(staged, Staged(p), Original(Staged(p)))
  {
    hide Original, Staged;
    StatementsAdvance(start.db, id, now, 0);
    var run, n := Prune(start, id, now, p, f), Committed(f);
    var staged := Renamed(start.files, p, Staged(p));
    var k :| 0 <= k < |run.trace| && run.trace[k] == s;
    if 0 < k <= n {
      assert s == StoreTrace(staged, start.db, id, now, n)[k - 1];
    }
  }

  /** No prune touches a file other than the one it stages, its sibling, and the name it is restored to. */
  lemma OtherFilesStay(start: Snapshot, id: string, now: nat, p: Path, f: Faults, s: Snapshot, q: Path)
    requires id in start.db.records && s in Prune(start, id, now, p, f).trace
    requires q !in {p, Staged(p), Original(Staged(p))}
    ensures q in s.files <==> q in start.files
    ensures q in start.files ==> s.files[q] == start.files[q]
  {
    var run := Prune(start, id, now, p, f);
    if p in start.files {
      TraceStates(start, id, now, p, f, s);
    } else {
      var k :| 0 <= k < |run.trace| && run.trace[k] == s;
      assert s == StoreTrace(start.files, start.db, id, now, Committed(f))[k];
    }
  }

  /** A completed prune leaves no row of the record and not the file the lookup by number led to; the sibling of that
      file stays only if it was there without an original. */
  lemma PrunedIsComplete(start: Snapshot, id: string, now: nat, p: Path, f: Faults)
    requires id in start.db.records && Prune(start, id, now, p, f).outcome == Pruned
    ensures var end := End(start, Prune(start, id, now, p, f));
            && end.db.records == start.db.records - {id}
            && start.db.records[id].rowId !in end.db.texts
            && (forall r :: r in end.db.relations <==> r in start.db.relations && id !in {r.source, r.target})
            && (forall e :: e in end.db.entries <==> e in start.db.entries && (e.1 != id || e.0 == Other))
            && p !in end.files
            && (Staged(p) in end.files <==> Staged(p) in start.files && p !in start.files)
  {
    StagingRoundTrip(p);
    EndOfPrune(start, id, now, p, f);
    var end := End(start, Prune(start, id, now, p, f));
    assert end.db == After(start.db, id, now, 12);
    assert forall t: Table :: ClearedBy(t) <= 12 <==> t != Other;
  }

  /** The record's own markdown goes exactly when it was not there, is the file the lookup led to, or lay in the way of
      staging that file. */
  lemma OwnMarkdownGoesExactly(start: Snapshot, id: string, now: nat, p: Path, f: Faults)
    requires id in start.db.records && Prune(start, id, now, p, f).outcome == Pruned
    ensures var own := start.db.records[id].file; var end := End(start, Prune(start, id, now, p, f));
            own !in end.files <==> own !in start.files || own == p || (own == Staged(p) && p in start.files)
  {
    StagingRoundTrip(p);
    EndOfPrune(start, id, now, p, f);
    PrunedIsComplete(start, id, now, p, f);
  }

  /** After a store failure and a rename back, exactly when the files, and exactly when the rows, are as they were. */
  lemma FailedPruneRestores(start: Snapshot, id: string, now: nat, p: Path, f: Faults)
    requires id in start.db.records && !f.lookupFails && !f.stageFails && !f.restoreFails && Committed(f) < |STATEMENTS|
    ensures var end := End(start, Prune(start, id, now, p, f));
            && (end.files == start.files <==> p !in start.files || (p.name.Text? && Staged(p) !in start.files))
            && (end.db == start.db <==> NothingToLose(start.db, id, now, Committed(f)))
  {
    StagingRoundTrip(p);
    EndOfPrune(start, id, now, p, f);
    var n := Committed(f);
    assert End(start, Prune(start, id, now, p, f)).db == After(start.db, id, now, n);
    if p in start.files {
      FilesAreRestored(start.files, p);
    }
    RowsAreUntouched(start.db, id, now, n);
  }

  lemma FilesAreRestored(files: Files, p: Path)
    requires p in files
    ensures Renamed(Renamed(files, p, Staged(p)), Staged(p), Original(Staged(p))) == files
            <==> p.name.Text? && Staged(p) !in files
  {
    StagingRoundTrip(p);
    var back := Renamed(Renamed(files, p, Staged(p)), Staged(p), Original(Staged(p)));
    assert Staged(p) !in back;
    if p.name.Text? && Staged(p) !in files {
      assert back == files;
    } else if p.name.Bytes? {
      assert p !in back;
    }
  }

  /** Before the first `n` statements: no entry of the record in the tables they clear, and, as far as they reach, its
      row already marked with this very time, no full text and no relation of its own. */
  ghost predicate NothingToLose(db: Database, id: string, now: nat, n: nat) {
    && (forall e :: e in db.entries && e.1 == id ==> ClearedBy(e.0) > n)
    && (n >= 3 && id in db.records ==> db.records[id].prunedAt == Some(now))
    && (n >= 4 && id in db.records ==> db.records[id].rowId !in db.texts)
    && (n >= 5 ==> forall r :: r in db.relations ==> r.source != id && r.target != id)
  }

  /** The first `n` statements change nothing exactly when there is nothing for them to lose. */
  lemma RowsAreUntouched(db: Database, id: string, now: nat, n: nat)
    requires n < |STATEMENTS|
    ensures After(db, id, now, n) == db <==> NothingToLose(db, id, now, n)
  {
    var after := After(db, id, now, n);
    if after == db {
      forall e | e in db.entries && e.1 == id ensures ClearedBy(e.0) > n {
        assert e in after.entries;
      }
      if n >= 3 && id in db.records {
        assert after.records[id].prunedAt == Some(now);
      }
      if n >= 4 && id in db.records {
        assert db.records[id].rowId !in after.texts;
      }
      if n >= 5 {
        assert forall r :: r in after.relations ==> r.source != id && r.target != id;
      }
    }
    if NothingToLose(db, id, now, n) {
      assert after.entries == db.entries && after.relations == db.relations;
      assert after.texts == db.texts && after.records == db.records;
    }
  }

  /** A crash at any durable state, then a prune without faults: the rows go, but a file caught aside stays there. */
  lemma RetryAfterCrash(start: Snapshot, id: string, now: nat, p: Path, f: Faults, crash: Snapshot, later: nat,
                        retry: Faults)
    requires id in start.db.records && p in start.files && Faultless(retry)
    requires crash == start || crash in Prune(start, id, now, p, f).trace
    ensures var again := Prune(crash, id, later, p, retry);
            var end := End(crash, again);
            && again.outcome == (if id in crash.db.records then Pruned else Missing)
            && id !in end.db.records && p !in end.files
            && (Staged(p) in end.files <==> Staged(p) in crash.files && p !in crash.files)
  {
    StagingRoundTrip(p);
    if id in crash.db.records {
      PrunedIsComplete(crash, id, later, p, retry);
    } else {
      TraceStates(start, id, now, p, f, crash);
      DeletedMeansStaged(start, id, now, p, f, crash);
    }
  }

  lemma DeletedMeansStaged(start: Snapshot, id: string, now: nat, p: Path, f: Faults, s: Snapshot)
    requires id in start.db.records && p in start.files
    requires s in Prune(start, id, now, p, f).trace && id !in s.db.records
    ensures p !in s.files
  {
    StagingRoundTrip(p);
    StatementsAdvance(start.db, id, now, 0);
    var run, n := Prune(start, id, now, p, f), Committed(f);
    var staged := Renamed(start.files, p, Staged(p));
    var k :| 0 <= k < |run.trace| && run.trace[k] == s;
    if 0 < k <= n {
      assert s == StoreTrace(staged, start.db, id, now, n)[k - 1];
    }
  }

  ghost predicate SharesPath(start: Snapshot, id: string, p: Path, q: string) {
    && q in start.db.records && q != id
    && start.db.records[q].file in start.files && start.db.records[q].file in {p, Staged(p)}
  }

  /** Every other row keeps its markdown, unless it shares the path that is pruned or sits at its staged name. */
  lemma OthersKeepTheirMarkdown(start: Snapshot, id: string, now: nat, p: Path, f: Faults)
    requires id in start.db.records && Prune(start, id, now, p, f).outcome == Pruned
    ensures var end := End(start, Prune(start, id, now, p, f));
            (forall q :: q in start.db.records && q != id && start.db.records[q].file in start.files ==>
               Holds(end.files, start.db.records[q].file, start.files[start.db.records[q].file]))
            <==> !(p in start.files && exists q :: SharesPath(start, id, p, q))
  {
    StagingRoundTrip(p);
    EndOfPrune(start, id, now, p, f);
    hide Prune, After, End, Staged;
    var end := End(start, Prune(start, id, now, p, f));
    if p in start.files {
      assert end.files == Renamed(start.files, p, Staged(p)) - {Staged(p)};
      if q :| SharesPath(start, id, p, q) {
        var file := start.db.records[q].file;
        assert file !in end.files;
        assert !Holds(end.files, file, start.files[file]);
      } else {
        forall q | q in start.db.records && q != id && start.db.records[q].file in start.files
          ensures Holds(end.files, start.db.records[q].file, start.files[start.db.records[q].file])
        {
          assert !SharesPath(start, id, p, q);
        }
      }
    }
  }

  /** The lookup goes by number: pruning an approval stored under its change's number removes the change's markdown,
      whose row stays, and leaves the approval's, whose row goes. */
  lemma SharedNumberLosesMarkdown() returns (start: Snapshot)
    ensures "approval" in start.db.records && "change" in start.db.records
    ensures IsPrimary(start.db, start.db.records["approval"].number, "change")
    ensures var p, own := start.db.records["change"].file, start.db.records["approval"].file;
            var run := Prune(start, "approval", 0, p, Faults(false, false, None, false, false));
            var end := End(start, run);
            && run.outcome == Pruned && p in start.files && own in start.files
            && "change" in end.db.records && p !in end.files
            && "approval" !in end.db.records && own in end.files
  {
    var p := Path("changes/CHG0012345", Text("CHG0012345.md"));
    var own := Path("approvals", Text("CHG0012345.md"));
    var change := Row("CHG0012345", 0, None, 0, p);
    var approval := Row("CHG0012345", 1, None, 1, own);
    var files := map[p := "plan", own := "approval"];
    start := Snapshot(files, Database(map["change" := change, "approval" := approval], {}, {}, {}));
    PrunedIsComplete(start, "approval", 0, p, Faults(false, false, None, false, false));
    OwnMarkdownGoesExactly(start, "approval", 0, p, Faults(false, false, None, false, false));
  }

  /** A crash while the file stands aside, then a clean retry: the staged file is never removed. */
  lemma CrashLeavesAnOrphan() returns (start: Snapshot, crash: Snapshot, p: Path)
    ensures "id" in start.db.records && p in start.files && p == start.db.records["id"].file && p.name.Text?
    ensures crash in Prune(start, "id", 0, p, Faults(false, false, None, false, false)).trace
    ensures Staged(p) in End(crash, Prune(crash, "id", 1, p, Faults(false, false, None, false, false))).files
  {
    p := Path("incidents", Text("INC1.md"));
    var none := Faults(false, false, None, false, false);
    start := Snapshot(map[p := "text"], Database(map["id" := Row("INC1", 0, None, 0, p)], {}, {}, {}));
    crash := Prune(start, "id", 0, p, none).trace[0];
    StagingRoundTrip(p);
    RetryAfterCrash(start, "id", 0, p, none, crash, 1, none);
  }

  /** The second statement fails: the file comes back, but the catalog entry the first one deleted does not. */
  lemma FailedPruneLosesEntries() returns (start: Snapshot, p: Path)
    ensures "id" in start.db.records && p == start.db.records["id"].file && p in start.files
    ensures var end := End(start, Prune(start, "id", 0, p, Faults(false, false, Some(1), false, false)));
            && Prune(start, "id", 0, p, Faults(false, false, Some(1), false, false)).outcome == Failed
            && end.files == start.files
            && (CatalogComplete, "id") in start.db.entries && (CatalogComplete, "id") !in end.db.entries
  {
    p := Path("catalog", Text("ITEM1.md"));
    var entries := {(CatalogComplete, "id")};
    start := Snapshot(map[p := "text"], Database(map["id" := Row("ITEM1", 0, None, 0, p)], {}, {}, entries));
    var f := Faults(false, false, Some(1), false, false);
    FailedPruneRestores(start, "id", 0, p, f);
    EndOfPrune(start, "id", 0, p, f);
    StagingRoundTrip(p);
    assert |p.name.text + SUFFIX| != |p.name.text|;
    assert ClearedBy(CatalogComplete) == 1;
  }
}

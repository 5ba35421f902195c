/** Projecting a vault document into the reference rows and relationship rows of the cache. */
module Projection {
  import opened Wrappers

  datatype RecordRef = RecordRef(sysId: string, number: string, table: string)

  datatype Reference = Reference(sysId: string, table: string, displayName: string, extra: string)

  /** `references` maps field names to references; the program iterates over it in no fixed order. */
  datatype SnowRecord = SnowRecord(
    sysId: string, parent: Option<RecordRef>, children: seq<RecordRef>, references: map<string, Reference>,
    syncedAt: int)

  datatype Document =
    | Record(record: SnowRecord)
    | Knowledge(article: SnowRecord)
    | Approval(approval: SnowRecord, approver: Reference, target: RecordRef)

  datatype ReferenceRow = ReferenceRow(
    sysId: string, table: string, displayName: string, extraJson: string, syncedAt: int)

  datatype RelationshipRow = RelationshipRow(sourceId: string, targetId: string, relType: string, fieldName: string)

  function RowOfReference(r: Reference, syncedAt: int): ReferenceRow {
    ReferenceRow(r.sysId, r.table, r.displayName, r.extra, syncedAt)
  }

  function RowOfRecordRef(r: RecordRef, syncedAt: int): ReferenceRow {
    ReferenceRow(r.sysId, r.table, r.number, "{}", syncedAt)
  }

  // ---- the specification ----

  /** Each key once, in some order. */
  ghost predicate Enumerates(order: seq<string>, references: map<string, Reference>) {
    && (forall f :: f in order <==> f in references)
    && (forall i, j :: 0 <= i < j < |order| ==> order[i] != order[j])
  }

  /** The field that holds the parent, and any field that points at it, are left to the parent's own row. */
  predicate Skipped(record: SnowRecord, field: string)
    requires field in record.references
  {
    field == "parent" || (record.parent.Some? && record.parent.value.sysId == record.references[field].sysId)
  }

  predicate KeptField(record: SnowRecord, field: string) {
    field in record.references && !Skipped(record, field)
  }

  /** What a projection holds. */
  datatype Tables = Tables(references: map<string, ReferenceRow>, relationships: seq<RelationshipRow>)

  function Insert(t: Tables, row: ReferenceRow): Tables {
    t.(references := t.references[row.sysId := row])
  }

  function Relate(t: Tables, row: RelationshipRow): Tables {
    t.(relationships := t.relationships + [row])
  }

  function WithParent(t: Tables, record: SnowRecord): Tables {
    match record.parent
    case None => t
    case Some(p) =>
      Relate(Insert(t, RowOfRecordRef(p, record.syncedAt)), RelationshipRow(record.sysId, p.sysId, "parent", "parent"))
  }

  function WithChildren(t: Tables, record: SnowRecord, n: nat): Tables
    requires n <= |record.children|
  {
    if n == 0 then t
    else
      var child := record.children[n - 1];
      Relate(Insert(WithChildren(t, record, n - 1), RowOfRecordRef(child, record.syncedAt)),
             RelationshipRow(record.sysId, child.sysId, "child", "children"))
  }

  function WithField(t: Tables, record: SnowRecord, field: string, related: bool): Tables {
    if !KeptField(record, field) then t
    else
      var r := record.references[field];
      var more := Insert(t, RowOfReference(r, record.syncedAt));
      if related then Relate(more, RelationshipRow(record.sysId, r.sysId, "reference", field)) else more
  }

  function WithFields(t: Tables, record: SnowRecord, order: seq<string>, related: bool): Tables {
    if order == [] then t
    else WithField(WithFields(t, record, order[..|order| - 1], related), record, order[|order| - 1], related)
  }

  function Projected(t: Tables, record: SnowRecord, order: seq<string>, related: bool): Tables {
    WithFields(WithChildren(WithParent(t, record), record, |record.children|), record, order, related)
  }

  const EMPTY := Tables(map[], [])

  function RecordOf(d: Document): SnowRecord {
    match d
    case Record(r) => r
    case Knowledge(r) => r
    case Approval(r, _, _) => r
  }

  function DocumentTables(d: Document, order: seq<string>): Tables {
    match d
    case Record(r) => Projected(EMPTY, r, order, true)
    case Knowledge(r) => Projected(EMPTY, r, order, false)
    case Approval(r, approver, target) =>
      Relate(Insert(Insert(EMPTY, RowOfReference(approver, r.syncedAt)), RowOfRecordRef(target, r.syncedAt)),
             RelationshipRow(r.sysId, target.sysId, "approval_target", "sysapproval"))
  }

  // ---- the program ----

  class RuntimeProjection {
    var references: map<string, ReferenceRow>
    var relationships: seq<RelationshipRow>
    var knowledgeArticle: Option<string>

    constructor ()
      ensures Held() == EMPTY && knowledgeArticle == None
    {
      references, relationships, knowledgeArticle := map[], [], None;
    }

    ghost function Held(): Tables
      reads this
    {
      Tables(references, relationships)
    }

    method AddReferenceRow(row: ReferenceRow)
      modifies `references
      ensures Held() == Insert(old(Held()), row)
    {
      references := references[row.sysId := row];
    }

    method AddRelationship(sourceId: string, targetId: string, relType: string, fieldName: string)
      modifies `relationships
      ensures Held() == Relate(old(Held()), RelationshipRow(sourceId, targetId, relType, fieldName))
    {
      relationships := relationships + [RelationshipRow(sourceId, targetId, relType, fieldName)];
    }

    /** Parent, children, then the references in the order the map gives them. */
    method ProjectRecord(record: SnowRecord, order: seq<string>, related: bool)
      requires Enumerates(order, record.references)
      modifies `references, `relationships
      ensures Held() == Projected(old(Held()), record, order, related)
    {
      if record.parent.Some? {
        var parent := record.parent.value;
        AddReferenceRow(RowOfRecordRef(parent, record.syncedAt));
        AddRelationship(record.sysId, parent.sysId, "parent", "parent");
      }
      ghost var base := Held();
      for i := 0 to |record.children|
        invariant Held() == WithChildren(base, record, i)
      {
        AddReferenceRow(RowOfRecordRef(record.children[i], record.syncedAt));
        AddRelationship(record.sysId, record.children[i].sysId, "child", "children");
      }
      ghost var middle := Held();
      for i := 0 to |order|
        invariant Held() == WithFields(middle, record, order[..i], related)
      {
        assert order[..i + 1][..i] == order[..i];
        var field := order[i];
        assert field in record.references;
        var reference := record.references[field];
        if field == "parent" || (record.parent.Some? && record.parent.value.sysId == reference.sysId) {
          continue;
        }
        AddReferenceRow(RowOfReference(reference, record.syncedAt));
        if related {
          AddRelationship(record.sysId, reference.sysId, "reference", field);
        }
      }
      assert order[..|order|] == order;
    }
  }

  method ProjectRuntimeDocument(d: Document, order: seq<string>) returns (projection: RuntimeProjection)
    requires Enumerates(order, RecordOf(d).references)
    ensures fresh(projection) && projection.Held() == DocumentTables(d, order)
    ensures Holds(projection.Held(), d, order)
    ensures projection.knowledgeArticle == if d.Knowledge? then Some(d.article.sysId) else None
  {
    TablesAreExact(d, order);
    hide Holds;
    projection := new RuntimeProjection();
    match d {
      case Record(record) =>
        projection.ProjectRecord(record, order, true);
      case Knowledge(article) =>
        projection.ProjectRecord(article, order, false);
        projection.knowledgeArticle := Some(article.sysId);
      case Approval(approval, approver, target) =>
        projection.AddReferenceRow(RowOfReference(approver, approval.syncedAt));
        projection.AddReferenceRow(RowOfRecordRef(target, approval.syncedAt));
        projection.AddRelationship(approval.sysId, target.sysId, "approval_target", "sysapproval");
    }
  }

  // ---- referential integrity ----

  /** Rows are filed under their own sys_id, and every relationship leads from the record to a row that is there. */
  ghost predicate Sound(t: Tables, source: string) {
    && (forall k :: k in t.references ==> t.references[k].sysId == k)
    && (forall i :: 0 <= i < |t.relationships| ==>
          t.relationships[i].sourceId == source && t.relationships[i].targetId in t.references)
  }

  lemma {:induction false} ChildrenKeepSound(t: Tables, record: SnowRecord, n: nat)
    requires Sound(t, record.sysId) && n <= |record.children|
    ensures Sound(WithChildren(t, record, n), record.sysId)
  {
    if n == 0 {
    } else {
      ChildrenKeepSound(t, record, n - 1);
    }
  }

  lemma {:induction false} FieldsKeepSound(t: Tables, record: SnowRecord, order: seq<string>, related: bool)
    requires Sound(t, record.sysId)
    ensures Sound(WithFields(t, record, order, related), record.sysId)
  {
    if order == [] {
    } else {
      FieldsKeepSound(t, record, order[..|order| - 1], related);
    }
  }

  /** For every document and every iteration order, each relationship target has a reference row under its sys_id. */
  lemma DocumentsAreSound(d: Document, order: seq<string>)
    ensures Sound(DocumentTables(d, order), RecordOf(d).sysId)
  {
    if !d.Approval? {
      var r := RecordOf(d);
      ChildrenKeepSound(WithParent(EMPTY, r), r, |r.children|);
      FieldsKeepSound(WithChildren(WithParent(EMPTY, r), r, |r.children|), r, order, d.Record?);
    }
  }

  // ---- which row ends up under each sys_id ----

  ghost predicate Names(record: SnowRecord, order: seq<string>, i: nat, k: string)
    requires i < |order|
  {
    KeptField(record, order[i]) && record.references[order[i]].sysId == k
  }

  /** One field sets the row it names and leaves every other as it was. */
  lemma OneFieldSets(t: Tables, record: SnowRecord, field: string, related: bool, k: string)
    ensures var after := WithField(t, record, field, related).references;
            if KeptField(record, field) && record.references[field].sysId == k
            then k in after && after[k] == RowOfReference(record.references[field], record.syncedAt)
            else (k in after <==> k in t.references) && (k in after ==> after[k] == t.references[k])
  {
  }

  /** The last kept field that names `k` decides its row; without one the row is what it was. */
  lemma {:induction false} LastFieldDecides(t: Tables, record: SnowRecord, order: seq<string>, related: bool, k: string)
    ensures var after := WithFields(t, record, order, related).references;
            || (exists i :: 0 <= i < |order| && Names(record, order, i, k)
                         && (forall j :: i < j < |order| ==> !Names(record, order, j, k))
                         && k in after && after[k] == RowOfReference(record.references[order[i]], record.syncedAt))
            || ((forall i :: 0 <= i < |order| ==> !Names(record, order, i, k))
                && (k in after <==> k in t.references) && (k in after ==> after[k] == t.references[k]))
  {
    hide KeptField, WithField;
    if order == [] {
    } else {
      var before, last := order[..|order| - 1], |order| - 1;
      LastFieldDecides(t, record, before, related, k);
      OneFieldSets(WithFields(t, record, before, related), record, order[last], related, k);
      NamesInPrefix(record, order, k);
      hide WithFields;
      if Names(record, order, last, k) {
      } else if i :| 0 <= i < |before| && Names(record, before, i, k)
                     && forall j :: i < j < |before| ==> !Names(record, before, j, k) {
        assert Names(record, order, i, k);
      }
    }
  }

  lemma NamesInPrefix(record: SnowRecord, order: seq<string>, k: string)
    requires order != []
    ensures forall i :: 0 <= i < |order| - 1 ==> Names(record, order[..|order| - 1], i, k) == Names(record, order, i, k)
  {
    forall i | 0 <= i < |order| - 1
      ensures Names(record, order[..|order| - 1], i, k) == Names(record, order, i, k)
    {
      assert order[..|order| - 1][i] == order[i];
    }
  }

  ghost predicate ChildNames(record: SnowRecord, i: nat, k: string)
    requires i < |record.children|
  {
    record.children[i].sysId == k
  }

  lemma OneChildSets(t: Tables, record: SnowRecord, n: nat, k: string)
    requires 0 < n <= |record.children|
    ensures var before, after := WithChildren(t, record, n - 1).references, WithChildren(t, record, n).references;
            if ChildNames(record, n - 1, k) then
              k in after && after[k] == RowOfRecordRef(record.children[n - 1], record.syncedAt)
            else (k in after <==> k in before) && (k in after ==> after[k] == before[k])
  {
  }

  lemma {:induction false} LastChildDecides(t: Tables, record: SnowRecord, n: nat, k: string)
    requires n <= |record.children|
    ensures var after := WithChildren(t, record, n).references;
            || (exists i :: 0 <= i < n && ChildNames(record, i, k)
                         && (forall j :: i < j < n ==> !ChildNames(record, j, k))
                         && k in after && after[k] == RowOfRecordRef(record.children[i], record.syncedAt))
            || ((forall i :: 0 <= i < n ==> !ChildNames(record, i, k))
                && (k in after <==> k in t.references) && (k in after ==> after[k] == t.references[k]))
  {
    if n == 0 {
    } else {
      hide WithChildren, ChildNames;
      OneChildSets(t, record, n, k);
      LastChildDecides(t, record, n - 1, k);
      if ChildNames(record, n - 1, k) {
      } else if i :| 0 <= i < n - 1 && ChildNames(record, i, k)
                     && forall j :: i < j < n - 1 ==> !ChildNames(record, j, k) {
        assert forall j :: i < j < n ==> !ChildNames(record, j, k);
      }
    }
  }

  /** No field replaces the parent's row, whatever the order; only the last child with its sys_id does. */
  lemma ParentRowStands(t: Tables, record: SnowRecord, order: seq<string>, related: bool)
    requires record.parent.Some?
    ensures var p := record.parent.value;
            var after := Projected(t, record, order, related).references;
            && p.sysId in after
            && (if exists i :: 0 <= i < |record.children| && ChildNames(record, i, p.sysId) then
                  exists i :: 0 <= i < |record.children| && ChildNames(record, i, p.sysId)
                    && (forall j :: i < j < |record.children| ==> !ChildNames(record, j, p.sysId))
                    && after[p.sysId] == RowOfRecordRef(record.children[i], record.syncedAt)
                else after[p.sysId] == RowOfRecordRef(p, record.syncedAt))
  {
    var k := record.parent.value.sysId;
    var base := WithParent(t, record);
    LastChildDecides(base, record, |record.children|, k);
    LastFieldDecides(WithChildren(base, record, |record.children|), record, order, related, k);
    assert forall i :: 0 <= i < |order| ==> !Names(record, order, i, k);
  }

  // ---- relationships do not depend on the iteration order ----

  function FieldRow(record: SnowRecord, field: string): RelationshipRow
    requires field in record.references
  {
    RelationshipRow(record.sysId, record.references[field].sysId, "reference", field)
  }

  /** One row for each kept field. */
  function FieldRows(record: SnowRecord, fields: seq<string>): set<RelationshipRow> {
    set f | f in fields && KeptField(record, f) :: FieldRow(record, f)
  }

  lemma OneMoreField(record: SnowRecord, before: seq<string>, last: string)
    requires last !in before
    ensures !KeptField(record, last) ==> FieldRows(record, before + [last]) == FieldRows(record, before)
    ensures KeptField(record, last) ==>
              && FieldRow(record, last) !in FieldRows(record, before)
              && FieldRows(record, before + [last]) == FieldRows(record, before) + {FieldRow(record, last)}
  {
    hide Skipped;
    assert forall f :: f in before + [last] <==> f in before || f == last;
  }

  lemma {:induction false} FieldsRelateOnce(t: Tables, record: SnowRecord, order: seq<string>)
    requires forall i, j :: 0 <= i < j < |order| ==> order[i] != order[j]
    ensures multiset(WithFields(t, record, order, true).relationships)
            == multiset(t.relationships) + multiset(FieldRows(record, order))
  {
    if order == [] {
      assert FieldRows(record, order) == {};
    } else {
      var before, last := order[..|order| - 1], order[|order| - 1];
      FieldsRelateOnce(t, record, before);
      assert order == before + [last];
      OneMoreField(record, before, last);
      hide FieldRows, Skipped;
      var rows := WithFields(t, record, before, true).relationships;
      assert WithFields(t, record, order, true).relationships
          == if KeptField(record, last) then rows + [FieldRow(record, last)] else rows;
    }
  }

  lemma {:induction false} UnrelatedFieldsRelateNothing(t: Tables, record: SnowRecord, order: seq<string>)
    ensures WithFields(t, record, order, false).relationships == t.relationships
  {
    if order == [] {
    } else {
      UnrelatedFieldsRelateNothing(t, record, order[..|order| - 1]);
    }
  }

  function ChildRow(record: SnowRecord, child: RecordRef): RelationshipRow {
    RelationshipRow(record.sysId, child.sysId, "child", "children")
  }

  lemma {:induction false} ChildrenRelate(t: Tables, record: SnowRecord, n: nat)
    requires n <= |record.children|
    ensures WithChildren(t, record, n).relationships
            == t.relationships + seq(n, i requires 0 <= i < n => ChildRow(record, record.children[i]))
  {
    if n == 0 {
    } else {
      ChildrenRelate(t, record, n - 1);
    }
  }

  function ParentRows(record: SnowRecord): seq<RelationshipRow> {
    match record.parent
    case None => []
    case Some(p) => [RelationshipRow(record.sysId, p.sysId, "parent", "parent")]
  }

  function ChildRows(record: SnowRecord): seq<RelationshipRow> {
    seq(|record.children|, i requires 0 <= i < |record.children| => ChildRow(record, record.children[i]))
  }

  function KeptRows(record: SnowRecord): set<RelationshipRow> {
    set f | f in record.references && !Skipped(record, f) :: FieldRow(record, f)
  }

  /** A record's relationships: its parent, each child, and each kept field once, in whatever order the map runs. */
  lemma RelationshipsAreExact(record: SnowRecord, order: seq<string>, related: bool)
    requires Enumerates(order, record.references)
    ensures multiset(Projected(EMPTY, record, order, related).relationships)
            == multiset(ParentRows(record)) + multiset(ChildRows(record))
               + (if related then multiset(KeptRows(record)) else multiset{})
  {
    var base := WithParent(EMPTY, record);
    assert base.relationships == ParentRows(record);
    var middle := WithChildren(base, record, |record.children|);
    assert multiset(middle.relationships) == multiset(ParentRows(record)) + multiset(ChildRows(record)) by {
      ChildrenRelate(base, record, |record.children|);
      assert middle.relationships == ParentRows(record) + ChildRows(record);
    }
    hide WithChildren, WithParent, ParentRows, ChildRows, WithFields;
    if related {
      FieldsRelateOnce(middle, record, order);
      assert FieldRows(record, order) == KeptRows(record);
    } else {
      UnrelatedFieldsRelateNothing(middle, record, order);
    }
  }

  // ---- reference rows depend on the order exactly when two kept fields disagree ----

  /** Two kept fields give the same sys_id different rows. */
  ghost predicate Disagree(record: SnowRecord, f: string, h: string) {
    && KeptField(record, f) && KeptField(record, h)
    && record.references[f].sysId == record.references[h].sysId && record.references[f] != record.references[h]
  }

  lemma NamesCarryOver(record: SnowRecord, a: seq<string>, b: seq<string>, i: nat, k: string)
    requires Enumerates(a, record.references) && Enumerates(b, record.references)
    requires i < |a| && Names(record, a, i, k)
    ensures exists j :: 0 <= j < |b| && Names(record, b, j, k)
  {
    assert a[i] in b;
    var j :| 0 <= j < |b| && b[j] == a[i];
    assert Names(record, b, j, k);
  }

  lemma AgreeingFieldsFixTheRow(t: Tables, record: SnowRecord, a: seq<string>, b: seq<string>, related: bool, k: string)
    requires Enumerates(a, record.references) && Enumerates(b, record.references)
    requires forall f, h :: !Disagree(record, f, h)
    ensures var x, y := WithFields(t, record, a, related).references, WithFields(t, record, b, related).references;
            (k in x <==> k in y) && (k in x ==> x[k] == y[k])
  {
    LastFieldDecides(t, record, a, related, k);
    LastFieldDecides(t, record, b, related, k);
    hide WithFields;
    if i :| 0 <= i < |a| && Names(record, a, i, k) {
      NamesCarryOver(record, a, b, i, k);
      forall u, v | 0 <= u < |a| && 0 <= v < |b| && Names(record, a, u, k) && Names(record, b, v, k)
        ensures record.references[a[u]] == record.references[b[v]]
      {
        assert !Disagree(record, a[u], b[v]);
      }
    } else if j :| 0 <= j < |b| && Names(record, b, j, k) {
      NamesCarryOver(record, b, a, j, k);
    }
  }

  lemma {:induction false} AnEnumeration(keys: set<string>) returns (order: seq<string>)
    ensures forall f :: f in order <==> f in keys
    ensures forall i, j :: 0 <= i < j < |order| ==> order[i] != order[j]
    decreases |keys|
  {
    order := [];
    if keys == {} {
    } else {
      var f :| f in keys;
      var rest := AnEnumeration(keys - {f});
      order := rest + [f];
    }
  }

  /** The field iterated last has the last word on the row it names. */
  lemma LastWord(t: Tables, record: SnowRecord, rest: seq<string>, first: string, last: string, related: bool)
    requires KeptField(record, last)
    ensures var k := record.references[last].sysId;
            var after := WithFields(t, record, rest + [first, last], related).references;
            k in after && after[k] == RowOfReference(record.references[last], record.syncedAt)
  {
    var order := rest + [first, last];
    LastFieldDecides(t, record, order, related, record.references[last].sysId);
    assert Names(record, order, |order| - 1, record.references[last].sysId);
  }

  lemma ReferencesDependOnOrderExactly(t: Tables, record: SnowRecord, related: bool)
    ensures (forall a, b :: Enumerates(a, record.references) && Enumerates(b, record.references)
               ==> WithFields(t, record, a, related).references == WithFields(t, record, b, related).references)
            <==> forall f, h :: !Disagree(record, f, h)
  {
    if f, h :| Disagree(record, f, h) {
      var rest := AnEnumeration(record.references.Keys - {f, h});
      var a, b := rest + [f, h], rest + [h, f];
      assert Enumerates(a, record.references) && Enumerates(b, record.references);
      LastWord(t, record, rest, f, h, related);
      LastWord(t, record, rest, h, f, related);
      assert WithFields(t, record, a, related).references != WithFields(t, record, b, related).references;
    } else {
      forall a, b | Enumerates(a, record.references) && Enumerates(b, record.references)
        ensures WithFields(t, record, a, related).references == WithFields(t, record, b, related).references
      {
        var x, y := WithFields(t, record, a, related).references, WithFields(t, record, b, related).references;
        forall k ensures (k in x <==> k in y) && (k in x ==> x[k] == y[k])
        {
          AgreeingFieldsFixTheRow(t, record, a, b, related, k);
        }
      }
    }
  }

  /** One user in two fields under two names: which name the cache shows depends on the order of the map. */
  lemma TwoNamesForOneUser() returns (record: SnowRecord, a: seq<string>, b: seq<string>)
    ensures Enumerates(a, record.references) && Enumerates(b, record.references)
    ensures var x, y := Projected(EMPTY, record, a, true).references, Projected(EMPTY, record, b, true).references;
            "user" in x && "user" in y && x["user"].displayName == "Ann" && y["user"].displayName == "Ann Example"
  {
    var short := Reference("user", "sys_user", "Ann", "{}");
    var long := Reference("user", "sys_user", "Ann Example", "{}");
    record := SnowRecord("rec", None, [], map["assigned_to" := short, "opened_by" := long], 0);
    a, b := ["opened_by", "assigned_to"], ["assigned_to", "opened_by"];
    assert a[0] == "opened_by" && a[1] == "assigned_to" && b[0] == "assigned_to" && b[1] == "opened_by";
    LastWord(EMPTY, record, [], "opened_by", "assigned_to", true);
    LastWord(EMPTY, record, [], "assigned_to", "opened_by", true);
    assert [] + a == a && [] + b == b;
  }

  // ---- what the tables of a document hold ----

  /** The row of a reference: its own table, name and extra. */
  predicate ShowsReference(row: ReferenceRow, r: Reference, syncedAt: int) {
    && row.sysId == r.sysId && row.table == r.table && row.displayName == r.displayName && row.extraJson == r.extra
    && row.syncedAt == syncedAt
  }

  /** The row of a record: its number for a name, and nothing extra. */
  predicate ShowsRecord(row: ReferenceRow, r: RecordRef, syncedAt: int) {
    && row.sysId == r.sysId && row.table == r.table && row.displayName == r.number && row.extraJson == "{}"
    && row.syncedAt == syncedAt
  }

  /** A reference field that gets a row: neither the parent field nor one that points at the parent. */
  ghost predicate FieldNames(record: SnowRecord, f: string, k: string) {
    && f in record.references && f != "parent" && record.references[f].sysId == k
    && (record.parent.Some? ==> record.parent.value.sysId != k)
  }

  ghost predicate AnyFieldNames(record: SnowRecord, k: string) {
    exists f :: FieldNames(record, f, k)
  }

  ghost predicate AnyChildNames(record: SnowRecord, k: string) {
    exists i :: 0 <= i < |record.children| && ChildNames(record, i, k)
  }

  ghost predicate ParentNames(record: SnowRecord, k: string) {
    record.parent.Some? && record.parent.value.sysId == k
  }

  /** The row is that of the last field in the order that names it, else of the last child, else of the parent. */
  ghost predicate ShowsLast(record: SnowRecord, order: seq<string>, k: string, row: ReferenceRow) {
    if AnyFieldNames(record, k) then
      exists i :: 0 <= i < |order| && FieldNames(record, order[i], k)
        && (forall j :: i < j < |order| ==> !FieldNames(record, order[j], k))
        && ShowsReference(row, record.references[order[i]], record.syncedAt)
    else if AnyChildNames(record, k) then
      exists i :: 0 <= i < |record.children| && ChildNames(record, i, k)
        && (forall j :: i < j < |record.children| ==> !ChildNames(record, j, k))
        && ShowsRecord(row, record.children[i], record.syncedAt)
    else ParentNames(record, k) && ShowsRecord(row, record.parent.value, record.syncedAt)
  }

  ghost predicate RecordTables(t: Tables, record: SnowRecord, order: seq<string>, related: bool) {
    && (forall k :: k in t.references <==>
          AnyFieldNames(record, k) || AnyChildNames(record, k) || ParentNames(record, k))
    && (forall k :: k in t.references ==> ShowsLast(record, order, k, t.references[k]))
    && multiset(t.relationships) == multiset(ParentRows(record)) + multiset(ChildRows(record))
                                    + (if related then multiset(KeptRows(record)) else multiset{})
  }

  ghost predicate ApprovalTables(t: Tables, record: SnowRecord, approver: Reference, target: RecordRef) {
    && t.references.Keys == {approver.sysId, target.sysId}
    && ShowsRecord(t.references[target.sysId], target, record.syncedAt)
    && (approver.sysId != target.sysId ==>
          ShowsReference(t.references[approver.sysId], approver, record.syncedAt))
    && t.relationships == [RelationshipRow(record.sysId, target.sysId, "approval_target", "sysapproval")]
  }

  ghost predicate Holds(t: Tables, d: Document, order: seq<string>) {
    match d
    case Record(r) => RecordTables(t, r, order, true)
    case Knowledge(r) => RecordTables(t, r, order, false)
    case Approval(r, approver, target) => ApprovalTables(t, r, approver, target)
  }

  lemma FieldIsNamed(record: SnowRecord, order: seq<string>, k: string)
    requires Enumerates(order, record.references)
    ensures forall i :: 0 <= i < |order| ==> (Names(record, order, i, k) <==> FieldNames(record, order[i], k))
    ensures AnyFieldNames(record, k) <==> exists i :: 0 <= i < |order| && Names(record, order, i, k)
  {
    if f :| FieldNames(record, f, k) {
      assert f in order;
      var i :| 0 <= i < |order| && order[i] == f;
      assert Names(record, order, i, k);
    }
  }

  lemma RowIsExact(record: SnowRecord, order: seq<string>, related: bool, k: string)
    requires Enumerates(order, record.references)
    ensures var t := Projected(EMPTY, record, order, related).references;
            && (k in t <==> AnyFieldNames(record, k) || AnyChildNames(record, k) || ParentNames(record, k))
            && (k in t ==> ShowsLast(record, order, k, t[k]))
  {
    var base := WithParent(EMPTY, record);
    var middle := WithChildren(base, record, |record.children|);
    LastChildDecides(base, record, |record.children|, k);
    LastFieldDecides(middle, record, order, related, k);
    FieldIsNamed(record, order, k);
    hide WithFields, WithChildren, KeptField, FieldNames, Enumerates;
  }

  /** Every reference row and every relationship row of a document, without the tables' own construction. */
  lemma TablesAreExact(d: Document, order: seq<string>)
    requires Enumerates(order, RecordOf(d).references)
    ensures Holds(DocumentTables(d, order), d, order)
  {
    if !d.Approval? {
      var record := RecordOf(d);
      RelationshipsAreExact(record, order, d.Record?);
      forall k
        ensures var t := DocumentTables(d, order).references;
                && (k in t <==> AnyFieldNames(record, k) || AnyChildNames(record, k) || ParentNames(record, k))
                && (k in t ==> ShowsLast(record, order, k, t[k]))
      {
        RowIsExact(record, order, d.Record?, k);
      }
    }
    hide Projected, ShowsLast, Enumerates;
  }
}

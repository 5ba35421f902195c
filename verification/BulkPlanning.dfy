/** Planning a bulk update: normalising patches, resolving targets against one upstream snapshot, canonical order. */
module BulkPlanning {
  import opened Wrappers
  import opened BulkModel
  import Ordering

  const JOURNAL_MAX_CHARS := 16_000
  const FIELD_ORDER := [AssignedTo, AssignmentGroup, State, WorkNotes, Comments]

  // ---- text ----

  predicate IsSpace(c: char) {
    '\t' <= c <= '\r' || c == ' ' || c == '\U{0085}' || c == '\U{00A0}' || c == '\U{1680}'
    || '\U{2000}' <= c <= '\U{200A}' || c == '\U{2028}' || c == '\U{2029}' || c == '\U{202F}' || c == '\U{205F}'
    || c == '\U{3000}'
  }

  function TrimStart(s: string): string {
    if s != [] && IsSpace(s[0]) then TrimStart(s[1..]) else s
  }

  function TrimEnd(s: string): string {
    if s != [] && IsSpace(s[|s| - 1]) then TrimEnd(s[..|s| - 1]) else s
  }

  function Trim(s: string): string {
    TrimEnd(TrimStart(s))
  }

  function LowerAscii(s: string): string {
    seq(|s|, i requires 0 <= i < |s| => if 'A' <= s[i] <= 'Z' then s[i] - 'A' + 'a' else s[i])
  }

  function UpperAscii(s: string): string {
    seq(|s|, i requires 0 <= i < |s| => if 'a' <= s[i] <= 'z' then s[i] - 'a' + 'A' else s[i])
  }

  predicate CancelAt(s: string, i: int) {
    0 <= i <= |s| - 6 && LowerAscii(s[i..i + 6]) == "cancel"
  }

  predicate MentionsCancel(s: string) {
    exists i :: 0 <= i < |s| && CancelAt(s, i)
  }

  predicate IsHex(c: char) {
    '0' <= c <= '9' || 'a' <= c <= 'f' || 'A' <= c <= 'F'
  }

  predicate ValidSysId(s: string) {
    |s| == 32 && forall i :: 0 <= i < |s| ==> IsHex(s[i])
  }

  predicate ValidIncidentNumber(s: string) {
    var t := Trim(s);
    |t| > 3 && t[..3] == "INC" && forall i :: 3 <= i < |t| ==> '0' <= t[i] <= '9'
  }

  // ---- requests and the upstream they are planned against ----

  datatype Choice = Choice(value: string, display: string)

  datatype Selector = ByNumber(number: string) | BySysId(sysId: string)

  datatype Record = Record(number: string, sysId: string, stamp: string)

  /** One snapshot: the state choices, if they can be listed, and what each selector reads. */
  datatype Upstream = Upstream(choices: Option<string -> Option<Choice>>, read: Selector -> Result<Record, ReadCode>)

  datatype TargetRequest = TargetRequest(number: Option<string>, sysId: Option<string>, patch: Patch)

  datatype PlanRequest = PlanRequest(shared: Patch, targets: seq<TargetRequest>)

  datatype Policy = Policy(
    planLimit: Option<nat>, applyLimit: Option<nat>, planFields: set<Field>, applyFields: set<Field>)

  datatype PlanError =
    | MaxTargetsInvalid | TargetCountInvalid | InvalidSelector | InvalidReference(field: Field)
    | StateRejected | StateUnresolved | ChoicesUnavailable | JournalRejected(field: Field)
    | PatchOverlap | EmptyPatch | FieldRejected | TargetUnreadable(code: ReadCode) | DuplicateTarget

  // ---- what planning computes ----

  function NormalizeField(f: Field, v: string, u: Upstream): Result<string, PlanError> {
    match f
    case State =>
      var selector := Trim(v);
      if selector == "" || MentionsCancel(selector) then Err(StateRejected)
      else if u.choices.None? then Err(ChoicesUnavailable)
      else
        var choice := u.choices.value(selector);
        if choice.None? then Err(PlanError.StateUnresolved)
        else if MentionsCancel(choice.value.value) || MentionsCancel(choice.value.display) then Err(StateRejected)
        else Ok(choice.value.value)
    case WorkNotes => if Trim(v) == "" || |v| > JOURNAL_MAX_CHARS then Err(JournalRejected(f)) else Ok(v)
    case Comments => if Trim(v) == "" || |v| > JOURNAL_MAX_CHARS then Err(JournalRejected(f)) else Ok(v)
    case _ => if ValidSysId(Trim(v)) then Ok(LowerAscii(Trim(v))) else Err(InvalidReference(f))
  }

  /** The fields in `fs` that the patch sets, normalised in that order; the first bad one decides the error. */
  function NormalizeIn(p: Patch, u: Upstream, fs: seq<Field>): Result<Patch, PlanError> {
    if fs == [] then Ok(map[])
    else
      var rest := NormalizeIn(p, u, fs[..|fs| - 1]);
      var f := fs[|fs| - 1];
      if rest.Err? || f !in p then rest
      else
        var v := NormalizeField(f, p[f], u);
        if v.Err? then Err(v.error) else Ok(rest.value[f := v.value])
  }

  function Normalize(p: Patch, u: Upstream): Result<Patch, PlanError> {
    NormalizeIn(p, u, FIELD_ORDER)
  }

  function SelectorOf(t: TargetRequest): Option<Selector> {
    if t.number.Some? && t.sysId.None? && ValidIncidentNumber(t.number.value)
    then Some(ByNumber(UpperAscii(t.number.value)))
    else if t.number.None? && t.sysId.Some? && ValidSysId(t.sysId.value) then Some(BySysId(LowerAscii(t.sysId.value)))
    else None
  }

  predicate FieldAllowed(policy: Policy, f: Field) {
    f in policy.planFields && f in policy.applyFields
  }

  /** One target on its own: its effective patch and the record it resolves to. */
  function PlanOne(shared: Patch, t: TargetRequest, u: Upstream, policy: Policy): Result<Target, PlanError> {
    var selector := SelectorOf(t);
    var own := Normalize(t.patch, u);
    if selector.None? then Err(InvalidSelector)
    else if own.Err? then Err(own.error)
    else if exists f :: f in shared && f in own.value then Err(PatchOverlap)
    else
      var effective := shared + own.value;
      if effective == map[] then Err(EmptyPatch)
      else if exists f :: f in effective && !FieldAllowed(policy, f) then Err(FieldRejected)
      else
        var record := u.read(selector.value);
        if record.Err? then Err(TargetUnreadable(record.error))
        else Ok(Target(record.value.number, LowerAscii(record.value.sysId), effective, record.value.stamp))
  }

  function SysIds(ts: seq<Target>): set<string> {
    set k | 0 <= k < |ts| :: ts[k].sysId
  }

  function PlanAll(shared: Patch, ts: seq<TargetRequest>, u: Upstream, policy: Policy): Result<seq<Target>, PlanError> {
    if ts == [] then Ok([])
    else
      var before := PlanAll(shared, ts[..|ts| - 1], u, policy);
      if before.Err? then before
      else
        var one := PlanOne(shared, ts[|ts| - 1], u, policy);
        if one.Err? then Err(one.error)
        else if one.value.sysId in SysIds(before.value) then Err(DuplicateTarget)
        else Ok(before.value + [one.value])
  }

  function Insert(t: Target, sorted: seq<Target>): seq<Target> {
    if sorted == [] || Ordering.Less(t.sysId, sorted[0].sysId) then [t] + sorted
    else [sorted[0]] + Insert(t, sorted[1..])
  }

  function SortBySysId(ts: seq<Target>): seq<Target> {
    if ts == [] then [] else Insert(ts[|ts| - 1], SortBySysId(ts[..|ts| - 1]))
  }

  /** The canonical preview of a request. */
  function Preview(r: PlanRequest, u: Upstream, policy: Policy): Result<seq<Target>, PlanError> {
    var limit := TargetLimit(policy.planLimit, policy.applyLimit);
    if limit.None? then Err(MaxTargetsInvalid)
    else if |r.targets| < MIN_TARGETS || |r.targets| > limit.value then Err(TargetCountInvalid)
    else
      var shared := Normalize(r.shared, u);
      if shared.Err? then Err(shared.error)
      else
        var planned := PlanAll(shared.value, r.targets, u, policy);
        if planned.Err? then planned else Ok(SortBySysId(planned.value))
  }

  // ---- normalisation is fieldwise ----

  lemma {:induction false} NormalizeInIsFieldwise(p: Patch, u: Upstream, fs: seq<Field>)
    ensures NormalizeIn(p, u, fs).Ok? <==> forall f :: f in fs && f in p ==> NormalizeField(f, p[f], u).Ok?
    ensures NormalizeIn(p, u, fs).Ok? ==>
      NormalizeIn(p, u, fs).value == map f | f in p && f in fs :: NormalizeField(f, p[f], u).value
  {
    if fs == [] {
    } else {
      var last := fs[|fs| - 1];
      NormalizeInIsFieldwise(p, u, fs[..|fs| - 1]);
      assert forall f :: f in fs <==> f in fs[..|fs| - 1] || f == last;
      assert last in fs;
    }
  }

  /** A patch is accepted exactly when each of its fields is, and each field keeps its own normal form. */
  lemma NormalizeIsFieldwise(p: Patch, u: Upstream)
    ensures Normalize(p, u).Ok? <==> forall f :: f in p ==> NormalizeField(f, p[f], u).Ok?
    ensures Normalize(p, u).Ok? ==> Normalize(p, u).value == map f | f in p :: NormalizeField(f, p[f], u).value
  {
    NormalizeInIsFieldwise(p, u, FIELD_ORDER);
    forall f: Field ensures f in FIELD_ORDER {
      match f
      case AssignedTo => assert FIELD_ORDER[0] == f;
      case AssignmentGroup => assert FIELD_ORDER[1] == f;
      case State => assert FIELD_ORDER[2] == f;
      case WorkNotes => assert FIELD_ORDER[3] == f;
      case Comments => assert FIELD_ORDER[4] == f;
    }
  }

  method NormalizePatch(p: Patch, u: Upstream) returns (r: Result<Patch, PlanError>)
    ensures r == Normalize(p, u)
  {
    var normalized: Patch := map[];
    for i := 0 to |FIELD_ORDER|
      invariant NormalizeIn(p, u, FIELD_ORDER[..i]) == Ok(normalized)
    {
      assert FIELD_ORDER[..i + 1][..i] == FIELD_ORDER[..i];
      var f := FIELD_ORDER[i];
      if f in p {
        var v := NormalizeField(f, p[f], u);
        if v.Err? {
          ErrorPersists(p, u, i + 1);
          return Err(v.error);
        }
        normalized := normalized[f := v.value];
      }
    }
    assert FIELD_ORDER[..|FIELD_ORDER|] == FIELD_ORDER;
    return Ok(normalized);
  }

  lemma {:induction false} ErrorPersists(p: Patch, u: Upstream, i: nat)
    requires i <= |FIELD_ORDER| && NormalizeIn(p, u, FIELD_ORDER[..i]).Err?
    ensures Normalize(p, u) == NormalizeIn(p, u, FIELD_ORDER[..i])
    decreases |FIELD_ORDER| - i
  {
    if i == |FIELD_ORDER| {
      assert FIELD_ORDER[..i] == FIELD_ORDER;
    } else {
      assert FIELD_ORDER[..i + 1][..i] == FIELD_ORDER[..i];
      ErrorPersists(p, u, i + 1);
    }
  }

  // ---- the planning loop ----

  method ConfiguredBulkTargetLimit(policy: Policy) returns (r: Option<nat>)
    ensures r.Some? <==>
      && policy.planLimit.Some? && policy.applyLimit.Some?
      && (3 <= policy.planLimit.value <= policy.applyLimit.value
        || 3 <= policy.applyLimit.value <= policy.planLimit.value)
      && (policy.planLimit.value <= 25 || policy.applyLimit.value <= 25)
    ensures r.Some? ==>
      && (r == policy.planLimit || r == policy.applyLimit)
      && 3 <= r.value <= 25
      && r.value <= policy.planLimit.value && r.value <= policy.applyLimit.value
    ensures r == TargetLimit(policy.planLimit, policy.applyLimit)
  {
    var limits: seq<nat> := [];
    for i := 0 to 2
      invariant |limits| == i
      invariant i >= 1 ==> policy.planLimit == Some(limits[0])
      invariant i >= 2 ==> policy.applyLimit == Some(limits[1])
    {
      var limit := if i == 0 then policy.planLimit else policy.applyLimit;
      if limit.None? {
        return None;
      }
      limits := limits + [limit.value];
    }
    var least := if limits[1] < limits[0] then limits[1] else limits[0];
    return if MIN_TARGETS <= least <= MAX_TARGETS then Some(least) else None;
  }

  lemma SysIdsGrow(ts: seq<Target>, t: Target)
    ensures SysIds(ts + [t]) == SysIds(ts) + {t.sysId}
  {
    assert (ts + [t])[|ts|] == t;
    forall id | id in SysIds(ts) ensures id in SysIds(ts + [t]) {
      var k :| 0 <= k < |ts| && ts[k].sysId == id;
      assert (ts + [t])[k] == ts[k];
    }
  }

  method PlanTarget(shared: Patch, t: TargetRequest, u: Upstream, policy: Policy) returns (r: Result<Target, PlanError>)
    ensures r == PlanOne(shared, t, u, policy)
  {
    var selector := SelectorOf(t);
    if selector.None? {
      return Err(InvalidSelector);
    }
    var own := NormalizePatch(t.patch, u);
    if own.Err? {
      return Err(own.error);
    }
    if exists f :: f in shared && f in own.value {
      return Err(PatchOverlap);
    }
    var effective := shared + own.value;
    if effective == map[] {
      return Err(EmptyPatch);
    }
    if exists f :: f in effective && !FieldAllowed(policy, f) {
      return Err(FieldRejected);
    }
    var record := u.read(selector.value);
    if record.Err? {
      return Err(TargetUnreadable(record.error));
    }
    return Ok(Target(record.value.number, LowerAscii(record.value.sysId), effective, record.value.stamp));
  }

  method PlanTargets(shared: Patch, ts: seq<TargetRequest>, u: Upstream, policy: Policy)
    returns (r: Result<seq<Target>, PlanError>)
    ensures r == PlanAll(shared, ts, u, policy)
  {
    hide PlanOne;
    var planned: seq<Target> := [];
    var seen: set<string> := {};
    for i := 0 to |ts|
      invariant PlanAll(shared, ts[..i], u, policy) == Ok(planned)
      invariant seen == SysIds(planned)
    {
      assert ts[..i + 1][..i] == ts[..i];
      var one := PlanTarget(shared, ts[i], u, policy);
      if one.Err? || one.value.sysId in seen {
        RejectionPersists(shared, ts, u, policy, i + 1);
        return Err(if one.Err? then one.error else DuplicateTarget);
      }
      SysIdsGrow(planned, one.value);
      seen := seen + {one.value.sysId};
      planned := planned + [one.value];
    }
    assert ts[..|ts|] == ts;
    return Ok(planned);
  }

  /** The whole of planning up to storing the plan: limit, count, shared patch, targets, canonical order, hash. */
  method BuildPlan(r: PlanRequest, u: Upstream, policy: Policy, planId: string, actor: string, environment: string,
                   expiresAt: nat)
    returns (plan: Result<Plan, PlanError>)
    ensures plan.Err? ==> Preview(r, u, policy) == Err(plan.error)
    ensures plan.Ok? ==>
      && WellFormed(plan.value) && Preview(r, u, policy) == Ok(plan.value.targets)
      && var ts := plan.value.targets; plan.value == Plan(planId, OpHash(ts), actor, actor, environment, ts, expiresAt)
  {
    var limit := ConfiguredBulkTargetLimit(policy);
    if limit.None? {
      return Err(MaxTargetsInvalid);
    }
    if |r.targets| < MIN_TARGETS || |r.targets| > limit.value {
      return Err(TargetCountInvalid);
    }
    var shared := NormalizePatch(r.shared, u);
    if shared.Err? {
      return Err(shared.error);
    }
    var planned := PlanTargets(shared.value, r.targets, u, policy);
    if planned.Err? {
      return Err(planned.error);
    }
    var targets := SortBySysId(planned.value);
    PreviewIsCanonical(r, u, policy);
    return Ok(Plan(planId, OpHash(targets), actor, actor, environment, targets, expiresAt));
  }

  lemma {:induction false} RejectionPersists(shared: Patch, ts: seq<TargetRequest>, u: Upstream, policy: Policy, i: nat)
    requires i <= |ts| && PlanAll(shared, ts[..i], u, policy).Err?
    ensures PlanAll(shared, ts, u, policy) == PlanAll(shared, ts[..i], u, policy)
    decreases |ts| - i
  {
    if i == |ts| {
      assert ts[..i] == ts;
    } else {
      assert ts[..i + 1][..i] == ts[..i];
      RejectionPersists(shared, ts, u, policy, i + 1);
    }
  }

  // ---- sorting ----

  lemma {:induction false} InsertSorts(t: Target, sorted: seq<Target>)
    requires Ordering.Ascending(sorted, SysIdOf) && t.sysId !in SysIds(sorted)
    ensures Ordering.Ascending(Insert(t, sorted), SysIdOf)
    ensures multiset(Insert(t, sorted)) == multiset(sorted) + multiset{t}
    decreases |sorted|
  {
    if sorted == [] {
    } else {
      var head, tail := sorted[0], sorted[1..];
      assert sorted == [head] + tail;
      SysIdsGrowInFront(head, tail);
      Ordering.LessIsTrichotomous(t.sysId, head.sysId);
      if Ordering.Less(t.sysId, head.sysId) {
        forall y | y in sorted ensures Ordering.Less(SysIdOf(t), SysIdOf(y)) {
          Ordering.HeadIsLeast(sorted, SysIdOf, y);
          if y != head {
            Ordering.LessIsTransitive(t.sysId, head.sysId, y.sysId);
          }
        }
        Ordering.PrependAscends(t, sorted, SysIdOf);
      } else {
        InsertSorts(t, tail);
        HeadBelowTail(t, head, tail);
        Ordering.PrependAscends(head, Insert(t, tail), SysIdOf);
      }
    }
  }

  lemma HeadBelowTail(t: Target, head: Target, tail: seq<Target>)
    requires Ordering.Ascending([head] + tail, SysIdOf) && Ordering.Less(head.sysId, t.sysId)
    requires multiset(Insert(t, tail)) == multiset(tail) + multiset{t}
    ensures forall y :: y in Insert(t, tail) ==> Ordering.Less(SysIdOf(head), SysIdOf(y))
  {
    forall y | y in Insert(t, tail) ensures Ordering.Less(SysIdOf(head), SysIdOf(y)) {
      assert y in multiset(Insert(t, tail));
      if y != t {
        assert y in tail;
        var i :| 0 <= i < |tail| && tail[i] == y;
        assert ([head] + tail)[i + 1] == y;
        assert Ordering.Less(SysIdOf(([head] + tail)[0]), SysIdOf(([head] + tail)[i + 1]));
      }
    }
  }

  lemma SysIdsGrowInFront(t: Target, ts: seq<Target>)
    ensures SysIds([t] + ts) == {t.sysId} + SysIds(ts)
  {
    assert ([t] + ts)[0] == t;
    forall id | id in SysIds(ts) ensures id in SysIds([t] + ts) {
      var k :| 0 <= k < |ts| && ts[k].sysId == id;
      assert ([t] + ts)[k + 1] == ts[k];
    }
  }

  ghost predicate DistinctIds(ts: seq<Target>) {
    forall i, j :: 0 <= i < j < |ts| ==> ts[i].sysId != ts[j].sysId
  }

  lemma SameElementsSameIds(a: seq<Target>, b: seq<Target>)
    requires multiset(a) == multiset(b)
    ensures SysIds(a) == SysIds(b)
  {
    forall id | id in SysIds(a) ensures id in SysIds(b) {
      var k :| 0 <= k < |a| && a[k].sysId == id;
      assert a[k] in multiset(b);
    }
    forall id | id in SysIds(b) ensures id in SysIds(a) {
      var k :| 0 <= k < |b| && b[k].sysId == id;
      assert b[k] in multiset(a);
    }
  }

  lemma {:induction false} SortSorts(ts: seq<Target>)
    requires DistinctIds(ts)
    ensures Ordering.Ascending(SortBySysId(ts), SysIdOf)
    ensures multiset(SortBySysId(ts)) == multiset(ts)
  {
    if ts == [] {
    } else {
      var before, last := ts[..|ts| - 1], ts[|ts| - 1];
      SortSorts(before);
      assert ts == before + [last];
      SameElementsSameIds(SortBySysId(before), before);
      InsertSorts(last, SortBySysId(before));
    }
  }

  // ---- what a plan satisfies ----

  lemma {:induction false} PlannedIsFieldwise(shared: Patch, ts: seq<TargetRequest>, u: Upstream, policy: Policy)
    ensures PlanAll(shared, ts, u, policy).Ok? ==>
      var planned := PlanAll(shared, ts, u, policy).value;
      && |planned| == |ts| && DistinctIds(planned)
      && forall i :: 0 <= i < |ts| ==> PlanOne(shared, ts[i], u, policy) == Ok(planned[i])
  {
    hide PlanOne;
    if ts == [] {
    } else {
      PlannedIsFieldwise(shared, ts[..|ts| - 1], u, policy);
      if PlanAll(shared, ts, u, policy).Ok? {
        var planned := PlanAll(shared, ts[..|ts| - 1], u, policy).value;
        forall i | 0 <= i < |planned| ensures planned[i].sysId != PlanOne(shared, ts[|ts| - 1], u, policy).value.sysId {
          assert planned[i].sysId in SysIds(planned);
        }
      }
    }
  }

  /** Targets that can each be planned, to different records, can be planned together. */
  lemma {:induction false} FieldwisePlansTogether(shared: Patch, ts: seq<TargetRequest>, u: Upstream, policy: Policy)
    ensures (forall i :: 0 <= i < |ts| ==> PlanOne(shared, ts[i], u, policy).Ok?)
      && (forall i, j :: 0 <= i < j < |ts| ==>
            PlanOne(shared, ts[i], u, policy).value.sysId != PlanOne(shared, ts[j], u, policy).value.sysId)
      ==> PlanAll(shared, ts, u, policy).Ok?
  {
    hide PlanOne;
    if ts == [] {
    } else {
      var before := ts[..|ts| - 1];
      PlannedIsFieldwise(shared, before, u, policy);
      FieldwisePlansTogether(shared, before, u, policy);
      if PlanAll(shared, before, u, policy).Ok? && PlanOne(shared, ts[|ts| - 1], u, policy).Ok? {
        var planned, one := PlanAll(shared, before, u, policy).value, PlanOne(shared, ts[|ts| - 1], u, policy).value;
        if one.sysId in SysIds(planned) {
          var k :| 0 <= k < |planned| && planned[k].sysId == one.sysId;
          assert PlanOne(shared, ts[k], u, policy).value.sysId == one.sysId;
        } else {
          forall i | 0 <= i < |planned| ensures planned[i].sysId != one.sysId {
            assert planned[i].sysId in SysIds(planned);
          }
        }
      }
    }
  }

  /** Every preview is strictly ascending, within both limits, and sets only allowed fields, at least one per target. */
  lemma PreviewIsCanonical(r: PlanRequest, u: Upstream, policy: Policy)
    ensures Preview(r, u, policy).Ok? ==>
      var ts := Preview(r, u, policy).value;
      && Ordering.Ascending(ts, SysIdOf) && |ts| == |r.targets|
      && 3 <= |ts| <= 25
      && policy.planLimit.Some? && |ts| <= policy.planLimit.value
      && policy.applyLimit.Some? && |ts| <= policy.applyLimit.value
      && (forall i :: 0 <= i < |ts| ==> ts[i].patch != map[])
      && (forall i, f :: 0 <= i < |ts| && f in ts[i].patch ==> f in policy.planFields && f in policy.applyFields)
  {
    hide PlanOne, NormalizeIn;
    if Preview(r, u, policy).Ok? {
      var shared := Normalize(r.shared, u).value;
      var planned := PlanAll(shared, r.targets, u, policy).value;
      PlannedIsFieldwise(shared, r.targets, u, policy);
      SortSorts(planned);
      var ts := Preview(r, u, policy).value;
      assert |ts| == |multiset(ts)| == |multiset(planned)|;
      forall i | 0 <= i < |ts|
        ensures ts[i].patch != map[] && forall f :: f in ts[i].patch ==> FieldAllowed(policy, f)
      {
        assert ts[i] in multiset(planned);
        var k :| 0 <= k < |planned| && planned[k] == ts[i];
        PlanOneIsAllowed(shared, r.targets[k], u, policy);
      }
    }
  }

  lemma PlanOneIsAllowed(shared: Patch, t: TargetRequest, u: Upstream, policy: Policy)
    ensures PlanOne(shared, t, u, policy).Ok? ==>
      var patch := PlanOne(shared, t, u, policy).value.patch;
      patch != map[] && forall f :: f in patch ==> f in policy.planFields && f in policy.applyFields
  {
  }

  // ---- canonical planning ----

  /** Two requests whose targets resolve to the same records with the same patches, in whatever order or spelling. */
  ghost predicate SameTargets(a: PlanRequest, b: PlanRequest, u: Upstream, policy: Policy) {
    && Normalize(a.shared, u).Ok? && Normalize(b.shared, u).Ok?
    && multiset(Outcomes(a, u, policy)) == multiset(Outcomes(b, u, policy))
  }

  ghost function Outcomes(r: PlanRequest, u: Upstream, policy: Policy): seq<Result<Target, PlanError>>
    requires Normalize(r.shared, u).Ok?
  {
    seq(|r.targets|, i requires 0 <= i < |r.targets| => PlanOne(Normalize(r.shared, u).value, r.targets[i], u, policy))
  }

  ghost function Successes(ts: seq<Target>): seq<Result<Target, PlanError>> {
    seq(|ts|, i requires 0 <= i < |ts| => Ok(ts[i]))
  }

  lemma {:induction false} SuccessesCount(ts: seq<Target>, t: Target)
    ensures multiset(Successes(ts))[Ok(t)] == multiset(ts)[t]
  {
    if ts == [] {
    } else {
      var before, last := ts[..|ts| - 1], ts[|ts| - 1];
      SuccessesCount(before, t);
      assert ts == before + [last] && Successes(ts) == Successes(before) + [Ok(last)];
    }
  }

  lemma PermutedSuccesses(a: seq<Target>, b: seq<Target>)
    requires multiset(Successes(a)) == multiset(Successes(b))
    ensures multiset(a) == multiset(b)
  {
    forall t ensures multiset(a)[t] == multiset(b)[t] {
      SuccessesCount(a, t);
      SuccessesCount(b, t);
    }
  }

  lemma {:induction false} DistinctByCount(ts: seq<Target>)
    ensures DistinctIds(ts) <==> |SysIds(ts)| == |ts|
    ensures |SysIds(ts)| <= |ts|
  {
    if ts == [] {
    } else {
      var before, last := ts[..|ts| - 1], ts[|ts| - 1];
      DistinctByCount(before);
      assert ts == before + [last];
      SysIdsGrow(before, last);
      if last.sysId in SysIds(before) {
        var k :| 0 <= k < |before| && before[k].sysId == last.sysId;
        assert ts[k].sysId == ts[|ts| - 1].sysId;
        assert SysIds(before) + {last.sysId} == SysIds(before);
      } else {
        forall i | 0 <= i < |before| ensures before[i].sysId != last.sysId {
          assert before[i].sysId in SysIds(before);
        }
      }
    }
  }

  /** Planning succeeds exactly when each target plans on its own and no two resolve to the same record. */
  lemma PlanAllSucceeds(r: PlanRequest, u: Upstream, policy: Policy)
    requires Normalize(r.shared, u).Ok?
    ensures var shared := Normalize(r.shared, u).value;
            PlanAll(shared, r.targets, u, policy).Ok? <==>
              exists ts :: Outcomes(r, u, policy) == Successes(ts) && DistinctIds(ts)
    ensures var shared := Normalize(r.shared, u).value;
            PlanAll(shared, r.targets, u, policy).Ok? ==>
              && Outcomes(r, u, policy) == Successes(PlanAll(shared, r.targets, u, policy).value)
              && DistinctIds(PlanAll(shared, r.targets, u, policy).value)
  {
    hide PlanOne, PlanAll, NormalizeIn;
    var shared := Normalize(r.shared, u).value;
    PlannedIsFieldwise(shared, r.targets, u, policy);
    if PlanAll(shared, r.targets, u, policy).Ok? {
      assert Outcomes(r, u, policy) == Successes(PlanAll(shared, r.targets, u, policy).value);
    } else if exists ts :: Outcomes(r, u, policy) == Successes(ts) && DistinctIds(ts) {
      var ts :| Outcomes(r, u, policy) == Successes(ts) && DistinctIds(ts);
      assert |ts| == |Successes(ts)| == |r.targets|;
      forall i | 0 <= i < |r.targets| ensures PlanOne(shared, r.targets[i], u, policy) == Ok(ts[i]) {
        assert Outcomes(r, u, policy)[i] == Successes(ts)[i];
      }
      FieldwisePlansTogether(shared, r.targets, u, policy);
    }
  }

  /** The order of the targets and the way each is named leave no trace in the preview, hence none in the hash. */
  lemma CanonicalPlanning(a: PlanRequest, b: PlanRequest, u: Upstream, policy: Policy)
    requires SameTargets(a, b, u, policy)
    ensures Preview(a, u, policy).Ok? <==> Preview(b, u, policy).Ok?
    ensures Preview(a, u, policy).Ok? ==> Preview(a, u, policy) == Preview(b, u, policy)
  {
    hide PlanOne, NormalizeIn;
    assert |a.targets| == |multiset(Outcomes(a, u, policy))| == |multiset(Outcomes(b, u, policy))| == |b.targets|;
    if PlanAll(Normalize(a.shared, u).value, a.targets, u, policy).Ok? {
      SuccessCarries(a, b, u, policy);
    }
    if PlanAll(Normalize(b.shared, u).value, b.targets, u, policy).Ok? {
      SuccessCarries(b, a, u, policy);
    }
    PlanAllSucceeds(a, u, policy);
    PlanAllSucceeds(b, u, policy);
    if Preview(a, u, policy).Ok? {
      var planned := PlanAll(Normalize(a.shared, u).value, a.targets, u, policy).value;
      var planned' := PlanAll(Normalize(b.shared, u).value, b.targets, u, policy).value;
      PermutedSuccesses(planned, planned');
      SortSorts(planned);
      SortSorts(planned');
      Ordering.AscendingIsUnique(SortBySysId(planned), SortBySysId(planned'), SysIdOf);
    }
  }

  lemma SuccessCarries(a: PlanRequest, b: PlanRequest, u: Upstream, policy: Policy)
    requires SameTargets(a, b, u, policy) && PlanAll(Normalize(a.shared, u).value, a.targets, u, policy).Ok?
    ensures PlanAll(Normalize(b.shared, u).value, b.targets, u, policy).Ok?
  {
    hide PlanOne, NormalizeIn, PlanAll;
    PlanAllSucceeds(a, u, policy);
    PlanAllSucceeds(b, u, policy);
    var ts := PlanAll(Normalize(a.shared, u).value, a.targets, u, policy).value;
    var rs := Outcomes(b, u, policy);
    forall i | 0 <= i < |rs| ensures rs[i].Ok? {
      assert rs[i] in multiset(Successes(ts));
    }
    var ts' := seq(|rs|, i requires 0 <= i < |rs| && rs[i].Ok? => rs[i].value);
    assert rs == Successes(ts');
    PermutedSuccesses(ts, ts');
    SameElementsSameIds(ts, ts');
    assert |ts| == |multiset(ts)| == |multiset(ts')|;
    DistinctByCount(ts);
    DistinctByCount(ts');
  }

  function Apply<T, R>(f: T -> R, s: seq<T>): seq<R> {
    seq(|s|, i requires 0 <= i < |s| => f(s[i]))
  }

  lemma ApplyWithout<T, R>(f: T -> R, s: seq<T>, k: nat)
    requires k < |s|
    ensures multiset(Apply(f, s)) == multiset(Apply(f, Without(s, k))) + multiset{f(s[k])}
  {
    assert Without(Apply(f, s), k) == Apply(f, Without(s, k));
    WithoutOne(Apply(f, s), k);
  }

  lemma {:induction false} ApplyKeepsPermutations<T, R>(f: T -> R, a: seq<T>, b: seq<T>)
    requires multiset(a) == multiset(b)
    ensures multiset(Apply(f, a)) == multiset(Apply(f, b))
  {
    if a == [] {
      assert |multiset(b)| == 0;
    } else {
      assert a[0] in multiset(b);
      var k :| 0 <= k < |b| && b[k] == a[0];
      var rest := Without(b, k);
      WithoutOne(a, 0);
      WithoutOne(b, k);
      assert Without(a, 0) == a[1..];
      assert multiset(a[1..]) == multiset(a) - multiset{a[0]} == multiset(b) - multiset{b[k]} == multiset(rest);
      ApplyKeepsPermutations(f, a[1..], rest);
      ApplyWithout(f, a, 0);
      ApplyWithout(f, b, k);
    }
  }

  function Without<T>(s: seq<T>, k: nat): seq<T>
    requires k < |s|
  {
    s[..k] + s[k + 1..]
  }

  lemma WithoutOne<T>(s: seq<T>, k: nat)
    requires k < |s|
    ensures multiset(s) == multiset(Without(s, k)) + multiset{s[k]}
  {
    assert s == s[..k] + [s[k]] + s[k + 1..];
  }

  /** Reordering the targets of a request. */
  lemma PermutedTargetsAreTheSame(a: PlanRequest, b: PlanRequest, u: Upstream, policy: Policy)
    requires Normalize(a.shared, u).Ok? && a.shared == b.shared && multiset(a.targets) == multiset(b.targets)
    ensures SameTargets(a, b, u, policy)
  {
    hide PlanOne, NormalizeIn;
    var f := (t: TargetRequest) => PlanOne(Normalize(a.shared, u).value, t, u, policy);
    ApplyKeepsPermutations(f, a.targets, b.targets);
    assert Outcomes(a, u, policy) == Apply(f, a.targets) && Outcomes(b, u, policy) == Apply(f, b.targets);
  }

  /** Naming some targets by number instead of sys_id, or the other way round. */
  lemma RenamedTargetsAreTheSame(a: PlanRequest, b: PlanRequest, u: Upstream, policy: Policy)
    requires Normalize(a.shared, u).Ok? && a.shared == b.shared && |a.targets| == |b.targets|
    requires forall i :: 0 <= i < |a.targets| ==>
      && a.targets[i].patch == b.targets[i].patch
      && SelectorOf(a.targets[i]).Some? && SelectorOf(b.targets[i]).Some?
      && u.read(SelectorOf(a.targets[i]).value) == u.read(SelectorOf(b.targets[i]).value)
    ensures SameTargets(a, b, u, policy)
  {
    assert Outcomes(a, u, policy) == Outcomes(b, u, policy);
  }

  // ---- shared and per-target fields ----

  /** The same request with field `f` taken out of the shared patch and set on every target instead. */
  function Distributed(r: PlanRequest, f: Field): PlanRequest
    requires f in r.shared
  {
    PlanRequest(r.shared - {f},
                seq(|r.targets|, i requires 0 <= i < |r.targets| =>
                  r.targets[i].(patch := r.targets[i].patch[f := r.shared[f]])))
  }

  /** The effective patch is a disjoint union: its size is the sum of the sizes and nothing is overridden. */
  lemma EffectivePatchIsDisjointUnion(shared: Patch, t: TargetRequest, u: Upstream, policy: Policy)
    requires PlanOne(shared, t, u, policy).Ok?
    ensures var own := Normalize(t.patch, u).value; var patch := PlanOne(shared, t, u, policy).value.patch;
            && |patch| == |shared| + |own|
            && (forall f :: f in shared ==> patch[f] == shared[f])
            && (forall f :: f in own ==> patch[f] == own[f])
  {
    hide NormalizeIn;
    var own := Normalize(t.patch, u).value;
    var patch := PlanOne(shared, t, u, policy).value.patch;
    assert patch.Keys == shared.Keys + own.Keys && shared.Keys * own.Keys == {};
    assert |patch| == |patch.Keys| && |shared| == |shared.Keys| && |own| == |own.Keys|;
  }

  lemma DistributedTarget(shared: Patch, f: Field, v: string, t: TargetRequest, u: Upstream, policy: Policy)
    requires f !in t.patch && f in shared && NormalizeField(f, v, u) == Ok(shared[f])
    ensures var t' := t.(patch := t.patch[f := v]);
            && (PlanOne(shared, t, u, policy).Ok? <==> PlanOne(shared - {f}, t', u, policy).Ok?)
            && (PlanOne(shared, t, u, policy).Ok? ==>
                  PlanOne(shared, t, u, policy) == PlanOne(shared - {f}, t', u, policy))
  {
    var t' := t.(patch := t.patch[f := v]);
    NormalizeIsFieldwise(t.patch, u);
    NormalizeIsFieldwise(t'.patch, u);
    hide NormalizeField, Normalize;
    assert forall g :: g in t.patch ==> t'.patch[g] == t.patch[g];
    if Normalize(t.patch, u).Ok? {
      var own := Normalize(t.patch, u).value;
      var own' := Normalize(t'.patch, u).value;
      assert own' == own[f := shared[f]];
      assert forall g :: g in shared && g in own <==> g in shared - {f} && g in own';
      if !(exists g :: g in shared && g in own) {
        assert shared + own == (shared - {f}) + own';
      }
    }
  }

  lemma DistributedShared(r: PlanRequest, f: Field, u: Upstream)
    requires f in r.shared
    ensures Normalize(r.shared, u).Ok? <==> Normalize(r.shared - {f}, u).Ok? && NormalizeField(f, r.shared[f], u).Ok?
    ensures Normalize(r.shared, u).Ok? ==>
      && f in Normalize(r.shared, u).value
      && NormalizeField(f, r.shared[f], u) == Ok(Normalize(r.shared, u).value[f])
      && Normalize(r.shared - {f}, u).value == Normalize(r.shared, u).value - {f}
  {
    NormalizeIsFieldwise(r.shared, u);
    NormalizeIsFieldwise(r.shared - {f}, u);
    hide NormalizeField, Normalize;
    assert forall g :: g in r.shared && g != f ==> g in r.shared - {f} && (r.shared - {f})[g] == r.shared[g];
  }

  /** Requests whose targets plan alike, one by one, plan alike as a whole. */
  lemma {:induction false} PlansAgree(
    shared: Patch, ts: seq<TargetRequest>, shared': Patch, ts': seq<TargetRequest>, u: Upstream, policy: Policy)
    requires |ts| == |ts'|
    requires forall i :: 0 <= i < |ts| ==>
      && (PlanOne(shared, ts[i], u, policy).Ok? <==> PlanOne(shared', ts'[i], u, policy).Ok?)
      && (PlanOne(shared, ts[i], u, policy).Ok? ==>
            PlanOne(shared, ts[i], u, policy) == PlanOne(shared', ts'[i], u, policy))
    ensures PlanAll(shared, ts, u, policy).Ok? <==> PlanAll(shared', ts', u, policy).Ok?
    ensures PlanAll(shared, ts, u, policy).Ok? ==> PlanAll(shared, ts, u, policy) == PlanAll(shared', ts', u, policy)
  {
    hide PlanOne;
    if ts == [] {
    } else {
      PlansAgree(shared, ts[..|ts| - 1], shared', ts'[..|ts| - 1], u, policy);
    }
  }

  /** Sharing a field or repeating it on every target plans the same update. */
  lemma SharingIsDistributing(r: PlanRequest, f: Field, u: Upstream, policy: Policy)
    requires f in r.shared && forall i :: 0 <= i < |r.targets| ==> f !in r.targets[i].patch
    ensures Preview(r, u, policy).Ok? <==> Preview(Distributed(r, f), u, policy).Ok?
    ensures Preview(r, u, policy).Ok? ==> Preview(r, u, policy) == Preview(Distributed(r, f), u, policy)
  {
    hide PlanOne, PlanAll, NormalizeIn, NormalizeField, SortBySysId;
    var d := Distributed(r, f);
    DistributedShared(r, f, u);
    if Normalize(r.shared, u).Ok? {
      var shared := Normalize(r.shared, u).value;
      forall i | 0 <= i < |r.targets|
        ensures PlanOne(shared, r.targets[i], u, policy).Ok? <==> PlanOne(shared - {f}, d.targets[i], u, policy).Ok?
        ensures PlanOne(shared, r.targets[i], u, policy).Ok? ==>
          PlanOne(shared, r.targets[i], u, policy) == PlanOne(shared - {f}, d.targets[i], u, policy)
      {
        DistributedTarget(shared, f, r.shared[f], r.targets[i], u, policy);
      }
      PlansAgree(shared, r.targets, shared - {f}, d.targets, u, policy);
    } else if Preview(d, u, policy).Ok? {
      BadSharedFieldFailsEveryTarget(r, f, u, policy);
    }
  }

  lemma BadSharedFieldFailsEveryTarget(r: PlanRequest, f: Field, u: Upstream, policy: Policy)
    requires f in r.shared && NormalizeField(f, r.shared[f], u).Err? && r.targets != []
    requires Normalize(r.shared - {f}, u).Ok?
    ensures PlanAll(Normalize(r.shared - {f}, u).value, Distributed(r, f).targets, u, policy).Err?
  {
    var d := Distributed(r, f);
    var t := d.targets[0];
    NormalizeIsFieldwise(t.patch, u);
    PlannedIsFieldwise(Normalize(d.shared, u).value, d.targets, u, policy);
    assert f in t.patch && t.patch[f] == r.shared[f];
  }

  // ---- concurrency tokens ----

  method ValidateSuppliedTokens(tokens: seq<ConcurrencyToken>, plan: Plan) returns (ok: bool)
    ensures ok <==> tokens == ExpectedTokens(plan.targets)
  {
    if |tokens| != |plan.targets| {
      return false;
    }
    var expected: seq<ConcurrencyToken> := [];
    for i := 0 to |plan.targets|
      invariant |expected| == i && forall k :: 0 <= k < i ==> expected[k] == TokenFor(plan.targets[k])
    {
      expected := expected + [TokenFor(plan.targets[i])];
    }
    assert expected == ExpectedTokens(plan.targets);
    return tokens == expected;
  }

  function TokenSysId(t: ConcurrencyToken): string {
    t.sysId
  }

  /** A plan accepts one token list: every planned token exactly once, in ascending order of sys_id. */
  lemma AcceptedTokensAreCanonical(tokens: seq<ConcurrencyToken>, plan: Plan)
    requires WellFormed(plan)
    ensures tokens == ExpectedTokens(plan.targets) <==>
      multiset(tokens) == multiset(ExpectedTokens(plan.targets)) && Ordering.Ascending(tokens, TokenSysId)
  {
    var expected := ExpectedTokens(plan.targets);
    forall i, j | 0 <= i < j < |expected| ensures Ordering.Less(TokenSysId(expected[i]), TokenSysId(expected[j])) {
      assert Ordering.Less(SysIdOf(plan.targets[i]), SysIdOf(plan.targets[j]));
    }
    if multiset(tokens) == multiset(expected) && Ordering.Ascending(tokens, TokenSysId) {
      Ordering.AscendingIsUnique(tokens, expected, TokenSysId);
    }
  }
}

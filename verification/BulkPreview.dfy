/** What a preview says about the request it was made from: each planned target, value by value, and each error. */
module BulkPreview {
  import opened Wrappers
  import opened BulkModel
  import opened BulkPlanning

  // ---- text ----

  ghost predicate Blank(s: string) {
    forall i :: 0 <= i < |s| ==> IsSpace(s[i])
  }

  /** `t` is `s` without the white space around it. */
  ghost predicate Trimmed(s: string, t: string) {
    && (t != [] ==> !IsSpace(t[0]) && !IsSpace(t[|t| - 1]))
    && exists before, after :: Blank(before) && Blank(after) && s == before + t + after
  }

  lemma {:induction false} TrimStartStrips(s: string) returns (before: string)
    ensures Blank(before) && s == before + TrimStart(s) && (TrimStart(s) != [] ==> !IsSpace(TrimStart(s)[0]))
  {
    if s == [] || !IsSpace(s[0]) {
      before := [];
    } else {
      var rest := TrimStartStrips(s[1..]);
      before := [s[0]] + rest;
      assert s == [s[0]] + s[1..];
    }
  }

  lemma {:induction false} TrimEndStrips(s: string) returns (after: string)
    ensures Blank(after) && s == TrimEnd(s) + after
    ensures TrimEnd(s) != [] ==> !IsSpace(TrimEnd(s)[|TrimEnd(s)| - 1])
  {
    if s == [] || !IsSpace(s[|s| - 1]) {
      after := [];
    } else {
      var rest := TrimEndStrips(s[..|s| - 1]);
      after := rest + [s[|s| - 1]];
      assert s == s[..|s| - 1] + [s[|s| - 1]];
    }
  }

  lemma TrimStrips(s: string)
    ensures Trimmed(s, Trim(s))
    ensures Trim(s) == "" <==> Blank(s)
  {
    var before := TrimStartStrips(s);
    var after := TrimEndStrips(TrimStart(s));
    assert s == before + Trim(s) + after;
    if Trim(s) != "" {
      assert TrimStart(s)[0] == Trim(s)[0];
      assert s[|before|] == Trim(s)[0];
    }
  }

  predicate LowerHex(c: char) {
    '0' <= c <= '9' || 'a' <= c <= 'f'
  }

  /** 32 hexadecimal digits, in lower case. */
  ghost predicate CanonicalSysId(s: string) {
    |s| == 32 && forall i :: 0 <= i < 32 ==> LowerHex(s[i])
  }

  /** The same text but for the case of its ASCII letters. */
  ghost predicate SameLetters(s: string, t: string) {
    |s| == |t| && forall i :: 0 <= i < |s| ==>
      || s[i] == t[i]
      || ('A' <= s[i] <= 'Z' && t[i] as int == s[i] as int + 32)
      || ('A' <= t[i] <= 'Z' && s[i] as int == t[i] as int + 32)
  }

  lemma LoweringIsCanonical(s: string)
    ensures SameLetters(s, LowerAscii(s)) && forall i :: 0 <= i < |s| ==> !('A' <= LowerAscii(s)[i] <= 'Z')
    ensures ValidSysId(s) <==> CanonicalSysId(LowerAscii(s))
  {
    if CanonicalSysId(LowerAscii(s)) {
      forall i | 0 <= i < |s| ensures IsHex(s[i]) {
        assert LowerHex(LowerAscii(s)[i]);
      }
    }
  }

  ghost predicate ReadsCancelAt(s: string, i: int) {
    0 <= i <= |s| - 6 && SameLetters(s[i..i + 6], "cancel")
  }

  /** Somewhere the text reads "cancel", in whatever case. */
  ghost predicate ReadsCancel(s: string) {
    exists i :: ReadsCancelAt(s, i)
  }

  lemma CancelIsFound(s: string)
    ensures MentionsCancel(s) <==> ReadsCancel(s)
  {
    forall i ensures CancelAt(s, i) <==> ReadsCancelAt(s, i) {
      if 0 <= i <= |s| - 6 {
        SixLetters(s[i..i + 6]);
      }
    }
    if ReadsCancel(s) {
      var i :| ReadsCancelAt(s, i);
      assert 0 <= i < |s| && CancelAt(s, i);
    }
  }

  lemma SixLetters(s: string)
    requires |s| == 6
    ensures LowerAscii(s) == "cancel" <==> SameLetters(s, "cancel")
  {
    var t := "cancel";
    assert t[0] == 'c' && t[1] == 'a' && t[2] == 'n' && t[3] == 'c' && t[4] == 'e' && t[5] == 'l';
    if SameLetters(s, t) {
      assert forall i :: 0 <= i < 6 ==> LowerAscii(s)[i] == t[i];
    }
    if LowerAscii(s) == t {
      LoweringIsCanonical(s);
    }
  }

  lemma {:induction false} TrimAgain(s: string, before: string, t: string, after: string)
    requires s == before + t + after && Blank(before) && Blank(after) && t != []
    requires !IsSpace(t[0]) && !IsSpace(t[|t| - 1])
    ensures Trim(s) == t
  {
    TrimStartSkips(before, t + after);
    assert before + (t + after) == s && (t + after)[0] == t[0];
    TrimEndSkips(t, after);
  }

  lemma {:induction false} TrimStartSkips(before: string, rest: string)
    requires Blank(before) && rest != [] && !IsSpace(rest[0])
    ensures TrimStart(before + rest) == rest
  {
    if before == [] {
      assert before + rest == rest;
    } else {
      assert (before + rest)[1..] == before[1..] + rest;
      TrimStartSkips(before[1..], rest);
    }
  }

  lemma {:induction false} TrimEndSkips(t: string, after: string)
    requires Blank(after) && t != [] && !IsSpace(t[|t| - 1])
    ensures TrimEnd(t + after) == t
  {
    if after == [] {
      assert t + after == t;
    } else {
      assert (t + after)[..|t + after| - 1] == t + after[..|after| - 1];
      TrimEndSkips(t, after[..|after| - 1]);
    }
  }

  // ---- selectors ----

  /** "INC" and digits, at least one. */
  ghost predicate IncidentNumber(s: string) {
    |s| > 3 && s[0] == 'I' && s[1] == 'N' && s[2] == 'C' && forall i :: 3 <= i < |s| ==> '0' <= s[i] <= '9'
  }

  /** The selector a target names: its number as it stands, or its sys_id in lower case, and never both. */
  ghost predicate Names(t: TargetRequest, selector: Selector) {
    match selector
    case ByNumber(number) =>
      t.sysId.None? && t.number == Some(number) && exists n :: IncidentNumber(n) && Trimmed(number, n)
    case BySysId(id) =>
      t.number.None? && t.sysId.Some? && CanonicalSysId(id) && SameLetters(t.sysId.value, id)
  }

  ghost predicate NoLowerCase(s: string) {
    forall i :: 0 <= i < |s| ==> !('a' <= s[i] <= 'z')
  }

  lemma UpperIsIdle(s: string)
    requires NoLowerCase(s)
    ensures UpperAscii(s) == s
  {
  }

  lemma NumberIsUpperCase(s: string)
    requires ValidIncidentNumber(s)
    ensures UpperAscii(s) == s && IncidentNumber(Trim(s)) && Trimmed(s, Trim(s))
  {
    hide UpperAscii, TrimStart, TrimEnd, Trim;
    TrimStrips(s);
    var t := Trim(s);
    assert IncidentNumber(t) by {
      assert t[0] == t[..3][0] && t[1] == t[..3][1] && t[2] == t[..3][2];
    }
    var before, after :| Blank(before) && Blank(after) && s == before + t + after;
    assert NoLowerCase(before) && NoLowerCase(t) && NoLowerCase(after);
    hide IsSpace, Blank;
    assert NoLowerCase(s);
    UpperIsIdle(s);
  }

  lemma NumberIsValid(s: string, n: string)
    requires IncidentNumber(n) && Trimmed(s, n)
    ensures ValidIncidentNumber(s)
  {
    var before, after :| Blank(before) && Blank(after) && s == before + n + after;
    TrimAgain(s, before, n, after);
    assert n[..3] == "INC";
  }

  /** A target names exactly one selector, or none. */
  lemma SelectorIsNamed(t: TargetRequest, selector: Selector)
    ensures SelectorOf(t) == Some(selector) <==> Names(t, selector)
  {
    if t.number.Some? && ValidIncidentNumber(t.number.value) {
      NumberIsUpperCase(t.number.value);
    }
    if selector.ByNumber? && Names(t, selector) {
      var n :| IncidentNumber(n) && Trimmed(selector.number, n);
      NumberIsValid(selector.number, n);
    }
    if t.sysId.Some? {
      LoweringIsCanonical(t.sysId.value);
      if selector.BySysId? && CanonicalSysId(selector.sysId) && SameLetters(t.sysId.value, selector.sysId) {
        assert forall i :: 0 <= i < 32 ==> LowerHex(selector.sysId[i]);
        assert LowerAscii(t.sysId.value) == selector.sysId;
      }
    }
  }

  // ---- values ----

  /** `n` is what planning makes of the value `v` of field `f`: a trimmed sys_id in lower case, the raw value of a state
      choice that has nothing to do with cancelling, or a journal entry as it stands. */
  ghost predicate Normal(f: Field, v: string, u: Upstream, n: string) {
    match f
    case AssignedTo => CanonicalSysId(n) && exists t :: Trimmed(v, t) && SameLetters(t, n)
    case AssignmentGroup => CanonicalSysId(n) && exists t :: Trimmed(v, t) && SameLetters(t, n)
    case State => ChoiceOf(v, u).Some? && n == ChoiceOf(v, u).value.value && !Cancels(v, ChoiceOf(v, u).value)
    case WorkNotes => n == v && !Blank(v) && |v| <= 16000
    case Comments => n == v && !Blank(v) && |v| <= 16000
  }

  /** The state choice the trimmed text selects, if the choices can be listed. */
  ghost function ChoiceOf(v: string, u: Upstream): Option<Choice> {
    if Blank(v) || u.choices.None? then None else u.choices.value(Trim(v))
  }

  ghost predicate Cancels(v: string, choice: Choice) {
    ReadsCancel(Trim(v)) || ReadsCancel(choice.value) || ReadsCancel(choice.display)
  }

  lemma ReferenceIsNormal(f: Field, v: string, u: Upstream)
    requires f == AssignedTo || f == AssignmentGroup
    ensures if NormalizeField(f, v, u).Ok? then Normal(f, v, u, NormalizeField(f, v, u).value)
            else NormalizeField(f, v, u).error == InvalidReference(f) && !CanonicalSysId(LowerAscii(Trim(v)))
  {
    TrimStrips(v);
    LoweringIsCanonical(Trim(v));
  }

  /** Each value is normal or rejected with its own error. */
  lemma ValueIsNormal(f: Field, v: string, u: Upstream)
    ensures var r := NormalizeField(f, v, u);
            && (r.Ok? ==> Normal(f, v, u, r.value))
            && (r.Err? ==> RejectedAs(f, v, u, r.error))
  {
    hide Trim, ReadsCancel, LowerAscii, CanonicalSysId, SameLetters;
    TrimStrips(v);
    if f == AssignedTo || f == AssignmentGroup {
      ReferenceIsNormal(f, v, u);
    } else if f == State {
      CancelIsFound(Trim(v));
      if ChoiceOf(v, u).Some? {
        CancelIsFound(ChoiceOf(v, u).value.value);
        CancelIsFound(ChoiceOf(v, u).value.display);
      }
    }
  }

  /** Why a value is rejected. */
  ghost predicate RejectedAs(f: Field, v: string, u: Upstream, e: PlanError) {
    match f
    case AssignedTo => e == InvalidReference(f) && !CanonicalSysId(LowerAscii(Trim(v)))
    case AssignmentGroup => e == InvalidReference(f) && !CanonicalSysId(LowerAscii(Trim(v)))
    case State =>
      if Blank(v) || ReadsCancel(Trim(v)) then e == StateRejected
      else if u.choices.None? then e == ChoicesUnavailable
      else if ChoiceOf(v, u).None? then e == PlanError.StateUnresolved
      else e == StateRejected && Cancels(v, ChoiceOf(v, u).value)
    case WorkNotes => e == JournalRejected(f) && (Blank(v) || |v| > 16000)
    case Comments => e == JournalRejected(f) && (Blank(v) || |v| > 16000)
  }

  // ---- targets ----

  /** What a planned target is made of: the record its selector reads, and the shared and its own fields, disjoint. */
  ghost predicate PlannedFrom(t: Target, r: TargetRequest, shared: Patch, u: Upstream) {
    && (exists selector :: Names(r, selector) && Reads(t, u.read(selector)))
    && shared.Keys !! r.patch.Keys && t.patch.Keys == shared.Keys + r.patch.Keys
    && (forall f :: f in shared ==> Normal(f, shared[f], u, t.patch[f]))
    && (forall f :: f in r.patch ==> Normal(f, r.patch[f], u, t.patch[f]))
  }

  /** The target carries the record's number and stamp as read, and its sys_id in lower case. */
  ghost predicate Reads(t: Target, record: Result<Record, ReadCode>) {
    && record.Ok? && t.number == record.value.number && t.stamp == record.value.stamp
    && t.sysId == LowerAscii(record.value.sysId)
  }

  lemma PatchIsNormal(p: Patch, u: Upstream)
    requires Normalize(p, u).Ok?
    ensures Normalize(p, u).value.Keys == p.Keys
    ensures forall f :: f in p ==> Normal(f, p[f], u, Normalize(p, u).value[f])
  {
    hide Normalize, NormalizeField, Normal;
    NormalizeIsFieldwise(p, u);
    forall f | f in p ensures Normal(f, p[f], u, Normalize(p, u).value[f]) {
      ValueIsNormal(f, p[f], u);
    }
  }

  lemma TargetIsPlannedFrom(r: TargetRequest, shared: Patch, u: Upstream, policy: Policy)
    requires Normalize(shared, u).Ok? && PlanOne(Normalize(shared, u).value, r, u, policy).Ok?
    ensures PlannedFrom(PlanOne(Normalize(shared, u).value, r, u, policy).value, r, shared, u)
  {
    hide Normalize, Normal, Names, SelectorOf, LowerAscii;
    PatchIsNormal(shared, u);
    PatchIsNormal(r.patch, u);
    SelectorIsNamed(r, SelectorOf(r).value);
  }

  /** The planned targets are the requested ones, one for one up to their order. */
  ghost predicate OneForOne(ts: seq<Target>, r: PlanRequest, u: Upstream) {
    exists planned: seq<Target> ::
      multiset(planned) == multiset(ts) && |planned| == |r.targets|
      && forall i :: 0 <= i < |planned| ==> PlannedFrom(planned[i], r.targets[i], r.shared, u)
  }

  /** A preview holds the requested targets, one for one and in ascending order: each is the record its selector reads,
      with that record's stamp, and each value is the requested one in its normal form. */
  lemma PreviewIsExact(r: PlanRequest, u: Upstream, policy: Policy)
    requires Preview(r, u, policy).Ok?
    ensures OneForOne(Preview(r, u, policy).value, r, u)
  {
    hide PlanOne, PlanAll, Normalize, PlannedFrom, SortBySysId;
    var shared := Normalize(r.shared, u).value;
    var planned := PlanAll(shared, r.targets, u, policy).value;
    PlannedIsFieldwise(shared, r.targets, u, policy);
    SortSorts(planned);
    forall i | 0 <= i < |planned| ensures PlannedFrom(planned[i], r.targets[i], r.shared, u) {
      TargetIsPlannedFrom(r.targets[i], r.shared, u, policy);
    }
  }

  // ---- errors ----

  /** The order in which the fields of a patch are looked at. */
  function Turn(f: Field): nat {
    match f
    case AssignedTo => 0
    case AssignmentGroup => 1
    case State => 2
    case WorkNotes => 3
    case Comments => 4
  }

  /** A patch is rejected for the first of its fields that is not normal, with that field's error. */
  lemma FirstBadFieldDecides(p: Patch, u: Upstream) returns (f: Field)
    requires Normalize(p, u).Err?
    ensures f in p && RejectedAs(f, p[f], u, Normalize(p, u).error)
    ensures forall g :: g in p && Turn(g) < Turn(f) ==>
              NormalizeField(g, p[g], u).Ok? && Normal(g, p[g], u, NormalizeField(g, p[g], u).value)
  {
    hide NormalizeField, RejectedAs, Normal, NormalizeIn;
    var i := FirstBad(p, u, FIELD_ORDER);
    f := FIELD_ORDER[i];
    ValueIsNormal(f, p[f], u);
    forall g | g in p && Turn(g) < Turn(f)
      ensures NormalizeField(g, p[g], u).Ok? && Normal(g, p[g], u, NormalizeField(g, p[g], u).value)
    {
      InTurn(f, i);
      InTurn(g, Turn(g));
      assert FIELD_ORDER[Turn(g)] in p;
      ValueIsNormal(g, p[g], u);
    }
  }

  lemma InTurn(f: Field, i: nat)
    ensures |FIELD_ORDER| == 5 && FIELD_ORDER[Turn(f)] == f
    ensures i < 5 && FIELD_ORDER[i] == f ==> i == Turn(f)
  {
  }

  lemma {:induction false} FirstBad(p: Patch, u: Upstream, fs: seq<Field>) returns (i: nat)
    requires NormalizeIn(p, u, fs).Err?
    ensures i < |fs| && fs[i] in p && NormalizeField(fs[i], p[fs[i]], u) == Err(NormalizeIn(p, u, fs).error)
    ensures forall j :: 0 <= j < i && fs[j] in p ==> NormalizeField(fs[j], p[fs[j]], u).Ok?
  {
    hide NormalizeField;
    var before := fs[..|fs| - 1];
    if NormalizeIn(p, u, before).Err? {
      i := FirstBad(p, u, before);
    } else {
      i := |fs| - 1;
      NormalizeInIsFieldwise(p, u, before);
      forall j | 0 <= j < i && fs[j] in p ensures NormalizeField(fs[j], p[fs[j]], u).Ok? {
        assert before[j] in before;
      }
    }
  }

  /** A target is rejected for the first thing that is wrong with it: its selector, its own values, a field that is also
      shared, having no field at all, a field the policy does not allow, or the read of its record. */
  lemma TargetIsRejectedFor(r: TargetRequest, shared: Patch, u: Upstream, policy: Policy)
    requires Normalize(shared, u).Ok?
    ensures var one := PlanOne(Normalize(shared, u).value, r, u, policy);
            var fields := shared.Keys + r.patch.Keys;
            var named := exists selector :: Names(r, selector);
            var normal := named && Normalize(r.patch, u).Ok?;
            var apart := normal && shared.Keys !! r.patch.Keys;
            var filled := apart && fields != {};
            var allowed := filled && fields <= policy.planFields * policy.applyFields;
            && (!named ==> one == Err(InvalidSelector))
            && (named && !normal ==> one == Err(Normalize(r.patch, u).error))
            && (normal && !apart ==> one == Err(PatchOverlap))
            && (apart && !filled ==> one == Err(EmptyPatch))
            && (filled && !allowed ==> one == Err(FieldRejected))
            && (forall selector :: allowed && Names(r, selector) && u.read(selector).Err? ==>
                  one == Err(TargetUnreadable(u.read(selector).error)))
            && (forall selector :: allowed && Names(r, selector) && u.read(selector).Ok? ==> one.Ok?)
  {
    hide Normalize, Names, SelectorOf, LowerAscii;
    if Normalize(r.patch, u).Ok? {
      hide Normal;
      PatchIsNormal(r.patch, u);
    }
    PatchIsNormal(shared, u);
    forall selector ensures SelectorOf(r) == Some(selector) <==> Names(r, selector) {
      SelectorIsNamed(r, selector);
    }
    if SelectorOf(r).Some? {
      assert Names(r, SelectorOf(r).value);
    }
    var effective := shared.Keys + r.patch.Keys;
    if Normalize(r.patch, u).Ok? {
      KeysDecide(Normalize(shared, u).value, Normalize(r.patch, u).value, policy);
    }
  }

  lemma KeysDecide(shared: Patch, own: Patch, policy: Policy)
    ensures (exists f :: f in shared && f in own) <==> !(shared.Keys !! own.Keys)
    ensures shared + own == map[] <==> shared.Keys + own.Keys == {}
    ensures (exists f :: f in shared + own && !FieldAllowed(policy, f)) <==>
              !(shared.Keys + own.Keys <= policy.planFields * policy.applyFields)
  {
    assert (shared + own).Keys == shared.Keys + own.Keys;
    if shared.Keys + own.Keys == {} {
      assert (shared + own).Keys == {};
    }
  }

  /** Both limits are set, and the lesser lies in 3..=25. */
  predicate LimitsSet(policy: Policy) {
    && policy.planLimit.Some? && 3 <= policy.planLimit.value
    && policy.applyLimit.Some? && 3 <= policy.applyLimit.value
    && (policy.planLimit.value <= 25 || policy.applyLimit.value <= 25)
  }

  predicate CountAllowed(n: nat, policy: Policy)
    requires LimitsSet(policy)
  {
    3 <= n && n <= policy.planLimit.value && n <= policy.applyLimit.value
  }

  lemma LimitsHold(r: PlanRequest, u: Upstream, policy: Policy)
    requires Preview(r, u, policy).Ok?
    ensures LimitsSet(policy) && CountAllowed(|r.targets|, policy)
  {
    hide PlanAll, Normalize, SortBySysId;
  }

  /** The targets before `i` plan to different records, and target `i` does not plan or names one of them again. */
  ghost predicate FailsFirst(r: PlanRequest, u: Upstream, policy: Policy, i: nat, e: PlanError)
    requires Normalize(r.shared, u).Ok? && i < |r.targets|
  {
    var shared := Normalize(r.shared, u).value;
    && (forall k :: 0 <= k < i ==> PlanOne(shared, r.targets[k], u, policy).Ok?)
    && (forall k, m :: 0 <= k < m < i ==>
          PlanOne(shared, r.targets[k], u, policy).value.sysId != PlanOne(shared, r.targets[m], u, policy).value.sysId)
    && var one := PlanOne(shared, r.targets[i], u, policy);
    if one.Err? then e == one.error
    else
      && e == DuplicateTarget
      && exists k :: 0 <= k < i && PlanOne(shared, r.targets[k], u, policy).value.sysId == one.value.sysId
  }

  /** A rejected request is rejected for its limits, its count, its shared values or its first bad target. */
  lemma RequestIsRejectedFor(r: PlanRequest, u: Upstream, policy: Policy) returns (i: nat)
    ensures var n := |r.targets|; var preview := Preview(r, u, policy);
            && (!LimitsSet(policy) ==> preview == Err(MaxTargetsInvalid))
            && (LimitsSet(policy) && !CountAllowed(n, policy) ==> preview == Err(TargetCountInvalid))
            && (LimitsSet(policy) && CountAllowed(n, policy) && Normalize(r.shared, u).Err? ==>
                  preview == Err(Normalize(r.shared, u).error))
            && (LimitsSet(policy) && CountAllowed(n, policy) && Normalize(r.shared, u).Ok? && preview.Err? ==>
                  i < n && FailsFirst(r, u, policy, i, preview.error))
  {
    hide PlanOne, PlanAll, Normalize, SortBySysId, FailsFirst;
    i := 0;
    if Preview(r, u, policy).Err? && LimitsSet(policy) && CountAllowed(|r.targets|, policy)
       && Normalize(r.shared, u).Ok? {
      assert r.targets[..|r.targets|] == r.targets;
      i := FirstBadTarget(r, u, policy, |r.targets|);
    }
  }

  lemma {:induction false} FirstBadTarget(r: PlanRequest, u: Upstream, policy: Policy, n: nat) returns (i: nat)
    requires Normalize(r.shared, u).Ok? && n <= |r.targets|
    requires PlanAll(Normalize(r.shared, u).value, r.targets[..n], u, policy).Err?
    ensures i < n
    ensures FailsFirst(r, u, policy, i, PlanAll(Normalize(r.shared, u).value, r.targets[..n], u, policy).error)
  {
    hide PlanOne, Normalize;
    var shared := Normalize(r.shared, u).value;
    assert r.targets[..n][..n - 1] == r.targets[..n - 1];
    if PlanAll(shared, r.targets[..n - 1], u, policy).Err? {
      i := FirstBadTarget(r, u, policy, n - 1);
    } else {
      i := n - 1;
      PlannedIsFieldwise(shared, r.targets[..n - 1], u, policy);
      var planned := PlanAll(shared, r.targets[..n - 1], u, policy).value;
      assert forall k :: 0 <= k < i ==> r.targets[..n - 1][k] == r.targets[k];
      var one := PlanOne(shared, r.targets[i], u, policy);
      if one.Ok? {
        var k :| 0 <= k < |planned| && planned[k].sysId == one.value.sysId;
        assert PlanOne(shared, r.targets[k], u, policy).value.sysId == one.value.sysId;
      }
    }
  }
}

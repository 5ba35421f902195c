/** The values of the bulk Incident protocol: plans, receipts, idempotency rows and confirmation records. */
module BulkModel {
  import opened Wrappers
  import Ordering

  const MIN_TARGETS := 3
  const MAX_TARGETS := 25

  /** A hash as its preimage: distinct inputs keep distinct hashes, and nothing else is used of SHA-256. */
  datatype Digest = Sha256(preimage: string)

  datatype Field = AssignedTo | AssignmentGroup | State | WorkNotes | Comments

  type Patch = map<Field, string>

  datatype Target = Target(number: string, sysId: string, patch: Patch, stamp: string)

  /** The operation hash covers the apply tool (a constant) and the whole preview. */
  datatype OpHash = OpHash(preview: seq<Target>)

  datatype Plan = Plan(
    planId: string, opHash: OpHash, actor: string, requester: string, environment: string,
    targets: seq<Target>, expiresAt: nat)

  function SysIdOf(t: Target): string {
    t.sysId
  }

  /** What every stored plan satisfies; planning establishes it and the apply protocol relies on it. */
  ghost predicate WellFormed(p: Plan) {
    && MIN_TARGETS <= |p.targets| <= MAX_TARGETS
    && Ordering.Ascending(p.targets, SysIdOf)
    && (forall i :: 0 <= i < |p.targets| ==> p.targets[i].patch != map[])
    && p.opHash == OpHash(p.targets)
  }

  /** The typed codes of a failed Incident read. */
  datatype ReadCode =
    | LookupIncomplete | IncidentNotFound | NumberAmbiguous | LookupUnavailable | AclDenied
    | ServiceNowUnavailable | StateUnresolved | InvalidParams | ServiceNowError

  datatype FailureCode = ReadFailed(code: ReadCode) | ConcurrencyConflict | UpstreamError | LocalCoherenceFailed

  /** The loop's `failure` variable: the code, and whether the upstream write is known to have happened. */
  datatype Failure = Failure(code: FailureCode, upstreamApplied: bool)

  datatype TargetStatus = Applied | Failed | NotAttempted

  datatype FieldChange = FieldChange(before: Digest, after: Digest)

  datatype TargetResult = TargetResult(
    number: string, sysId: string, status: TargetStatus, changed: map<Field, FieldChange>,
    observed: string, error: Option<FailureCode>)

  datatype ReceiptStatus = Success | Partial

  datatype Receipt = Receipt(
    planId: string, auditId: nat, opHash: OpHash, status: ReceiptStatus, replay: bool,
    results: seq<TargetResult>, applied: nat, failed: nat, notAttempted: nat,
    cacheCoherent: bool, startedAt: nat, completedAt: nat)

  /** The JSON-RPC error stored as a terminal outcome: its number and public message. */
  datatype RpcError = RpcError(code: int, message: string)

  // ---- the receipt operations, as functions on values ----

  function Count(rs: seq<TargetResult>, status: TargetStatus): nat {
    if rs == [] then 0 else Count(rs[..|rs| - 1], status) + if rs[|rs| - 1].status == status then 1 else 0
  }

  function Recounted(r: Receipt): Receipt {
    r.(applied := Count(r.results, Applied),
       failed := Count(r.results, Failed),
       notAttempted := Count(r.results, NotAttempted))
  }

  function InitialResult(t: Target): TargetResult {
    TargetResult(t.number, t.sysId, NotAttempted, map[], t.stamp, None)
  }

  function InitialReceipt(p: Plan, auditId: nat, now: nat): Receipt {
    Receipt(p.planId, auditId, p.opHash, Success, false,
            seq(|p.targets|, i requires 0 <= i < |p.targets| => InitialResult(p.targets[i])),
            0, 0, |p.targets|, true, now, now)
  }

  function HashBefore(before: Patch, f: Field): Digest {
    Sha256(if f in before then before[f] else "")
  }

  function AppliedResult(t: Target, before: Patch, observed: string): TargetResult {
    TargetResult(t.number, t.sysId, Applied,
                 map f | f in t.patch :: FieldChange(HashBefore(before, f), Sha256(t.patch[f])),
                 observed, None)
  }

  function MarkedApplied(r: Receipt, i: nat, t: Target, before: Patch, observed: string): (marked: Receipt)
    requires i < |r.results|
    ensures |marked.results| == |r.results|
  {
    Recounted(r.(results := r.results[i := AppliedResult(t, before, observed)]))
  }

  function Cleared(res: TargetResult): TargetResult {
    res.(status := NotAttempted, changed := map[], error := None)
  }

  function ClearedAfter(rs: seq<TargetResult>, i: nat): seq<TargetResult> {
    seq(|rs|, k requires 0 <= k < |rs| => if k > i then Cleared(rs[k]) else rs[k])
  }

  function MarkedNotAttemptedAfter(r: Receipt, i: nat): (marked: Receipt)
    ensures |marked.results| == |r.results|
  {
    Recounted(r.(results := ClearedAfter(r.results, i)))
  }

  function FailedResult(res: TargetResult, code: FailureCode, observed: string): TargetResult {
    res.(status := Failed, error := Some(code), observed := if observed != "" then observed else res.observed)
  }

  function MarkedFailedAndRemaining(r: Receipt, i: nat, code: FailureCode, observed: string): (marked: Receipt)
    requires i < |r.results|
    ensures |marked.results| == |r.results|
  {
    Recounted(MarkedNotAttemptedAfter(r.(results := r.results[i := FailedResult(r.results[i], code, observed)]), i))
  }

  // ---- the shape of every receipt the protocol writes ----

  function StatusAt(k: nat, a: nat, f: nat): TargetStatus {
    if k < a then Applied else if k < a + f then Failed else NotAttempted
  }

  /** What a result with a given status says about its planned target. */
  ghost predicate Fits(res: TargetResult, t: Target, status: TargetStatus) {
    && res.number == t.number && res.sysId == t.sysId && res.status == status
    && match status {
         case Applied =>
           && res.error == None && res.changed.Keys == t.patch.Keys
           && forall f :: f in t.patch ==> res.changed[f].after == Sha256(t.patch[f])
         case Failed => res.error.Some? && res.changed == map[]
         case NotAttempted => res.error == None && res.changed == map[] && res.observed == t.stamp
       }
  }

  ghost predicate ResultsFit(rs: seq<TargetResult>, ts: seq<Target>, a: nat, f: nat) {
    && |rs| == |ts| && a + f <= |ts| && f <= 1
    && forall k :: 0 <= k < |ts| ==> Fits(rs[k], ts[k], StatusAt(k, a, f))
  }

  /** Applied^a Failed^f NotAttempted^*, f at most 1, the counts agree, and each result names its own target. */
  ghost predicate Shape(r: Receipt, p: Plan, a: nat, f: nat) {
    && r.planId == p.planId && r.opHash == p.opHash && !r.replay && |r.results| == |p.targets|
    && ResultsFit(r.results, p.targets, a, f)
    && r.applied == a && r.failed == f && r.notAttempted == |p.targets| - a - f
  }

  lemma {:induction false} CountOfFit(rs: seq<TargetResult>, a: nat, f: nat)
    requires f <= 1
    requires forall k :: 0 <= k < |rs| ==> rs[k].status == StatusAt(k, a, f)
    ensures Count(rs, Applied) == if a <= |rs| then a else |rs|
    ensures Count(rs, Failed) == if a >= |rs| then 0 else f
    ensures Count(rs, Applied) + Count(rs, Failed) + Count(rs, NotAttempted) == |rs|
  {
    if rs == [] {
    } else {
      CountOfFit(rs[..|rs| - 1], a, f);
    }
  }

  lemma RecountKeepsFit(r: Receipt, p: Plan, a: nat, f: nat)
    requires r.planId == p.planId && r.opHash == p.opHash && !r.replay
    requires ResultsFit(r.results, p.targets, a, f)
    ensures Shape(Recounted(r), p, a, f)
    ensures Shape(r, p, a, f) ==> Recounted(r) == r
  {
    CountOfFit(r.results, a, f);
  }

  lemma InitialShape(p: Plan, auditId: nat, now: nat)
    ensures Shape(InitialReceipt(p, auditId, now), p, 0, 0)
  {
  }

  lemma AppliedShape(r: Receipt, p: Plan, i: nat, before: Patch, observed: string)
    requires Shape(r, p, i, 0) && i < |p.targets|
    ensures Shape(MarkedApplied(r, i, p.targets[i], before, observed), p, i + 1, 0)
    ensures MarkedApplied(r, i, p.targets[i], before, observed).cacheCoherent == r.cacheCoherent
    ensures MarkedApplied(r, i, p.targets[i], before, observed).status == r.status
  {
    RecountKeepsFit(r.(results := r.results[i := AppliedResult(p.targets[i], before, observed)]), p, i + 1, 0);
  }

  lemma FailedShape(r: Receipt, p: Plan, i: nat, code: FailureCode, observed: string)
    requires Shape(r, p, i, 0) && i < |p.targets|
    ensures Shape(MarkedFailedAndRemaining(r, i, code, observed), p, i, 1)
  {
    var failed := r.(results := r.results[i := FailedResult(r.results[i], code, observed)]);
    var cleared := failed.(results := ClearedAfter(failed.results, i));
    forall k | 0 <= k < |p.targets| ensures Fits(cleared.results[k], p.targets[k], StatusAt(k, i, 1)) {
      assert Fits(r.results[k], p.targets[k], StatusAt(k, i, 0));
    }
    RecountKeepsFit(cleared, p, i, 1);
    RecountKeepsFit(Recounted(cleared), p, i, 1);
  }

  /** After a stop behind target `i`, clearing the later results changes nothing: they were never attempted. */
  lemma ClearingIsIdle(r: Receipt, p: Plan, i: nat)
    requires Shape(r, p, i + 1, 0)
    ensures MarkedNotAttemptedAfter(r, i) == r
  {
    assert forall k :: 0 <= k < |p.targets| ==> Fits(r.results[k], p.targets[k], StatusAt(k, i + 1, 0));
    assert ClearedAfter(r.results, i) == r.results;
    RecountKeepsFit(r, p, i + 1, 0);
  }

  // ---- policy limits and apply requests ----

  /** The narrower of the two configured limits, when both are set and it lies in 3..=25. */
  function TargetLimit(planLimit: Option<nat>, applyLimit: Option<nat>): Option<nat> {
    if planLimit.None? || applyLimit.None? then None
    else
      var limit := if applyLimit.value < planLimit.value then applyLimit.value else planLimit.value;
      if MIN_TARGETS <= limit <= MAX_TARGETS then Some(limit) else None
  }

  datatype ConcurrencyToken = ConcurrencyToken(sysId: string, stamp: string)

  function TokenFor(t: Target): ConcurrencyToken {
    ConcurrencyToken(t.sysId, t.stamp)
  }

  function ExpectedTokens(ts: seq<Target>): seq<ConcurrencyToken> {
    seq(|ts|, i requires 0 <= i < |ts| => TokenFor(ts[i]))
  }

  // ---- idempotency rows and the store's statements ----

  /** `apply_started_at`, with the handler that wrote it as a history variable. */
  datatype Mark = Mark(at: nat, owner: nat)

  datatype Row = Row(
    opHash: OpHash, started: Option<Mark>, progress: Option<Receipt>, receipt: Option<Receipt>,
    terminal: Option<RpcError>, expiresAt: nat)

  type Rows = map<string, Row>

  function Get(rows: Rows, key: string): Option<Row> {
    if key in rows then Some(rows[key]) else None
  }

  /** An SQL UPDATE: a row that is gone stays gone. */
  function Put(rows: Rows, key: string, row: Option<Row>): Rows {
    if key in rows && row.Some? then rows[key := row.value] else rows
  }

  /** What a store statement reports and whether it took effect. */
  datatype StoreAnswer = Committed | FailedAfterCommit | FailedBeforeCommit

  function Unless(before: Option<Row>, after: Option<Row>, a: StoreAnswer): Option<Row> {
    if a.FailedBeforeCommit? then before else after
  }

  predicate CanMark(row: Option<Row>) {
    row.Some? && row.value.started.None? && row.value.receipt.None? && row.value.terminal.None?
  }

  function Marked(row: Option<Row>, m: Mark): Option<Row> {
    if CanMark(row) then Some(row.value.(started := Some(m))) else row
  }

  function Unmarked(row: Option<Row>): Option<Row> {
    if row.Some? && row.value.receipt.None? && row.value.terminal.None?
    then Some(row.value.(started := None)) else row
  }

  function WithProgress(row: Option<Row>, r: Receipt): Option<Row> {
    if row.Some? then Some(row.value.(progress := Some(r))) else None
  }

  function WithReceipt(row: Option<Row>, r: Receipt): Option<Row> {
    if row.Some? then Some(row.value.(receipt := Some(r), progress := Some(r))) else None
  }

  function WithTerminal(row: Option<Row>, e: RpcError): Option<Row> {
    if row.Some? then Some(row.value.(terminal := Some(e))) else None
  }

  // ---- confirmation records ----

  const APPLY_TOOL := "incident_bulk_apply_update"

  datatype Binding = Binding(actor: string, requester: string, tool: string, opHash: OpHash, environment: string)

  datatype Confirmation = Confirmation(binding: Binding, expiresAt: nat, consumed: bool, revoked: bool)

  datatype ConfirmationError = NotFound | Expired | AlreadyConsumed | Revoked | BindingMismatch

  function ValidateRecord(c: Confirmation, b: Binding, now: nat): Option<ConfirmationError> {
    if c.revoked then Some(Revoked)
    else if c.expiresAt <= now then Some(Expired)
    else if c.consumed then Some(AlreadyConsumed)
    else if c.binding != b then Some(BindingMismatch)
    else None
  }

  function ValidateReplay(c: Option<Confirmation>, b: Binding, now: nat): Option<ConfirmationError> {
    if c.None? then Some(NotFound)
    else if c.value.revoked || c.value.expiresAt <= now then ValidateRecord(c.value, b, now)
    else if c.value.binding != b then Some(BindingMismatch)
    else None
  }

  function ConsumeRefusal(c: Option<Confirmation>, b: Binding, now: nat): Option<ConfirmationError> {
    if c.None? then Some(NotFound)
    else if c.value.revoked then Some(Revoked)
    else if c.value.consumed then Some(AlreadyConsumed)
    else if c.value.expiresAt <= now then Some(Expired)
    else if c.value.binding != b then Some(BindingMismatch)
    else None
  }

  predicate CanConsume(c: Option<Confirmation>) {
    c.Some? && !c.value.consumed && !c.value.revoked
  }

  /** A replay is admitted by an unrevoked, unexpired, matching token, consumed or not. */
  lemma ReplayIgnoresConsumption(c: Confirmation, b: Binding, now: nat)
    ensures ValidateReplay(Some(c), b, now) == ValidateRecord(c.(consumed := false), b, now)
    ensures ValidateReplay(Some(c), b, now).None? <==> !c.revoked && now < c.expiresAt && c.binding == b
  {
  }
}

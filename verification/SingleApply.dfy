/** The single-write apply handlers: one step machine, three disciplines for the marker and the token.

    `Lease` is the single-Incident apply: a compare-and-set marker that an upstream error gives back.
    `Kept` is every other change apply, the knowledge draft and the resource plan: an unconditional marker that stays.
    `ConsumeFirst` is the catalog submit: the token is consumed before the write, whatever the key. */
module SingleApply {
  import opened Wrappers

  datatype Discipline = Lease | Kept | ConsumeFirst

  datatype Receipt = Receipt(opHash: string, replay: bool)

  datatype Mark = Mark(at: nat, owner: nat)

  /** One row of `mcp_idempotency` for the tool at hand. */
  datatype Row = Row(opHash: string, started: Option<Mark>, receipt: Option<Receipt>, expiresAt: nat)

  type Rows = map<string, Row>

  datatype Binding = Binding(actor: string, requester: string, tool: string, opHash: string, environment: string)

  datatype Confirmation = Confirmation(binding: Binding, expiresAt: nat, consumed: bool, revoked: bool)

  datatype StoreAnswer = Committed | FailedAfterCommit | FailedBeforeCommit

  datatype WriteAnswer = Acknowledged | UpstreamError | LocalCoherenceFailed

  /** What the outside decides at one step. */
  datatype Answer = Answer(ok: bool, store: StoreAnswer, write: WriteAnswer)

  datatype Request = Request(key: string, token: string, binding: Binding, window: nat)

  datatype Response =
    | Denied | Internal | Conflict | Pending | Refused | Replayed(receipt: Receipt)
    | UpstreamFailed | CoherenceFailed | Succeeded(receipt: Receipt)

  datatype Pc =
    | Lookup | ReplayCheck(stored: Receipt) | CheckSelect | CheckDelete | CheckInsert | Review
    | LookupToken | SpentLookup | MarkStarted | LostLookup | Send | Await | ClearStarted
    | ConsumeSelect | ConsumeUpdate | SaveReceipt | Done(response: Response) | Crashed

  /** `owner`: marked the row and has not given it back. `looked`, `marked`: the steps at which this handler saw the row
      unmarked and marked it. `consumed`: this handler turned the token's flag on. */
  datatype Handler = Handler(
    req: Request, pc: Pc, arrived: nat, owner: bool, looked: Option<nat>, marked: Option<nat>,
    consumed: bool, sent: bool, acked: bool)

  predicate Stopped(l: Handler) {
    l.pc.Done? || l.pc.Crashed?
  }

  datatype View = View(now: nat, step: nat, row: Option<Row>, token: Option<Confirmation>)

  datatype Outcome = Outcome(next: Handler, row: Option<Row>, consumes: bool)

  function Valid(c: Option<Confirmation>, b: Binding, now: nat): bool {
    c.Some? && !c.value.revoked && now < c.value.expiresAt && c.value.binding == b
  }

  function CanConsume(c: Option<Confirmation>): bool {
    c.Some? && !c.value.consumed && !c.value.revoked
  }

  // ---- the statements on the row ----

  function Unless(before: Option<Row>, after: Option<Row>, a: StoreAnswer): Option<Row> {
    if a.FailedBeforeCommit? then before else after
  }

  predicate Free(row: Option<Row>) {
    row.Some? && row.value.started.None? && row.value.receipt.None?
  }

  /** The compare-and-set marker of the single-Incident apply. */
  function TryMarked(row: Option<Row>, m: Mark): Option<Row> {
    if Free(row) then Some(row.value.(started := Some(m))) else row
  }

  /** `COALESCE(apply_started_at, now)`: the first mark stays and later marks succeed too. */
  function Coalesced(row: Option<Row>, m: Mark): Option<Row> {
    if row.Some? && row.value.started.None? then Some(row.value.(started := Some(m))) else row
  }

  function Cleared(row: Option<Row>): Option<Row> {
    if row.Some? && row.value.receipt.None? then Some(row.value.(started := None)) else row
  }

  function WithReceipt(row: Option<Row>, r: Receipt): Option<Row> {
    if row.Some? then Some(row.value.(receipt := Some(r))) else None
  }

  function Fresh(req: Request, now: nat): Row {
    Row(req.binding.opHash, None, None, now + req.window)
  }

  // ---- one move ----

  function Start(d: Discipline): Pc {
    if d.ConsumeFirst? then LookupToken else Lookup
  }

  function AfterRecord(d: Discipline): Pc {
    if d.ConsumeFirst? then ConsumeSelect else Review
  }

  function KeyStep(d: Discipline, v: View, l: Handler, a: Answer): (o: Outcome)
    requires l.pc.Lookup? || l.pc.CheckSelect? || l.pc.CheckDelete? || l.pc.CheckInsert?
    ensures o.next.req == l.req && o.next.arrived == l.arrived
    ensures o.next.sent == l.sent && o.next.acked == l.acked && !o.next.pc.Await?
  {
    match l.pc
    case Lookup =>
      var live := a.ok && v.row.Some? && v.now < v.row.value.expiresAt;
      var next :=
        if !live then l.(pc := CheckSelect)
        else if v.row.value.opHash != l.req.binding.opHash then l.(pc := Done(Conflict))
        else if v.row.value.receipt.Some? then l.(pc := ReplayCheck(v.row.value.receipt.value))
        else if v.row.value.started.Some? then l.(pc := Done(Pending))
        else l.(pc := CheckSelect, looked := Some(v.step));
      Outcome(next, v.row, false)
    case CheckSelect =>
      var pc :=
        if !a.ok then Done(Internal)
        else if v.row.None? then CheckInsert
        else if v.row.value.expiresAt <= v.now then CheckDelete
        else if v.row.value.opHash != l.req.binding.opHash then Done(Conflict)
        else if v.row.value.receipt.Some? then ReplayCheck(v.row.value.receipt.value)
        else if d.ConsumeFirst? then Done(Pending)
        else AfterRecord(d);
      Outcome(l.(pc := pc), v.row, false)
    case CheckDelete =>
      Outcome(l.(pc := if a.store.Committed? then CheckInsert else Done(Internal)), Unless(v.row, None, a.store), false)
    case CheckInsert =>
      Outcome(l.(pc := if a.store.Committed? then AfterRecord(d) else Done(Internal)),
              Unless(v.row, Some(Fresh(l.req, v.now)), a.store), false)
  }

  function TokenStep(d: Discipline, v: View, l: Handler, a: Answer): (o: Outcome)
    requires l.pc.ReplayCheck? || l.pc.Review? || l.pc.LookupToken? || l.pc.SpentLookup?
          || l.pc.LostLookup? || l.pc.ConsumeSelect? || l.pc.ConsumeUpdate?
    ensures o.next.req == l.req && o.next.arrived == l.arrived
    ensures o.next.sent == l.sent && o.next.acked == l.acked && !o.next.pc.Await?
  {
    match l.pc
    case ReplayCheck(r) =>
      var valid := a.ok && Valid(v.token, l.req.binding, v.now);
      Outcome(l.(pc := Done(if valid then Replayed(r.(replay := true)) else Refused)), v.row, false)
    case Review => Outcome(l.(pc := if a.ok then LookupToken else Done(Denied)), v.row, false)
    case LookupToken =>
      var pc :=
        if !a.ok then Done(if d.ConsumeFirst? then Refused else Internal)
        else if !Valid(v.token, l.req.binding, v.now) then Done(Refused)
        else if !v.token.value.consumed then if d.ConsumeFirst? then CheckSelect else MarkStarted
        else if d.Lease? then SpentLookup
        else Done(Refused);
      Outcome(l.(pc := pc), v.row, false)
    case SpentLookup =>
      var response :=
        if !a.ok || v.row.None? then Refused
        else if v.row.value.receipt.Some? then Replayed(v.row.value.receipt.value.(replay := true))
        else if v.row.value.started.Some? then Pending
        else Refused;
      Outcome(l.(pc := Done(response)), v.row, false)
    case LostLookup =>
      Outcome(l.(pc := Done(if a.ok && v.row.Some? then Pending else Internal)), v.row, false)
    case ConsumeSelect =>
      var valid := a.ok && Valid(v.token, l.req.binding, v.now) && CanConsume(v.token);
      Outcome(l.(pc := if valid then ConsumeUpdate else Done(Refused)), v.row, false)
    case ConsumeUpdate =>
      var effective := CanConsume(v.token) && !a.store.FailedBeforeCommit?;
      var pc := if !(effective && a.store.Committed?) then Done(Refused)
                else if d.ConsumeFirst? then MarkStarted else SaveReceipt;
      Outcome(l.(pc := pc, consumed := effective), v.row, effective)
  }

  function WriteStep(d: Discipline, v: View, h: nat, l: Handler, a: Answer): (o: Outcome)
    requires l.pc.MarkStarted? || l.pc.Send? || l.pc.Await? || l.pc.ClearStarted? || l.pc.SaveReceipt?
    ensures o.next.req == l.req && o.next.arrived == l.arrived
  {
    match l.pc
    case MarkStarted =>
      var m := Mark(v.now, h);
      if d.Lease? then
        var taken := Free(v.row) && !a.store.FailedBeforeCommit?;
        Outcome(l.(owner := taken, marked := if taken then Some(v.step) else None,
                   pc := if !a.store.Committed? then Done(Internal) else if taken then Send else LostLookup),
                Unless(v.row, TryMarked(v.row, m), a.store), false)
      else
        Outcome(l.(marked := if v.row.Some? && !a.store.FailedBeforeCommit? then Some(v.step) else None,
                   pc := if a.store.Committed? then Send else Done(Internal)),
                Unless(v.row, Coalesced(v.row, m), a.store), false)
    case Send => Outcome(l.(sent := true, pc := Await), v.row, false)
    case Await =>
      var next :=
        match a.write
        case Acknowledged => l.(acked := true, pc := if d.ConsumeFirst? then SaveReceipt else ConsumeSelect)
        case UpstreamError => l.(pc := if d.Lease? then ClearStarted else Done(UpstreamFailed))
        case LocalCoherenceFailed =>
          if d.Lease? then l.(acked := true, pc := Done(CoherenceFailed)) else l.(pc := Done(UpstreamFailed));
      Outcome(next, v.row, false)
    case ClearStarted =>
      Outcome(l.(owner := a.store.FailedBeforeCommit?,
        pc := Done(if a.store.Committed? then UpstreamFailed else Internal)),
              Unless(v.row, Cleared(v.row), a.store), false)
    case SaveReceipt =>
      var r := Receipt(l.req.binding.opHash, false);
      Outcome(l.(pc := Done(if a.store.Committed? then Succeeded(r) else Internal)),
              Unless(v.row, WithReceipt(v.row, r), a.store), false)
  }

  function LocalStep(d: Discipline, v: View, h: nat, l: Handler, a: Answer): (o: Outcome)
    requires !Stopped(l)
    ensures o.next.req == l.req && o.next.arrived == l.arrived
  {
    if l.pc.Lookup? || l.pc.CheckSelect? || l.pc.CheckDelete? || l.pc.CheckInsert? then KeyStep(d, v, l, a)
    else if l.pc.MarkStarted? || l.pc.Send? || l.pc.Await? || l.pc.ClearStarted? || l.pc.SaveReceipt?
    then WriteStep(d, v, h, l, a)
    else TokenStep(d, v, l, a)
  }

  // ---- the system ----

  /** `step` counts events; it orders what handlers saw and did. `effected` holds the writes that took effect. */
  datatype Sys = Sys(
    now: nat, step: nat, rows: Rows, tokens: map<string, Confirmation>, handlers: map<nat, Handler>, effected: set<nat>)

  datatype Event =
    | Move(h: nat, a: Answer)
    | Crash(h: nat)
    | Arrive(h: nat, req: Request)
    | Tick
    | ReserveKey(key: string, opHash: string, expiresAt: nat)
    | IssueToken(token: string, binding: Binding, expiresAt: nat)
    | Revoke(token: string)
    | UpstreamApplies(h: nat)

  ghost predicate Enabled(s: Sys, e: Event) {
    match e
    case Move(h, _) => h in s.handlers && !Stopped(s.handlers[h])
    case Crash(h) => h in s.handlers && !Stopped(s.handlers[h])
    case Arrive(h, _) => h !in s.handlers
    case Tick => true
    case ReserveKey(k, _, _) => k !in s.rows
    case IssueToken(t, _, _) => t !in s.tokens
    case Revoke(t) => t in s.tokens
    case UpstreamApplies(h) => h in s.handlers && s.handlers[h].sent
  }

  function Get(rows: Rows, key: string): Option<Row> {
    if key in rows then Some(rows[key]) else None
  }

  function Set(rows: Rows, key: string, row: Option<Row>): Rows {
    if row.Some? then rows[key := row.value] else rows - {key}
  }

  function ViewOf(s: Sys, l: Handler): View {
    View(s.now, s.step, Get(s.rows, l.req.key),
         if l.req.token in s.tokens then Some(s.tokens[l.req.token]) else None)
  }

  function Moved(d: Discipline, s: Sys, h: nat, a: Answer): Sys
    requires h in s.handlers && !Stopped(s.handlers[h])
  {
    var l := s.handlers[h];
    var o := LocalStep(d, ViewOf(s, l), h, l, a);
    s.(step := s.step + 1,
       rows := Set(s.rows, l.req.key, o.row),
       tokens := if o.consumes && l.req.token in s.tokens
                 then s.tokens[l.req.token := s.tokens[l.req.token].(consumed := true)] else s.tokens,
       handlers := s.handlers[h := o.next],
       effected := if o.next.acked && !l.acked then s.effected + {h} else s.effected)
  }

  function NewHandler(d: Discipline, req: Request, step: nat): Handler {
    Handler(req, Start(d), step, false, None, None, false, false, false)
  }

  ghost function Do(d: Discipline, s: Sys, e: Event): Sys
    requires Enabled(s, e)
  {
    match e
    case Move(h, a) => Moved(d, s, h, a)
    case Crash(h) => s.(step := s.step + 1, handlers := s.handlers[h := s.handlers[h].(pc := Crashed)])
    case Arrive(h, req) => s.(step := s.step + 1, handlers := s.handlers[h := NewHandler(d, req, s.step)])
    case Tick => s.(step := s.step + 1, now := s.now + 1)
    case ReserveKey(k, opHash, expires) => s.(step := s.step + 1, rows := s.rows[k := Row(opHash, None, None, expires)])
    case IssueToken(t, b, expires) =>
      s.(step := s.step + 1, tokens := s.tokens[t := Confirmation(b, expires, false, false)])
    case Revoke(t) => s.(step := s.step + 1, tokens := s.tokens[t := s.tokens[t].(revoked := true)])
    case UpstreamApplies(h) => s.(step := s.step + 1, effected := s.effected + {h})
  }

  /** A run of one tool's handlers from a state in which none of them has arrived. */
  ghost predicate Run(d: Discipline, states: seq<Sys>, events: seq<Event>) {
    && |states| == |events| + 1 && states[0].handlers == map[] && states[0].effected == {}
    && forall i :: 0 <= i < |events| ==> Enabled(states[i], events[i]) && states[i + 1] == Do(d, states[i], events[i])
  }
}

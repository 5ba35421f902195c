/** What lets a single-write apply past its token and its key, said of the records themselves: each check's exact
    answers, and the answer of a lone call whose token does not stand or whose catalog key is in use. */
module SingleAdmission {
  import opened Wrappers
  import opened SingleApply
  import opened SingleLone

  // ---- the conditions ----

  predicate BoundTo(c: Confirmation, req: Request) {
    && c.binding.actor == req.binding.actor && c.binding.requester == req.binding.requester
    && c.binding.tool == req.binding.tool && c.binding.opHash == req.binding.opHash
    && c.binding.environment == req.binding.environment
  }

  /** There is such a token, unrevoked, unexpired and bound to this very request; it may have been consumed. */
  predicate TokenStands(token: Option<Confirmation>, req: Request, now: nat) {
    token.Some? && !token.value.revoked && now < token.value.expiresAt && BoundTo(token.value, req)
  }

  predicate Unspent(token: Option<Confirmation>, req: Request, now: nat) {
    TokenStands(token, req, now) && !token.value.consumed
  }

  /** The key has an unexpired row. */
  predicate InUse(row: Option<Row>, now: nat) {
    row.Some? && now < row.value.expiresAt
  }

  // ---- the checks one by one, in every discipline ----

  /** The token check passes exactly an unspent token; a single-Incident call looks its row up once more behind a
      consumed one. */
  lemma TokenAnswers(d: Discipline, v: View, h: nat, l: Handler, a: Answer)
    requires l.pc == LookupToken
    ensures var o := LocalStep(d, v, h, l, a);
            && o == Outcome(l.(pc := o.next.pc), v.row, false)
            && (o.next.pc == MarkStarted <==> !d.ConsumeFirst? && a.ok && Unspent(v.token, l.req, v.now))
            && (o.next.pc == CheckSelect <==> d.ConsumeFirst? && a.ok && Unspent(v.token, l.req, v.now))
            && (o.next.pc == SpentLookup <==>
                  d.Lease? && a.ok && TokenStands(v.token, l.req, v.now) && v.token.value.consumed)
            && (o.next.pc == Done(Internal) <==> !d.ConsumeFirst? && !a.ok)
            && (o.next.pc == Done(Refused) <==>
                  || (!a.ok && d.ConsumeFirst?)
                  || (a.ok && !TokenStands(v.token, l.req, v.now))
                  || (a.ok && TokenStands(v.token, l.req, v.now) && v.token.value.consumed && !d.Lease?))
  {
  }

  /** The review of the plan and the read before the write: a failure denies the call. */
  lemma ReviewAnswers(d: Discipline, v: View, h: nat, l: Handler, a: Answer)
    requires l.pc == Review
    ensures LocalStep(d, v, h, l, a) == Outcome(l.(pc := if a.ok then LookupToken else Done(Denied)), v.row, false)
  {
  }

  /** A stored receipt is given out exactly to a token that stands. */
  lemma ReplayAnswers(d: Discipline, v: View, h: nat, l: Handler, a: Answer)
    requires l.pc.ReplayCheck?
    ensures LocalStep(d, v, h, l, a) == Outcome(
              l.(pc := Done(if a.ok && TokenStands(v.token, l.req, v.now)
                            then Replayed(l.pc.stored.(replay := true)) else Refused)), v.row, false)
  {
  }

  /** Behind a consumed token, only a receipt on the row is given out; nothing is written. */
  lemma SpentAnswers(d: Discipline, v: View, h: nat, l: Handler, a: Answer)
    requires l.pc == SpentLookup
    ensures var o := LocalStep(d, v, h, l, a); var found := a.ok && v.row.Some?;
            && o == Outcome(l.(pc := o.next.pc), v.row, false)
            && (found && v.row.value.receipt.Some? ==>
                  o.next.pc == Done(Replayed(v.row.value.receipt.value.(replay := true))))
            && (o.next.pc == Done(Pending) <==> found && v.row.value.receipt.None? && v.row.value.started.Some?)
            && (o.next.pc == Done(Refused) <==> !found || (v.row.value.receipt.None? && v.row.value.started.None?))
  {
  }

  /** A token is consumed in two statements: a select that finds it unspent, and an update that turns it. */
  lemma ConsumeAnswers(d: Discipline, v: View, h: nat, l: Handler, a: Answer)
    requires l.pc == ConsumeSelect || l.pc == ConsumeUpdate
    ensures var o := LocalStep(d, v, h, l, a);
            && o == Outcome(l.(pc := o.next.pc, consumed := o.next.consumed), v.row, o.consumes)
            && (l.pc == ConsumeSelect ==>
                  && !o.consumes && o.next.consumed == l.consumed
                  && o.next.pc == if a.ok && Unspent(v.token, l.req, v.now) then ConsumeUpdate else Done(Refused))
            && (l.pc == ConsumeUpdate ==>
                  && (o.consumes <==> v.token.Some? && !v.token.value.consumed && !v.token.value.revoked
                                      && !a.store.FailedBeforeCommit?)
                  && o.next.consumed == o.consumes
                  && o.next.pc == if !o.consumes || a.store.FailedAfterCommit? then Done(Refused)
                                  else if d.ConsumeFirst? then MarkStarted else SaveReceipt)
  {
  }

  /** The first look at a key: an unexpired row answers for itself, and a failed look counts as finding none. */
  lemma LookupAnswers(d: Discipline, v: View, h: nat, l: Handler, a: Answer)
    requires l.pc == Lookup
    ensures var o := LocalStep(d, v, h, l, a); var seen := a.ok && InUse(v.row, v.now);
            && o == Outcome(l.(pc := o.next.pc, looked := o.next.looked), v.row, false)
            && (!seen ==> o.next.pc == CheckSelect && o.next.looked == l.looked)
            && (seen ==>
                  var row := v.row.value;
                  && (o.next.pc == Done(Conflict) <==> row.opHash != l.req.binding.opHash)
                  && (row.opHash == l.req.binding.opHash && row.receipt.Some? ==>
                        o.next.pc == ReplayCheck(row.receipt.value))
                  && (o.next.pc == Done(Pending) <==>
                        row.opHash == l.req.binding.opHash && row.receipt.None? && row.started.Some?)
                  && (o.next.pc == CheckSelect <==>
                        row.opHash == l.req.binding.opHash && row.receipt.None? && row.started.None?)
                  && o.next.looked == if o.next.pc == CheckSelect then Some(v.step) else l.looked)
  {
  }

  /** The check that records a key. An unexpired row of the same operation without a receipt is pending to a catalog
      submit and free to the others. */
  lemma RecordAnswers(d: Discipline, v: View, h: nat, l: Handler, a: Answer)
    requires l.pc == CheckSelect
    ensures var o := LocalStep(d, v, h, l, a); var row := v.row;
            && o == Outcome(l.(pc := o.next.pc), v.row, false)
            && (o.next.pc == Done(Internal) <==> !a.ok)
            && (o.next.pc == CheckInsert <==> a.ok && row.None?)
            && (o.next.pc == CheckDelete <==> a.ok && row.Some? && row.value.expiresAt <= v.now)
            && (a.ok && InUse(row, v.now) ==>
                  && (o.next.pc == Done(Conflict) <==> row.value.opHash != l.req.binding.opHash)
                  && (row.value.opHash == l.req.binding.opHash && row.value.receipt.Some? ==>
                        o.next.pc == ReplayCheck(row.value.receipt.value))
                  && (o.next.pc == (if d.ConsumeFirst? then Done(Pending) else Review) <==>
                        row.value.opHash == l.req.binding.opHash && row.value.receipt.None?))
  {
  }

  /** An expired row is deleted and a new one inserted, unmarked and without receipt. */
  lemma ReplaceAnswers(d: Discipline, v: View, h: nat, l: Handler, a: Answer)
    requires l.pc == CheckDelete || l.pc == CheckInsert
    ensures var o := LocalStep(d, v, h, l, a);
            && o.next == l.(pc := o.next.pc) && !o.consumes
            && (l.pc == CheckDelete ==>
                  && o.next.pc == (if a.store.Committed? then CheckInsert else Done(Internal))
                  && o.row == if a.store.FailedBeforeCommit? then v.row else None)
            && (l.pc == CheckInsert ==>
                  && o.next.pc == (if !a.store.Committed? then Done(Internal)
                                   else if d.ConsumeFirst? then ConsumeSelect else Review)
                  && o.row == if a.store.FailedBeforeCommit? then v.row
                              else Some(Row(l.req.binding.opHash, None, None, v.now + l.req.window)))
  {
  }

  // ---- the writing moves ----

  predicate Unmarked(row: Option<Row>) {
    row.Some? && row.value.started.None? && row.value.receipt.None?
  }

  /** The marker: compare-and-set for a single Incident; for the rest the first mark stays and every mark succeeds. */
  lemma MarkAnswers(d: Discipline, v: View, h: nat, l: Handler, a: Answer)
    requires l.pc == MarkStarted
    ensures var o := LocalStep(d, v, h, l, a);
            var changes := v.row.Some? && v.row.value.started.None? && (d.Lease? ==> v.row.value.receipt.None?);
            && o.next == l.(pc := o.next.pc, owner := o.next.owner, marked := o.next.marked) && !o.consumes
            && (o.next.pc == Send <==> a.store.Committed? && (d.Lease? ==> Unmarked(v.row)))
            && (o.next.pc == LostLookup <==> a.store.Committed? && d.Lease? && !Unmarked(v.row))
            && (o.next.pc == Done(Internal) <==> !a.store.Committed?)
            && o.row == (if changes && !a.store.FailedBeforeCommit?
                         then Some(v.row.value.(started := Some(Mark(v.now, h)))) else v.row)
            && (if d.Lease? then o.next.owner <==> changes && !a.store.FailedBeforeCommit? else o.next.owner == l.owner)
  {
  }

  /** The write leaves in one move and is answered in the next. Only a single-Incident upstream error leads on to giving
      the marker back, and only there a lost local coherence counts as acknowledged. */
  lemma WriteAnswers(d: Discipline, v: View, h: nat, l: Handler, a: Answer)
    requires l.pc == Send || l.pc == Await
    ensures var o := LocalStep(d, v, h, l, a);
            && o.row == v.row && !o.consumes
            && (l.pc == Send ==> o.next == l.(sent := true, pc := Await))
            && (l.pc == Await ==>
                  && o.next == l.(pc := o.next.pc, acked := o.next.acked)
                  && (a.write.Acknowledged? ==>
                        && o.next.acked
                        && o.next.pc == if d.ConsumeFirst? then SaveReceipt else ConsumeSelect)
                  && (a.write.UpstreamError? ==>
                        && o.next.acked == l.acked
                        && o.next.pc == if d.Lease? then ClearStarted else Done(UpstreamFailed))
                  && (a.write.LocalCoherenceFailed? ==>
                        && o.next.acked == (l.acked || d.Lease?)
                        && o.next.pc == Done(if d.Lease? then CoherenceFailed else UpstreamFailed)))
  {
  }

  /** Giving the marker back, looking at a lost one, and storing the receipt. */
  lemma ClosingAnswers(d: Discipline, v: View, h: nat, l: Handler, a: Answer)
    requires l.pc == ClearStarted || l.pc == LostLookup || l.pc == SaveReceipt
    ensures var o := LocalStep(d, v, h, l, a); var r := Receipt(l.req.binding.opHash, false);
            && o.next == l.(pc := o.next.pc, owner := o.next.owner) && !o.consumes
            && (l.pc == ClearStarted ==>
                  && o.next.pc == Done(if a.store.Committed? then UpstreamFailed else Internal)
                  && (o.next.owner <==> a.store.FailedBeforeCommit?)
                  && o.row == if !a.store.FailedBeforeCommit? && v.row.Some? && v.row.value.receipt.None?
                              then Some(v.row.value.(started := None)) else v.row)
            && (l.pc == LostLookup ==>
                  o.row == v.row && o.next.pc == Done(if a.ok && v.row.Some? then Pending else Internal))
            && (l.pc == SaveReceipt ==>
                  && o.next.pc == Done(if a.store.Committed? then Succeeded(r) else Internal)
                  && o.row == if !a.store.FailedBeforeCommit? && v.row.Some?
                              then Some(v.row.value.(receipt := Some(r))) else v.row)
  {
  }

  // ---- a lone call whose token does not stand ----

  lemma {:induction false} StoppedStays(w: World, c0: Cell, k: nat, n: nat)
    requires k <= n && Stopped(Alone(w, c0, k).l)
    ensures Alone(w, c0, n) == Alone(w, c0, k)
  {
    if k == n {
    } else {
      StoppedStays(w, c0, k, n - 1);
    }
  }

  /** No mark and no receipt comes to the key: its row stays as it was, or had expired and went or was replaced by an
      empty one. */
  predicate LeftUnmarked(before: Option<Row>, after: Option<Row>, req: Request, now: nat) {
    || after == before
    || (!InUse(before, now)
        && (after == None || after == Some(Row(req.binding.opHash, None, None, now + req.window))))
  }

  predicate Negative(response: Response) {
    response in {Denied, Internal, Conflict, Pending, Refused}
  }

  /** The row's receipt, given out again. */
  predicate Replays(row: Option<Row>, response: Response) {
    && row.Some? && row.value.receipt.Some?
    && response == Replayed(row.value.receipt.value.(replay := true))
  }

  ghost predicate KeptOut(w: World, c0: Cell, c: Cell, req: Request) {
    && c.l.req == req && !c.l.sent && !c.l.consumed && c.token == c0.token && LeftUnmarked(c0.row, c.row, req, w.now)
    && match c.l.pc {
         case Lookup => c.row == c0.row
         case CheckSelect => c.row == c0.row
         case CheckDelete => !InUse(c0.row, w.now)
         case CheckInsert => !InUse(c0.row, w.now)
         case ReplayCheck(r) => c0.row.Some? && c0.row.value.receipt == Some(r)
         case Review => true
         case LookupToken => true
         case SpentLookup => TokenStands(c0.token, req, w.now)
         case Done(response) =>
           Negative(response) || (TokenStands(c0.token, req, w.now) && Replays(c0.row, response))
         case _ => false
       }
  }

  lemma NotYetConsumed(w: World, c0: Cell, c: Cell, req: Request, k: nat)
    requires !w.d.ConsumeFirst? && !Unspent(c0.token, req, w.now) && KeptOut(w, c0, c, req)
    ensures KeptOut(w, c0, CellStep(w, c, k), req)
  {
    var v := View(w.now, w.step + 1 + k, c.row, c.token);
    match c.l.pc {
      case Lookup => LookupAnswers(w.d, v, w.h, c.l, w.answers(k));
      case CheckSelect => RecordAnswers(w.d, v, w.h, c.l, w.answers(k));
      case CheckDelete => ReplaceAnswers(w.d, v, w.h, c.l, w.answers(k));
      case CheckInsert => ReplaceAnswers(w.d, v, w.h, c.l, w.answers(k));
      case ReplayCheck(_) => ReplayAnswers(w.d, v, w.h, c.l, w.answers(k));
      case LookupToken => TokenAnswers(w.d, v, w.h, c.l, w.answers(k));
      case SpentLookup => SpentAnswers(w.d, v, w.h, c.l, w.answers(k));
      case _ =>
    }
    hide KeyStep, WriteStep, TokenStands;
  }

  /** A lone call whose token is missing, revoked, expired, bound otherwise or spent writes nothing, consumes nothing
      and leaves its key unmarked; it gives out the key's receipt only to a token that is at least still standing. */
  lemma {:induction false} UnspentTokenIsNeeded(w: World, c0: Cell, req: Request, k: nat)
    requires !w.d.ConsumeFirst? && c0.l == NewHandler(w.d, req, w.step) && !Unspent(c0.token, req, w.now)
    ensures KeptOut(w, c0, Alone(w, c0, k), req)
  {
    hide CellStep, TokenStands;
    if k == 0 {
    } else {
      UnspentTokenIsNeeded(w, c0, req, k - 1);
      NotYetConsumed(w, c0, Alone(w, c0, k - 1), req, k - 1);
    }
  }

  // ---- the moves of a lone call, by what they find ----

  function ViewAt(w: World, c: Cell, k: nat): View {
    View(w.now, w.step + 1 + k, c.row, c.token)
  }

  lemma NextMove(w: World, c0: Cell, k: nat)
    requires !Stopped(Alone(w, c0, k).l)
    ensures var c := Alone(w, c0, k); var o := LocalStep(w.d, ViewAt(w, c, k), w.h, c.l, w.answers(k));
            && Alone(w, c0, k + 1).row == o.row && Alone(w, c0, k + 1).l == o.next
            && (!o.consumes ==> Alone(w, c0, k + 1).token == c.token)
  {
    hide LocalStep;
  }

  /** Every read succeeds and every statement commits. */
  ghost predicate Undisturbed(w: World) {
    forall k :: w.answers(k).ok && w.answers(k).store.Committed?
  }

  /** Nothing on the key answers for itself: no unexpired row, or one of this operation without mark and receipt. */
  predicate Open(row: Option<Row>, req: Request, now: nat) {
    InUse(row, now) ==> row.value.opHash == req.binding.opHash && row.value.started.None? && row.value.receipt.None?
  }

  /** The moves of a change apply up to its token: two looks at the key, what it takes to record it, the review. */
  function MovesToToken(row: Option<Row>, now: nat): nat {
    if row.None? then 4 else if now < row.value.expiresAt then 3 else 5
  }

  lemma LooksAtKey(w: World, c0: Cell, req: Request)
    requires !w.d.ConsumeFirst? && c0.l == NewHandler(w.d, req, w.step) && Undisturbed(w) && Open(c0.row, req, w.now)
    ensures var c := Alone(w, c0, 2);
            && c.l.req == req && !c.l.sent && c.token == c0.token && c.row == c0.row
            && c.l.pc == if c0.row.None? then CheckInsert else if InUse(c0.row, w.now) then Review else CheckDelete
  {
    hide LocalStep, Alone;
    assert Alone(w, c0, 0) == c0 by { AtStart(w, c0); }
    NextMove(w, c0, 0);
    LookupAnswers(w.d, ViewAt(w, c0, 0), w.h, c0.l, w.answers(0));
    var c := Alone(w, c0, 1);
    NextMove(w, c0, 1);
    RecordAnswers(w.d, ViewAt(w, c, 1), w.h, c.l, w.answers(1));
  }

  lemma AtStart(w: World, c0: Cell)
    ensures Alone(w, c0, 0) == c0
  {
  }

  lemma RecordsKey(w: World, c0: Cell, req: Request, k: nat)
    requires var c := Alone(w, c0, k); c.l.pc == CheckInsert && c.l.req == req && !c.l.sent
    requires !w.d.ConsumeFirst? && Undisturbed(w)
    ensures var c := Alone(w, c0, k); var c' := Alone(w, c0, k + 1);
            c'.l == c.l.(pc := Review) && c'.token == c.token
  {
    hide LocalStep, Alone;
    var c := Alone(w, c0, k);
    NextMove(w, c0, k);
    ReplaceAnswers(w.d, ViewAt(w, c, k), w.h, c.l, w.answers(k));
  }

  lemma ReachesToken(w: World, c0: Cell, req: Request)
    requires !w.d.ConsumeFirst? && c0.l == NewHandler(w.d, req, w.step) && Undisturbed(w) && Open(c0.row, req, w.now)
    ensures var c := Alone(w, c0, MovesToToken(c0.row, w.now));
            c.l.req == req && !c.l.sent && c.token == c0.token && c.l.pc == LookupToken
  {
    hide LocalStep, Alone;
    LooksAtKey(w, c0, req);
    var k := 2;
    if Alone(w, c0, k).l.pc.CheckDelete? {
      NextMove(w, c0, k);
      ReplaceAnswers(w.d, ViewAt(w, Alone(w, c0, k), k), w.h, Alone(w, c0, k).l, w.answers(k));
      k := k + 1;
    }
    if Alone(w, c0, k).l.pc.CheckInsert? {
      RecordsKey(w, c0, req, k);
      k := k + 1;
    }
    Reviews(w, c0, k);
  }

  lemma Reviews(w: World, c0: Cell, k: nat)
    requires Alone(w, c0, k).l.pc == Review && w.answers(k).ok
    ensures var c := Alone(w, c0, k); Alone(w, c0, k + 1) == c.(l := c.l.(pc := LookupToken))
  {
    var c := Alone(w, c0, k);
    NextMove(w, c0, k);
    ReviewAnswers(w.d, ViewAt(w, c, k), w.h, c.l, w.answers(k));
    hide LocalStep, Alone;
  }

  /** When nothing goes wrong on an open key, a lone change apply comes to mark its key exactly with an unspent token,
      and is refused with one that does not stand. */
  lemma OnlyTheTokenDecides(w: World, c0: Cell, req: Request)
    requires !w.d.ConsumeFirst? && c0.l == NewHandler(w.d, req, w.step) && Undisturbed(w) && Open(c0.row, req, w.now)
    ensures var pc := Alone(w, c0, MovesToToken(c0.row, w.now) + 1).l.pc;
            && (pc == MarkStarted <==> Unspent(c0.token, req, w.now))
            && (!TokenStands(c0.token, req, w.now) ==> pc == Done(Refused))
  {
    hide LocalStep, Alone, TokenStands;
    ReachesToken(w, c0, req);
    var k := MovesToToken(c0.row, w.now);
    var c := Alone(w, c0, k);
    NextMove(w, c0, k);
    TokenAnswers(w.d, ViewAt(w, c, k), w.h, c.l, w.answers(k));
  }

  lemma UnboundIsRefused(w: World, c0: Cell, req: Request, k: nat)
    requires !w.d.ConsumeFirst? && c0.l == NewHandler(w.d, req, w.step) && Undisturbed(w) && Open(c0.row, req, w.now)
    requires !TokenStands(c0.token, req, w.now) && Stopped(Alone(w, c0, k).l)
    ensures Alone(w, c0, k).l.pc == Done(Refused)
  {
    hide Alone, TokenStands, Undisturbed, Open;
    OnlyTheTokenDecides(w, c0, req);
    var n := MovesToToken(c0.row, w.now) + 1;
    if k <= n {
      StoppedStays(w, c0, k, n);
    } else {
      StoppedStays(w, c0, n, k);
    }
  }

  // ---- a lone catalog submit ----

  /** A catalog submit that is not refused for its token stands in front of its key after one move. */
  lemma CatalogToken(w: World, c0: Cell, req: Request)
    requires w.d.ConsumeFirst? && c0.l == NewHandler(w.d, req, w.step)
    ensures Alone(w, c0, 1) == c0.(l := c0.l.(pc :=
              if w.answers(0).ok && Unspent(c0.token, req, w.now) then CheckSelect else Done(Refused)))
  {
    hide LocalStep, TokenStands;
    AtStart(w, c0);
    NextMove(w, c0, 0);
    TokenAnswers(w.d, ViewAt(w, c0, 0), w.h, c0.l, w.answers(0));
    hide Alone;
  }

  /** The answer on a key in use. */
  predicate InUseAnswer(w: World, row: Row, token: Option<Confirmation>, req: Request, response: Response) {
    response ==
      if !w.answers(1).ok then Internal
      else if row.opHash != req.binding.opHash then Conflict
      else if row.receipt.None? then Pending
      else if w.answers(2).ok && TokenStands(token, req, w.now) then Replayed(row.receipt.value.(replay := true))
      else Refused
  }

  /** On a key in use a catalog submit changes nothing and consumes nothing: another operation's key is a conflict, one
      with a receipt replays, and one without is pending. */
  lemma CatalogOnAKeyInUse(w: World, c0: Cell, req: Request)
    requires w.d.ConsumeFirst? && c0.l == NewHandler(w.d, req, w.step)
    requires w.answers(0).ok && Unspent(c0.token, req, w.now) && InUse(c0.row, w.now)
    ensures var c := Alone(w, c0, 3);
            && c == c0.(l := c0.l.(pc := c.l.pc)) && c.l.pc.Done?
            && InUseAnswer(w, c0.row.value, c0.token, req, c.l.pc.response)
  {
    hide LocalStep, Alone, TokenStands;
    CatalogToken(w, c0, req);
    var c := Alone(w, c0, 1);
    NextMove(w, c0, 1);
    RecordAnswers(w.d, ViewAt(w, c, 1), w.h, c.l, w.answers(1));
    if Stopped(Alone(w, c0, 2).l) {
      StoppedStays(w, c0, 2, 3);
    } else {
      var d := Alone(w, c0, 2);
      NextMove(w, c0, 2);
      ReplayAnswers(w.d, ViewAt(w, d, 2), w.h, d.l, w.answers(2));
    }
  }

  lemma CatalogAnswers(w: World, c0: Cell, req: Request, k: nat)
    requires w.d.ConsumeFirst? && c0.l == NewHandler(w.d, req, w.step) && Alone(w, c0, k).l.pc.Done?
    ensures var admitted := w.answers(0).ok && Unspent(c0.token, req, w.now); var c := Alone(w, c0, k);
            && (!admitted || InUse(c0.row, w.now) ==> c == c0.(l := c0.l.(pc := c.l.pc)))
            && (!admitted ==> c.l.pc == Done(Refused))
            && (admitted && InUse(c0.row, w.now) ==> InUseAnswer(w, c0.row.value, c0.token, req, c.l.pc.response))
  {
    hide Alone, InUseAnswer, TokenStands;
    CatalogToken(w, c0, req);
    var admitted := w.answers(0).ok && Unspent(c0.token, req, w.now);
    var n := if admitted then 3 else 1;
    if admitted && InUse(c0.row, w.now) {
      CatalogOnAKeyInUse(w, c0, req);
    }
    if !admitted || InUse(c0.row, w.now) {
      if k <= n {
        StoppedStays(w, c0, k, n);
      } else {
        StoppedStays(w, c0, n, k);
      }
    }
  }

  /** The row a catalog submit has recorded for itself. */
  predicate Recorded(w: World, row: Option<Row>, req: Request) {
    row.Some? && row.value.opHash == req.binding.opHash && row.value.expiresAt == w.now + req.window
  }

  predicate Inactive(l: Handler) {
    !l.sent && !l.consumed
  }

  /** Where a lone catalog submit can be, and what it has done by then. */
  ghost predicate CatalogAt(w: World, c0: Cell, c: Cell, req: Request) {
    var spends := !InUse(c0.row, w.now) && Unspent(c0.token, req, w.now);
    && c.l.req == req
    && (InUse(c0.row, w.now) ==> c.row == c0.row && c.token == c0.token)
    && (c.l.sent || c.l.consumed ==> spends)
    && (c.l.sent ==> c.l.consumed && Recorded(w, c.row, req) && c.row.value.started.Some?)
    && match c.l.pc {
         case LookupToken => c == c0 && Inactive(c.l)
         case CheckSelect => c.row == c0.row && c.token == c0.token && Unspent(c0.token, req, w.now) && Inactive(c.l)
         case CheckDelete => spends && c.token == c0.token && Inactive(c.l)
         case CheckInsert => spends && c.token == c0.token && Inactive(c.l)
         case ReplayCheck(_) => Inactive(c.l)
         case ConsumeSelect => spends && c.token == c0.token && Recorded(w, c.row, req) && !c.l.sent
         case ConsumeUpdate => spends && c.token == c0.token && Recorded(w, c.row, req) && !c.l.sent
         case MarkStarted => spends && c.l.consumed && Recorded(w, c.row, req) && !c.l.sent
         case Send => spends && c.l.consumed && Recorded(w, c.row, req) && c.row.value.started.Some? && !c.l.sent
         case Await => c.l.sent
         case SaveReceipt => c.l.sent
         case Done(response) => !c.l.sent ==> !response.Succeeded? && !response.UpstreamFailed?
         case _ => false
       }
  }

  lemma CatalogKeyStep(w: World, c0: Cell, c: Cell, req: Request, k: nat)
    requires w.d.ConsumeFirst? && CatalogAt(w, c0, c, req)
    requires c.l.pc.LookupToken? || c.l.pc.CheckSelect? || c.l.pc.CheckDelete? || c.l.pc.CheckInsert?
          || c.l.pc.ReplayCheck?
    ensures CatalogAt(w, c0, CellStep(w, c, k), req)
  {
    var v := ViewAt(w, c, k);
    match c.l.pc {
      case LookupToken => TokenAnswers(w.d, v, w.h, c.l, w.answers(k));
      case CheckSelect => RecordAnswers(w.d, v, w.h, c.l, w.answers(k));
      case CheckDelete => ReplaceAnswers(w.d, v, w.h, c.l, w.answers(k));
      case CheckInsert => ReplaceAnswers(w.d, v, w.h, c.l, w.answers(k));
      case ReplayCheck(_) => ReplayAnswers(w.d, v, w.h, c.l, w.answers(k));
    }
    hide LocalStep, KeyStep, WriteStep, TokenStep, TokenStands;
  }

  lemma CatalogWriteStep(w: World, c0: Cell, c: Cell, req: Request, k: nat)
    requires w.d.ConsumeFirst? && CatalogAt(w, c0, c, req)
    requires c.l.pc.ConsumeSelect? || c.l.pc.ConsumeUpdate? || c.l.pc.MarkStarted? || c.l.pc.Send? || c.l.pc.Await?
          || c.l.pc.SaveReceipt?
    ensures CatalogAt(w, c0, CellStep(w, c, k), req)
  {
    var v := ViewAt(w, c, k);
    match c.l.pc {
      case ConsumeSelect => ConsumeAnswers(w.d, v, w.h, c.l, w.answers(k));
      case ConsumeUpdate => ConsumeAnswers(w.d, v, w.h, c.l, w.answers(k));
      case MarkStarted => MarkAnswers(w.d, v, w.h, c.l, w.answers(k));
      case Send => WriteAnswers(w.d, v, w.h, c.l, w.answers(k));
      case Await => WriteAnswers(w.d, v, w.h, c.l, w.answers(k));
      case SaveReceipt => ClosingAnswers(w.d, v, w.h, c.l, w.answers(k));
    }
    hide LocalStep, KeyStep, WriteStep, TokenStep, TokenStands;
  }

  /** A lone catalog submit consumes or submits only with an unspent token on a key that had no unexpired row, and a
      submit leaves behind a marked row of its own for the whole window. */
  lemma {:induction false} CatalogStays(w: World, c0: Cell, req: Request, k: nat)
    requires w.d.ConsumeFirst? && c0.l == NewHandler(w.d, req, w.step)
    ensures CatalogAt(w, c0, Alone(w, c0, k), req)
  {
    hide CellStep, InUse, TokenStands, LeftUnmarked;
    if k == 0 {
    } else {
      CatalogStays(w, c0, req, k - 1);
      var c := Alone(w, c0, k - 1);
      if Stopped(c.l) {
        StoppedStays(w, c0, k - 1, k);
      } else if c.l.pc.ConsumeSelect? || c.l.pc.ConsumeUpdate? || c.l.pc.MarkStarted? || c.l.pc.Send? || c.l.pc.Await?
                || c.l.pc.SaveReceipt? {
        CatalogWriteStep(w, c0, c, req, k - 1);
      } else {
        CatalogKeyStep(w, c0, c, req, k - 1);
      }
    }
  }

  /** The moves of an undisturbed catalog submit up to its write. */
  function MovesToSubmit(row: Option<Row>): nat {
    if row.None? then 6 else 7
  }

  lemma RecordsCatalogKey(w: World, c0: Cell, req: Request) returns (k: nat)
    requires w.d.ConsumeFirst? && c0.l == NewHandler(w.d, req, w.step) && Undisturbed(w)
    requires Unspent(c0.token, req, w.now) && !InUse(c0.row, w.now)
    ensures k == MovesToSubmit(c0.row) - 3 && Alone(w, c0, k).l == c0.l.(pc := ConsumeSelect)
    ensures Alone(w, c0, k).token == c0.token
  {
    hide LocalStep, Alone, TokenStands;
    CatalogToken(w, c0, req);
    k := 1;
    NextMove(w, c0, k);
    RecordAnswers(w.d, ViewAt(w, Alone(w, c0, k), k), w.h, Alone(w, c0, k).l, w.answers(k));
    k := 2;
    if c0.row.Some? {
      NextMove(w, c0, k);
      ReplaceAnswers(w.d, ViewAt(w, Alone(w, c0, k), k), w.h, Alone(w, c0, k).l, w.answers(k));
      k := 3;
    }
    NextMove(w, c0, k);
    ReplaceAnswers(w.d, ViewAt(w, Alone(w, c0, k), k), w.h, Alone(w, c0, k).l, w.answers(k));
    k := k + 1;
  }

  lemma ConsumesAndMarks(w: World, c0: Cell, req: Request, k: nat)
    requires w.d.ConsumeFirst? && Undisturbed(w) && Alone(w, c0, k).l.pc == ConsumeSelect
    requires Alone(w, c0, k).l.req == req && Unspent(Alone(w, c0, k).token, req, w.now)
    ensures Alone(w, c0, k + 3).l.pc == Send
  {
    hide LocalStep, Alone;
    NextMove(w, c0, k);
    ConsumeAnswers(w.d, ViewAt(w, Alone(w, c0, k), k), w.h, Alone(w, c0, k).l, w.answers(k));
    NextMove(w, c0, k + 1);
    ConsumeAnswers(w.d, ViewAt(w, Alone(w, c0, k + 1), k + 1), w.h, Alone(w, c0, k + 1).l, w.answers(k + 1));
    NextMove(w, c0, k + 2);
    MarkAnswers(w.d, ViewAt(w, Alone(w, c0, k + 2), k + 2), w.h, Alone(w, c0, k + 2).l, w.answers(k + 2));
    assert k + 1 + 1 == k + 2 && k + 2 + 1 == k + 3;
  }

  /** When nothing goes wrong a lone catalog submit comes to write exactly with an unspent token on a key not in use. */
  lemma OnlyTokenAndKeyDecide(w: World, c0: Cell, req: Request)
    requires w.d.ConsumeFirst? && c0.l == NewHandler(w.d, req, w.step) && Undisturbed(w)
    ensures Alone(w, c0, MovesToSubmit(c0.row)).l.pc == Send <==>
              Unspent(c0.token, req, w.now) && !InUse(c0.row, w.now)
  {
    hide Alone, TokenStands, Undisturbed;
    CatalogStays(w, c0, req, MovesToSubmit(c0.row));
    if Unspent(c0.token, req, w.now) && !InUse(c0.row, w.now) {
      var k := RecordsCatalogKey(w, c0, req);
      ConsumesAndMarks(w, c0, req, k);
    }
  }
}

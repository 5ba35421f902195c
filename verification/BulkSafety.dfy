/** The invariant of the whole bulk protocol, and what it says about every run. */
module BulkSafety {
  import opened Wrappers
  import opened BulkModel
  import opened BulkProtocol
  import opened BulkInvariant

  // ---- the invariant ----

  ghost predicate PlansFit(s: Sys) {
    forall id :: id in s.plans ==> WellFormed(s.plans[id])
  }

  ghost predicate HandlersFit(s: Sys) {
    forall h :: h in s.handlers ==>
      HandlerFits(s.handlers[h]) && Owned(h, s.handlers[h], Get(s.rows, s.handlers[h].req.key))
  }

  /** Keys are reserved once; a marked row names the handler that owns it. */
  ghost predicate RowsFit(s: Sys) {
    && s.rows.Keys <= s.usedKeys
    && (forall h :: h in s.handlers && s.handlers[h].owner ==> s.handlers[h].req.key in s.usedKeys)
    && forall k :: k in s.rows ==>
         && Blank(s.rows[k])
         && (s.rows[k].started.Some? ==>
               var m := s.rows[k].started.value.owner;
               m in s.handlers && s.handlers[m].owner && s.handlers[m].req.key == k)
  }

  /** One owner per key, one entry into the loop per token. */
  ghost predicate Exclusive(s: Sys) {
    forall h, g :: h in s.handlers && g in s.handlers && h != g ==>
      && !(s.handlers[h].owner && s.handlers[g].owner && s.handlers[h].req.key == s.handlers[g].req.key)
      && !(s.handlers[h].entered && s.handlers[g].entered && s.handlers[h].req.token == s.handlers[g].req.token)
  }

  ghost predicate TokensFit(s: Sys) {
    forall h :: h in s.handlers && s.handlers[h].entered ==>
      s.handlers[h].req.token in s.tokens && s.tokens[s.handlers[h].req.token].consumed
  }

  /** What a handler is about to replay, or has replayed, is what the row still holds. */
  ghost predicate ReplayFits(l: Handler, row: Option<Row>) {
    row.None? ||
    match l.pc {
      case ReplayCheck(StoredReceipt(r)) => row.value.receipt == Some(r)
      case ReplayCheck(StoredError(e)) => row.value.terminal == Some(e)
      case Done(ReplayedReceipt(r)) => row.value.receipt.Some? && r == row.value.receipt.value.(replay := true)
      case Done(ReplayedError(e)) => row.value.terminal == Some(e)
      case _ => true
    }
  }

  predicate Replays(l: Handler) {
    l.pc.ReplayCheck? || (l.pc.Done? && (l.pc.response.ReplayedReceipt? || l.pc.response.ReplayedError?))
  }

  ghost predicate ReplaysFit(s: Sys) {
    forall h :: h in s.handlers ==>
      && ReplayFits(s.handlers[h], Get(s.rows, s.handlers[h].req.key))
      && (Replays(s.handlers[h]) ==> s.handlers[h].req.key in s.usedKeys)
  }

  ghost predicate EntryFits(e: Sent, l: Handler) {
    && e.index < l.sent <= |l.plan.targets|
    && e.key == l.req.key && e.token == l.req.token && l.entered
    && e.sysId == l.plan.targets[e.index].sysId && e.patch == l.plan.targets[e.index].patch
    && e.readStamp == l.plan.targets[e.index].stamp
  }

  ghost predicate Logged(issued: seq<Sent>, h: nat, i: nat) {
    exists p :: 0 <= p < |issued| && issued[p].h == h && issued[p].index == i
  }

  ghost predicate EntriesFit(s: Sys) {
    forall p :: 0 <= p < |s.issued| ==>
      s.issued[p].h in s.handlers && EntryFits(s.issued[p], s.handlers[s.issued[p].h])
  }

  /** Each handler's PATCHes appear in canonical order, none twice. */
  ghost predicate InOrder(issued: seq<Sent>) {
    forall p, q :: 0 <= p < q < |issued| && issued[p].h == issued[q].h ==> issued[p].index < issued[q].index
  }

  ghost predicate AllLogged(s: Sys) {
    forall h, i: nat :: h in s.handlers && i < s.handlers[h].sent ==> Logged(s.issued, h, i)
  }

  ghost predicate AcksFit(s: Sys) {
    && (forall h: nat, i: nat :: (h, i) in s.acked <==> h in s.handlers && i < s.handlers[h].acks)
    && s.acked <= s.effected
    && (forall h: nat, i: nat :: (h, i) in s.effected ==> h in s.handlers && i < s.handlers[h].sent)
  }

  /** The history agrees with each handler's counters. */
  ghost predicate LogFits(s: Sys) {
    EntriesFit(s) && InOrder(s.issued) && AllLogged(s) && AcksFit(s)
  }

  ghost predicate Inv(s: Sys) {
    && PlansFit(s) && HandlersFit(s) && RowsFit(s) && Exclusive(s) && TokensFit(s) && ReplaysFit(s) && LogFits(s)
  }

  // ---- a handler moves ----

  lemma MoveFacts(s: Sys, h: nat, a: Answer)
    requires Inv(s) && h in s.handlers && !Stopped(s.handlers[h])
    ensures Ready(s.handlers[h])
    ensures var l := s.handlers[h];
            Kept(h, l, Get(s.rows, l.req.key), LocalStep(ViewOf(s, l), h, l, a))
  {
    StepKeeps(ViewOf(s, s.handlers[h]), h, s.handlers[h], a);
  }

  /** Nobody else's row changes under them. */
  lemma OthersKeepTheirRows(s: Sys, h: nat, a: Answer, g: nat)
    requires Inv(s) && Enabled(s, Move(h, a)) && g in s.handlers && g != h && s.handlers[g].owner
    ensures Get(Moved(s, h, a).rows, s.handlers[g].req.key) == Get(s.rows, s.handlers[g].req.key)
  {
    MoveFacts(s, h, a);
    hide LocalStep;
  }

  lemma MoveKeepsHandlers(s: Sys, h: nat, a: Answer)
    requires Inv(s) && Enabled(s, Move(h, a))
    ensures HandlersFit(Moved(s, h, a))
  {
    MoveFacts(s, h, a);
    var s' := Moved(s, h, a);
    forall g | g in s'.handlers
      ensures HandlerFits(s'.handlers[g]) && Owned(g, s'.handlers[g], Get(s'.rows, s'.handlers[g].req.key))
    {
      hide LocalStep, HandlerFits, RowFits;
      if g != h && s.handlers[g].owner {
        OthersKeepTheirRows(s, h, a, g);
      }
    }
  }

  lemma MoveKeepsRows(s: Sys, h: nat, a: Answer)
    requires Inv(s) && Enabled(s, Move(h, a))
    ensures RowsFit(Moved(s, h, a))
  {
    hide LocalStep, HandlerFits, RowFits, LogFits, ReplaysFit, TokensFit;
    MoveFacts(s, h, a);
  }

  lemma ConsumesOnce(v: View, h: nat, l: Handler, a: Answer)
    requires Ready(l) && !Stopped(l)
    ensures LocalStep(v, h, l, a).consumes ==> CanConsume(v.token)
  {
    hide MarkedApplied, MarkedNotAttemptedAfter, MarkedFailedAndRemaining, Recounted, PreflightStep;
  }

  lemma MoveKeepsTokens(s: Sys, h: nat, a: Answer)
    requires Inv(s) && Enabled(s, Move(h, a))
    ensures TokensFit(Moved(s, h, a))
  {
    hide LocalStep, HandlerFits, Joint, Writes, LogFits, ReplaysFit, RowsFit, HandlersFit, Exclusive;
    MoveFacts(s, h, a);
    ConsumesOnce(ViewOf(s, s.handlers[h]), h, s.handlers[h], a);
  }

  lemma MoveKeepsExclusive(s: Sys, h: nat, a: Answer)
    requires Inv(s) && Enabled(s, Move(h, a))
    ensures Exclusive(Moved(s, h, a))
  {
    hide LocalStep, HandlerFits, RowFits, LogFits, ReplaysFit, RowsFit;
    MoveFacts(s, h, a);
    var l := s.handlers[h];
    ConsumesOnce(ViewOf(s, l), h, l, a);
    var s' := Moved(s, h, a);
    forall g | g in s.handlers && g != h
      ensures !(s'.handlers[h].owner && s.handlers[g].owner && l.req.key == s.handlers[g].req.key)
      ensures !(s'.handlers[h].entered && s.handlers[g].entered && l.req.token == s.handlers[g].req.token)
    {
    }
    hide HandlersFit, TokensFit;
  }

  lemma MoveKeepsReplays(s: Sys, h: nat, a: Answer)
    requires Inv(s) && Enabled(s, Move(h, a))
    ensures ReplaysFit(Moved(s, h, a))
  {
    hide LocalStep, RowFits, LogFits, PcFits;
    MoveFacts(s, h, a);
    var s' := Moved(s, h, a);
    NewReplayFits(ViewOf(s, s.handlers[h]), h, s.handlers[h], a);
    forall g | g in s'.handlers
      ensures ReplayFits(s'.handlers[g], Get(s'.rows, s'.handlers[g].req.key))
      ensures Replays(s'.handlers[g]) ==> s'.handlers[g].req.key in s'.usedKeys
    {
      hide LocalStep, HandlerFits, RowFits, LogFits;
    }
  }

  lemma NewReplayFits(v: View, h: nat, l: Handler, a: Answer)
    requires HandlerFits(l) && !Stopped(l) && Ready(l) && ReplayFits(l, v.row)
    ensures ReplayFits(LocalStep(v, h, l, a).next, LocalStep(v, h, l, a).row)
    ensures Replays(LocalStep(v, h, l, a).next) ==> Replays(l) || v.row.Some?
  {
    hide HandlerFits, MarkedApplied, MarkedNotAttemptedAfter, MarkedFailedAndRemaining, Recounted;
  }

  /** The entry a PATCH leaves fits the handler that sent it. */
  lemma NewEntryFits(h: nat, l: Handler, o: Outcome)
    requires HandlerFits(l) && l.pc.SendPatch? && Advances(l, o) && HandlerFits(o.next)
    ensures Ready(l) && EntryFits(SentBy(h, l), o.next) && l.pc.i == l.sent
  {
  }

  /** Where the handler stands fixes how many PATCHes it has sent. */
  lemma CountersFit(l: Handler)
    requires HandlerFits(l)
    ensures l.pc.SendPatch? ==> l.sent == l.pc.i
    ensures l.pc.AwaitPatch? ==> l.acks == l.pc.i && l.sent == l.pc.i + 1
    ensures l.pc.LoadPlan? ==> l.sent == 0
    ensures l.acks <= l.sent <= |l.plan.targets|
  {
  }

  lemma MoveKeepsEntries(s: Sys, h: nat, a: Answer)
    requires Inv(s) && Enabled(s, Move(h, a))
    ensures EntriesFit(Moved(s, h, a))
  {
    hide LocalStep, HandlerFits, Owned, Writes, RowsFit, Exclusive, ReplaysFit, AllLogged, AcksFit, InOrder;
    MoveFacts(s, h, a);
    var s' := Moved(s, h, a);
    var l := s.handlers[h];
    var o := LocalStep(ViewOf(s, l), h, l, a);
    CountersFit(l);
    if o.sends {
      NewEntryFits(h, l, o);
    }
    CountersFit(o.next);
    forall p | 0 <= p < |s.issued|
      ensures s.issued[p].h in s'.handlers && EntryFits(s.issued[p], s'.handlers[s.issued[p].h])
    {
      assert EntryFits(s.issued[p], s.handlers[s.issued[p].h]);
    }
  }

  lemma MoveKeepsOrder(s: Sys, h: nat, a: Answer)
    requires Inv(s) && Enabled(s, Move(h, a))
    ensures InOrder(Moved(s, h, a).issued)
  {
    hide LocalStep, HandlerFits, Joint, Writes, RowsFit, Exclusive, ReplaysFit, AllLogged, AcksFit;
    MoveFacts(s, h, a);
    CountersFit(s.handlers[h]);
  }

  lemma MoveKeepsAcks(s: Sys, h: nat, a: Answer)
    requires Inv(s) && Enabled(s, Move(h, a))
    ensures AcksFit(Moved(s, h, a))
  {
    hide LocalStep, HandlerFits, Joint, Writes, RowsFit, Exclusive, ReplaysFit, EntriesFit, AllLogged, InOrder;
    MoveFacts(s, h, a);
    CountersFit(s.handlers[h]);
  }

  lemma MoveKeepsAllLogged(s: Sys, h: nat, a: Answer)
    requires Inv(s) && Enabled(s, Move(h, a))
    ensures AllLogged(Moved(s, h, a))
  {
    hide LocalStep, HandlerFits, Joint, Writes, RowsFit, Exclusive, ReplaysFit, EntriesFit, AcksFit, InOrder;
    MoveFacts(s, h, a);
    var s' := Moved(s, h, a);
    var l := s.handlers[h];
    CountersFit(l);
    forall g, i: nat | g in s'.handlers && i < s'.handlers[g].sent ensures Logged(s'.issued, g, i) {
      if g == h && i == l.sent {
        assert s'.issued[|s.issued|].h == h;
      } else {
        assert Logged(s.issued, g, i);
        var p :| 0 <= p < |s.issued| && s.issued[p].h == g && s.issued[p].index == i;
        assert s'.issued[p] == s.issued[p];
      }
    }
  }

  // ---- every event ----

  /** Nothing was sent or acknowledged, and no handler forgot what it did. */
  ghost predicate SameHistory(s: Sys, s': Sys) {
    && s'.issued == s.issued && s'.acked == s.acked && s'.effected == s.effected
    && (forall h :: h in s.handlers ==>
          && h in s'.handlers
          && s'.handlers[h] == s.handlers[h].(pc := s'.handlers[h].pc))
    && (forall h :: h in s'.handlers && h !in s.handlers ==> s'.handlers[h].sent == 0 == s'.handlers[h].acks)
  }

  lemma SameHistoryFits(s: Sys, s': Sys)
    requires LogFits(s) && SameHistory(s, s')
    ensures LogFits(s')
  {
    assert EntriesFit(s') by {
      hide AllLogged, AcksFit, InOrder;
      forall p | 0 <= p < |s'.issued|
        ensures s'.issued[p].h in s'.handlers && EntryFits(s'.issued[p], s'.handlers[s'.issued[p].h])
      {
        assert EntryFits(s.issued[p], s.handlers[s.issued[p].h]);
      }
    }
    assert AllLogged(s') by {
      hide EntriesFit, AcksFit, InOrder, Logged;
    }
    assert AcksFit(s') by {
      hide EntriesFit, AllLogged, InOrder, Logged;
    }
  }

  /** One handler changes only its program counter, or appears. */
  ghost predicate Repositioned(s: Sys, h: nat, l': Handler) {
    if h in s.handlers then l' == s.handlers[h].(pc := l'.pc)
    else !l'.owner && !l'.entered && l'.sent == 0 == l'.acks
  }

  lemma RepositionKeepsClaims(s: Sys, h: nat, l': Handler)
    requires Inv(s) && HandlerFits(l') && Owned(h, l', Get(s.rows, l'.req.key)) && !Replays(l')
    requires Repositioned(s, h, l')
    ensures var s' := s.(handlers := s.handlers[h := l']);
            HandlersFit(s') && RowsFit(s') && Exclusive(s') && TokensFit(s')
  {
    hide HandlerFits, Owned, LogFits, ReplaysFit;
  }

  lemma HandlerKeeps(s: Sys, h: nat, l': Handler)
    requires Inv(s) && HandlerFits(l') && Owned(h, l', Get(s.rows, l'.req.key)) && !Replays(l')
    requires Repositioned(s, h, l')
    ensures Inv(s.(handlers := s.handlers[h := l']))
  {
    hide HandlerFits, Owned, LogFits, HandlersFit, RowsFit, Exclusive, TokensFit;
    var s' := s.(handlers := s.handlers[h := l']);
    RepositionKeepsClaims(s, h, l');
    SameHistoryFits(s, s');
  }

  /** A crash strands the handler where it is; its row keeps telling the truth about it. */
  lemma CrashedFits(h: nat, l: Handler, row: Option<Row>)
    requires HandlerFits(l) && Owned(h, l, row)
    ensures HandlerFits(l.(pc := Crashed)) && Owned(h, l.(pc := Crashed), row)
  {
    hide Running, ResultsFit;
  }

  lemma NewHandlerFits(h: nat, req: Request, cfg: Config, row: Option<Row>)
    ensures HandlerFits(NewHandler(req, cfg)) && Owned(h, NewHandler(req, cfg), row)
  {
  }

  /** Rows appear under fresh keys and expired rows go; no claim is about a row that just appeared. */
  lemma RowsKeep(s: Sys, rows: Rows, usedKeys: set<string>)
    requires Inv(s) && s.usedKeys <= usedKeys && rows.Keys <= usedKeys
    requires forall k :: k in rows ==>
      if k in s.rows then rows[k] == s.rows[k]
      else k !in s.usedKeys && rows[k] == Row(rows[k].opHash, None, None, None, None, rows[k].expiresAt)
    ensures Inv(s.(rows := rows, usedKeys := usedKeys))
  {
    hide HandlerFits, RowFits, LogFits;
    var s' := s.(rows := rows, usedKeys := usedKeys);
    SameHistoryFits(s, s');
    forall h | h in s'.handlers
      ensures Owned(h, s'.handlers[h], Get(s'.rows, s'.handlers[h].req.key))
      ensures ReplayFits(s'.handlers[h], Get(s'.rows, s'.handlers[h].req.key))
    {
      assert Owned(h, s.handlers[h], Get(s.rows, s.handlers[h].req.key));
      assert ReplayFits(s.handlers[h], Get(s.rows, s.handlers[h].req.key));
    }
  }

  lemma TokensKeep(s: Sys, tokens: map<string, Confirmation>)
    requires Inv(s)
    requires forall t :: t in s.tokens && s.tokens[t].consumed ==> t in tokens && tokens[t].consumed
    ensures Inv(s.(tokens := tokens))
  {
    hide HandlerFits, Owned, ReplayFits, LogFits;
    SameHistoryFits(s, s.(tokens := tokens));
  }

  lemma EffectKeeps(s: Sys, h: nat, i: nat)
    requires Inv(s) && h in s.handlers && i < s.handlers[h].sent
    ensures Inv(s.(effected := s.effected + {(h, i)}))
  {
    hide HandlerFits, Owned, ReplayFits, EntryFits, Logged;
  }

  lemma QuietKeeps(s: Sys, now: nat, plans: map<string, Plan>)
    requires Inv(s) && forall id :: id in plans ==> WellFormed(plans[id])
    ensures Inv(s.(now := now, plans := plans))
  {
    hide HandlerFits, Owned, ReplayFits, LogFits;
    SameHistoryFits(s, s.(now := now, plans := plans));
  }

  lemma MoveKeeps(s: Sys, h: nat, a: Answer)
    requires Inv(s) && Enabled(s, Move(h, a))
    ensures Inv(Moved(s, h, a))
  {
    hide LocalStep, HandlersFit, RowsFit, Exclusive, TokensFit, ReplaysFit, EntriesFit, AcksFit, AllLogged, InOrder;
    MoveKeepsHandlers(s, h, a);
    MoveKeepsRows(s, h, a);
    MoveKeepsExclusive(s, h, a);
    MoveKeepsTokens(s, h, a);
    MoveKeepsReplays(s, h, a);
    MoveKeepsEntries(s, h, a);
    MoveKeepsOrder(s, h, a);
    MoveKeepsAcks(s, h, a);
    MoveKeepsAllLogged(s, h, a);
  }

  lemma StepKeepsInv(s: Sys, e: Event)
    requires Inv(s) && Enabled(s, e)
    ensures Inv(Do(s, e))
  {
    hide Moved, HandlerFits, PcFits, RowFits, Exclusive, ReplaysFit, LogFits, TokensFit;
    match e
    case Move(h, a) => MoveKeeps(s, h, a);
    case Crash(h) =>
      CrashedFits(h, s.handlers[h], Get(s.rows, s.handlers[h].req.key));
      HandlerKeeps(s, h, s.handlers[h].(pc := Crashed));
    case Arrive(h, req, cfg) =>
      NewHandlerFits(h, req, cfg, Get(s.rows, req.key));
      HandlerKeeps(s, h, NewHandler(req, cfg));
    case ReserveKey(k, _, _) => RowsKeep(s, Do(s, e).rows, s.usedKeys + {k});
    case Purge(k) => RowsKeep(s, s.rows - {k}, s.usedKeys);
    case IssueToken(_, _, _) => TokensKeep(s, Do(s, e).tokens);
    case Revoke(_) => TokensKeep(s, Do(s, e).tokens);
    case SpendElsewhere(_) => TokensKeep(s, Do(s, e).tokens);
    case UpstreamApplies(h, i) => EffectKeeps(s, h, i);
    case Tick => QuietKeeps(s, s.now + 1, s.plans);
    case StorePlan(p) => QuietKeeps(s, s.now, s.plans[p.planId := p]);
  }

  lemma {:induction false} ReachableInv(states: seq<Sys>, events: seq<Event>, i: nat)
    requires Run(states, events) && i < |states|
    ensures Inv(states[i])
  {
    if i == 0 {
    } else {
      ReachableInv(states, events, i - 1);
      StepKeepsInv(states[i - 1], events[i - 1]);
    }
  }
}

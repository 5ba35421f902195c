/** The imperative apply call in the middle of any run: what the machine guarantees of its PATCHes. */
module BulkCalls {
  import opened Wrappers
  import opened BulkModel
  import opened BulkProtocol
  import opened BulkInvariant
  import opened BulkSafety
  import opened BulkTheorems
  import opened BulkObjects
  import opened BulkLone
  import opened BulkHandler
  import opened BulkRefinement

  /** A PATCH of another call under the same key or the same token. */
  predicate Shares(e: Sent, h: nat, req: Request) {
    e.h != h && (e.key == req.key || e.token == req.token)
  }

  /** No record is patched twice, and none that another call patched under the same key or the same token. */
  ghost predicate OncePerTarget(patches: seq<(string, Patch)>, s: Sys, h: nat, req: Request) {
    && (forall i, j :: 0 <= i < j < |patches| ==> patches[i].0 != patches[j].0)
    && (forall i, p :: 0 <= i < |patches| && 0 <= p < |s.issued| && Shares(s.issued[p], h, req)
          ==> s.issued[p].sysId != patches[i].0)
  }

  /** Every PATCH the handler counts is in the history, for the target it counts. */
  lemma SentIsLogged(s: Sys, h: nat, i: nat) returns (p: nat)
    requires Inv(s) && h in s.handlers && i < s.handlers[h].sent
    ensures p < |s.issued| && s.issued[p].h == h && s.issued[p].index == i && i < |s.handlers[h].plan.targets|
    ensures s.issued[p].sysId == s.handlers[h].plan.targets[i].sysId
    ensures s.issued[p].key == s.handlers[h].req.key && s.issued[p].token == s.handlers[h].req.token
  {
    assert Logged(s.issued, h, i);
    p :| 0 <= p < |s.issued| && s.issued[p].h == h && s.issued[p].index == i;
    assert EntryFits(s.issued[p], s.handlers[h]);
  }

  lemma PatchesAreOnce(s: Sys, h: nat)
    requires Inv(s) && h in s.handlers
    ensures var l := s.handlers[h]; var n := l.sent;
            n <= |l.plan.targets| && OncePerTarget(PatchesOf(l.plan.targets)[..n], s, h, l.req)
  {
    hide Inv, HandlerFits;
    var l := s.handlers[h];
    SentIsWithinPlan(s, h);
    var patches := PatchesOf(l.plan.targets)[..l.sent];
    forall i, j | 0 <= i < j < |patches| ensures patches[i].0 != patches[j].0 {
      var p := SentIsLogged(s, h, i);
      var q := SentIsLogged(s, h, j);
      if s.issued[p].sysId == s.issued[q].sysId {
        OneEntryEach(s, p, q);
      }
    }
    forall i, p | 0 <= i < |patches| && 0 <= p < |s.issued| && Shares(s.issued[p], h, l.req)
      ensures s.issued[p].sysId != patches[i].0
    {
      var q := SentIsLogged(s, h, i);
      if s.issued[p].sysId == s.issued[q].sysId {
        OneEntryEach(s, p, q);
      }
    }
  }

  lemma SentIsWithinPlan(s: Sys, h: nat)
    requires Inv(s) && h in s.handlers
    ensures s.handlers[h].sent <= |s.handlers[h].plan.targets|
  {
    assert HandlerFits(s.handlers[h]);
  }

  lemma OneEntryEach(s: Sys, p: nat, q: nat)
    requires Inv(s) && p < |s.issued| && q < |s.issued| && s.issued[p].sysId == s.issued[q].sysId
    ensures p != q ==> s.issued[p].key != s.issued[q].key && s.issued[p].token != s.issued[q].token
  {
    hide Inv;
    if p < q {
      DistinctEntries(s, p, q);
    } else if q < p {
      DistinctEntries(s, q, p);
    }
  }

  /** A call made at any reachable state: it ends where a longer run ends, and that run's guarantees are its own. */
  method ApplyInRun(store: BulkStore, confirmations: ConfirmationStore, client: WriteClient, w: World,
                    req: Request, cfg: Config, ghost states: seq<Sys>, ghost events: seq<Event>)
    returns (response: Response, ghost states': seq<Sys>, ghost events': seq<Event>)
    requires Run(states, events) && client.patches == []
    requires var s := states[|states| - 1];
             && w.h in s.handlers && s.handlers[w.h] == NewHandler(req, cfg) && w == WorldOf(s, w.h, w.answers)
             && store.rows == s.rows && confirmations.tokens == s.tokens
    modifies store, confirmations, client
    ensures Run(states', events') && |states| <= |states'| && states'[..|states|] == states
    ensures var s := states'[|states'| - 1];
            && w.h in s.handlers && s.handlers[w.h].pc == Done(response)
            && PurgedAtMost(w.now, s.rows, store.rows, req.key)
            && OncePerTarget(client.patches, s, w.h, req)
  {
    hide Run, Inv, Alone;
    var k;
    response, k := HandleApply(store, confirmations, client, w, req, cfg);
    states', events' := LoneRunIsARun(states, events, w.h, w.answers, k);
    ReachableInv(states', events', |states'| - 1);
    ghost var s := states'[|states'| - 1];
    PatchesAreOnce(s, w.h);
  }
}

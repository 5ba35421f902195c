/** What planning leaves behind: the stored plan, its confirmation token and its idempotency key, as far as it got. */
module BulkIssuing {
  import opened Wrappers
  import opened BulkModel
  import opened BulkObjects
  import opened BulkProtocol
  import opened BulkAdmission
  import Planning = BulkPlanning
  import Previews = BulkPreview

  datatype PlanResponse =
    | Planned(plan: Plan, token: string, key: string) | Rejected(error: Planning.PlanError) | PlanInternal

  /** The fresh identifiers of one planning call, and the times its records expire. */
  datatype Issue = Issue(
    planId: string, token: string, key: string, planExpires: nat, tokenExpires: nat, keyExpires: nat)

  /** How the three statements and the audit append come out. */
  datatype Answers = Answers(put: StoreAnswer, issue: StoreAnswer, reserve: StoreAnswer, audited: bool)

  /** Which of the three records came to be. */
  datatype Effects = Effects(stored: bool, issued: bool, reserved: bool)

  /** The identifiers are nobody else's. */
  predicate Fresh(i: Issue, plans: map<string, Plan>, tokens: map<string, Confirmation>, rows: Rows) {
    i.planId !in plans && i.token !in tokens && i.key !in rows
  }

  /** Each statement runs only after the one before reported success, and takes effect unless it failed before that. */
  function EffectsOf(a: Answers): Effects {
    Effects(!a.put.FailedBeforeCommit?,
            a.put.Committed? && !a.issue.FailedBeforeCommit?,
            a.put.Committed? && a.issue.Committed? && !a.reserve.FailedBeforeCommit?)
  }

  function TokenOf(plan: Plan, i: Issue): Confirmation {
    Confirmation(Binding(plan.actor, plan.requester, APPLY_TOOL, plan.opHash, plan.environment), i.tokenExpires,
                 false, false)
  }

  function PlansAfter(plans: map<string, Plan>, plan: Plan, e: Effects): map<string, Plan> {
    if e.stored then plans[plan.planId := plan] else plans
  }

  function TokensAfter(tokens: map<string, Confirmation>, plan: Plan, i: Issue, e: Effects): map<string, Confirmation> {
    if e.issued then tokens[i.token := TokenOf(plan, i)] else tokens
  }

  function RowsAfter(rows: Rows, plan: Plan, i: Issue, e: Effects): Rows {
    if e.reserved then rows[i.key := Reserved(plan.opHash, i.keyExpires)] else rows
  }

  /** A planning call: a rejected request leaves no trace, and an accepted one stores, issues and reserves in that
      order. */
  method HandlePlan(store: BulkStore, confirmations: ConfirmationStore, r: Planning.PlanRequest, u: Planning.Upstream,
                    policy: Planning.Policy, actor: string, environment: string, i: Issue, a: Answers)
    returns (response: PlanResponse)
    requires Fresh(i, store.plans, confirmations.tokens, store.rows)
    modifies store, confirmations
    ensures Planning.Preview(r, u, policy).Err? ==>
      && response == Rejected(Planning.Preview(r, u, policy).error)
      && store.plans == old(store.plans) && store.rows == old(store.rows)
      && confirmations.tokens == old(confirmations.tokens)
    ensures Planning.Preview(r, u, policy).Ok? ==>
      var ts := Planning.Preview(r, u, policy).value;
      var plan := Plan(i.planId, OpHash(ts), actor, actor, environment, ts, i.planExpires);
      && WellFormed(plan) && Previews.OneForOne(ts, r, u)
      && store.plans == PlansAfter(old(store.plans), plan, EffectsOf(a))
      && confirmations.tokens == TokensAfter(old(confirmations.tokens), plan, i, EffectsOf(a))
      && store.rows == RowsAfter(old(store.rows), plan, i, EffectsOf(a))
      && response == if a.put.Committed? && a.issue.Committed? && a.reserve.Committed? && a.audited
                     then Planned(plan, i.token, i.key) else PlanInternal
  {
    hide Previews.OneForOne, Planning.Preview, WellFormed;
    var built := Planning.BuildPlan(r, u, policy, i.planId, actor, environment, i.planExpires);
    if built.Err? {
      return Rejected(built.error);
    }
    var plan := built.value;
    Previews.PreviewIsExact(r, u, policy);
    var done := store.PutPlan(plan, a.put);
    if !done {
      return PlanInternal;
    }
    var binding := Binding(actor, actor, APPLY_TOOL, plan.opHash, environment);
    done := confirmations.Issue(i.token, binding, i.tokenExpires, a.issue);
    if !done {
      return PlanInternal;
    }
    done := store.ReserveIdempotency(i.key, plan.opHash, i.keyExpires, a.reserve);
    if !done || !a.audited {
      return PlanInternal;
    }
    return Planned(plan, i.token, i.key);
  }

  /** The records come in order: no token without the stored plan, and no key without both. */
  lemma EffectsInOrder(a: Answers)
    ensures var e := EffectsOf(a);
            && (e.reserved ==> e.issued) && (e.issued ==> e.stored)
            && (a.put.Committed? && a.issue.Committed? && a.reserve.Committed? ==> e.reserved)
            && (e.stored <==> a.put != FailedBeforeCommit)
            && (e.issued <==> a.put == Committed && a.issue != FailedBeforeCommit)
            && (e.reserved <==> a.put == Committed && a.issue == Committed && a.reserve != FailedBeforeCommit)
  {
  }

  /** What planning hands out admits the apply it was made for: exactly for the same caller, under the same limits, with
      the planned stamps, and before each record expires. */
  lemma HandedOutIsAdmitted(r: Planning.PlanRequest, u: Planning.Upstream, policy: Planning.Policy, actor: string,
                            environment: string, i: Issue, req: Request, cfg: Config, now: nat)
    requires Planning.Preview(r, u, policy).Ok?
    requires cfg.planLimit == policy.planLimit && cfg.applyLimit == policy.applyLimit
    ensures var ts := Planning.Preview(r, u, policy).value;
            var plan := Plan(i.planId, OpHash(ts), actor, actor, environment, ts, i.planExpires);
            && (PlanStands(plan, req, cfg, now) <==>
                  && now < i.planExpires && TokensMatch(req.stamps, ts)
                  && cfg.actor == actor && cfg.environment == environment)
            && (TokenStands(Some(TokenOf(plan, i)), plan, cfg, now) <==>
                  now < i.tokenExpires && cfg.actor == actor && cfg.environment == environment)
            && (LiveRow(Some(Reserved(plan.opHash, i.keyExpires)), plan, now) <==> now < i.keyExpires)
            && Unused(Reserved(plan.opHash, i.keyExpires))
  {
    Planning.PreviewIsCanonical(r, u, policy);
    Previews.LimitsHold(r, u, policy);
    hide Planning.Preview, TokensMatch;
  }

  // ---- planning in the step machine ----

  function After(s: Sys, plan: Plan, i: Issue, e: Effects): Sys {
    s.(plans := PlansAfter(s.plans, plan, e), tokens := TokensAfter(s.tokens, plan, i, e),
       rows := RowsAfter(s.rows, plan, i, e), usedKeys := if e.reserved then s.usedKeys + {i.key} else s.usedKeys)
  }

  lemma ExtendRun(states: seq<Sys>, events: seq<Event>, e: Event) returns (states': seq<Sys>, events': seq<Event>)
    requires Run(states, events) && Enabled(states[|states| - 1], e)
    ensures Run(states', events') && |states| <= |states'| && states'[..|states|] == states
    ensures states'[|states'| - 1] == Do(states[|states| - 1], e)
  {
    hide Enabled, Do;
    states', events' := states + [Do(states[|states| - 1], e)], events + [e];
  }

  /** Whatever came of the statements, the records a planning call leaves are those of a run of the machine. */
  lemma PlanningIsARun(states: seq<Sys>, events: seq<Event>, plan: Plan, i: Issue, e: Effects)
    returns (states': seq<Sys>, events': seq<Event>)
    requires Run(states, events) && WellFormed(plan) && plan.planId == i.planId
    requires var s := states[|states| - 1]; i.planId !in s.plans && i.token !in s.tokens && i.key !in s.usedKeys
    ensures Run(states', events') && |states| <= |states'| && states'[..|states|] == states
    ensures states'[|states'| - 1] == After(states[|states| - 1], plan, i, e)
  {
    hide WellFormed, Run;
    states', events' := states, events;
    if e.stored {
      states', events' := ExtendRun(states', events', StorePlan(plan));
    }
    if e.issued {
      states', events' := ExtendRun(states', events', IssueToken(i.token, TokenOf(plan, i).binding, i.tokenExpires));
    }
    if e.reserved {
      states', events' := ExtendRun(states', events', ReserveKey(i.key, plan.opHash, i.keyExpires));
    }
  }
}

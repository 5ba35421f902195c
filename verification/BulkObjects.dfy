/** The objects the apply handler updates in place: the receipt it fills in, and the two tables of its store. */
module BulkObjects {
  import opened Wrappers
  import opened BulkModel

  class BulkReceipt {
    const planId: string
    const auditId: nat
    const opHash: OpHash
    const startedAt: nat
    var status: ReceiptStatus
    var results: seq<TargetResult>
    var applied: nat
    var failed: nat
    var notAttempted: nat
    var cacheCoherent: bool
    var completedAt: nat

    function Value(): Receipt
      reads this
    {
      Receipt(planId, auditId, opHash, status, false, results, applied, failed, notAttempted, cacheCoherent,
              startedAt, completedAt)
    }

    constructor Initial(p: Plan, auditId: nat, now: nat)
      ensures Value() == InitialReceipt(p, auditId, now)
    {
      this.planId, this.auditId, this.opHash, this.startedAt := p.planId, auditId, p.opHash, now;
      status, applied, failed, notAttempted := Success, 0, 0, |p.targets|;
      results := seq(|p.targets|, i requires 0 <= i < |p.targets| => InitialResult(p.targets[i]));
      cacheCoherent, completedAt := true, now;
    }

    method CountStatus(wanted: TargetStatus) returns (n: nat)
      ensures n == Count(results, wanted)
    {
      n := 0;
      for k := 0 to |results|
        invariant n == Count(results[..k], wanted)
      {
        assert results[..k + 1][..k] == results[..k];
        if results[k].status == wanted {
          n := n + 1;
        }
      }
      assert results[..|results|] == results;
    }

    method Recount()
      modifies this
      ensures Value() == Recounted(old(Value()))
    {
      applied := CountStatus(Applied);
      failed := CountStatus(Failed);
      notAttempted := CountStatus(NotAttempted);
    }

    method MarkApplied(index: nat, target: Target, before: Patch, observed: string)
      requires index < |results|
      modifies this
      ensures Value() == MarkedApplied(old(Value()), index, target, before, observed)
    {
      results := results[index := AppliedResult(target, before, observed)];
      Recount();
    }

    method MarkNotAttemptedAfter(index: nat)
      modifies this
      ensures Value() == MarkedNotAttemptedAfter(old(Value()), index)
    {
      var k := index + 1;
      while k < |results|
        invariant index < k && |results| == |old(results)|
        invariant forall j :: 0 <= j < |results| ==>
          results[j] == if index < j < k then Cleared(old(results)[j]) else old(results)[j]
        invariant Value() == old(Value()).(results := results)
      {
        results := results[k := Cleared(results[k])];
        k := k + 1;
      }
      assert results == ClearedAfter(old(results), index);
      Recount();
    }

    method MarkFailedAndRemaining(index: nat, code: FailureCode, observed: string)
      requires index < |results|
      modifies this
      ensures Value() == MarkedFailedAndRemaining(old(Value()), index, code, observed)
    {
      results := results[index := FailedResult(results[index], code, observed)];
      MarkNotAttemptedAfter(index);
      Recount();
    }
  }

  function Reserved(opHash: OpHash, expiresAt: nat): Row {
    Row(opHash, None, None, None, None, expiresAt)
  }

  /** `incident_bulk_plans` and `incident_bulk_idempotency`. Each method is one statement; the answer says whether it
      committed and what it reported. */
  class BulkStore {
    var plans: map<string, Plan>
    var rows: Rows

    /** An INSERT: it fails when the plan id is taken. */
    method PutPlan(plan: Plan, a: StoreAnswer) returns (ok: bool)
      modifies `plans
      ensures plans == if plan.planId !in old(plans) && !a.FailedBeforeCommit?
                       then old(plans)[plan.planId := plan] else old(plans)
      ensures ok == (plan.planId !in old(plans) && a.Committed?)
    {
      ok := plan.planId !in plans && a.Committed?;
      if plan.planId !in plans && !a.FailedBeforeCommit? {
        plans := plans[plan.planId := plan];
      }
    }

    /** An INSERT of an unmarked row; keys are never reserved twice. */
    method ReserveIdempotency(key: string, opHash: OpHash, expiresAt: nat, a: StoreAnswer) returns (ok: bool)
      modifies `rows
      ensures rows == if key !in old(rows) && !a.FailedBeforeCommit?
                      then old(rows)[key := Reserved(opHash, expiresAt)] else old(rows)
      ensures ok == (key !in old(rows) && a.Committed?)
    {
      ok := key !in rows && a.Committed?;
      if key !in rows && !a.FailedBeforeCommit? {
        rows := rows[key := Reserved(opHash, expiresAt)];
      }
    }

    /** The looked-up row, or Err for a failed statement; an expired row is deleted and reported absent. */
    method LookupIdempotency(key: string, now: nat, ok: bool) returns (r: Result<Option<Row>, ()>)
      modifies `rows
      ensures ok <==> r.Ok?
      ensures var row := Get(old(rows), key); var live := row.Some? && now < row.value.expiresAt;
              && (ok ==> r.value == if live then row else None)
              && rows == if ok && !live then old(rows) - {key} else old(rows)
    {
      if !ok {
        return Err(());
      }
      if key in rows && rows[key].expiresAt <= now {
        rows := rows - {key};
        return Ok(None);
      }
      assert key !in rows ==> rows - {key} == rows;
      return Ok(Get(rows, key));
    }

    method MarkApplyStarted(key: string, m: Mark, a: StoreAnswer) returns (r: Result<bool, ()>)
      modifies `rows
      ensures rows == Put(old(rows), key, Unless(Get(old(rows), key), Marked(Get(old(rows), key), m), a))
      ensures r == if a.Committed? then Ok(CanMark(Get(old(rows), key))) else Err(())
    {
      var changed := key in rows && rows[key].started.None? && rows[key].receipt.None? && rows[key].terminal.None?;
      if changed && !a.FailedBeforeCommit? {
        rows := rows[key := rows[key].(started := Some(m))];
      }
      return if a.Committed? then Ok(changed) else Err(());
    }

    method ClearApplyStarted(key: string, a: StoreAnswer) returns (ok: bool)
      modifies `rows
      ensures rows == Put(old(rows), key, Unless(Get(old(rows), key), Unmarked(Get(old(rows), key)), a))
      ensures ok == a.Committed?
    {
      if !a.FailedBeforeCommit? && key in rows && rows[key].receipt.None? && rows[key].terminal.None? {
        rows := rows[key := rows[key].(started := None)];
      }
      return a.Committed?;
    }

    method SaveProgress(key: string, r: Receipt, a: StoreAnswer) returns (ok: bool)
      modifies `rows
      ensures rows == Put(old(rows), key, Unless(Get(old(rows), key), WithProgress(Get(old(rows), key), r), a))
      ensures ok == a.Committed?
    {
      if !a.FailedBeforeCommit? && key in rows {
        rows := rows[key := rows[key].(progress := Some(r))];
      }
      return a.Committed?;
    }

    method SaveFinalReceipt(key: string, r: Receipt, a: StoreAnswer) returns (ok: bool)
      modifies `rows
      ensures rows == Put(old(rows), key, Unless(Get(old(rows), key), WithReceipt(Get(old(rows), key), r), a))
      ensures ok == a.Committed?
    {
      if !a.FailedBeforeCommit? && key in rows {
        rows := rows[key := rows[key].(receipt := Some(r), progress := Some(r))];
      }
      return a.Committed?;
    }

    method SaveTerminalError(key: string, e: RpcError, a: StoreAnswer) returns (ok: bool)
      modifies `rows
      ensures rows == Put(old(rows), key, Unless(Get(old(rows), key), WithTerminal(Get(old(rows), key), e), a))
      ensures ok == a.Committed?
    {
      if !a.FailedBeforeCommit? && key in rows {
        rows := rows[key := rows[key].(terminal := Some(e))];
      }
      return a.Committed?;
    }
  }

  /** The no-retry mutation client, with the PATCHes it has been asked to send. */
  class WriteClient {
    var patches: seq<(string, Patch)>

    /** One request leaves, whatever comes back. */
    method UpdateIncidentWithoutRetry(sysId: string, patch: Patch)
      modifies this
      ensures patches == old(patches) + [(sysId, patch)]
    {
      patches := patches + [(sysId, patch)];
    }
  }

  /** `mcp_confirmations`. */
  class ConfirmationStore {
    var tokens: map<string, Confirmation>

    method Issue(token: string, binding: Binding, expiresAt: nat, a: StoreAnswer) returns (ok: bool)
      modifies this
      ensures tokens == if token !in old(tokens) && !a.FailedBeforeCommit?
                        then old(tokens)[token := Confirmation(binding, expiresAt, false, false)] else old(tokens)
      ensures ok == (token !in old(tokens) && a.Committed?)
    {
      ok := token !in tokens && a.Committed?;
      if token !in tokens && !a.FailedBeforeCommit? {
        tokens := tokens[token := Confirmation(binding, expiresAt, false, false)];
      }
    }

    method Lookup(token: string, ok: bool) returns (r: Result<Option<Confirmation>, ()>)
      ensures r == if ok then Ok(if token in tokens then Some(tokens[token]) else None) else Err(())
    {
      return if ok then Ok(if token in tokens then Some(tokens[token]) else None) else Err(());
    }

    /** The compare-and-set behind `consume`: one caller at most turns `consumed` on and hears of it. */
    method MarkConsumed(token: string, a: StoreAnswer) returns (r: Result<bool, ()>)
      modifies this
      ensures tokens == if token in old(tokens) && CanConsume(Some(old(tokens)[token])) && !a.FailedBeforeCommit?
                        then old(tokens)[token := old(tokens)[token].(consumed := true)] else old(tokens)
      ensures r == if a.Committed? then Ok(token in old(tokens) && CanConsume(Some(old(tokens)[token]))) else Err(())
    {
      var changed := token in tokens && !tokens[token].consumed && !tokens[token].revoked;
      if changed && !a.FailedBeforeCommit? {
        tokens := tokens[token := tokens[token].(consumed := true)];
      }
      return if a.Committed? then Ok(changed) else Err(());
    }
  }
}

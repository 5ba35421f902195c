/** Field governance of the change tools: what a plan input and, later, the planned payload may contain. */
module Governance {

  datatype Reason = BlockedDenyList | NotInAllowlist

  datatype Rejection = Rejection(field: string, reason: Reason)

  datatype Mode = PlanInput | WritePayload

  /** The allowlist of each apply tool; a tool the policy does not name falls back to the read-only default. */
  datatype Policy = Policy(tools: map<string, set<string>>, fallback: map<string, set<string>>)

  const UPDATE_PLANS: set<string> := {"change_request_plan_update", "change_task_plan_update", "incident_plan_update"}

  const PLAN_TOOLS: set<string> := UPDATE_PLANS + {"change_request_plan_create", "change_task_plan_create"}

  const METADATA: set<string> := {"actor", "requester", "client", "session_id", "user_agent"}

  const BLOCKED: set<string> := {
    "sys_id", "sys_class_name", "sys_created_on", "sys_created_by", "sys_updated_on", "sys_updated_by", "sys_mod_count",
    "approval", "parent", "active", "closed_at", "closed_by", "close_code", "close_notes"}

  function BlockedFields(tool: string): set<string> {
    if tool in UPDATE_PLANS then BLOCKED else BLOCKED + {"number"}
  }

  function SelectorFields(tool: string): set<string> {
    if tool in UPDATE_PLANS then {"number"}
    else if tool == "change_task_plan_create" then {"parent_change_number"}
    else {}
  }

  function ApplyTool(tool: string): string {
    if tool == "change_request_plan_create" then "change_request_apply_create"
    else if tool == "change_request_plan_update" then "change_request_apply_update"
    else if tool == "change_task_plan_create" then "change_task_apply_create"
    else if tool == "change_task_plan_update" then "change_task_apply_update"
    else if tool == "incident_plan_update" then "incident_apply_update"
    else tool
  }

  function Allowlist(policy: Policy, applyTool: string): set<string> {
    if applyTool in policy.tools then policy.tools[applyTool]
    else if applyTool in policy.fallback then policy.fallback[applyTool]
    else {}
  }

  /** What each tool blocks and exempts. */
  lemma TablesAre(tool: string)
    ensures tool in {"change_request_plan_update", "change_task_plan_update", "incident_plan_update"} ==>
              && SelectorFields(tool) == {"number"}
              && BlockedFields(tool) == {
                   "sys_id", "sys_class_name", "sys_created_on", "sys_created_by", "sys_updated_on", "sys_updated_by",
                   "sys_mod_count", "approval", "parent", "active", "closed_at", "closed_by", "close_code",
                     "close_notes"}
    ensures tool !in {"change_request_plan_update", "change_task_plan_update", "incident_plan_update"} ==>
              && SelectorFields(tool) == (if tool == "change_task_plan_create" then {"parent_change_number"} else {})
              && BlockedFields(tool) == {
                   "sys_id", "sys_class_name", "sys_created_on", "sys_created_by", "sys_updated_on", "sys_updated_by",
                   "sys_mod_count", "approval", "parent", "active", "closed_at", "closed_by", "close_code",
                     "close_notes",
                   "number"}
    ensures METADATA == {"actor", "requester", "client", "session_id", "user_agent"}
  {
  }

  /** The policy's own list for a tool, else the default's, else nothing. */
  predicate Listed(policy: Policy, applyTool: string, field: string) {
    if applyTool in policy.tools then field in policy.tools[applyTool]
    else applyTool in policy.fallback && field in policy.fallback[applyTool]
  }

  /** A planning tool is governed by the list of the tool that applies its plans, and any other tool by its own. */
  lemma GoverningAllowlist(tool: string, policy: Policy, field: string)
    ensures field in Allowlist(policy, ApplyTool(tool)) <==>
      Listed(policy,
        if tool == "change_request_plan_create" then "change_request_apply_create"
        else if tool == "change_request_plan_update" then "change_request_apply_update"
        else if tool == "change_task_plan_create" then "change_task_apply_create"
        else if tool == "change_task_plan_update" then "change_task_apply_update"
        else if tool == "incident_plan_update" then "incident_apply_update"
        else tool, field)
  {
  }

  // ---- rejections ----

  ghost predicate Distinct(keys: seq<string>) {
    forall i, j :: 0 <= i < j < |keys| ==> keys[i] != keys[j]
  }

  /** Neither blocked, nor exempt in this mode, nor allowed. */
  ghost predicate Unlisted(tool: string, field: string, policy: Policy, mode: Mode) {
    && field !in BlockedFields(tool) && field !in METADATA
    && !(mode.PlanInput? && field in SelectorFields(tool))
    && field !in Allowlist(policy, ApplyTool(tool))
  }

  ghost predicate Rejects(tool: string, keys: seq<string>, policy: Policy, mode: Mode, r: Rejection) {
    && r.field in keys
    && (if r.reason.BlockedDenyList? then r.field in BlockedFields(tool) else Unlisted(tool, r.field, policy, mode))
  }

  /** A list names each rejected field once, and blocked fields before unlisted ones. */
  ghost predicate Exact(tool: string, keys: seq<string>, policy: Policy, mode: Mode, fields: seq<Rejection>) {
    && (forall r :: r in fields <==> Rejects(tool, keys, policy, mode, r))
    && (forall i, j :: 0 <= i < j < |fields| ==> fields[i].field != fields[j].field)
    && (forall i, j :: 0 <= i < j < |fields| && fields[j].reason.BlockedDenyList? ==> fields[i].reason.BlockedDenyList?)
  }

  method FieldGovernanceRejections(tool: string, keys: seq<string>, policy: Policy, mode: Mode)
    returns (fields: seq<Rejection>)
    requires Distinct(keys)
    ensures Exact(tool, keys, policy, mode, fields)
  {
    hide BlockedFields, SelectorFields, ApplyTool, Allowlist;
    var blocked := BlockedFields(tool);
    fields := [];
    var rejected: set<string> := {};
    for i := 0 to |keys|
      invariant forall f :: f in rejected <==> f in keys[..i] && f in blocked
      invariant forall r :: r in fields <==> r.reason.BlockedDenyList? && r.field in rejected
      invariant forall u, v :: 0 <= u < v < |fields| ==> fields[u].field != fields[v].field
    {
      assert keys[..i + 1] == keys[..i] + [keys[i]];
      if keys[i] in blocked {
        rejected := rejected + {keys[i]};
        fields := fields + [Rejection(keys[i], BlockedDenyList)];
      }
    }
    assert keys[..|keys|] == keys;
    var allowlist := Allowlist(policy, ApplyTool(tool));
    ghost var first := fields;
    for i := 0 to |keys|
      invariant first <= fields
      invariant forall r :: r in fields <==>
                  if r.reason.BlockedDenyList? then r.field in rejected
                  else r.field in keys[..i] && Unlisted(tool, r.field, policy, mode)
      invariant forall u, v :: 0 <= u < v < |fields| ==> fields[u].field != fields[v].field
      invariant forall u :: |first| <= u < |fields| ==> fields[u].reason.NotInAllowlist?
    {
      assert keys[..i + 1] == keys[..i] + [keys[i]];
      var field := keys[i];
      if field in rejected || field in METADATA || (mode.PlanInput? && field in SelectorFields(tool)) {
        continue;
      }
      if field !in allowlist {
        fields := fields + [Rejection(field, NotInAllowlist)];
      }
    }
    assert forall u :: 0 <= u < |first| ==> first[u] in first;
  }

  /** Nothing is rejected exactly when every key is exempt or listed, and none is blocked. */
  ghost predicate Accepted(tool: string, keys: set<string>, policy: Policy, mode: Mode) {
    forall f :: f in keys ==> f !in BlockedFields(tool) && !Unlisted(tool, f, policy, mode)
  }

  function Elements(keys: seq<string>): set<string> {
    set f | f in keys
  }

  lemma NothingRejectedMeansAccepted(tool: string, keys: seq<string>, policy: Policy, mode: Mode,
                                     fields: seq<Rejection>)
    requires Exact(tool, keys, policy, mode, fields)
    ensures fields == [] <==> Accepted(tool, Elements(keys), policy, mode)
  {
    if fields != [] {
      assert fields[0] in fields;
      assert fields[0].field in keys;
    }
    forall f | f in keys && fields == [] ensures f !in BlockedFields(tool) && !Unlisted(tool, f, policy, mode) {
      assert Rejection(f, BlockedDenyList) !in fields && Rejection(f, NotInAllowlist) !in fields;
      assert !Rejects(tool, keys, policy, mode, Rejection(f, BlockedDenyList));
      assert !Rejects(tool, keys, policy, mode, Rejection(f, NotInAllowlist));
    }
  }

  // ---- the payload ----

  /** The JSON object a plan is built from, edited in place. */
  class Payload {
    var fields: map<string, string>

    constructor (arguments: map<string, string>)
      ensures fields == arguments
    {
      fields := arguments;
    }

    /** Drops the caller's metadata and the field that only selects the record. */
    method StripNonWritableSelectorFields(tool: string)
      modifies this
      ensures fields == old(fields) - METADATA - SelectorFields(tool)
    {
      var metadata := ["actor", "requester", "client", "session_id", "user_agent"];
      for i := 0 to |metadata|
        invariant fields == old(fields) - (set k | 0 <= k < i :: metadata[k])
      {
        fields := fields - {metadata[i]};
      }
      assert (set k | 0 <= k < |metadata| :: metadata[k]) == METADATA by {
        assert metadata[0] == "actor" && metadata[1] == "requester" && metadata[2] == "client";
        assert metadata[3] == "session_id" && metadata[4] == "user_agent";
      }
      if tool == "change_request_plan_update" || tool == "change_task_plan_update" || tool == "incident_plan_update" {
        fields := fields - {"number"};
      } else if tool == "change_task_plan_create" {
        fields := fields - {"parent_change_number"};
      }
    }

    method Inject(field: string, value: string)
      modifies this
      ensures fields == old(fields)[field := value]
    {
      fields := fields[field := value];
    }
  }

  /** The keys of the payload of a plan; resolving an Incident's values changes no key. */
  function PlannedKeys(tool: string, arguments: set<string>): set<string> {
    arguments - METADATA - SelectorFields(tool) + (if tool == "change_task_plan_create" then {"change_request"} else {})
  }

  /** The fields whose value is not the caller's. */
  predicate Resolved(tool: string, f: string) {
    || (tool == "change_task_plan_create" && f == "change_request")
    || (tool == "incident_plan_update" && f in {"assignment_group", "assigned_to", "state"})
  }

  /** The payload of a plan: a task names its parent change, an Incident update has its values resolved. */
  method BuildPayload(
    tool: string, arguments: map<string, string>, parentSysId: string, group: string, assignee: string,
    stateValue: string)
    returns (payload: Payload)
    ensures fresh(payload) && payload.fields.Keys == PlannedKeys(tool, arguments.Keys)
    ensures tool == "change_task_plan_create" ==>
              "change_request" in payload.fields && payload.fields["change_request"] == parentSysId
    ensures tool == "incident_plan_update" ==>
              && ("assignment_group" in payload.fields ==> payload.fields["assignment_group"] == group)
              && ("assigned_to" in payload.fields ==> payload.fields["assigned_to"] == assignee)
              && ("state" in payload.fields ==> payload.fields["state"] == stateValue)
    ensures forall f :: f in payload.fields && !Resolved(tool, f)
              ==> f in arguments && payload.fields[f] == arguments[f]
  {
    payload := new Payload(arguments);
    payload.StripNonWritableSelectorFields(tool);
    if tool == "change_task_plan_create" {
      payload.Inject("change_request", parentSysId);
    }
    if tool == "incident_plan_update" {
      if "assignment_group" in payload.fields {
        payload.Inject("assignment_group", group);
      }
      if "assigned_to" in payload.fields {
        payload.Inject("assigned_to", assignee);
      }
      if "state" in payload.fields {
        payload.Inject("state", stateValue);
      }
    }
  }

  // ---- plan and apply agree ----

  /** What survives stripping from an accepted plan input is accepted at apply time under the same policy. */
  lemma StrippedKeysStayAccepted(tool: string, arguments: set<string>, policy: Policy)
    requires tool in PLAN_TOOLS && Accepted(tool, arguments, policy, PlanInput)
    ensures Accepted(ApplyTool(tool), arguments - METADATA - SelectorFields(tool), policy, WritePayload)
  {
    var apply := ApplyTool(tool);
    assert ApplyTool(apply) == apply && apply !in UPDATE_PLANS;
    forall f | f in arguments - METADATA - SelectorFields(tool)
      ensures f !in BlockedFields(apply) && !Unlisted(apply, f, policy, WritePayload)
    {
      assert f !in BlockedFields(tool) && !Unlisted(tool, f, policy, PlanInput);
      assert f == "number" ==> tool in UPDATE_PLANS;
    }
  }

  /** A plan with nothing rejected has nothing rejected at apply time, but for a task whose parent field is unlisted. */
  lemma PlanAndApplyAgree(
    tool: string, keys: seq<string>, payload: seq<string>, policy: Policy, planned: seq<Rejection>,
    applied: seq<Rejection>)
    requires tool in PLAN_TOOLS && Exact(tool, keys, policy, PlanInput, planned) && planned == []
    requires Elements(payload) == PlannedKeys(tool, Elements(keys))
    requires Exact(ApplyTool(tool), payload, policy, WritePayload, applied)
    ensures applied == (if tool != "change_task_plan_create"
                           || "change_request" in Allowlist(policy, "change_task_apply_create")
                        then [] else [Rejection("change_request", NotInAllowlist)])
  {
    var apply := ApplyTool(tool);
    NothingRejectedMeansAccepted(tool, keys, policy, PlanInput, planned);
    StrippedKeysStayAccepted(tool, Elements(keys), policy);
    var parent := Rejection("change_request", NotInAllowlist);
    assert Rejects(apply, payload, policy, WritePayload, parent)
      <==> tool == "change_task_plan_create" && "change_request" !in Allowlist(policy, "change_task_apply_create") by {
      ParentRejection(tool, payload, policy, Elements(keys));
    }
    forall i | 0 <= i < |applied| ensures applied[i] == parent {
      assert applied[i] in applied;
      assert Rejects(apply, payload, policy, WritePayload, applied[i]);
      assert applied[i].field in Elements(payload);
      if applied[i].field in Elements(keys) - METADATA - SelectorFields(tool) {
        assert false;
      }
      assert "change_request" !in BlockedFields(apply);
    }
    assert |applied| >= 2 ==> applied[0].field == applied[1].field;
    assert parent in applied <==> Rejects(apply, payload, policy, WritePayload, parent);
    if applied != [] {
      assert applied[0] in applied;
      assert applied == [applied[0]];
    }
  }

  lemma ParentRejection(tool: string, payload: seq<string>, policy: Policy, arguments: set<string>)
    requires tool in PLAN_TOOLS && Elements(payload) == PlannedKeys(tool, arguments)
    requires Accepted(tool, arguments, policy, PlanInput)
    ensures Rejects(ApplyTool(tool), payload, policy, WritePayload, Rejection("change_request", NotInAllowlist))
       <==> tool == "change_task_plan_create" && "change_request" !in Allowlist(policy, "change_task_apply_create")
  {
    var f, apply := "change_request", ApplyTool(tool);
    StrippedKeysStayAccepted(tool, arguments, policy);
    assert f in payload <==> f in Elements(payload);
    assert f !in METADATA && f !in BlockedFields(apply) && f !in SelectorFields(tool) && ApplyTool(apply) == apply;
  }

  /** A task accepted at plan time and rejected at apply time: the policy lists its description and not its parent. */
  lemma UnlistedParentIsRejectedLate() returns (policy: Policy, keys: set<string>)
    ensures Accepted("change_task_plan_create", keys, policy, PlanInput)
    ensures "change_request" in PlannedKeys("change_task_plan_create", keys)
    ensures !Accepted("change_task_apply_create", PlannedKeys("change_task_plan_create", keys), policy, WritePayload)
  {
    policy := Policy(map["change_task_apply_create" := {"short_description"}], map[]);
    keys := {"parent_change_number", "short_description"};
    assert ApplyTool("change_task_apply_create") == "change_task_apply_create";
    assert Allowlist(policy, "change_task_apply_create") == {"short_description"};
    DescriptionIsListed(policy);
    assert Unlisted("change_task_apply_create", "change_request", policy, WritePayload);
  }

  lemma DescriptionIsListed(policy: Policy)
    requires Allowlist(policy, "change_task_apply_create") == {"short_description"}
    ensures Accepted("change_task_plan_create", {"parent_change_number", "short_description"}, policy, PlanInput)
  {
    assert "short_description" !in BlockedFields("change_task_plan_create");
    assert "parent_change_number" !in BlockedFields("change_task_plan_create");
    assert SelectorFields("change_task_plan_create") == {"parent_change_number"};
  }
}

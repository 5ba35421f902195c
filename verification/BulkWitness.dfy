/** Runs of the bulk protocol that show where its records lag behind what upstream did. */
module BulkWitness {
  import opened Wrappers
  import opened BulkModel
  import opened BulkProtocol
  import opened BulkInvariant
  import opened BulkSafety
  import opened BulkTheorems
  import opened BulkLone
  import opened BulkAdmission
  import opened BulkRefinement
  import opened BulkIssuing
  import Ordering

  const TARGETS := [
    Target("INC1", "a", map[Comments := "x"], "stamp"), Target("INC2", "b", map[Comments := "x"], "stamp"),
    Target("INC3", "c", map[Comments := "x"], "stamp")]

  const PLAN := Plan("plan", OpHash(TARGETS), "actor", "actor", "test", TARGETS, 1)

  const ISSUE := Issue("plan", "token", "key", 1, 1, 1)

  const CONFIG := Config(true, Some(3), Some(3), "actor", "test")

  const REQUEST := Request("plan", "token", "key", ExpectedTokens(TARGETS))

  const PLANNED := ReadOk(Snapshot("stamp", map[]))

  /** Everything goes well but the reads behind the preflight and the PATCHes, which come out alike. */
  function Answering(recheck: ReadAnswer, patch: PatchAnswer): nat -> Answer {
    k => Answer(true, Committed, if k < 11 then PLANNED else recheck, patch, 0)
  }

  lemma PlanIsWellFormed()
    ensures WellFormed(PLAN)
  {
    assert Ordering.Less("a", "b") && Ordering.Less("b", "c") && Ordering.Less("a", "c");
    assert forall i :: 0 <= i < 3 ==> Comments in TARGETS[i].patch;
  }

  /** The state behind planning, with one call just arrived. */
  const READY :=
    After(START, PLAN, ISSUE, Effects(true, true, true)).(handlers := map[0 := NewHandler(REQUEST, CONFIG)])

  lemma ReadyIsReached() returns (states: seq<Sys>, events: seq<Event>)
    ensures Run(states, events) && states != [] && states[|states| - 1] == READY
  {
    hide WellFormed;
    PlanIsWellFormed();
    assert Run([START], []);
    states, events := PlanningIsARun([START], [], PLAN, ISSUE, Effects(true, true, true));
    states, events := ExtendRun(states, events, Arrive(0, REQUEST, CONFIG));
  }

  lemma ReadyIsAdmissible(recheck: ReadAnswer, patch: PatchAnswer)
    ensures var w := WorldOf(READY, 0, Answering(recheck, patch));
            && w == World(0, Some(PLAN), 0, Answering(recheck, patch))
            && Admissible(w, CellOf(READY, 0), PLAN, REQUEST, CONFIG) && Uneventful(w, PLAN)
  {
    hide WellFormed, ExpectedTokens, TokensMatch;
    PlanIsWellFormed();
    TokensAreThePlans(REQUEST.stamps, TARGETS);
  }

  /** From there, `k` moves of the call are the next events of a run. */
  lemma CallRuns(recheck: ReadAnswer, patch: PatchAnswer, k: nat) returns (states: seq<Sys>, events: seq<Event>)
    ensures Run(states, events) && states != []
    ensures var s := states[|states| - 1];
            && 0 in s.handlers && s.handlers[0].req == REQUEST
            && CellOf(s, 0) == Alone(WorldOf(READY, 0, Answering(recheck, patch)), CellOf(READY, 0), k)
            && Inv(s)
  {
    hide Run, Inv, Alone, Enabled;
    states, events := ReadyIsReached();
    states, events := LoneRunIsARun(states, events, 0, Answering(recheck, patch), k);
    ReachableInv(states, events, |states| - 1);
  }

  /** In front of the first target: nothing sent, and the durable progress says so. */
  lemma AtFirstTarget(recheck: ReadAnswer, patch: PatchAnswer)
    ensures SmoothAt(WorldOf(READY, 0, Answering(recheck, patch)), CellOf(READY, 0),
                     Alone(WorldOf(READY, 0, Answering(recheck, patch)), CellOf(READY, 0), 11), PLAN, 0)
  {
    hide SmoothAt, Alone, Admissible, Uneventful;
    ReadyIsAdmissible(recheck, patch);
    SmoothStart(WorldOf(READY, 0, Answering(recheck, patch)), CellOf(READY, 0), PLAN, REQUEST, CONFIG);
  }

  /** The recheck, the PATCH and its answer. */
  lemma FirstPatch(patch: PatchAnswer)
    ensures var w := WorldOf(READY, 0, Answering(PLANNED, patch)); var c0 := CellOf(READY, 0);
            var c := Alone(w, c0, 11); var sent := c.l.(current := Snapshot("stamp", map[]), sent := 1);
            && |c.l.receipt.results| == 3 && c.l.plan == PLAN
            && Alone(w, c0, 14) == c.(l :=
              match patch
              case PatchErr => FailAt(sent, 0, UpstreamError, "stamp", SaveStop)
              case PatchAcknowledged(stamp) =>
                sent.(acks := 1, pc := if stamp.Some? then Cohere(0, stamp.value) else PostRead(0)))
  {
    hide Alone, ResultsFit, MarkedFailedAndRemaining;
    var w, c0 := WorldOf(READY, 0, Answering(PLANNED, patch)), CellOf(READY, 0);
    AtFirstTarget(PLANNED, patch);
    ReadMoves(w, c0, 11, 0);
    PatchMoves(w, c0, 12, 0);
  }

  /** Between the acknowledgement and the save, the durable progress of a marked row calls the first target
      NotAttempted: its PATCH has been sent and even acknowledged. */
  lemma ProgressLagsBehind() returns (states: seq<Sys>, events: seq<Event>)
    ensures Run(states, events)
    ensures var s := states[|states| - 1];
            && "key" in s.rows && s.rows["key"].started.Some? && Worker(s.rows["key"]) == 0
            && s.rows["key"].progress.Some? && |s.rows["key"].progress.value.results| == 3
            && s.rows["key"].progress.value.results[0].status == NotAttempted
            && Logged(s.issued, 0, 0) && (0, 0) in s.acked
  {
    hide Run, Inv, Alone, ResultsFit;
    var patch := PatchAcknowledged(Some("new"));
    states, events := CallRuns(PLANNED, patch, 14);
    var s := states[|states| - 1];
    var w, c0 := WorldOf(READY, 0, Answering(PLANNED, patch)), CellOf(READY, 0);
    AtFirstTarget(PLANNED, patch);
    FirstPatch(patch);
    var c := Alone(w, c0, 11);
    assert c.l.receipt.results[0].status == NotAttempted by { FirstIsNotAttempted(c.l); }
    LoggedIsSent(s, 0, 0);
    AckedIsCounted(s, 0);
  }

  lemma FirstIsNotAttempted(l: Handler)
    requires Running(l, 0) && |l.plan.targets| > 0
    ensures |l.receipt.results| > 0 && l.receipt.results[0].status == NotAttempted
  {
    assert Fits(l.receipt.results[0], l.plan.targets[0], StatusAt(0, 0, 0));
  }

  lemma AckedIsCounted(s: Sys, h: nat)
    requires Inv(s) && h in s.handlers
    ensures s.handlers[h].acks > 0 ==> (h, 0) in s.acked
  {
  }

  /** The first PATCH is answered with an upstream error: four moves later the call has stored and answered a terminal
      error. */
  lemma FirstPatchFails()
    ensures var w := WorldOf(READY, 0, Answering(PLANNED, PatchErr));
            var c := Alone(w, CellOf(READY, 0), 17);
            c.l.pc == Done(TerminalFailure(RpcError(-32059, "UPSTREAM_ERROR"))) && c.l.sent == 1
  {
    hide Alone, ResultsFit, MarkedFailedAndRemaining, Recounted;
    var w, c0 := WorldOf(READY, 0, Answering(PLANNED, PatchErr)), CellOf(READY, 0);
    AtFirstTarget(PLANNED, PatchErr);
    FirstPatch(PatchErr);
    var l := Alone(w, c0, 11).l.(current := Snapshot("stamp", map[]), sent := 1);
    FailedShape(l.receipt, PLAN, 0, UpstreamError, "stamp");
    SaveMoves(w, c0, 14);
    ConcludeMoves(w, c0, 15);
    RecountKeepsFit(Alone(w, c0, 15).l.receipt.(completedAt := w.now), PLAN, 0, 1);
    ConcludeMoves(w, c0, 16);
  }

  /** A terminal error whose PATCH takes effect after all. */
  lemma TerminalErrorTakesEffect() returns (states: seq<Sys>, events: seq<Event>)
    ensures Run(states, events)
    ensures var s := states[|states| - 1];
            && 0 in s.handlers && s.handlers[0].pc.Done? && s.handlers[0].pc.response.TerminalFailure?
            && (0, 0) in s.effected
  {
    hide Run, Inv, Alone;
    states, events := CallRuns(PLANNED, PatchErr, 17);
    FirstPatchFails();
    assert Enabled(states[|states| - 1], UpstreamApplies(0, 0));
    states, events := ExtendRun(states, events, UpstreamApplies(0, 0));
  }

  // ---- one message for two situations ----

  const GONE := ReadErr(IncidentNotFound)

  /** The first recheck does not find its Incident: the call stores and answers a terminal error, with nothing sent. */
  lemma FirstRecheckFails()
    ensures var w := WorldOf(READY, 0, Answering(GONE, PatchErr));
            var c := Alone(w, CellOf(READY, 0), 14);
            c.l.pc == Done(TerminalFailure(RpcError(-32059, "UPSTREAM_ERROR"))) && c.l.sent == 0
  {
    hide Alone, ResultsFit, MarkedFailedAndRemaining, Recounted;
    var w, c0 := WorldOf(READY, 0, Answering(GONE, PatchErr)), CellOf(READY, 0);
    AtFirstTarget(GONE, PatchErr);
    ReadMoves(w, c0, 11, 0);
    FailedShape(Alone(w, c0, 11).l.receipt, PLAN, 0, ReadFailed(IncidentNotFound), "");
    ConcludeMoves(w, c0, 12);
    RecountKeepsFit(Alone(w, c0, 12).l.receipt.(completedAt := w.now), PLAN, 0, 1);
    ConcludeMoves(w, c0, 13);
  }

  /** A terminal UPSTREAM_ERROR behind which nothing was sent. */
  lemma UpstreamMessageWithoutAWrite() returns (states: seq<Sys>, events: seq<Event>)
    ensures Run(states, events)
    ensures var s := states[|states| - 1];
            && 0 in s.handlers && s.handlers[0].pc == Done(TerminalFailure(RpcError(-32059, "UPSTREAM_ERROR")))
            && forall k: nat :: !Logged(s.issued, 0, k) && (0, k) !in s.effected
  {
    hide Run, Inv, Alone;
    states, events := CallRuns(GONE, PatchErr, 14);
    FirstRecheckFails();
    NothingSent(states[|states| - 1]);
  }

  lemma NothingSent(s: Sys)
    requires Inv(s) && 0 in s.handlers && s.handlers[0].sent == 0
    ensures forall k: nat :: !Logged(s.issued, 0, k) && (0, k) !in s.effected
  {
    forall k: nat ensures !Logged(s.issued, 0, k) && (0, k) !in s.effected {
      LoggedIsSent(s, 0, k);
    }
  }
}

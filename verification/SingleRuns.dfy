/** Building runs of the single-write machine step by step, for runs that show what the handlers can do. */
module SingleRuns {
  import opened Wrappers
  import opened SingleApply
  import opened SingleSafety

  function Last(states: seq<Sys>): Sys
    requires states != []
  {
    states[|states| - 1]
  }

  /** The run goes on from where it was. */
  ghost predicate Continues(states: seq<Sys>, longer: seq<Sys>) {
    0 < |states| <= |longer| && longer[..|states|] == states
  }

  lemma ContinuesOn(a: seq<Sys>, b: seq<Sys>, c: seq<Sys>)
    requires Continues(a, b) && Continues(b, c)
    ensures Continues(a, c)
  {
    assert c[..|a|] == c[..|b|][..|a|];
  }

  lemma Extend(d: Discipline, states: seq<Sys>, events: seq<Event>, e: Event)
    returns (states': seq<Sys>, events': seq<Event>)
    requires Run(d, states, events) && Enabled(Last(states), e)
    ensures Run(d, states', events') && Continues(states, states') && events' == events + [e]
    ensures Last(states') == Do(d, Last(states), e)
  {
    hide Enabled, Do;
    states', events' := states + [Do(d, Last(states), e)], events + [e];
  }

  /** Everything goes well, but perhaps the write. */
  function Well(w: WriteAnswer): Answer {
    Answer(true, Committed, w)
  }

  /** A handler with a usable row and token: nobody's receipt on the row, the token unspent. */
  ghost predicate Provided(s: Sys, l: Handler) {
    && l.req.key in s.rows && s.now < s.rows[l.req.key].expiresAt
    && s.rows[l.req.key].opHash == l.req.binding.opHash && s.rows[l.req.key].receipt.None?
    && l.req.token in s.tokens && !s.tokens[l.req.token].consumed
    && Valid(Some(s.tokens[l.req.token]), l.req.binding, s.now)
  }

  /** One move that changes nothing but its handler. */
  ghost predicate Steps(d: Discipline, s: Sys, h: nat, a: Answer, l: Handler) {
    && Enabled(s, Move(h, a))
    && Do(d, s, Move(h, a)) == s.(step := s.step + 1, handlers := s.handlers[h := l])
  }

  lemma LookupSteps(d: Discipline, s: Sys, h: nat, ok: bool)
    requires h in s.handlers && s.handlers[h].pc.Lookup? && Provided(s, s.handlers[h])
    requires ok ==> s.rows[s.handlers[h].req.key].started.None?
    ensures var l := s.handlers[h];
            Steps(d, s, h, Answer(ok, Committed, UpstreamError),
                  l.(pc := CheckSelect, looked := if ok then Some(s.step) else l.looked))
  {
    hide TokenStep, WriteStep;
    assert Set(s.rows, s.handlers[h].req.key, Get(s.rows, s.handlers[h].req.key)) == s.rows;
  }

  lemma CheckSteps(d: Discipline, s: Sys, h: nat)
    requires !d.ConsumeFirst? && h in s.handlers && Provided(s, s.handlers[h])
    requires s.handlers[h].pc.CheckSelect? || s.handlers[h].pc.Review? || s.handlers[h].pc.LookupToken?
    ensures var l := s.handlers[h];
            Steps(d, s, h, Well(UpstreamError), l.(pc := NextCheck(l.pc)))
  {
    hide WriteStep;
    assert Set(s.rows, s.handlers[h].req.key, Get(s.rows, s.handlers[h].req.key)) == s.rows;
  }

  /** From the first lookup through the review, in three moves that leave everything else alone. */
  lemma LookAndReview(d: Discipline, states: seq<Sys>, events: seq<Event>, h: nat, ok: bool)
    returns (states': seq<Sys>, events': seq<Event>)
    requires Run(d, states, events) && !d.ConsumeFirst?
    requires var s := Last(states);
             && h in s.handlers && s.handlers[h].pc.Lookup? && Provided(s, s.handlers[h])
             && (ok ==> s.rows[s.handlers[h].req.key].started.None?)
    ensures Run(d, states', events') && Continues(states, states')
    ensures var s := Last(states);
            Last(states') == s.(step := s.step + 3, handlers := s.handlers[h := s.handlers[h].(
              pc := LookupToken, looked := if ok then Some(s.step) else s.handlers[h].looked)])
  {
    hide Enabled, Do;
    var s := Last(states);
    var l := s.handlers[h].(looked := if ok then Some(s.step) else s.handlers[h].looked);
    LookupSteps(d, s, h, ok);
    var s1, e1 := Extend(d, states, events, Move(h, Answer(ok, Committed, UpstreamError)));
    var s2, e2 := PassOne(d, s1, e1, h, s, l, CheckSelect);
    states', events' := PassOne(d, s2, e2, h, s, l, Review);
    ContinuesOn(states, s1, s2);
    ContinuesOn(states, s2, states');
  }

  function NextCheck(pc: Pc): Pc {
    if pc.CheckSelect? then Review else if pc.Review? then LookupToken else MarkStarted
  }

  /** One of the checks after the lookup, on a state that differs from `s` in the handler alone. */
  lemma PassOne(d: Discipline, states: seq<Sys>, events: seq<Event>, h: nat, s: Sys, l: Handler, pc: Pc)
    returns (states': seq<Sys>, events': seq<Event>)
    requires Run(d, states, events) && !d.ConsumeFirst? && Provided(s, l)
    requires pc.CheckSelect? || pc.Review? || pc.LookupToken?
    requires Last(states) == s.(step := Last(states).step, handlers := s.handlers[h := l.(pc := pc)])
    ensures Run(d, states', events') && Continues(states, states')
    ensures Last(states') == s.(step := Last(states).step + 1, handlers := s.handlers[h := l.(pc := NextCheck(pc))])
  {
    hide Enabled, Do;
    CheckSteps(d, Last(states), h);
    states', events' := Extend(d, states, events, Move(h, Well(UpstreamError)));
    assert s.handlers[h := l.(pc := pc)][h := l.(pc := NextCheck(pc))] == s.handlers[h := l.(pc := NextCheck(pc))];
  }

  lemma MarkSteps(d: Discipline, s: Sys, h: nat)
    requires !d.ConsumeFirst? && h in s.handlers && s.handlers[h].pc.MarkStarted? && s.handlers[h].req.key in s.rows
    requires d.Lease? ==> Free(Some(s.rows[s.handlers[h].req.key]))
    ensures var l := s.handlers[h]; var row := s.rows[l.req.key];
            && Enabled(s, Move(h, Well(UpstreamError)))
            && Do(d, s, Move(h, Well(UpstreamError))) == s.(
                 step := s.step + 1,
                 rows := s.rows[l.req.key := if row.started.None? then row.(started := Some(Mark(s.now, h))) else row],
                 handlers := s.handlers[h := l.(owner := d.Lease? || l.owner, marked := Some(s.step), pc := Send)])
  {
    hide KeyStep, TokenStep;
  }

  lemma SendSteps(d: Discipline, s: Sys, h: nat)
    requires h in s.handlers && s.handlers[h].pc.Send?
    ensures Steps(d, s, h, Well(UpstreamError), s.handlers[h].(sent := true, pc := Await))
  {
    hide KeyStep, TokenStep;
    assert Set(s.rows, s.handlers[h].req.key, Get(s.rows, s.handlers[h].req.key)) == s.rows;
  }

  /** The token, the marker and the request, in three moves. */
  lemma MarkAndSend(d: Discipline, states: seq<Sys>, events: seq<Event>, h: nat)
    returns (states': seq<Sys>, events': seq<Event>)
    requires Run(d, states, events) && !d.ConsumeFirst?
    requires var s := Last(states);
             && h in s.handlers && s.handlers[h].pc.LookupToken? && Provided(s, s.handlers[h])
             && (d.Lease? ==> Free(Some(s.rows[s.handlers[h].req.key])))
    ensures Run(d, states', events') && Continues(states, states')
    ensures var s := Last(states); var l := s.handlers[h]; var row := s.rows[l.req.key];
            Last(states') == s.(
              step := s.step + 3,
              rows := s.rows[l.req.key := if row.started.None? then row.(started := Some(Mark(s.now, h))) else row],
              handlers := s.handlers[h := l.(
                owner := d.Lease? || l.owner, marked := Some(s.step + 1), sent := true, pc := Await)])
  {
    hide Enabled, Do;
    CheckSteps(d, Last(states), h);
    var s1, e1 := Extend(d, states, events, Move(h, Well(UpstreamError)));
    MarkSteps(d, Last(s1), h);
    var s2, e2 := Extend(d, s1, e1, Move(h, Well(UpstreamError)));
    SendSteps(d, Last(s2), h);
    states', events' := Extend(d, s2, e2, Move(h, Well(UpstreamError)));
    ContinuesOn(states, s1, s2);
    ContinuesOn(states, s2, states');
  }

  /** The upstream error: an answer for everybody, but for a single Incident first the way back for the marker. */
  lemma ErrorSteps(d: Discipline, s: Sys, h: nat)
    requires h in s.handlers && s.handlers[h].pc.Await?
    ensures Steps(d, s, h, Well(UpstreamError),
                  s.handlers[h].(pc := if d.Lease? then ClearStarted else Done(UpstreamFailed)))
  {
    hide KeyStep, TokenStep;
    assert Set(s.rows, s.handlers[h].req.key, Get(s.rows, s.handlers[h].req.key)) == s.rows;
  }

  lemma TakesEffect(d: Discipline, states: seq<Sys>, events: seq<Event>, h: nat)
    returns (states': seq<Sys>, events': seq<Event>)
    requires Run(d, states, events) && h in Last(states).handlers && Last(states).handlers[h].sent
    ensures Run(d, states', events') && Continues(states, states')
    ensures var s := Last(states); Last(states') == s.(step := s.step + 1, effected := s.effected + {h})
  {
    states', events' := Extend(d, states, events, UpstreamApplies(h));
  }

  // ---- a run to start from: two attempts with the same plan, key and token ----

  const BINDING := Binding("actor", "actor", "tool", "hash", "test")

  const REQUEST := Request("key", "token", BINDING, 1)

  const PLANNED := Sys(
    0, 0, map["key" := Row("hash", None, None, 1)], map["token" := Confirmation(BINDING, 1, false, false)], map[], {})

  /** One planned key, and handler `h` just arrived behind whatever came before. */
  lemma Arrives(d: Discipline, states: seq<Sys>, events: seq<Event>, h: nat)
    returns (states': seq<Sys>, events': seq<Event>)
    requires Run(d, states, events) && h !in Last(states).handlers
    ensures Run(d, states', events') && Continues(states, states')
    ensures var s := Last(states);
            Last(states') == s.(step := s.step + 1, handlers := s.handlers[h := NewHandler(d, REQUEST, s.step)])
  {
    states', events' := Extend(d, states, events, Arrive(h, REQUEST));
  }

  lemma PlannedRun(d: Discipline)
    ensures Run(d, [PLANNED], [])
  {
  }
}

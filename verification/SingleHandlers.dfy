/** The change and catalog handlers as imperative code over their stores, proved to do what the step machine does. */
module SingleHandlers {
  import opened Wrappers
  import opened SingleApply
  import opened SingleLone
  import opened SingleAdmission

  /** `mcp_idempotency` for one tool; each step of a method is one statement with its own answer. */
  class IdempotencyStore {
    var rows: Rows

    method LookupRecord(key: string, ok: bool) returns (r: Result<Option<Row>, ()>)
      ensures r == if ok then Ok(Get(rows, key)) else Err(())
    {
      return if ok then Ok(Get(rows, key)) else Err(());
    }

    method Delete(key: string, a: StoreAnswer) returns (ok: bool)
      modifies this
      ensures rows == Set(old(rows), key, Unless(Get(old(rows), key), None, a)) && ok == a.Committed?
    {
      if !a.FailedBeforeCommit? {
        rows := rows - {key};
      }
      return a.Committed?;
    }

    method InsertOrReplace(key: string, row: Row, a: StoreAnswer) returns (ok: bool)
      modifies this
      ensures rows == Set(old(rows), key, Unless(Get(old(rows), key), Some(row), a)) && ok == a.Committed?
    {
      if !a.FailedBeforeCommit? {
        rows := rows[key := row];
      }
      return a.Committed?;
    }

    method MarkApplyStarted(key: string, m: Mark, a: StoreAnswer) returns (ok: bool)
      modifies this
      ensures rows == Set(old(rows), key, Unless(Get(old(rows), key), Coalesced(Get(old(rows), key), m), a))
      ensures ok == a.Committed?
    {
      if !a.FailedBeforeCommit? && key in rows && rows[key].started.None? {
        rows := rows[key := rows[key].(started := Some(m))];
      }
      return a.Committed?;
    }

    method TryMarkApplyStarted(key: string, m: Mark, a: StoreAnswer) returns (r: Result<bool, ()>)
      modifies this
      ensures rows == Set(old(rows), key, Unless(Get(old(rows), key), TryMarked(Get(old(rows), key), m), a))
      ensures r == if a.Committed? then Ok(Free(Get(old(rows), key))) else Err(())
    {
      var changed := key in rows && rows[key].started.None? && rows[key].receipt.None?;
      if changed && !a.FailedBeforeCommit? {
        rows := rows[key := rows[key].(started := Some(m))];
      }
      return if a.Committed? then Ok(changed) else Err(());
    }

    method ClearApplyStarted(key: string, a: StoreAnswer) returns (ok: bool)
      modifies this
      ensures rows == Set(old(rows), key, Unless(Get(old(rows), key), Cleared(Get(old(rows), key)), a))
      ensures ok == a.Committed?
    {
      if !a.FailedBeforeCommit? && key in rows && rows[key].receipt.None? {
        rows := rows[key := rows[key].(started := None)];
      }
      return a.Committed?;
    }

    method SaveReceipt(key: string, r: Receipt, a: StoreAnswer) returns (ok: bool)
      modifies this
      ensures rows == Set(old(rows), key, Unless(Get(old(rows), key), WithReceipt(Get(old(rows), key), r), a))
      ensures ok == a.Committed?
    {
      if !a.FailedBeforeCommit? && key in rows {
        rows := rows[key := rows[key].(receipt := Some(r))];
      }
      return a.Committed?;
    }
  }

  class ConfirmationStore {
    var tokens: map<string, Confirmation>

    function At(token: string): Option<Confirmation>
      reads this
    {
      if token in tokens then Some(tokens[token]) else None
    }

    method MarkConsumed(token: string, a: StoreAnswer) returns (r: Result<bool, ()>)
      modifies this
      ensures tokens == if token in old(tokens) && CanConsume(old(At(token))) && !a.FailedBeforeCommit?
                        then old(tokens)[token := old(tokens)[token].(consumed := true)] else old(tokens)
      ensures r == if a.Committed? then Ok(CanConsume(old(At(token)))) else Err(())
    {
      var changed := token in tokens && !tokens[token].consumed && !tokens[token].revoked;
      if changed && !a.FailedBeforeCommit? {
        tokens := tokens[token := tokens[token].(consumed := true)];
      }
      return if a.Committed? then Ok(changed) else Err(());
    }
  }

  /** The upstream write, counted. */
  class WriteClient {
    var writes: nat

    method Write()
      modifies this
      ensures writes == old(writes) + 1
    {
      writes := writes + 1;
    }
  }

  /** Writing a key twice is writing it once. */
  lemma SetAgain(rows: Rows, key: string, a: Option<Row>)
    ensures Get(Set(rows, key, a), key) == a
    ensures forall b :: Set(Set(rows, key, a), key, b) == Set(rows, key, b)
  {
  }

  /** The objects mirror a cell of the lone run. */
  ghost predicate Mirrors(c: Cell, store: IdempotencyStore, confirmations: ConfirmationStore, client: WriteClient,
                          rows: Rows, writes: nat, req: Request)
    reads store, confirmations, client
  {
    && c.l.req == req && store.rows == Set(rows, req.key, c.row) && c.token == confirmations.At(req.token)
    && client.writes == writes + if c.l.sent then 1 else 0
  }

  /** The stores and the client one call works on. */
  class Daemon {
    const store: IdempotencyStore
    const confirmations: ConfirmationStore
    const client: WriteClient

    constructor (store: IdempotencyStore, confirmations: ConfirmationStore, client: WriteClient)
      ensures this.store == store && this.confirmations == confirmations && this.client == client
    {
      this.store, this.confirmations, this.client := store, confirmations, client;
    }

    ghost predicate Agrees(w: World, c0: Cell, k: nat, rows: Rows, writes: nat, req: Request)
      reads store, confirmations, client
    {
      Mirrors(Alone(w, c0, k), store, confirmations, client, rows, writes, req)
    }

    /** The receipt, with its token checked again, or a refusal. */
    method Replay(w: World, req: Request, r: Receipt, ghost c0: Cell, k0: nat, ghost rows: Rows, ghost writes: nat)
      returns (response: Response, k: nat)
      requires Agrees(w, c0, k0, rows, writes, req) && Alone(w, c0, k0).l.pc == ReplayCheck(r)
      ensures Agrees(w, c0, k, rows, writes, req) && Alone(w, c0, k).l.pc == Done(response)
    {
      NextCell(w, c0, k0);
      hide Alone;
      k := k0 + 1;
      var valid := w.answers(k0).ok && Valid(confirmations.At(req.token), req.binding, w.now);
      return if valid then Replayed(r.(replay := true)) else Refused, k;
    }

    /** `check_and_record`: an expired row is replaced, a live one answers for itself. */
    method CheckAndRecord(w: World, req: Request, ghost c0: Cell, k0: nat, ghost rows: Rows, ghost writes: nat)
      returns (response: Option<Response>, k: nat)
      requires Agrees(w, c0, k0, rows, writes, req) && Alone(w, c0, k0).l.pc == CheckSelect && !Alone(w, c0, k0).l.sent
      modifies store
      ensures Agrees(w, c0, k, rows, writes, req) && !Alone(w, c0, k).l.sent
      ensures Alone(w, c0, k).l.pc == if response.Some? then Done(response.value) else AfterRecord(w.d)
    {
      hide Alone, WriteStep, TokenStep, Set, Get;
      SetAgain(rows, req.key, Alone(w, c0, k0).row);
      NextCell(w, c0, k0);
      var found := store.LookupRecord(req.key, w.answers(k0).ok);
      k := k0 + 1;
      if found.Err? {
        return Some(Internal), k;
      }
      if found.value.Some? {
        var row := found.value.value;
        if w.now < row.expiresAt {
          if row.opHash != req.binding.opHash {
            return Some(Conflict), k;
          }
          if row.receipt.Some? {
            var replay: Response;
            replay, k := Replay(w, req, row.receipt.value, c0, k, rows, writes);
            return Some(replay), k;
          }
          return if w.d.ConsumeFirst? then Some(Pending) else None, k;
        }
        NextCell(w, c0, k);
        var deleted := store.Delete(req.key, w.answers(k).store);
        k := k + 1;
        SetAgain(rows, req.key, Alone(w, c0, k).row);
        if !deleted {
          return Some(Internal), k;
        }
      }
      NextCell(w, c0, k);
      var inserted := store.InsertOrReplace(req.key, Fresh(req, w.now), w.answers(k).store);
      return if inserted then None else Some(Internal), k + 1;
    }

    /** The first look at the key: a stored receipt, a pending mark or a conflict answers at once. */
    method CheckKey(w: World, req: Request, ghost c0: Cell, k0: nat, ghost rows: Rows, ghost writes: nat)
      returns (response: Option<Response>, k: nat)
      requires Agrees(w, c0, k0, rows, writes, req) && Alone(w, c0, k0).l.pc == Lookup && !Alone(w, c0, k0).l.sent
      modifies store
      ensures Agrees(w, c0, k, rows, writes, req) && !Alone(w, c0, k).l.sent
      ensures Alone(w, c0, k).l.pc == if response.Some? then Done(response.value) else AfterRecord(w.d)
    {
      hide Alone, WriteStep, TokenStep;
      NextCell(w, c0, k0);
      var found := store.LookupRecord(req.key, w.answers(k0).ok);
      k := k0 + 1;
      if found.Ok? && found.value.Some? && w.now < found.value.value.expiresAt {
        var row := found.value.value;
        if row.opHash != req.binding.opHash {
          return Some(Conflict), k;
        }
        if row.receipt.Some? {
          var replay: Response;
          replay, k := Replay(w, req, row.receipt.value, c0, k, rows, writes);
          return Some(replay), k;
        }
        if row.started.Some? {
          return Some(Pending), k;
        }
      }
      response, k := CheckAndRecord(w, req, c0, k, rows, writes);
    }

    /** The token must be unconsumed; a single-Incident call that finds it spent looks the row up once more. */
    method CheckToken(w: World, req: Request, ghost c0: Cell, k0: nat, ghost rows: Rows, ghost writes: nat)
      returns (response: Option<Response>, k: nat)
      requires Agrees(w, c0, k0, rows, writes, req) && Alone(w, c0, k0).l.pc == LookupToken && !Alone(w, c0, k0).l.sent
      ensures Agrees(w, c0, k, rows, writes, req) && !Alone(w, c0, k).l.sent
      ensures Alone(w, c0, k).l.pc ==
        if response.Some? then Done(response.value) else if w.d.ConsumeFirst? then CheckSelect else MarkStarted
    {
      hide Alone, WriteStep, KeyStep;
      NextCell(w, c0, k0);
      k := k0 + 1;
      if !w.answers(k0).ok {
        return Some(if w.d.ConsumeFirst? then Refused else Internal), k;
      }
      var token := confirmations.At(req.token);
      if !Valid(token, req.binding, w.now) {
        return Some(Refused), k;
      }
      if !token.value.consumed {
        return None, k;
      }
      if !w.d.Lease? {
        return Some(Refused), k;
      }
      NextCell(w, c0, k);
      var found := store.LookupRecord(req.key, w.answers(k).ok);
      k := k + 1;
      if found.Ok? && found.value.Some? {
        var row := found.value.value;
        if row.receipt.Some? {
          return Some(Replayed(row.receipt.value.(replay := true))), k;
        }
        if row.started.Some? {
          return Some(Pending), k;
        }
      }
      return Some(Refused), k;
    }

    /** Marks the key: compare-and-set for a single Incident, unconditional for everything else. */
    method MarkKey(w: World, req: Request, ghost c0: Cell, k0: nat, ghost rows: Rows, ghost writes: nat)
      returns (response: Option<Response>, k: nat)
      requires Agrees(w, c0, k0, rows, writes, req) && Alone(w, c0, k0).l.pc == MarkStarted && !Alone(w, c0, k0).l.sent
      modifies store
      ensures Agrees(w, c0, k, rows, writes, req) && !Alone(w, c0, k).l.sent
      ensures Alone(w, c0, k).l.pc == if response.Some? then Done(response.value) else Send
    {
      hide Alone, KeyStep, Set, Get;
      SetAgain(rows, req.key, Alone(w, c0, k0).row);
      NextCell(w, c0, k0);
      k := k0 + 1;
      if w.d.Lease? {
        var marked := store.TryMarkApplyStarted(req.key, Mark(w.now, w.h), w.answers(k0).store);
        if marked.Err? {
          return Some(Internal), k;
        }
        if marked.value {
          return None, k;
        }
        NextCell(w, c0, k);
        SetAgain(rows, req.key, Alone(w, c0, k).row);
        var found := store.LookupRecord(req.key, w.answers(k).ok);
        return Some(if found.Ok? && found.value.Some? then Pending else Internal), k + 1;
      }
      var marked := store.MarkApplyStarted(req.key, Mark(w.now, w.h), w.answers(k0).store);
      return if marked then None else Some(Internal), k;
    }

    /** The upstream write. Only a single Incident gives its marker back after an upstream error. */
    method WriteUpstream(w: World, req: Request, ghost c0: Cell, k0: nat, ghost rows: Rows, ghost writes: nat)
      returns (response: Option<Response>, k: nat)
      requires Agrees(w, c0, k0, rows, writes, req) && Alone(w, c0, k0).l.pc == Send && !Alone(w, c0, k0).l.sent
      modifies store, client
      ensures Agrees(w, c0, k, rows, writes, req) && Alone(w, c0, k).l.sent
      ensures Alone(w, c0, k).l.pc ==
        if response.Some? then Done(response.value) else if w.d.ConsumeFirst? then SaveReceipt else ConsumeSelect
    {
      hide Alone, TokenStep, KeyStep, Set, Get;
      SetAgain(rows, req.key, Alone(w, c0, k0).row);
      NextCell(w, c0, k0);
      client.Write();
      k := k0 + 1;
      NextCell(w, c0, k);
      var written := w.answers(k).write;
      k := k + 1;
      match written
      case Acknowledged => return None, k;
      case LocalCoherenceFailed =>
        return Some(if w.d.Lease? then CoherenceFailed else UpstreamFailed), k;
      case UpstreamError =>
        if !w.d.Lease? {
          return Some(UpstreamFailed), k;
        }
        NextCell(w, c0, k);
        var cleared := store.ClearApplyStarted(req.key, w.answers(k).store);
        return Some(if cleared then UpstreamFailed else Internal), k + 1;
    }

    method ConsumeToken(w: World, req: Request, ghost c0: Cell, k0: nat, ghost rows: Rows, ghost writes: nat)
      returns (response: Option<Response>, k: nat)
      requires Agrees(w, c0, k0, rows, writes, req) && Alone(w, c0, k0).l.pc == ConsumeSelect
      modifies confirmations
      ensures confirmations.tokens - {req.token} == old(confirmations.tokens) - {req.token}
      ensures Agrees(w, c0, k, rows, writes, req) && Alone(w, c0, k).l.sent == Alone(w, c0, k0).l.sent
      ensures Alone(w, c0, k).l.pc ==
        if response.Some? then Done(response.value) else if w.d.ConsumeFirst? then MarkStarted else SaveReceipt
    {
      hide Alone, WriteStep, KeyStep;
      NextCell(w, c0, k0);
      k := k0 + 1;
      var token := confirmations.At(req.token);
      if !(w.answers(k0).ok && Valid(token, req.binding, w.now)) || token.value.consumed {
        return Some(Refused), k;
      }
      NextCell(w, c0, k);
      var consumed := confirmations.MarkConsumed(req.token, w.answers(k).store);
      return if consumed.Ok? && consumed.value then None else Some(Refused), k + 1;
    }

    method Record(w: World, req: Request, ghost c0: Cell, k0: nat, ghost rows: Rows, ghost writes: nat)
      returns (response: Response, k: nat)
      requires Agrees(w, c0, k0, rows, writes, req) && Alone(w, c0, k0).l.pc == SaveReceipt
      modifies store
      ensures Agrees(w, c0, k, rows, writes, req) && Alone(w, c0, k).l.pc == Done(response)
    {
      hide Alone, TokenStep, KeyStep;
      NextCell(w, c0, k0);
      var receipt := Receipt(req.binding.opHash, false);
      var saved := store.SaveReceipt(req.key, receipt, w.answers(k0).store);
      return if saved then Succeeded(receipt) else Internal, k0 + 1;
    }

    /** The field review and the read before the write. */
    method ReviewPlan(w: World, req: Request, ghost c0: Cell, k0: nat, ghost rows: Rows, ghost writes: nat)
      returns (response: Option<Response>, k: nat)
      requires Agrees(w, c0, k0, rows, writes, req) && Alone(w, c0, k0).l.pc == Review && !Alone(w, c0, k0).l.sent
      ensures Agrees(w, c0, k, rows, writes, req) && !Alone(w, c0, k).l.sent
      ensures Alone(w, c0, k).l.pc == if response.Some? then Done(response.value) else LookupToken
    {
      hide Alone, WriteStep, KeyStep;
      NextCell(w, c0, k0);
      return if w.answers(k0).ok then None else Some(Denied), k0 + 1;
    }

    /** The cell a call starts from. */
    function StartCell(w: World, req: Request): Cell
      reads store, confirmations
    {
      Cell(Get(store.rows, req.key), confirmations.At(req.token), NewHandler(w.d, req, w.step))
    }

    /** The statements of an apply in their order. */
    method Apply(w: World, req: Request) returns (response: Response, k: nat)
      requires !w.d.ConsumeFirst?
      modifies store, confirmations, client
      ensures confirmations.tokens - {req.token} == old(confirmations.tokens) - {req.token}
      ensures var c0 := old(StartCell(w, req));
              Agrees(w, c0, k, old(store.rows), old(client.writes), req) && Alone(w, c0, k).l.pc == Done(response)
    {
      ghost var rows, writes := store.rows, client.writes;
      ghost var c0 := StartCell(w, req);
      assert Agrees(w, c0, 0, rows, writes, req);
      hide Alone, Agrees;
      var stopped: Option<Response>;
      stopped, k := CheckKey(w, req, c0, 0, rows, writes);
      if stopped.Some? {
        return stopped.value, k;
      }
      stopped, k := ReviewPlan(w, req, c0, k, rows, writes);
      if stopped.Some? {
        return stopped.value, k;
      }
      stopped, k := CheckToken(w, req, c0, k, rows, writes);
      if stopped.Some? {
        return stopped.value, k;
      }
      response, k := Perform(w, req, c0, k, rows, writes);
    }

    /** Behind the checks: mark, write, consume, record. */
    method Perform(w: World, req: Request, ghost c0: Cell, k0: nat, ghost rows: Rows, ghost writes: nat)
      returns (response: Response, k: nat)
      requires !w.d.ConsumeFirst? && Agrees(w, c0, k0, rows, writes, req)
      requires Alone(w, c0, k0).l.pc == MarkStarted && !Alone(w, c0, k0).l.sent
      modifies store, confirmations, client
      ensures confirmations.tokens - {req.token} == old(confirmations.tokens) - {req.token}
      ensures Agrees(w, c0, k, rows, writes, req) && Alone(w, c0, k).l.pc == Done(response)
    {
      hide Alone, Agrees;
      var stopped: Option<Response>;
      stopped, k := MarkKey(w, req, c0, k0, rows, writes);
      if stopped.Some? {
        return stopped.value, k;
      }
      stopped, k := WriteUpstream(w, req, c0, k, rows, writes);
      if stopped.Some? {
        return stopped.value, k;
      }
      stopped, k := ConsumeToken(w, req, c0, k, rows, writes);
      if stopped.Some? {
        return stopped.value, k;
      }
      response, k := Record(w, req, c0, k, rows, writes);
    }

    /** A change, knowledge or resource-plan apply: look, review, mark, write, consume, record. Without an unspent token
        nothing is written, consumed or marked; without a standing one no receipt is given out, and when nothing else
        goes wrong and the key is open the answer is a refusal. */
    method HandleApply(w: World, req: Request) returns (response: Response, k: nat)
      requires !w.d.ConsumeFirst?
      modifies store, confirmations, client
      ensures confirmations.tokens - {req.token} == old(confirmations.tokens) - {req.token}
      ensures !Unspent(old(confirmations.At(req.token)), req, w.now) ==>
                && client.writes == old(client.writes)
                  && confirmations.At(req.token) == old(confirmations.At(req.token))
                && store.rows - {req.key} == old(store.rows) - {req.key}
                && LeftUnmarked(Get(old(store.rows), req.key), Get(store.rows, req.key), req, w.now)
                && (Negative(response) || Replays(Get(old(store.rows), req.key), response))
      ensures !TokenStands(old(confirmations.At(req.token)), req, w.now) ==>
                && Negative(response)
                && (Undisturbed(w) && Open(Get(old(store.rows), req.key), req, w.now) ==> response == Refused)
      ensures var c0 := old(StartCell(w, req));
              Agrees(w, c0, k, old(store.rows), old(client.writes), req) && Alone(w, c0, k).l.pc == Done(response)
    {
      hide Alone, TokenStands, Undisturbed, LeftUnmarked;
      ghost var c0 := StartCell(w, req);
      response, k := Apply(w, req);
      if !Unspent(c0.token, req, w.now) {
        UnspentTokenIsNeeded(w, c0, req, k);
      }
      if !TokenStands(c0.token, req, w.now) && Undisturbed(w) && Open(c0.row, req, w.now) {
        UnboundIsRefused(w, c0, req, k);
      }
    }

    /** The statements of a catalog submit in their order. */
    method Submit(w: World, req: Request) returns (response: Response, k: nat)
      requires w.d.ConsumeFirst?
      modifies store, confirmations, client
      ensures confirmations.tokens - {req.token} == old(confirmations.tokens) - {req.token}
      ensures var c0 := old(StartCell(w, req));
              Agrees(w, c0, k, old(store.rows), old(client.writes), req) && Alone(w, c0, k).l.pc == Done(response)
    {
      ghost var rows, writes := store.rows, client.writes;
      ghost var c0 := StartCell(w, req);
      assert Agrees(w, c0, 0, rows, writes, req);
      hide Alone, Agrees;
      var stopped: Option<Response>;
      stopped, k := CheckToken(w, req, c0, 0, rows, writes);
      if stopped.Some? {
        return stopped.value, k;
      }
      stopped, k := CheckAndRecord(w, req, c0, k, rows, writes);
      if stopped.Some? {
        return stopped.value, k;
      }
      stopped, k := ConsumeToken(w, req, c0, k, rows, writes);
      if stopped.Some? {
        return stopped.value, k;
      }
      stopped, k := MarkKey(w, req, c0, k, rows, writes);
      if stopped.Some? {
        return stopped.value, k;
      }
      stopped, k := WriteUpstream(w, req, c0, k, rows, writes);
      if stopped.Some? {
        return stopped.value, k;
      }
      response, k := Record(w, req, c0, k, rows, writes);
    }

    /** A catalog submit: check the token, record the key, consume, mark, submit, record. Without an unspent token it is
        refused. On a key in use it changes nothing and answers for the row. A submit leaves its own marked row. */
    method HandleCatalogSubmit(w: World, req: Request) returns (response: Response, k: nat)
      requires w.d.ConsumeFirst?
      modifies store, confirmations, client
      ensures confirmations.tokens - {req.token} == old(confirmations.tokens) - {req.token}
      ensures var admitted := w.answers(0).ok && Unspent(old(confirmations.At(req.token)), req, w.now);
              var row := Get(old(store.rows), req.key);
              && (!admitted || InUse(row, w.now) ==>
                    && store.rows == old(store.rows) && client.writes == old(client.writes)
                    && confirmations.At(req.token) == old(confirmations.At(req.token)))
              && (!admitted ==> response == Refused)
              && (admitted && InUse(row, w.now) ==>
                    InUseAnswer(w, row.value, old(confirmations.At(req.token)), req, response))
      ensures client.writes > old(client.writes) ==>
                !InUse(Get(old(store.rows), req.key), w.now) && Recorded(w, Get(store.rows, req.key), req)
      ensures var c0 := old(StartCell(w, req));
              Agrees(w, c0, k, old(store.rows), old(client.writes), req) && Alone(w, c0, k).l.pc == Done(response)
    {
      hide Alone, TokenStands, InUse;
      ghost var c0 := StartCell(w, req);
      assert Set(store.rows, req.key, c0.row) == store.rows;
      response, k := Submit(w, req);
      CatalogStays(w, c0, req, k);
      CatalogAnswers(w, c0, req, k);
    }
  }
}

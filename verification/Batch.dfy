/** `run_batch_in_session` and the single-statement `exec_query` of src/handlers/query.rs. */
module Batch {
  import opened Text
  import opened Keywords
  import opened Comments
  import opened Server
  import opened Cancel
  import opened Session

  /** What the outside decides for one statement: its requests on the shared client, or its one-shot connection. */
  datatype Choices = Choices(shared: Fates, connects: bool, oneShot: PinFates)

  /** The loop's variables with the shared connection's server state. */
  datatype Progress = Progress(inTransaction: bool, stateSet: bool, server: ServerState)

  /** Outcome of one statement of the batch, and what the loop carries on with. */
  function RunOne(k: Kind, pooler: bool, hasSchema: bool, p: Progress, ch: Choices): (QueryOutcome, Progress) {
    var (outcome, server) :=
      if RunsOneShot(pooler, k, p.inTransaction, p.stateSet)
      then (QueryOutcome(ch.connects && PinnedTxn(k, hasSchema, ch.oneShot).0, false), p.server)
      else ExecOnClient(k, PreResolves(pooler, k), p.inTransaction, p.server, ch.shared);
    var (inTransaction, stateSet) := FlagsAfter(k, outcome, p.inTransaction, p.stateSet);
    (outcome, Progress(inTransaction, stateSet, server))
  }

  /**
   A turn that has its one-shot connection: the flag judges the one-shot transaction's result, the shared server never
   sees it.
   */
  lemma OneShotTurn(k: Kind, pooler: bool, hasSchema: bool, p: Progress, ch: Choices)
    requires RunsOneShot(pooler, k, p.inTransaction, p.stateSet) && ch.connects
    ensures var ok := PinnedTxn(k, hasSchema, ch.oneShot).0;
            RunOne(k, pooler, hasSchema, p, ch)
            == (QueryOutcome(ok, false),
                Progress(InTransactionAfterOutcome(k.effect, QueryOutcome(ok, false), p.inTransaction),
                         p.stateSet || (ok && k.setsState), p.server))
  {
  }

  /** The results of a batch in order, one per statement, and where the loop ends. */
  function RunAll(ks: seq<Kind>, pooler: bool, hasSchema: bool, p: Progress, chs: seq<Choices>): (seq<bool>, Progress)
    requires |chs| == |ks|
    decreases |ks|
  {
    if ks == [] then ([], p)
    else
      var n := |ks| - 1;
      var (results, before) := RunAll(ks[..n], pooler, hasSchema, p, chs[..n]);
      var (outcome, after) := RunOne(ks[n], pooler, hasSchema, before, chs[n]);
      (results + [outcome.ok], after)
  }

  lemma RunAllStep(ks: seq<Kind>, pooler: bool, hasSchema: bool, p: Progress, chs: seq<Choices>, i: nat)
    requires i < |ks| == |chs|
    ensures var (results, before) := RunAll(ks[..i], pooler, hasSchema, p, chs[..i]);
            var (outcome, after) := RunOne(ks[i], pooler, hasSchema, before, chs[i]);
            RunAll(ks[..i + 1], pooler, hasSchema, p, chs[..i + 1]) == (results + [outcome.ok], after)
  {
    assert ks[..i + 1][..i] == ks[..i] && chs[..i + 1][..i] == chs[..i];
  }

  /**
   Session state counts as set exactly if it was before, or some statement that sets it has succeeded, wherever it ran.
   */
  lemma {:induction false} StateSetExactly(ks: seq<Kind>, pooler: bool, hasSchema: bool, p: Progress, chs: seq<Choices>)
    requires |chs| == |ks|
    ensures var (results, after) := RunAll(ks, pooler, hasSchema, p, chs);
            && |results| == |ks|
            && (after.stateSet <==> p.stateSet || exists i :: 0 <= i < |ks| && results[i] && ks[i].setsState)
    decreases |ks|
  {
    if ks != [] {
      var n := |ks| - 1;
      StateSetExactly(ks[..n], pooler, hasSchema, p, chs[..n]);
      var (results, before) := RunAll(ks[..n], pooler, hasSchema, p, chs[..n]);
      var (outcome, after) := RunOne(ks[n], pooler, hasSchema, before, chs[n]);
      SetsLast(ks, results, outcome.ok);
    }
  }

  lemma SetsLast(ks: seq<Kind>, results: seq<bool>, ok: bool)
    requires |ks| == |results| + 1
    ensures (exists i :: 0 <= i < |ks| && (results + [ok])[i] && ks[i].setsState)
            <==> (ok && ks[|ks| - 1].setsState)
                 || exists i :: 0 <= i < |ks| - 1 && results[i] && ks[..|ks| - 1][i].setsState
  {
    var all := results + [ok];
    if i :| 0 <= i < |ks| - 1 && results[i] && ks[..|ks| - 1][i].setsState {
      assert all[i] && ks[i].setsState;
    }
    if ok && ks[|ks| - 1].setsState {
      assert all[|ks| - 1];
    }
    if i :| 0 <= i < |ks| && all[i] && ks[i].setsState {
      assert i < |ks| - 1 ==> results[i] && ks[..|ks| - 1][i].setsState;
    }
  }

  /** A batch is its first statement and then the rest, from where the first one leaves the loop. */
  lemma {:induction false} RunAllFirst(k: Kind, ks: seq<Kind>, pooler: bool, hasSchema: bool, p: Progress, ch: Choices,
                                       chs: seq<Choices>)
    requires |chs| == |ks|
    ensures var (outcome, mid) := RunOne(k, pooler, hasSchema, p, ch);
            var (results, end) := RunAll(ks, pooler, hasSchema, mid, chs);
            RunAll([k] + ks, pooler, hasSchema, p, [ch] + chs) == ([outcome.ok] + results, end)
    decreases |ks|
  {
    if ks == [] {
      RunAllOnly(k, pooler, hasSchema, p, ch);
    } else {
      var n, all, picks := |ks| - 1, [k] + ks, [ch] + chs;
      RunAllFirst(k, ks[..n], pooler, hasSchema, p, ch, chs[..n]);
      assert all[..n + 1] == [k] + ks[..n] && picks[..n + 1] == [ch] + chs[..n];
      var (outcome, mid) := RunOne(k, pooler, hasSchema, p, ch);
      var (results, before) := RunAll(ks[..n], pooler, hasSchema, mid, chs[..n]);
      var last := RunOne(ks[n], pooler, hasSchema, before, chs[n]).0;
      Regrouped([outcome.ok], results, [last.ok]);
    }
  }

  lemma Regrouped(a: seq<bool>, b: seq<bool>, c: seq<bool>)
    ensures a + (b + c) == a + b + c
  {
  }

  lemma RunAllOnly(k: Kind, pooler: bool, hasSchema: bool, p: Progress, ch: Choices)
    ensures var (outcome, mid) := RunOne(k, pooler, hasSchema, p, ch);
            RunAll([k] + [], pooler, hasSchema, p, [ch] + []) == ([outcome.ok] + [], mid)
  {
    assert [k] + [] == [k] && [ch] + [] == [ch] && [k][..0] == [] && [ch][..0] == [];
    var ok := RunOne(k, pooler, hasSchema, p, ch).0.ok;
    assert RunAll([k], pooler, hasSchema, p, [ch]).0 == [] + [ok] == [ok] + [];
  }

  predicate AllTrackable(ks: seq<Kind>) {
    forall i :: 0 <= i < |ks| ==> Trackable(ks[i])
  }

  /** After every statement of every batch, under every fate, the flag is the shared connection's transaction state. */
  lemma {:induction false} BatchTracks(ks: seq<Kind>, pooler: bool, hasSchema: bool, p: Progress, chs: seq<Choices>)
    requires |chs| == |ks| && AllTrackable(ks) && Tracks(p.inTransaction, p.server)
    ensures var (results, after) := RunAll(ks, pooler, hasSchema, p, chs);
            |results| == |ks| && Tracks(after.inTransaction, after.server)
    decreases |ks|
  {
    if ks != [] {
      var n := |ks| - 1;
      BatchTracks(ks[..n], pooler, hasSchema, p, chs[..n]);
      var before := RunAll(ks[..n], pooler, hasSchema, p, chs[..n]).1;
      StatementKeepsTracking(ks[n], PreResolves(pooler, ks[n]), before.inTransaction, before.server, chs[n].shared);
    }
  }

  /** The run of a statement fails on the client alone only by the timeout, which is set after a failed `prepare`. */
  predicate OnlyTimeouts(ch: Choices) {
    ch.shared.run == ClientFails ==> ch.shared.prepare != Works
  }

  /**
   Whatever the loop's state and the outside's choices, this statement keeps the flag right; with `timeouts`, as far as
   the client alone fails only by the timeout.
   */
  ghost predicate KeepsTracking(k: Kind, pooler: bool, timeouts: bool) {
    forall hasSchema: bool, p: Progress, ch: Choices ::
      Tracks(p.inTransaction, p.server) && (timeouts ==> OnlyTimeouts(ch)) ==>
        var after := RunOne(k, pooler, hasSchema, p, ch).1;
        Tracks(after.inTransaction, after.server)
  }

  /** Every request works but the `prepare` and the run of the statement itself, which end so. */
  function Choosing(prepare: Fate, run: Fate): Choices {
    var fates := Fates(prepare, run, Works, Works, false);
    Choices(fates, true, PinFates(Works, Works, Works, Works, Fates(Works, Works, Works, Works, false), Works, Works))
  }

  /** On a transaction pooler its one-shot run flips the flag; on a direct connection it times out after it opened. */
  lemma OpeningBreaks(k: Kind, pooler: bool)
    requires k.rows && (k.effect == Opens || (k.effect == Chains && pooler))
    ensures !KeepsTracking(k, pooler, true)
  {
    var p, ch := Progress(false, false, Idle), Choosing(Refused, ClientFails);
    var after := RunOne(k, pooler, false, p, ch).1;
    assert OnlyTimeouts(ch) && !Tracks(after.inTransaction, after.server);
  }

  /** A `COMMIT AND CHAIN` whose reply alone is lost. */
  lemma ChainBreaks(k: Kind, pooler: bool)
    requires k.rows && k.effect == Chains
    ensures !KeepsTracking(k, pooler, false)
  {
    var after := RunOne(k, pooler, false, Progress(true, false, InTxn), Choosing(Works, ClientFails)).1;
    assert !Tracks(after.inTransaction, after.server);
  }

  /** On a direct connection a chain can only lose its reply by the timeout, and inside a transaction there is none. */
  lemma DirectChainTracks(k: Kind)
    requires k.rows && k.effect == Chains
    ensures KeepsTracking(k, false, true)
  {
    forall hasSchema: bool, p: Progress, ch: Choices | Tracks(p.inTransaction, p.server) && OnlyTimeouts(ch)
      ensures var after := RunOne(k, false, hasSchema, p, ch).1; Tracks(after.inTransaction, after.server)
    {
      DirectChainTurn(k, p, ch.shared);
    }
  }

  lemma DirectChainTurn(k: Kind, p: Progress, f: Fates)
    requires k.rows && k.effect == Chains && Tracks(p.inTransaction, p.server)
    requires f.run == ClientFails ==> f.prepare != Works
    ensures var (outcome, after) := ExecOnClient(k, true, p.inTransaction, p.server, f);
            Tracks(InTransactionAfterOutcome(k.effect, outcome, p.inTransaction), after)
  {
  }

  /**
   A statement keeps the flag right, on every connection it may run on, if and only if it does not both return rows and
   leave a transaction open; if the client alone fails only by the timeout, a chain on a direct connection is right too.
   */
  lemma TracksExactly(k: Kind, pooler: bool)
    ensures KeepsTracking(k, pooler, false) <==> Trackable(k)
    ensures KeepsTracking(k, pooler, true) <==> Trackable(k) || (k.effect == Chains && !pooler)
  {
    if Trackable(k) {
      forall hasSchema: bool, p: Progress, ch: Choices | Tracks(p.inTransaction, p.server)
        ensures var after := RunOne(k, pooler, hasSchema, p, ch).1; Tracks(after.inTransaction, after.server)
      {
        StatementKeepsTracking(k, PreResolves(pooler, k), p.inTransaction, p.server, ch.shared);
      }
    } else if k.effect == Chains {
      ChainBreaks(k, pooler);
      if pooler {
        OpeningBreaks(k, pooler);
      } else {
        DirectChainTracks(k);
      }
    } else {
      OpeningBreaks(k, pooler);
      assert !KeepsTracking(k, pooler, false);
    }
  }

  /**
   Such a statement exists: behind a nested comment a `BEGIN` runs on a one-shot connection, and the flag of the idle
   shared one says that it is in a transaction.
   */
  lemma NestedBeginMisleads(b: string)
    requires b == "BEGIN"
    ensures var (outcome, after) :=
              RunOne(KindOf(BehindNested(b)), true, false, Progress(false, false, Idle), Choosing(Works, Works));
            outcome.ok && after.inTransaction && after.server == Idle
  {
    BeginOpens(b);
    NestedCommentMisleads(b, 6);
  }

  /** `exec_query_pooled_txn`, whose guard takes over the request's registry entry and then removes it. */
  method ExecQueryPooledTxn(registry: Registry, id: Option<ReqId>, k: Kind, hasSchema: bool, ch: Choices)
      returns (ok: bool)
    modifies registry
    ensures ok == (ch.connects && PinnedTxn(k, hasSchema, ch.oneShot).0)
    ensures !ch.connects ==> registry.handles == old(registry.handles)
    ensures ch.connects ==> Disarmed(registry.handles, old(registry.handles), id)
  {
    if !ch.connects {
      return false;
    }
    var client := new Connection();
    registry.Register(id, client);
    ok := PinPooledTxn(client, k, hasSchema, ch.oneShot);
    registry.Deregister(id);
  }

  /**
   One turn of the loop, on the shared client or on a one-shot connection; either way the guard is armed again after it.
   */
  method RunStatement(client: Connection, registry: Registry, id: Option<ReqId>, k: Kind, pooler: bool, hasSchema: bool,
                      inTransaction: bool, stateSet: bool, ch: Choices, ghost before: map<ReqId, Connection>)
      returns (outcome: QueryOutcome)
    requires Armed(registry.handles, before, id, client)
    modifies client, registry
    ensures Armed(registry.handles, before, id, client)
    ensures var (o, after) := RunOne(k, pooler, hasSchema, Progress(inTransaction, stateSet, old(client.state)), ch);
            outcome == o && client.state == after.server
  {
    if RunsOneShot(pooler, k, inTransaction, stateSet) {
      registry.Deregister(id);
      var ok := ExecQueryPooledTxn(registry, id, k, hasSchema, ch);
      registry.Register(id, client);
      outcome := QueryOutcome(ok, false);
    } else {
      outcome := ExecQueryOnClient(client, k, PreResolves(pooler, k), inTransaction, ch.shared);
    }
  }

  /** What a whole run does: its results unless it returned early, the flag it replies with, its client's last state. */
  datatype Ended = Ended(results: Option<seq<bool>>, inTransaction: bool, server: ServerState)

  /**
   A run that starts on a client in state `s`: the search path unless the client was pinned, the loop, the disposal.
   */
  function WholeRun(pinned: bool, hasSlot: bool, s: ServerState, ks: seq<Kind>, pooler: bool, hasSchema: bool,
                    path: Fate, undo: Fate, chs: seq<Choices>): Ended
    requires |chs| == |ks|
  {
    var applied := Applied(pinned, hasSchema, s, path);
    if !applied.ok then Ended(None, false, applied.after)
    else
      var (results, after) := RunAll(ks, pooler, hasSchema, Progress(pinned, false, applied.after), chs);
      var server := if after.inTransaction && !hasSlot then Rollback(after.server, undo).after else after.server;
      Ended(Some(results), after.inTransaction, server)
  }

  /** Only a run that pins its client leaves a transaction open on it, and none leaves an aborted one. */
  lemma RunEndsClean(pinned: bool, hasSlot: bool, s: ServerState, ks: seq<Kind>, pooler: bool, hasSchema: bool,
                     path: Fate, undo: Fate, chs: seq<Choices>)
    requires |chs| == |ks| && AllTrackable(ks) && Tracks(pinned, s)
    ensures var end := WholeRun(pinned, hasSlot, s, ks, pooler, hasSchema, path, undo, chs);
            && Tracks(end.inTransaction && hasSlot, end.server)
            && (end.results.Some? ==> |end.results.value| == |ks|)
  {
    var applied := Applied(pinned, hasSchema, s, path);
    if applied.ok {
      BatchTracks(ks, pooler, hasSchema, Progress(pinned, false, applied.after), chs);
    }
  }

  /** The loop over the statements. */
  method RunLoop(client: Connection, registry: Registry, id: Option<ReqId>, ks: seq<Kind>, pooler: bool,
                 hasSchema: bool, chs: seq<Choices>, pinned: bool, ghost before: map<ReqId, Connection>)
      returns (results: seq<bool>, inTransaction: bool)
    requires |chs| == |ks| && Armed(registry.handles, before, id, client)
    modifies client, registry
    ensures Armed(registry.handles, before, id, client)
    ensures var (rs, after) := RunAll(ks, pooler, hasSchema, Progress(pinned, false, old(client.state)), chs);
            results == rs && inTransaction == after.inTransaction && client.state == after.server
  {
    inTransaction := pinned;
    var stateSet := false;
    results := [];
    var i := 0;
    while i < |ks|
      invariant 0 <= i <= |ks|
      invariant Armed(registry.handles, before, id, client)
      invariant (results, Progress(inTransaction, stateSet, client.state))
             == RunAll(ks[..i], pooler, hasSchema, Progress(pinned, false, old(client.state)), chs[..i])
    {
      var outcome :=
          RunStatement(client, registry, id, ks[i], pooler, hasSchema, inTransaction, stateSet, chs[i], before);
      RunAllStep(ks, pooler, hasSchema, Progress(pinned, false, old(client.state)), chs, i);
      inTransaction := InTransactionAfterOutcome(ks[i].effect, outcome, inTransaction);
      if outcome.ok && ks[i].setsState {
        stateSet := true;
      }
      results := results + [outcome.ok];
      i := i + 1;
    }
    assert ks[..i] == ks && chs[..i] == chs;
  }

  /** The search path of a fresh client, on top of its state `s`. */
  function Applied(pinned: bool, hasSchema: bool, s: ServerState, path: Fate): Reply {
    if hasSchema && !pinned then Statement(NoEffect, false, s, path) else Reply(true, s)
  }

  /** The part of a run between acquiring the client and disposing of it; the cancel guard lives exactly that long. */
  method RunOn(client: Connection, registry: Registry, id: Option<ReqId>, ks: seq<Kind>, pooler: bool, hasSchema: bool,
               path: Fate, chs: seq<Choices>, pinned: bool)
      returns (results: Option<seq<bool>>, inTransaction: bool)
    requires |chs| == |ks| && (id.Some? ==> id.value !in registry.handles)
    modifies client, registry
    ensures registry.handles == old(registry.handles)
    ensures var applied := Applied(pinned, hasSchema, old(client.state), path);
            if !applied.ok then results == None && !inTransaction && client.state == applied.after
            else
              var (rs, after) := RunAll(ks, pooler, hasSchema, Progress(pinned, false, applied.after), chs);
              results == Some(rs) && inTransaction == after.inTransaction && client.state == after.server
  {
    ghost var handles := registry.handles;
    registry.Register(id, client);
    if hasSchema && !pinned {
      var applied := client.Send(NoEffect, false, path);
      if !applied {
        registry.Deregister(id);
        return None, false;
      }
    }
    var oks;
    oks, inTransaction := RunLoop(client, registry, id, ks, pooler, hasSchema, chs, pinned, handles);
    registry.Deregister(id);
    results := Some(oks);
  }

  /**
   `run_batch_in_session`. `pooled` is what `get_pool_client` gives if it is asked. `None` results are the early error
   return.
   */
  method RunBatch(slot: Option<Slot>, registry: Registry, id: Option<ReqId>, ks: seq<Kind>, pooler: bool,
                  hasSchema: bool, pooled: Option<Connection>, path: Fate, undo: Fate, chs: seq<Choices>)
      returns (results: Option<seq<bool>>, inTransaction: bool, ghost client: Option<Connection>)
    requires |chs| == |ks|
    requires id.Some? ==> id.value !in registry.handles
    modifies registry
    modifies if slot.Some? then {slot.value} else {}
    modifies if slot.Some? && slot.value.pinned.Some? then {slot.value.pinned.value} else {}
    modifies if pooled.Some? then {pooled.value} else {}
    ensures registry.handles == old(registry.handles)
    ensures client == if slot.Some? && old(slot.value.pinned).Some? then old(slot.value.pinned) else pooled
    ensures slot.Some? ==> slot.value.pinned == if inTransaction then client else None
    ensures client == None ==> results == None && !inTransaction
    ensures client.Some? ==>
              Ended(results, inTransaction, client.value.state)
              == WholeRun(slot.Some? && old(slot.value.pinned).Some?, slot.Some?, old(client.value.state), ks, pooler,
                          hasSchema, path, undo, chs)
  {
    var pinned := None;
    if slot.Some? {
      pinned := slot.value.Take();
    }
    client := if pinned.Some? then pinned else pooled;
    if pinned.None? && pooled.None? {
      return None, false, client;
    }
    var shared := if pinned.Some? then pinned.value else pooled.value;
    results, inTransaction := RunOn(shared, registry, id, ks, pooler, hasSchema, path, chs, pinned.Some?);
    if results.None? {
      return;
    }
    Dispose(slot, shared, inTransaction, undo);
  }

  /** The end of a run: pin the client, or roll it back before it goes to the pool, or just let it go. */
  method Dispose(slot: Option<Slot>, client: Connection, inTransaction: bool, undo: Fate)
    modifies if slot.Some? then {slot.value} else {}
    modifies client
    ensures client.state == if inTransaction && slot.None? then Rollback(old(client.state), undo).after
                            else old(client.state)
    ensures slot.Some? ==> slot.value.pinned == if inTransaction then Some(client) else old(slot.value.pinned)
  {
    if slot.Some? && inTransaction {
      slot.value.Pin(client);
    } else if inTransaction {
      RollbackAndRelease(client, undo);
    }
  }

  // -------------------------------------------------------------------------
  // The single-statement path without a session

  /** `exec_query`: the runner is told there is no transaction, and the client goes back to the pool as it is. */
  method ExecQuery(registry: Registry, id: Option<ReqId>, k: Kind, pooler: bool, hasSchema: bool,
                   pooled: Option<Connection>, path: Fate, ch: Choices)
      returns (ok: bool)
    requires id.Some? ==> id.value !in registry.handles
    modifies registry
    modifies if pooled.Some? then {pooled.value} else {}
    ensures registry.handles == old(registry.handles)
    ensures pooler && k.rows ==> ok == (ch.connects && PinnedTxn(k, hasSchema, ch.oneShot).0)
    ensures pooler && k.rows && pooled.Some? ==> pooled.value.state == old(pooled.value.state)
    ensures !(pooler && k.rows) && pooled.Some? ==>
              var applied := if hasSchema then Statement(NoEffect, false, old(pooled.value.state), path)
                             else Reply(true, old(pooled.value.state));
              var (outcome, after) := ExecOnClient(k, !pooler, false, applied.after, ch.shared);
              Reply(ok, pooled.value.state) == if applied.ok then Reply(outcome.ok, after) else applied
  {
    if pooler && k.rows {
      ok := ExecQueryPooledTxn(registry, id, k, hasSchema, ch);
      return;
    }
    if pooled.None? {
      return false;
    }
    var client := pooled.value;
    registry.Register(id, client);
    if hasSchema {
      var applied := client.Send(NoEffect, false, path);
      if !applied {
        registry.Deregister(id);
        return false;
      }
    }
    var outcome := ExecQueryOnClient(client, k, !pooler, false, ch.shared);
    registry.Deregister(id);
    ok := outcome.ok;
  }

  /**
   Without a session a single statement hands a clean client back clean under every fate, if and only if it is not a
   `BEGIN`.
   */
  lemma SingleStatementClean(k: Kind, preResolve: bool)
    ensures (forall f: Fates :: Tracks(false, ExecOnClient(k, preResolve, false, Idle, f).1)) <==> k.effect != Opens
  {
    if k.effect == Opens {
      var f := Fates(Works, Works, Works, Works, false);
      assert !Tracks(false, ExecOnClient(k, preResolve, false, Idle, f).1);
    } else {
      forall f: Fates ensures Tracks(false, ExecOnClient(k, preResolve, false, Idle, f).1) {
      }
    }
  }
}

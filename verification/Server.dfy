/**
 The server side of one connection, and the statement runner of src/handlers/query.rs over it.

 A request's `Fate` is the server's free choice; every claim is for all fates. Assumed of PostgreSQL:
 a failed end-of-transaction statement has ended the transaction, and `ROLLBACK` fails only on a dead
 connection.
 */
module Server {
  import opened Text
  import opened Keywords
  import opened Comments

  datatype ServerState = Idle | InTxn | Aborted | Closed

  /**
   How a request ends: it works, the server answers ERROR, only the client fails (a decode error or a timeout), or the
   connection dies.
   */
  datatype Fate = Works | Refused | ClientFails | Dies

  datatype Reply = Reply(ok: bool, after: ServerState)

  /** The state after the server accepted a statement. `Chains` outside a transaction is never accepted. */
  function Accepted(effect: Effect, s: ServerState): ServerState {
    match effect {
      case Opens => InTxn
      case Closes => Idle
      case Chains => InTxn
      case NoEffect => s
    }
  }

  /** The state after the server answered ERROR. */
  function Rejected(effect: Effect, s: ServerState): ServerState {
    if s == InTxn then (if effect == Closes || effect == Chains then Idle else Aborted) else s
  }

  /** A statement run with the unnamed protocol; only one that returns rows can fail on the client side alone. */
  function Statement(effect: Effect, rows: bool, s: ServerState, fate: Fate): Reply {
    if s == Closed || fate == Dies then Reply(false, Closed)
    else if s == Aborted then
      if effect != Closes && effect != Chains then Reply(false, Aborted)
      else if fate == Works then Reply(true, Accepted(effect, s)) else Reply(false, Idle)
    else if fate == Refused || (effect == Chains && s == Idle) then Reply(false, Rejected(effect, s))
    else Reply(fate == Works || !rows, Accepted(effect, s))
  }

  /** `prepare`: parses and describes without running. */
  function Prepare(s: ServerState, fate: Fate): Reply {
    if s == Closed || fate == Dies then Reply(false, Closed)
    else if s == Aborted then Reply(false, Aborted)
    else if fate == Works then Reply(true, s)
    else Reply(false, if fate == Refused then Rejected(NoEffect, s) else s)
  }

  function Rollback(s: ServerState, fate: Fate): Reply {
    if s == Closed || fate == Dies then Reply(false, Closed) else Reply(true, Idle)
  }

  /** All that the runner and the batch loop read from a statement's text. */
  datatype Kind = Kind(effect: Effect, rows: bool, setsState: bool)

  function KindOf(query: string): Kind {
    Kind(TransactionEffect(query), ReturnsResultSet(query), SetsSessionLocalState(query))
  }

  /** A row-returning statement is not transaction control and sets no session state. */
  predicate Separated(k: Kind) {
    k.rows ==> k.effect == NoEffect && !k.setsState
  }

  /** A row-returning statement does not leave a transaction open. */
  predicate Trackable(k: Kind) {
    k.rows ==> k.effect != Opens && k.effect != Chains
  }

  /** A row-returning statement ends a transaction, or is no transaction control and sets no session state. */
  predicate Routable(k: Kind) {
    k.rows ==> k.effect == Closes || (k.effect == NoEffect && !k.setsState)
  }

  /** Statements whose leading comments do not nest are separated, hence fit for what is claimed of batches. */
  lemma PlainIsSeparated(query: string)
    requires PlainLeading(query)
    ensures Separated(KindOf(query)) && Trackable(KindOf(query)) && Routable(KindOf(query))
  {
    if ReturnsResultSet(query) {
      RowsAreNotControl(query);
    }
  }

  // -------------------------------------------------------------------------
  // exec_query_on_client

  /** The fates of the requests one statement may send, and whether its row set is empty. */
  datatype Fates = Fates(prepare: Fate, run: Fate, undo: Fate, discover: Fate, empty: bool)

  datatype QueryOutcome = QueryOutcome(ok: bool, txnAborted: bool)

  /** `error_aborts_open_txn_inner`, and the gate on the statement's own effect. */
  predicate ErrorAborts(k: Kind, inTransaction: bool) {
    inTransaction && k.effect != Closes && k.effect != Chains
  }

  class Connection {
    var state: ServerState

    constructor ()
      ensures state == Idle
    {
      state := Idle;
    }

    method Send(effect: Effect, rows: bool, fate: Fate) returns (ok: bool)
      modifies this
      ensures Reply(ok, state) == Statement(effect, rows, old(state), fate)
    {
      var reply := Statement(effect, rows, state, fate);
      ok, state := reply.ok, reply.after;
    }

    method SendPrepare(fate: Fate) returns (ok: bool)
      modifies this
      ensures Reply(ok, state) == Prepare(old(state), fate)
    {
      var reply := Prepare(state, fate);
      ok, state := reply.ok, reply.after;
    }

    method SendRollback(fate: Fate)
      modifies this
      ensures state == Rollback(old(state), fate).after
    {
      state := Rollback(state, fate).after;
    }
  }

  /** `txn_aborted` after the statement itself failed or not, and the state its best-effort ROLLBACK leaves. */
  function Settle(k: Kind, inTransaction: bool, reply: Reply, undo: Fate): (QueryOutcome, ServerState) {
    if !reply.ok && ErrorAborts(k, inTransaction)
    then (QueryOutcome(false, true), Rollback(reply.after, undo).after)
    else (QueryOutcome(reply.ok, false), reply.after)
  }

  /** What running a statement of kind `k` on a connection in state `s` answers and leaves behind. */
  function ExecOnClient(k: Kind, preResolve: bool, inTransaction: bool, s: ServerState, f: Fates)
      : (QueryOutcome, ServerState)
  {
    var effect := k.effect;
    if !k.rows then
      Settle(k, inTransaction, Statement(effect, false, s, f.run), f.undo)
    else
      var resolved := if preResolve then Prepare(s, f.prepare) else Reply(true, s);
      if !resolved.ok && inTransaction then
        (QueryOutcome(false, true), Rollback(resolved.after, f.undo).after)
      else
        var reply := Statement(effect, true, resolved.after, f.run);
        if reply.ok && f.empty && preResolve && !resolved.ok
        then (QueryOutcome(true, false), Prepare(reply.after, f.discover).after)
        else Settle(k, inTransaction, reply, f.undo)
  }

  /** `exec_query_on_client`: the same requests, sent one after the other on `conn`. */
  method ExecQueryOnClient(conn: Connection, k: Kind, preResolve: bool, inTransaction: bool, f: Fates)
      returns (outcome: QueryOutcome)
    modifies conn
    ensures (outcome, conn.state) == ExecOnClient(k, preResolve, inTransaction, old(conn.state), f)
  {
    var effect := k.effect;
    if !k.rows {
      var affected := conn.Send(effect, false, f.run);
      var txnAborted := !affected && ErrorAborts(k, inTransaction);
      if txnAborted {
        conn.SendRollback(f.undo);
      }
      return QueryOutcome(affected, txnAborted);
    }
    var prepareFailed := false;
    if preResolve {
      var prepared := conn.SendPrepare(f.prepare);
      prepareFailed := !prepared;
    }
    if prepareFailed && inTransaction {
      conn.SendRollback(f.undo);
      return QueryOutcome(false, true);
    }
    var rows := conn.Send(effect, true, f.run);
    if !rows {
      var txnAborted := ErrorAborts(k, inTransaction);
      if txnAborted {
        conn.SendRollback(f.undo);
      }
      return QueryOutcome(false, txnAborted);
    }
    if f.empty && preResolve && prepareFailed {
      var _ := conn.SendPrepare(f.discover);
    }
    return QueryOutcome(true, false);
  }

  // -------------------------------------------------------------------------
  // Tracking

  /** `TransactionEffect::in_transaction_after`. */
  function InTransactionAfter(effect: Effect, succeeded: bool, before: bool): bool {
    match (effect, succeeded) {
      case (Opens, true) => true
      case (Chains, true) => true
      case (Closes, _) => false
      case (Chains, false) => false
      case _ => before
    }
  }

  function InTransactionAfterOutcome(effect: Effect, outcome: QueryOutcome, before: bool): bool {
    if outcome.txnAborted then false else InTransactionAfter(effect, outcome.ok, before)
  }

  /** The loop's two flags after a statement: the transaction's, and that session state was set, which sticks. */
  function FlagsAfter(k: Kind, outcome: QueryOutcome, inTransaction: bool, stateSet: bool): (bool, bool) {
    (InTransactionAfterOutcome(k.effect, outcome, inTransaction), stateSet || (outcome.ok && k.setsState))
  }

  /** The flag is the server's transaction state, unless the connection is dead; it is never an aborted transaction. */
  predicate Tracks(inTransaction: bool, s: ServerState) {
    s == Closed || s == if inTransaction then InTxn else Idle
  }

  /**
   Whatever one statement meets (success, a failed prepare, a runtime error, a failed COMMIT), the flag computed after
   it is right.
   */
  lemma StatementKeepsTracking(k: Kind, preResolve: bool, inTransaction: bool, s: ServerState, f: Fates)
    requires Tracks(inTransaction, s) && Trackable(k)
    ensures var (outcome, after) := ExecOnClient(k, preResolve, inTransaction, s, f);
            Tracks(InTransactionAfterOutcome(k.effect, outcome, inTransaction), after)
  {
  }

  // -------------------------------------------------------------------------
  // The one-shot transaction

  datatype PinFates = PinFates(begin: Fate, clear: Fate, path: Fate, prepare: Fate, body: Fates, clearAgain: Fate,
                               end: Fate)

  /** `run_pinned_body` from state `s`: clear, set the path, prepare, fetch, clear again. */
  function PinnedBody(k: Kind, hasSchema: bool, s: ServerState, f: PinFates): (bool, ServerState) {
    var clear := Statement(NoEffect, false, s, f.clear);
    var path := if hasSchema && clear.ok then Statement(NoEffect, false, clear.after, f.path) else clear;
    var prepared := if path.ok then Prepare(path.after, f.prepare) else path;
    if !prepared.ok then (false, prepared.after)
    else
      var (outcome, after) := ExecOnClient(k, false, true, prepared.after, f.body);
      (outcome.ok, Statement(NoEffect, false, after, f.clearAgain).after)
  }

  /** `pin_pooled_txn` on a fresh connection: the body between BEGIN and COMMIT or ROLLBACK. */
  function PinnedTxn(k: Kind, hasSchema: bool, f: PinFates): (bool, ServerState) {
    var begun := Statement(Opens, false, Idle, f.begin);
    if !begun.ok then (false, begun.after)
    else
      var (ok, after) := PinnedBody(k, hasSchema, begun.after, f);
      if ok then
        var committed := Statement(Closes, false, after, f.end);
        (committed.ok, committed.after)
      else (false, Rollback(after, f.end).after)
  }

  method PinPooledTxn(conn: Connection, k: Kind, hasSchema: bool, f: PinFates) returns (ok: bool)
    requires conn.state == Idle
    modifies conn
    ensures (ok, conn.state) == PinnedTxn(k, hasSchema, f)
  {
    var begun := conn.Send(Opens, false, f.begin);
    if !begun {
      return false;
    }
    ok := RunPinnedBody(conn, k, hasSchema, f);
    if ok {
      ok := conn.Send(Closes, false, f.end);
    } else {
      conn.SendRollback(f.end);
    }
  }

  method RunPinnedBody(conn: Connection, k: Kind, hasSchema: bool, f: PinFates) returns (ok: bool)
    modifies conn
    ensures (ok, conn.state) == PinnedBody(k, hasSchema, old(conn.state), f)
  {
    ok := conn.Send(NoEffect, false, f.clear);
    if !ok {
      return;
    }
    if hasSchema {
      ok := conn.Send(NoEffect, false, f.path);
      if !ok {
        return;
      }
    }
    ok := conn.SendPrepare(f.prepare);
    if !ok {
      return;
    }
    var outcome := ExecQueryOnClient(conn, k, false, true, f.body);
    var _ := conn.Send(NoEffect, false, f.clearAgain);
    ok := outcome.ok;
  }

  /** A one-shot transaction never stays open, and reports success only if its statement worked on the server. */
  lemma OneShotEnds(k: Kind, hasSchema: bool, f: PinFates)
    requires k.rows
    ensures var (ok, after) := PinnedTxn(k, hasSchema, f);
            && (after == Idle || after == Closed)
            && (ok ==> after == Idle && f.prepare == Works && f.body.run == Works)
  {
    var begun := Statement(Opens, false, Idle, f.begin);
    var (ok, after) := PinnedBody(k, hasSchema, begun.after, f);
    if begun.ok && ok {
      assert begun.after == InTxn;
      assert f.body.run == Works && f.prepare == Works;
    }
  }

  /** A request that returns no rows gets through. */
  predicate Through(fate: Fate) {
    fate == Works || fate == ClientFails
  }

  /**
   An ordinary row-returning statement succeeds in its one-shot transaction if and only if every request it depends on
   does: BEGIN, the clearing, the search path if there is a schema, the `prepare`, the fetch and the COMMIT.
   */
  lemma OneShotExactly(k: Kind, hasSchema: bool, f: PinFates)
    requires k.rows && k.effect == NoEffect
    ensures PinnedTxn(k, hasSchema, f).0
            <==> Through(f.begin) && Through(f.clear) && (hasSchema ==> Through(f.path)) && f.prepare == Works
                 && f.body.run == Works && f.clearAgain != Dies
                 && (if f.clearAgain == Refused then f.end == Works else Through(f.end))
  {
    var begun := Statement(Opens, false, Idle, f.begin);
    if begun.ok {
      PinnedBodyExactly(k, hasSchema, f);
    }
  }

  lemma PinnedBodyExactly(k: Kind, hasSchema: bool, f: PinFates)
    requires k.rows && k.effect == NoEffect
    ensures var (ok, after) := PinnedBody(k, hasSchema, InTxn, f);
            && (ok <==> (Through(f.clear) && (hasSchema ==> Through(f.path)) && f.prepare == Works
                         && f.body.run == Works))
            && (ok ==>
                  after == if f.clearAgain == Dies then Closed else if f.clearAgain == Refused then Aborted else InTxn)
  {
  }

  /** Inside a transaction a failed `prepare` ends the statement, which never runs; outside, it runs all the same. */
  lemma PrepareGates(k: Kind, inTransaction: bool, f: Fates)
    requires k.rows && f.prepare != Works && f.prepare != Dies
    ensures inTransaction ==>
              var (outcome, after) := ExecOnClient(k, true, true, InTxn, f);
              outcome == QueryOutcome(false, true) && after == (if f.undo == Dies then Closed else Idle)
    ensures k.effect == NoEffect ==> (ExecOnClient(k, true, false, Idle, f).0.ok <==> f.run == Works)
    ensures k.effect == NoEffect && f.prepare == Works ==>
              (ExecOnClient(k, true, inTransaction, if inTransaction then InTxn else Idle, f).0.ok <==> f.run == Works)
  {
  }

  // -------------------------------------------------------------------------
  // Routing of one statement inside a batch

  /** The statement goes to a one-shot connection instead of the batch's shared one. */
  predicate RunsOneShot(pooler: bool, k: Kind, inTransaction: bool, stateSet: bool) {
    pooler && k.rows && !(inTransaction || stateSet)
  }

  /** The `pre_resolve_types` argument of the two shared-client calls. */
  predicate PreResolves(pooler: bool, k: Kind) {
    if pooler && k.rows then true else !pooler
  }
}

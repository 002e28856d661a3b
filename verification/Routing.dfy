/**
 Where a batch's statements run, against the machine that runs all of them on one connection.

 PostgreSQL is any `Sql`: what a statement answers and does to the committed data and the session state.
 Failures here are the server's own, decided by what the statement sees.
 */
module Routing {
  import opened Text
  import opened Keywords
  import opened Comments
  import opened Server
  import Batch

  datatype Answer<D, S, R> = Answer(ok: bool, rows: R, data: D, session: S)

  /**
   The meaning of statements; of a successful end-of-transaction statement, whether it commits; the session state under
   the request's schema.
   */
  datatype Sql<!D, !S, !R> = Sql(exec: (string, D, S) -> Answer<D, S, R>, commits: string -> bool, clean: S)

  /** The data, one connection's session state, and both as they were when its open transaction began. */
  datatype World<D, S> = World(data: D, session: S, saved: Option<(D, S)>)

  datatype Step<D, S, R> = Step(ok: bool, rows: R, world: World<D, S>)

  /** A statement on a connection. Failing is atomic, and inside a transaction the runner rolls back at once. */
  function RunHere<D, S, R>(sql: Sql<D, S, R>, q: string, w: World<D, S>): Step<D, S, R> {
    var a := sql.exec(q, w.data, w.session);
    var before := if w.saved.Some? then w.saved.value else (w.data, w.session);
    match TransactionEffect(q) {
      case Opens =>
        Step(a.ok, a.rows,
             if !a.ok then World(before.0, before.1, None)
             else if w.saved.Some? then w
             else w.(saved := Some((w.data, w.session))))
      case Closes =>
        Step(a.ok, a.rows, if a.ok && sql.commits(q) then w.(saved := None) else World(before.0, before.1, None))
      case Chains =>
        if w.saved.None? then Step(false, a.rows, w)
        else if !a.ok then Step(false, a.rows, World(before.0, before.1, None))
        else if sql.commits(q) then Step(true, a.rows, w.(saved := Some((w.data, w.session))))
        else Step(true, a.rows, World(before.0, before.1, Some(before)))
      case NoEffect =>
        Step(a.ok, a.rows, if a.ok then World(a.data, a.session, w.saved) else World(before.0, before.1, None))
    }
  }

  /**
   The statement in its own transaction on a fresh connection, whose session state goes away with it. Transaction
   control has only that transaction to act on.
   */
  function RunElsewhere<D, S, R>(sql: Sql<D, S, R>, q: string, w: World<D, S>): Step<D, S, R> {
    var a := sql.exec(q, w.data, sql.clean);
    Step(a.ok, a.rows, if a.ok && TransactionEffect(q) == NoEffect then w.(data := a.data) else w)
  }

  /** The flags as `run_batch_in_session` keeps them. A failure inside a transaction is the runner's `txn_aborted`. */
  function Flags(q: string, ok: bool, inTransaction: bool, stateSet: bool): (bool, bool) {
    var k := KindOf(q);
    FlagsAfter(k, QueryOutcome(ok, !ok && ErrorAborts(k, inTransaction)), inTransaction, stateSet)
  }

  /** The plugin's loop: each statement here or elsewhere as the flags say. */
  function Routed<D, S, R>(sql: Sql<D, S, R>, pooler: bool, qs: seq<string>, w: World<D, S>, inTransaction: bool,
                           stateSet: bool)
      : (seq<(bool, R)>, World<D, S>)
    decreases |qs|
  {
    if qs == [] then ([], w)
    else
      var step := if RunsOneShot(pooler, KindOf(qs[0]), inTransaction, stateSet) then RunElsewhere(sql, qs[0], w)
                  else RunHere(sql, qs[0], w);
      var (inTxn, set_) := Flags(qs[0], step.ok, inTransaction, stateSet);
      var (rest, end) := Routed(sql, pooler, qs[1..], step.world, inTxn, set_);
      ([(step.ok, step.rows)] + rest, end)
  }

  /** The simple machine: every statement on the one connection. */
  function OnOneConnection<D, S, R>(sql: Sql<D, S, R>, qs: seq<string>, w: World<D, S>): (seq<(bool, R)>, World<D, S>)
    decreases |qs|
  {
    if qs == [] then ([], w)
    else
      var step := RunHere(sql, qs[0], w);
      var (rest, end) := OnOneConnection(sql, qs[1..], step.world);
      ([(step.ok, step.rows)] + rest, end)
  }

  /** Session state comes only from the classified statements. */
  ghost predicate OnlyClassifiedSet<D(!new), S(!new), R(!new)>(sql: Sql<D, S, R>) {
    forall q: string, d: D, s: S :: !SetsSessionLocalState(q) && sql.exec(q, d, s).ok ==> sql.exec(q, d, s).session == s
  }

  /** The connection's session state, inside and outside its transaction, is that of a fresh connection. */
  predicate Pristine<D, S(==), R>(sql: Sql<D, S, R>, w: World<D, S>) {
    w.session == sql.clean && (w.saved.Some? ==> w.saved.value.1 == sql.clean)
  }

  predicate EachRoutable(qs: seq<string>) {
    forall i :: 0 <= i < |qs| ==> Routable(KindOf(qs[i]))
  }

  lemma FlagFollows<D(!new), S(!new), R(!new)>(sql: Sql<D, S, R>, q: string, w: World<D, S>, stateSet: bool)
    requires OnlyClassifiedSet(sql)
    ensures var step := RunHere(sql, q, w);
            var (inTxn, set_) := Flags(q, step.ok, w.saved.Some?, stateSet);
            && (inTxn <==> step.world.saved.Some?)
            && (!set_ && Pristine(sql, w) ==> Pristine(sql, step.world))
  {
  }

  lemma ElsewhereIsHere<D(!new), S(!new), R(!new)>(sql: Sql<D, S, R>, q: string, w: World<D, S>)
    requires ReturnsResultSet(q) && Routable(KindOf(q)) && OnlyClassifiedSet(sql)
    requires w.saved.None? && w.session == sql.clean
    ensures RunElsewhere(sql, q, w) == RunHere(sql, q, w)
  {
    assert TransactionEffect(q) == NoEffect ==> !SetsSessionLocalState(q);
  }

  /** From a pristine connection, routing is invisible: same answers, same data, same session, same open transaction. */
  lemma {:induction false} RoutingRefines<D(!new), S(!new), R(!new)>(
      sql: Sql<D, S, R>, pooler: bool, qs: seq<string>, w: World<D, S>, stateSet: bool)
    requires OnlyClassifiedSet(sql) && EachRoutable(qs)
    requires stateSet || Pristine(sql, w)
    ensures Routed(sql, pooler, qs, w, w.saved.Some?, stateSet) == OnOneConnection(sql, qs, w)
    decreases |qs|
  {
    if qs != [] {
      if RunsOneShot(pooler, KindOf(qs[0]), w.saved.Some?, stateSet) {
        ElsewhereIsHere(sql, qs[0], w);
      }
      FlagFollows(sql, qs[0], w, stateSet);
      var step := RunHere(sql, qs[0], w);
      var set_ := Flags(qs[0], step.ok, w.saved.Some?, stateSet).1;
      RoutingRefines(sql, pooler, qs[1..], step.world, set_);
    }
  }

  // -------------------------------------------------------------------------
  // The routed machine is the batch loop

  /** The outside's choices under which a statement ends like this. */
  function Choose(ok: bool): Batch.Choices {
    var works := Fates(Works, Works, Works, Works, false);
    Batch.Choices(works.(run := if ok then Works else Refused), true,
                  PinFates(if ok then Works else Refused, Works, Works, Works, works, Works, Works))
  }

  function ServerOf<D, S>(w: World<D, S>): ServerState {
    if w.saved.Some? then InTxn else Idle
  }

  function StepOf<D, S, R>(sql: Sql<D, S, R>, pooler: bool, q: string, w: World<D, S>, stateSet: bool): Step<D, S, R> {
    if RunsOneShot(pooler, KindOf(q), w.saved.Some?, stateSet) then RunElsewhere(sql, q, w) else RunHere(sql, q, w)
  }

  function ProgressAt<D, S>(w: World<D, S>, stateSet: bool): Batch.Progress {
    Batch.Progress(w.saved.Some?, stateSet, ServerOf(w))
  }

  /** One step of the machine is one turn of the loop: result, both flags and the connection's transaction. */
  lemma StepIsTurn<D, S, R>(sql: Sql<D, S, R>, pooler: bool, hasSchema: bool, q: string, w: World<D, S>, stateSet: bool)
    requires Routable(KindOf(q))
    ensures var step := StepOf(sql, pooler, q, w, stateSet);
            var p := ProgressAt(w, stateSet);
            var (outcome, after) := Batch.RunOne(KindOf(q), pooler, hasSchema, p, Choose(step.ok));
            && outcome.ok == step.ok
            && after == ProgressAt(step.world, Flags(q, step.ok, w.saved.Some?, stateSet).1)
            && after.inTransaction == Flags(q, step.ok, w.saved.Some?, stateSet).0
  {
    if !RunsOneShot(pooler, KindOf(q), w.saved.Some?, stateSet) {
      HereIsShared(sql, PreResolves(pooler, KindOf(q)), q, w);
    }
  }

  lemma HereIsShared<D, S, R>(sql: Sql<D, S, R>, preResolve: bool, q: string, w: World<D, S>)
    ensures var step, k := RunHere(sql, q, w), KindOf(q);
            var (outcome, after) := ExecOnClient(k, preResolve, w.saved.Some?, ServerOf(w), Choose(step.ok).shared);
            && outcome == QueryOutcome(step.ok, !step.ok && ErrorAborts(k, w.saved.Some?))
            && after == ServerOf(step.world)
            && InTransactionAfterOutcome(k.effect, outcome, w.saved.Some?) == step.world.saved.Some?
  {
  }

  function KindsOf(qs: seq<string>): (ks: seq<Kind>)
    ensures |ks| == |qs|
  {
    if qs == [] then [] else [KindOf(qs[0])] + KindsOf(qs[1..])
  }

  function Results<R>(answers: seq<(bool, R)>): (oks: seq<bool>)
    ensures |oks| == |answers|
  {
    if answers == [] then [] else [answers[0].0] + Results(answers[1..])
  }

  /** The choices under which the loop runs as this server answers. */
  function ChoicesOf<D, S, R>(sql: Sql<D, S, R>, pooler: bool, qs: seq<string>, w: World<D, S>, stateSet: bool)
      : (chs: seq<Batch.Choices>)
    ensures |chs| == |qs|
    decreases |qs|
  {
    if qs == [] then []
    else
      var step := StepOf(sql, pooler, qs[0], w, stateSet);
      var set_ := Flags(qs[0], step.ok, w.saved.Some?, stateSet).1;
      [Choose(step.ok)] + ChoicesOf(sql, pooler, qs[1..], step.world, set_)
  }

  /** So on every server the routed batch is the batch loop: its results, its flags and where its connection ends. */
  lemma {:induction false} RoutedIsRunAll<D, S, R>(
      sql: Sql<D, S, R>, pooler: bool, hasSchema: bool, qs: seq<string>, w: World<D, S>, stateSet: bool)
    requires EachRoutable(qs)
    ensures var (answers, end) := Routed(sql, pooler, qs, w, w.saved.Some?, stateSet);
            var chs := ChoicesOf(sql, pooler, qs, w, stateSet);
            var (results, after) := Batch.RunAll(KindsOf(qs), pooler, hasSchema, ProgressAt(w, stateSet), chs);
            results == Results(answers) && after == ProgressAt(end, after.stateSet)
    decreases |qs|
  {
    if qs != [] {
      var q := qs[0];
      var step := StepOf(sql, pooler, q, w, stateSet);
      var set_ := Flags(q, step.ok, w.saved.Some?, stateSet).1;
      StepIsTurn(sql, pooler, hasSchema, q, w, stateSet);
      RoutedIsRunAll(sql, pooler, hasSchema, qs[1..], step.world, set_);
      Batch.RunAllFirst(KindOf(q), KindsOf(qs[1..]), pooler, hasSchema, ProgressAt(w, stateSet), Choose(step.ok),
                        ChoicesOf(sql, pooler, qs[1..], step.world, set_));
      var (answers, end) := Routed(sql, pooler, qs[1..], step.world, step.world.saved.Some?, set_);
      FirstResult((step.ok, step.rows), answers);
    }
  }

  lemma FirstResult<R>(first: (bool, R), answers: seq<(bool, R)>)
    ensures Results([first] + answers) == [first.0] + Results(answers)
  {
    assert ([first] + answers)[1..] == answers;
  }

  // -------------------------------------------------------------------------
  // Which connections: exactly the pristine ones

  /**
   On every server whose session state comes only from the classified statements, a pooler batch from `w` runs as on one
   connection.
   */
  ghost predicate Invisible<D(!new), S(!new)>(clean: S, w: World<D, S>) {
    forall sql: Sql<D, S, S>, qs: seq<string> ::
      sql.clean == clean && OnlyClassifiedSet(sql) && EachRoutable(qs)
      ==> Routed(sql, true, qs, w, w.saved.Some?, false) == OnOneConnection(sql, qs, w)
  }

  lemma CommitCloses(w: string)
    requires w == "COMMIT"
    ensures KindOf(w) == Kind(Closes, false, false)
  {
    SoleWord(w, 6);
    ControlNeedsVerb(w);
    PlainIsSeparated(w);
  }

  lemma SelectReturnsRows(w: string)
    requires w == "SELECT"
    ensures KindOf(w) == Kind(NoEffect, true, false)
  {
    SoleWord(w, 6);
    assert StartsWith(w, ROW_KEYWORDS[0]);
    PlainIsSeparated(w);
  }

  /** A server whose statements change nothing and show the session state; `COMMIT` keeps the transaction if `keeps`. */
  function Showing<D, S>(clean: S, keeps: bool): Sql<D, S, S> {
    Sql((_, d, s) => Answer(true, s, d, s), _ => keeps, clean)
  }

  lemma SelectDiffers<D, S(!new)>(sql: Sql<D, S, S>, w: World<D, S>, select: string)
    requires sql == Showing(sql.clean, sql.commits("")) && w.saved.None? && w.session != sql.clean
    requires KindOf(select) == Kind(NoEffect, true, false)
    ensures Routed(sql, true, [select], w, false, false).0 != OnOneConnection(sql, [select], w).0
  {
    var qs := [select];
    assert Routed(sql, true, qs, w, false, false).0[0] == (true, sql.clean);
    assert OnOneConnection(sql, qs, w).0[0] == (true, w.session);
  }

  lemma CommitThenSelectDiffers<D, S(!new)>(sql: Sql<D, S, S>, w: World<D, S>, commit: string, select: string)
    requires sql == Showing(sql.clean, w.session != sql.clean) && w.saved.Some?
    requires w.session != sql.clean || w.saved.value.1 != sql.clean
    requires KindOf(commit) == Kind(Closes, false, false) && KindOf(select) == Kind(NoEffect, true, false)
    ensures Routed(sql, true, [commit, select], w, true, false) != OnOneConnection(sql, [commit, select], w)
  {
    var qs := [commit, select];
    var after := RunHere(sql, commit, w).world;
    SelectDiffers(sql, after, select);
    assert qs[1..] == [select];
    assert Routed(sql, true, qs, w, true, false).0[1..] == Routed(sql, true, [select], after, false, false).0;
    assert OnOneConnection(sql, qs, w).0[1..] == OnOneConnection(sql, [select], after).0;
  }

  /** A row-returning statement goes to a fresh connection although a `SET` of an earlier run is in force. */
  lemma UncleanIsSeen<D(!new), S(!new)>(clean: S, w: World<D, S>, commit: string, select: string)
    requires w.session != clean || (w.saved.Some? && w.saved.value.1 != clean)
    requires KindOf(commit) == Kind(Closes, false, false) && KindOf(select) == Kind(NoEffect, true, false)
    ensures !Invisible(clean, w)
  {
    var sql: Sql<D, S, S> := Showing(clean, w.session != clean);
    assert OnlyClassifiedSet(sql);
    if w.saved.None? {
      SelectDiffers(sql, w, select);
      assert EachRoutable([select]);
    } else {
      CommitThenSelectDiffers(sql, w, commit, select);
      assert EachRoutable([commit, select]);
    }
  }

  /** Routing is invisible from exactly the pristine connections. */
  lemma RoutingExact<D(!new), S(!new)>(clean: S, w: World<D, S>)
    ensures Invisible(clean, w) <==> w.session == clean && (w.saved.Some? ==> w.saved.value.1 == clean)
  {
    if w.session == clean && (w.saved.Some? ==> w.saved.value.1 == clean) {
      forall sql: Sql<D, S, S>, qs: seq<string>
        | sql.clean == clean && OnlyClassifiedSet(sql) && EachRoutable(qs)
        ensures Routed(sql, true, qs, w, w.saved.Some?, false) == OnOneConnection(sql, qs, w)
      {
        RoutingRefines(sql, true, qs, w, false);
      }
    } else {
      CommitCloses("COMMIT");
      SelectReturnsRows("SELECT");
      UncleanIsSeen(clean, w, "COMMIT", "SELECT");
    }
  }

  // -------------------------------------------------------------------------
  // Which statements: exactly the routable ones

  /**
   On every server and from every pristine connection, a pooler batch of `q` and routable statements runs as on one.
   */
  ghost predicate RoutesInvisibly(q: string) {
    forall sql: Sql<bool, bool, bool>, qs: seq<string>, w: World<bool, bool> ::
      OnlyClassifiedSet(sql) && Pristine(sql, w)
      && (forall i :: 0 <= i < |qs| ==> qs[i] == q || Routable(KindOf(qs[i])))
      ==> Routed(sql, true, qs, w, w.saved.Some?, false) == OnOneConnection(sql, qs, w)
  }

  /** A server whose classified statements turn the session state around. */
  function Turning(): Sql<bool, bool, bool> {
    Sql((q, d, s) => Answer(true, s, d, if SetsSessionLocalState(q) then !s else s), _ => true, false)
  }

  lemma RoutedOnce<D, S, R>(sql: Sql<D, S, R>, q: string, w: World<D, S>)
    requires ReturnsResultSet(q) && w.saved.None?
    ensures var (results, end) := Routed(sql, true, [q], w, false, false);
            var step := RunElsewhere(sql, q, w);
            results != [] && results[0] == (step.ok, step.rows) && end == step.world
    ensures var (results, end) := OnOneConnection(sql, [q], w);
            var step := RunHere(sql, q, w);
            results != [] && results[0] == (step.ok, step.rows) && end == step.world
  {
    var qs := [q];
    assert RunsOneShot(true, KindOf(qs[0]), false, false);
    assert qs[1..] == [];
  }

  lemma UnroutableIsSeen(q: string)
    requires !Routable(KindOf(q))
    ensures !RoutesInvisibly(q)
  {
    var sql, w := Turning(), World(false, false, None);
    assert OnlyClassifiedSet(sql) && Pristine(sql, w);
    RoutedOnce(sql, q, w);
    assert RunElsewhere(sql, q, w) != RunHere(sql, q, w);
    assert Routed(sql, true, [q], w, w.saved.Some?, false) != OnOneConnection(sql, [q], w);
  }

  /**
   A statement can stand in every batch without the routing being seen if and only if it is routable: it returns no
   rows, or it ends a transaction, or it is no transaction control and sets no session state.
   */
  lemma RoutableExactly(q: string)
    ensures RoutesInvisibly(q) <==> Routable(KindOf(q))
  {
    if Routable(KindOf(q)) {
      forall sql: Sql<bool, bool, bool>, qs: seq<string>, w: World<bool, bool>
        | OnlyClassifiedSet(sql) && Pristine(sql, w)
          && (forall i :: 0 <= i < |qs| ==> qs[i] == q || Routable(KindOf(qs[i])))
        ensures Routed(sql, true, qs, w, w.saved.Some?, false) == OnOneConnection(sql, qs, w)
      {
        RoutingRefines(sql, true, qs, w, false);
      }
    } else {
      UnroutableIsSeen(q);
    }
  }
}

/** A run of the protocol, whatever runs beside it, is the batch loop of src/handlers/query.rs on its own. */
module Interleaving {
  import opened Text
  import opened Keywords
  import opened Server
  import opened Protocol
  import opened Invariant
  import opened Frames
  import Preservation
  import Safety
  import Batch

  // -------------------------------------------------------------------------
  // The loop

  /** A statement that has begun goes where the loop routes it. */
  predicate Routed(task: Task) {
    && (task.pc == Executing ==> task.todo != [] && !GoesOneShot(task))
    && (task.pc == Handover || task.pc == OneShot ==> task.todo != [] && GoesOneShot(task))
  }

  /** The run is inside the loop over its statements. */
  predicate InLoop(s: State, t: TaskId) {
    && HasClient(s, t) && s.tasks[t].job == RunJob && Routed(s.tasks[t])
    && s.tasks[t].pc in {Ready, Executing, Handover, OneShot, Rearming}
  }

  /** Where the loop stands, or as far as a client tells that has died since. */
  predicate Mimics(a: Batch.Progress, p: Batch.Progress) {
    a.inTransaction == p.inTransaction && a.stateSet == p.stateSet && (a.server == p.server || a.server == Closed)
  }

  /** The loop finds out that the client is dead by the next request on it. */
  function Dead(ch: Batch.Choices): Batch.Choices {
    ch.(shared := Fates(Dies, Dies, Dies, Dies, ch.shared.empty))
  }

  function Found(a: Batch.Progress, ch: Batch.Choices): Batch.Choices {
    if a.server == Closed then Dead(ch) else ch
  }

  lemma TurnMimics(k: Kind, pooler: bool, hasSchema: bool, a: Batch.Progress, p: Batch.Progress, ch: Batch.Choices)
    requires Mimics(a, p)
    ensures Mimics(Batch.RunOne(k, pooler, hasSchema, a, ch).1, Batch.RunOne(k, pooler, hasSchema, p, Found(a, ch)).1)
  {
  }

  /** The run goes on with the same client, the same way. */
  predicate GoesOn(s: State, s': State, t: TaskId)
    requires t in s.tasks
  {
    && HasClient(s', t) && s'.tasks[t].conn == s.tasks[t].conn && s'.tasks[t].job == s.tasks[t].job
    && s'.tasks[t].pooler == s.tasks[t].pooler && s'.tasks[t].hasSchema == s.tasks[t].hasSchema
    && s'.tasks[t].slot == s.tasks[t].slot
  }

  predicate Idles(s: State, s': State, t: TaskId)
    requires HasClient(s, t)
  {
    && GoesOn(s, s', t) && s'.tasks[t].todo == s.tasks[t].todo
    && Mimics(Safety.ProgressOf(s', s'.tasks[t]), Safety.ProgressOf(s, s.tasks[t]))
  }

  /** The step is one turn of the loop. */
  predicate Turns(s: State, s': State, t: TaskId, ch: Batch.Choices)
    requires HasClient(s, t)
  {
    && GoesOn(s, s', t) && s.tasks[t].todo != [] && s'.tasks[t].todo == s.tasks[t].todo[1..]
    && Safety.ProgressOf(s', s'.tasks[t]) == Safety.LoopTurn(s, s.tasks[t], ch)
  }

  lemma OthersIdle(s: State, l: Label, s': State, t: TaskId)
    requires Inv(s) && HasClient(s, t) && HasConn(s.tasks[t].pc)
    requires Next(s, l) == Some(s') && Mover(l) != Some(t)
    ensures t in s'.tasks && s'.tasks[t] == s.tasks[t] && Idles(s, s', t)
  {
    assert TaskOk(s, t);
    OthersStay(s, l, s', t);
    if l != Dying(s.tasks[t].conn.value) {
      HeldStays(s, l, s', t, s.tasks[t].conn.value);
    }
  }

  lemma BeginRoutes(s: State, t: TaskId, s': State)
    requires InLoop(s, t) && BeginStep(s, t) == Some(s')
    ensures Idles(s, s', t) && InLoop(s', t)
  {
    var task := s.tasks[t];
    Registered(s, t, task.(pc := Handover), 0, Unregister(s, t, task.(pc := Handover)));
  }

  lemma RearmIdles(s: State, t: TaskId, s': State)
    requires InLoop(s, t) && ArmStep(s, t) == Some(s')
    ensures Idles(s, s', t) && InLoop(s', t)
  {
    var task := s.tasks[t];
    Registered(s, t, task.(pc := Ready), task.conn.value, s');
  }

  lemma ShootIdles(s: State, t: TaskId, c: ConnId, s': State)
    requires InLoop(s, t) && ShootStep(s, t, c) == Some(s')
    ensures Idles(s, s', t) && InLoop(s', t)
  {
    var task := s.tasks[t];
    Registered(SetConn(s, c, InTxn, HeldBy(t)), t, task.(pc := OneShot, shot := Some(c)), c, s');
  }

  lemma FinishTurns(s: State, t: TaskId, fates: Fates, s': State, ch: Batch.Choices)
    requires InLoop(s, t) && FinishStep(s, t, fates) == Some(s') && ch.shared == fates
    ensures Turns(s, s', t, ch) && InLoop(s', t)
  {
    Safety.FinishIsLoopTurn(s, t, ch, s');
  }

  /** Choices under which the one-shot connection answers so. */
  function Answering(ok: bool): Batch.Choices {
    var works := Fates(Works, Works, Works, Works, false);
    Batch.Choices(works, true, PinFates(if ok then Works else Refused, Works, Works, Works, works, Works, Works))
  }

  lemma AnswersSo(k: Kind, hasSchema: bool, ok: bool)
    requires Trackable(k) && k.rows
    ensures PinnedTxn(k, hasSchema, Answering(ok).oneShot).0 == ok
  {
  }

  lemma ShotTurns(s: State, t: TaskId, ok: bool, s': State)
    requires TasksOk(s) && InLoop(s, t) && ShotDoneStep(s, t, ok) == Some(s')
    ensures Turns(s, s', t, Answering(ok)) && InLoop(s', t)
  {
    assert TaskOk(s, t);
    var task := s.tasks[t];
    assert TodoFits(task, task.todo[0]);
    AnswersSo(task.todo[0], task.hasSchema, ok);
    Safety.ShotTurns(s, t, ok, Answering(ok), s');
    Safety.ShotDoneTask(s, t, ok, s');
  }

  lemma ShootFailsTurns(s: State, t: TaskId, s': State)
    requires InLoop(s, t) && ShootFailsStep(s, t) == Some(s')
    ensures Turns(s, s', t, Answering(true).(connects := false)) && InLoop(s', t)
  {
  }

  predicate Turning(l: Label) {
    l.Finish? || l.ShotDone? || l.ShootFails?
  }

  predicate OwnTurning(l: Label, t: TaskId) {
    Mover(l) == Some(t) && Turning(l)
  }

  /** The choices of a step that is a turn. */
  function ChoiceOf(l: Label): Batch.Choices {
    match l {
      case Finish(_, fates) => Answering(true).(shared := fates)
      case ShotDone(_, ok) => Answering(ok)
      case _ => Answering(true).(connects := false)
    }
  }

  /** The choices of the task's turns, in the order in which the run takes them. */
  function TurnsOf(s: State, labels: seq<Label>, t: TaskId): seq<Batch.Choices>
    decreases |labels|
  {
    if labels == [] || Next(s, labels[0]).None? then []
    else TurnAt(s, labels[0], t) + TurnsOf(Next(s, labels[0]).value, labels[1..], t)
  }

  function TurnAt(s: State, l: Label, t: TaskId): seq<Batch.Choices> {
    if OwnTurning(l, t) && HasClient(s, t) then [Found(Safety.ProgressOf(s, s.tasks[t]), ChoiceOf(l))] else []
  }

  /** One turn of the run's loop, or nothing to it. */
  predicate Moves(s: State, l: Label, s': State, t: TaskId)
    requires HasClient(s, t)
  {
    if OwnTurning(l, t) then Turns(s, s', t, ChoiceOf(l)) else Idles(s, s', t)
  }

  /** The run's own step inside the loop is one turn of the loop, or prepares one. */
  lemma OwnTurn(s: State, l: Label, s': State, t: TaskId)
    requires TasksOk(s) && InLoop(s, t) && Next(s, l) == Some(s') && Mover(l) == Some(t) && !l.EndLoop?
    ensures InLoop(s', t) && Moves(s, l, s', t)
  {
    if Turning(l) {
      TurningTurns(s, l, s', t);
    } else {
      LoopLabels(s, l, s', t);
      OthersPrepare(s, l, s', t);
    }
  }

  lemma OthersPrepare(s: State, l: Label, s': State, t: TaskId)
    requires InLoop(s, t) && Next(s, l) == Some(s') && (l.Begin? || l.Shoot? || l.Arm?) && l.t == t
    ensures InLoop(s', t) && Idles(s, s', t)
  {
    match l {
      case Begin(_) => BeginRoutes(s, t, s');
      case Shoot(_, c) => ShootIdles(s, t, c, s');
      case Arm(_) => RearmIdles(s, t, s');
    }
  }

  lemma TurningTurns(s: State, l: Label, s': State, t: TaskId)
    requires TasksOk(s) && InLoop(s, t) && Next(s, l) == Some(s') && Turning(l) && l.t == t
    ensures InLoop(s', t) && Turns(s, s', t, ChoiceOf(l))
  {
    match l {
      case Finish(_, fates) => FinishTurns(s, t, fates, s', ChoiceOf(l));
      case ShotDone(_, ok) => ShotTurns(s, t, ok, s');
      case ShootFails(_) => ShootFailsTurns(s, t, s');
    }
  }

  lemma LoopLabels(s: State, l: Label, s': State, t: TaskId)
    requires InLoop(s, t) && Next(s, l) == Some(s') && Mover(l) == Some(t) && !l.EndLoop?
    ensures l.Begin? || l.Finish? || l.Shoot? || l.ShotDone? || l.ShootFails? || l.Arm?
  {
  }

  /** The steps between taking the client and parting with it. */
  predicate WithClient(labels: seq<Label>, t: TaskId) {
    forall i :: 0 <= i < |labels| ==> WithClientStep(labels[i], t)
  }

  predicate WithClientStep(l: Label, t: TaskId) {
    !(Mover(l) == Some(t) && (l.Park? || l.Leave?))
  }

  /** The task stands where the loop gets from `p` with these choices. */
  predicate Advanced(s: State, p: Batch.Progress, s': State, t: TaskId, chs: seq<Batch.Choices>)
    requires t in s.tasks
  {
    var task := s.tasks[t];
    && GoesOn(s, s', t) && |chs| <= |task.todo| && s'.tasks[t].todo == task.todo[|chs|..]
    && Mimics(Safety.ProgressOf(s', s'.tasks[t]),
              Batch.RunAll(task.todo[..|chs|], task.pooler, task.hasSchema, p, chs).1)
  }

  lemma AdvanceTurns(s: State, p: Batch.Progress, s1: State, s2: State, t: TaskId, ch: Batch.Choices,
                     chs: seq<Batch.Choices>)
    requires HasClient(s, t) && GoesOn(s, s1, t) && s.tasks[t].todo != [] && s1.tasks[t].todo == s.tasks[t].todo[1..]
    requires var task := s.tasks[t];
             Advanced(s1, Batch.RunOne(task.todo[0], task.pooler, task.hasSchema, p, ch).1, s2, t, chs)
    ensures Advanced(s, p, s2, t, [ch] + chs)
  {
    var task := s.tasks[t];
    FirstAndMore(task.todo, |chs|);
    Batch.RunAllFirst(task.todo[0], task.todo[1..][..|chs|], task.pooler, task.hasSchema, p, ch, chs);
  }

  lemma FirstAndMore(todo: seq<Kind>, n: nat)
    requires n < |todo|
    ensures todo[..n + 1] == [todo[0]] + todo[1..][..n] && todo[1..][n..] == todo[n + 1..]
  {
  }

  lemma AdvanceNone(s: State, p: Batch.Progress, t: TaskId)
    requires HasClient(s, t) && Mimics(Safety.ProgressOf(s, s.tasks[t]), p)
    ensures Advanced(s, p, s, t, [])
  {
    assert s.tasks[t].todo[..0] == [] && s.tasks[t].todo[0..] == s.tasks[t].todo;
  }

  /** All of the statements are run, and the loop has ended. */
  predicate Settled(s: State, p: Batch.Progress, s': State, t: TaskId, chs: seq<Batch.Choices>)
    requires t in s.tasks
  {
    Advanced(s, p, s', t, chs) && |chs| == |s.tasks[t].todo| && s'.tasks[t].pc == Settling
  }

  lemma EndSettles(s: State, t: TaskId, s': State)
    requires InLoop(s, t) && EndLoopStep(s, t) == Some(s')
    ensures IsAt(s', t, Settling) && Idles(s, s', t) && s.tasks[t].todo == []
  {
    var task := s.tasks[t];
    Registered(s, t, task.(pc := Settling), 0, s');
  }

  lemma FromSettling(s: State, l: Label, s': State, t: TaskId)
    requires HasClient(s, t) && (s.tasks[t].pc == Settling || s.tasks[t].pc == Leaving)
    requires Next(s, l) == Some(s') && Mover(l) == Some(t)
    ensures l.Park? || l.Leave?
  {
  }

  lemma RestWithClient(labels: seq<Label>, t: TaskId)
    requires labels != [] && WithClient(labels, t)
    ensures WithClient(labels[1..], t)
  {
    forall i | 0 <= i < |labels[1..]| ensures WithClientStep(labels[1..][i], t) {
      assert WithClientStep(labels[i + 1], t);
    }
  }

  lemma HeadOfRun(s: State, labels: seq<Label>, t: TaskId)
    requires Inv(s) && labels != [] && RunFrom(s, labels).Some? && WithClient(labels, t)
    ensures var s' := Next(s, labels[0]).value;
            && Inv(s') && WithClientStep(labels[0], t) && WithClient(labels[1..], t)
            && RunFrom(s', labels[1..]) == RunFrom(s, labels)
            && TurnsOf(s, labels, t) == TurnAt(s, labels[0], t) + TurnsOf(s', labels[1..], t)
  {
    Preservation.StepKeeps(s, labels[0], Next(s, labels[0]).value);
    RestWithClient(labels, t);
    assert WithClientStep(labels[0], t);
  }

  lemma {:induction false} SettlingStays(s: State, labels: seq<Label>, t: TaskId)
    requires Inv(s) && HasClient(s, t) && s.tasks[t].pc == Settling
    requires RunFrom(s, labels).Some? && WithClient(labels, t)
    ensures Idles(s, RunFrom(s, labels).value, t) && RunFrom(s, labels).value.tasks[t].pc == Settling
    ensures TurnsOf(s, labels, t) == []
    decreases |labels|
  {
    if labels != [] {
      var s' := Next(s, labels[0]).value;
      HeadOfRun(s, labels, t);
      if Mover(labels[0]) == Some(t) {
        FromSettling(s, labels[0], s', t);
      }
      OthersIdle(s, labels[0], s', t);
      SettlingStays(s', labels[1..], t);
    }
  }

  lemma LoopStep(s: State, l: Label, s': State, t: TaskId)
    requires Inv(s) && InLoop(s, t) && Next(s, l) == Some(s') && WithClientStep(l, t) && l != EndLoop(t)
    ensures InLoop(s', t) && Moves(s, l, s', t)
  {
    if Mover(l) == Some(t) {
      OwnTurn(s, l, s', t);
    } else {
      OthersIdle(s, l, s', t);
    }
  }

  lemma EndMoves(s: State, t: TaskId, s': State)
    requires Next(s, EndLoop(t)) == Some(s')
    ensures EndLoopStep(s, t) == Some(s')
  {
  }

  lemma EndRuns(s: State, p: Batch.Progress, s': State, rest: seq<Label>, t: TaskId)
    requires InLoop(s, t) && Next(s, EndLoop(t)) == Some(s') && Mimics(Safety.ProgressOf(s, s.tasks[t]), p)
    requires Inv(s') && RunFrom(s', rest).Some? && WithClient(rest, t)
    ensures Settled(s, p, RunFrom(s', rest).value, t, []) && TurnsOf(s', rest, t) == []
  {
    EndMoves(s, t, s');
    EndSettles(s, t, s');
    SettlingStays(s', rest, t);
    EndsIdle(s, p, s', RunFrom(s', rest).value, t);
  }

  lemma EndsIdle(s: State, p: Batch.Progress, s': State, end: State, t: TaskId)
    requires HasClient(s, t) && s.tasks[t].todo == [] && Mimics(Safety.ProgressOf(s, s.tasks[t]), p)
    requires Idles(s, s', t) && Idles(s', end, t) && end.tasks[t].pc == Settling
    ensures Settled(s, p, end, t, [])
  {
    AdvanceNone(end, p, t);
  }

  /** What the loop on its own makes of the step, from `p`. */
  function After(s: State, p: Batch.Progress, l: Label, t: TaskId): Batch.Progress
    requires HasClient(s, t)
  {
    var task := s.tasks[t];
    if OwnTurning(l, t) && task.todo != [] then
      Batch.RunOne(task.todo[0], task.pooler, task.hasSchema, p, Found(Safety.ProgressOf(s, task), ChoiceOf(l))).1
    else p
  }

  lemma StepMimics(s: State, p: Batch.Progress, l: Label, s': State, t: TaskId)
    requires HasClient(s, t) && Moves(s, l, s', t) && Mimics(Safety.ProgressOf(s, s.tasks[t]), p)
    ensures HasClient(s', t) && Mimics(Safety.ProgressOf(s', s'.tasks[t]), After(s, p, l, t))
  {
    if OwnTurning(l, t) {
      var task := s.tasks[t];
      TurnMimics(task.todo[0], task.pooler, task.hasSchema, Safety.ProgressOf(s, task), p, ChoiceOf(l));
    }
  }

  /**
   From anywhere in the loop to its end, in any interleaving, the run does what the loop does on its own from `p`, where
   the run stands.
   */
  lemma {:induction false} LoopRuns(s: State, p: Batch.Progress, labels: seq<Label>, t: TaskId)
    requires Inv(s) && InLoop(s, t) && Mimics(Safety.ProgressOf(s, s.tasks[t]), p)
    requires RunFrom(s, labels).Some? && WithClient(labels, t) && IsAt(RunFrom(s, labels).value, t, Settling)
    ensures Settled(s, p, RunFrom(s, labels).value, t, TurnsOf(s, labels, t))
    decreases |labels|
  {
    assert labels != [];
    var l, rest := labels[0], labels[1..];
    var s' := Next(s, l).value;
    HeadOfRun(s, labels, t);
    if l == EndLoop(t) {
      EndRuns(s, p, s', rest, t);
    } else {
      LoopStep(s, l, s', t);
      StepMimics(s, p, l, s', t);
      LoopRuns(s', After(s, p, l, t), rest, t);
      LoopGrows(s, p, l, s', RunFrom(s', rest).value, t, TurnsOf(s', rest, t));
    }
  }

  lemma LoopGrows(s: State, p: Batch.Progress, l: Label, s': State, end: State, t: TaskId, chs: seq<Batch.Choices>)
    requires HasClient(s, t) && Moves(s, l, s', t) && Settled(s', After(s, p, l, t), end, t, chs)
    ensures Settled(s, p, end, t, TurnAt(s, l, t) + chs)
  {
    if OwnTurning(l, t) {
      AdvanceTurns(s, p, s', end, t, Found(Safety.ProgressOf(s, s.tasks[t]), ChoiceOf(l)), chs);
    } else {
      assert [] + chs == chs;
    }
  }

  // -------------------------------------------------------------------------
  // The search path

  /** `apply_search_path` on the run's client. */
  function AppliedTo(s: State, t: TaskId, path: Fate): Reply
    requires HasClient(s, t)
  {
    Batch.Applied(s.tasks[t].inTxn, s.tasks[t].hasSchema, s.conns[s.tasks[t].conn.value].server, path)
  }

  lemma ConfigureWorks(s: State, t: TaskId, fate: Fate, s': State)
    requires ConfigureStep(s, t, fate) == Some(s') && s.tasks[t].hasSchema && !s.tasks[t].inTxn
    requires AppliedTo(s, t, fate).ok
    ensures s' == SetTask(s, t, s.tasks[t].(pc := Ready))
    ensures AppliedTo(s, t, fate).after == s.conns[s.tasks[t].conn.value].server
  {
  }

  /** A search path that does not get through ends the run, and the client goes back as that left it. */
  lemma ConfigureFails(s: State, t: TaskId, fate: Fate, s': State)
    requires ConfigureStep(s, t, fate) == Some(s') && s.tasks[t].hasSchema && !s.tasks[t].inTxn
    requires !AppliedTo(s, t, fate).ok
    ensures IsAt(s', t, Leaving)
    ensures var c := s.tasks[t].conn.value; c in s'.conns && s'.conns[c] == Conn(AppliedTo(s, t, fate).after, InPool)
  {
    var task := s.tasks[t];
    Registered(Unconfigured(s, t, fate), t, task.(pc := Leaving, conn := None), 0, s');
  }

  predicate Starting(s: State, t: TaskId) {
    && HasClient(s, t) && s.tasks[t].job == RunJob && !s.tasks[t].stateSet
    && (s.tasks[t].pc == Arming
        || (s.tasks[t].pc == Configuring && s.tasks[t].hasSchema && !s.tasks[t].inTxn))
  }

  lemma ArmStarts(s: State, t: TaskId, s': State)
    requires Starting(s, t) && s.tasks[t].pc == Arming && ArmStep(s, t) == Some(s')
    ensures Idles(s, s', t)
    ensures if s.tasks[t].hasSchema && !s.tasks[t].inTxn then Starting(s', t) && s'.tasks[t].pc == Configuring
            else InLoop(s', t)
  {
    var task := s.tasks[t];
    var pc := if task.hasSchema && !task.inTxn then Configuring else Ready;
    Registered(s, t, task.(pc := pc), task.conn.value, s');
  }

  lemma StartLabels(s: State, l: Label, s': State, t: TaskId)
    requires Starting(s, t) && Next(s, l) == Some(s') && Mover(l) == Some(t)
    ensures if s.tasks[t].pc == Arming then l.Arm? else l.Configure?
  {
  }

  lemma {:induction false} LeavingStays(s: State, labels: seq<Label>, t: TaskId)
    requires IsAt(s, t, Leaving) && RunFrom(s, labels).Some? && WithClient(labels, t)
    ensures IsAt(RunFrom(s, labels).value, t, Leaving)
    decreases |labels|
  {
    if labels != [] {
      var s' := Next(s, labels[0]).value;
      assert WithClientStep(labels[0], t);
      if Mover(labels[0]) == Some(t) {
        LeavingLabels(s, labels[0], s', t);
      }
      OthersStay(s, labels[0], s', t);
      RestWithClient(labels, t);
      LeavingStays(s', labels[1..], t);
    }
  }

  lemma LeavingLabels(s: State, l: Label, s': State, t: TaskId)
    requires IsAt(s, t, Leaving) && Next(s, l) == Some(s') && Mover(l) == Some(t)
    ensures l.Leave?
  {
  }

  /** What is left of the run once the client is there: a search path that gets through, and then the loop. */
  predicate Began(s: State, p: Batch.Progress, s': State, t: TaskId, path: Fate, chs: seq<Batch.Choices>)
    requires t in s.tasks
  {
    && Settled(s, p, s', t, chs)
    && Batch.Applied(s.tasks[t].inTxn, s.tasks[t].hasSchema, p.server, path) == Reply(true, p.server)
  }

  lemma ConfiguredLoops(s: State, t: TaskId, fate: Fate, s': State)
    requires Starting(s, t) && ConfigureStep(s, t, fate) == Some(s')
    ensures || IsAt(s', t, Leaving)
            || (InLoop(s', t) && Idles(s, s', t) && s.conns[s.tasks[t].conn.value].server != Closed
                && AppliedTo(s, t, fate) == Reply(true, s.conns[s.tasks[t].conn.value].server))
  {
    if AppliedTo(s, t, fate).ok {
      ConfigureWorks(s, t, fate, s');
    } else {
      ConfigureFails(s, t, fate, s');
    }
  }

  lemma ConfigureMoves(s: State, t: TaskId, fate: Fate, s': State)
    requires Next(s, Configure(t, fate)) == Some(s')
    ensures ConfigureStep(s, t, fate) == Some(s')
  {
  }

  lemma ConfigureRuns(s: State, p: Batch.Progress, fate: Fate, s': State, rest: seq<Label>, t: TaskId)
    requires Starting(s, t) && Next(s, Configure(t, fate)) == Some(s') && Inv(s')
    requires Mimics(Safety.ProgressOf(s, s.tasks[t]), p)
    requires RunFrom(s', rest).Some? && WithClient(rest, t) && IsAt(RunFrom(s', rest).value, t, Settling)
    ensures Began(s, p, RunFrom(s', rest).value, t, fate, TurnsOf(s', rest, t))
  {
    ConfigureMoves(s, t, fate, s');
    ConfiguredLoops(s, t, fate, s');
    if IsAt(s', t, Leaving) {
      LeavingStays(s', rest, t);
    }
    LoopRuns(s', p, rest, t);
  }

  /** The fate of the search path, which is not due if the step is no such. */
  function FateOf(l: Label): Fate {
    if l.Configure? then l.fate else Works
  }

  /** The step takes the run to its loop. */
  predicate ToLoop(s: State, l: Label, s': State, t: TaskId)
    requires HasClient(s, t)
  {
    || l == Configure(t, FateOf(l))
    || (InLoop(s', t) && Idles(s, s', t) && !(s.tasks[t].hasSchema && !s.tasks[t].inTxn))
  }

  /** The next step sets the search path, goes to the loop, or leaves the run at its start. */
  lemma StartStep(s: State, l: Label, s': State, t: TaskId)
    requires Inv(s) && Starting(s, t) && Next(s, l) == Some(s') && WithClientStep(l, t)
    ensures !OwnTurning(l, t)
    ensures ToLoop(s, l, s', t) || (Idles(s, s', t) && Starting(s', t))
  {
    if Mover(l) == Some(t) {
      StartLabels(s, l, s', t);
      if l.Arm? {
        ArmStarts(s, t, s');
      }
    } else {
      OthersIdle(s, l, s', t);
    }
  }

  lemma UnconfiguredRuns(s: State, p: Batch.Progress, path: Fate, s': State, rest: seq<Label>, t: TaskId)
    requires HasClient(s, t) && Idles(s, s', t) && !(s.tasks[t].hasSchema && !s.tasks[t].inTxn)
    requires Inv(s') && InLoop(s', t) && Mimics(Safety.ProgressOf(s, s.tasks[t]), p)
    requires RunFrom(s', rest).Some? && WithClient(rest, t) && IsAt(RunFrom(s', rest).value, t, Settling)
    ensures Began(s, p, RunFrom(s', rest).value, t, path, TurnsOf(s', rest, t))
  {
    LoopRuns(s', p, rest, t);
  }

  lemma LastStart(s: State, p: Batch.Progress, l: Label, s': State, rest: seq<Label>, t: TaskId)
    requires Starting(s, t) && Next(s, l) == Some(s') && Mimics(Safety.ProgressOf(s, s.tasks[t]), p)
    requires ToLoop(s, l, s', t)
    requires Inv(s') && RunFrom(s', rest).Some? && WithClient(rest, t) && IsAt(RunFrom(s', rest).value, t, Settling)
    ensures Began(s, p, RunFrom(s', rest).value, t, FateOf(l), TurnsOf(s', rest, t))
  {
    if l == Configure(t, FateOf(l)) {
      ConfigureRuns(s, p, l.fate, s', rest, t);
    } else {
      UnconfiguredRuns(s, p, FateOf(l), s', rest, t);
    }
  }

  lemma BeganLater(s: State, p: Batch.Progress, s': State, end: State, t: TaskId, path: Fate, chs: seq<Batch.Choices>)
    requires HasClient(s, t) && Idles(s, s', t) && Began(s', p, end, t, path, chs)
    ensures Began(s, p, end, t, path, chs)
  {
  }

  lemma HeadOfStart(s: State, labels: seq<Label>, t: TaskId)
    requires Inv(s) && Starting(s, t) && labels != [] && RunFrom(s, labels).Some? && WithClient(labels, t)
    ensures var s' := Next(s, labels[0]).value;
            && Inv(s') && WithClient(labels[1..], t) && RunFrom(s', labels[1..]) == RunFrom(s, labels)
            && TurnsOf(s, labels, t) == TurnsOf(s', labels[1..], t)
            && (ToLoop(s, labels[0], s', t) || (Idles(s, s', t) && Starting(s', t)))
  {
    HeadOfRun(s, labels, t);
    StartStep(s, labels[0], Next(s, labels[0]).value, t);
  }

  lemma {:induction false} StartRuns(s: State, p: Batch.Progress, labels: seq<Label>, t: TaskId) returns (path: Fate)
    requires Inv(s) && Starting(s, t) && Mimics(Safety.ProgressOf(s, s.tasks[t]), p)
    requires RunFrom(s, labels).Some? && WithClient(labels, t) && IsAt(RunFrom(s, labels).value, t, Settling)
    ensures Began(s, p, RunFrom(s, labels).value, t, path, TurnsOf(s, labels, t))
    decreases |labels|
  {
    assert labels != [];
    var l, rest := labels[0], labels[1..];
    var s' := Next(s, l).value;
    HeadOfStart(s, labels, t);
    if ToLoop(s, l, s', t) {
      LastStart(s, p, l, s', rest, t);
      return FateOf(l);
    }
    path := StartRuns(s', p, rest, t);
    BeganLater(s, p, s', RunFrom(s', rest).value, t, path, TurnsOf(s', rest, t));
  }

  // -------------------------------------------------------------------------
  // The whole run

  /** Parting with the client is the disposal at the end of the batch. */
  lemma ParkIsDispose(s: State, t: TaskId, undo: Fate, s': State)
    requires Inv(s) && ParkStep(s, t, undo) == Some(s')
    ensures var task := s.tasks[t]; var c, server := task.conn.value, s.conns[task.conn.value].server;
            var pins := task.inTxn && task.slot.Some?;
            && c in s'.conns
            && s'.conns[c] == Conn(if task.inTxn && !pins then Rollback(server, undo).after else server,
                                   if pins then PinnedIn(task.slot.value) else InPool)
            && (pins ==> task.slot.value in s'.slots && s'.slots[task.slot.value].pinned == Some(c))
  {
    assert TaskOk(s, t);
  }

  /**
   The client ends as the batch leaves it: pinned in the run's slot, or in the pool, in the state that is due, unless it
   has died meanwhile.
   */
  predicate EndsAsBatch(s: State, s': State, t: TaskId, path: Fate, undo: Fate, chs: seq<Batch.Choices>)
    requires HasClient(s, t) && |chs| == |s.tasks[t].todo|
  {
    var task := s.tasks[t];
    var c := task.conn.value;
    var end := Batch.WholeRun(task.inTxn, task.slot.Some?, s.conns[c].server, task.todo, task.pooler, task.hasSchema,
                              path, undo, chs);
    var pins := end.inTransaction && task.slot.Some?;
    && end.results.Some? && c in s'.conns
    && (s'.conns[c].server == end.server || s'.conns[c].server == Closed)
    && s'.conns[c].loc == (if pins then PinnedIn(task.slot.value) else InPool)
    && (pins ==> task.slot.value in s'.slots && s'.slots[task.slot.value].pinned == Some(c))
  }

  lemma BeganEnds(s: State, s1: State, t: TaskId, path: Fate, chs: seq<Batch.Choices>, undo: Fate)
    requires Starting(s, t) && Began(s, Safety.ProgressOf(s, s.tasks[t]), s1, t, path, chs)
    ensures var task, last := s.tasks[t], s1.tasks[t];
            var server := s1.conns[last.conn.value].server;
            var end := Batch.WholeRun(task.inTxn, task.slot.Some?, s.conns[task.conn.value].server, task.todo,
                                      task.pooler, task.hasSchema, path, undo, chs);
            var after := if last.inTxn && task.slot.None? then Rollback(server, undo).after else server;
            && end.results.Some? && end.inTransaction == last.inTxn && (after == end.server || after == Closed)
  {
    var todo := s.tasks[t].todo;
    assert todo[..|chs|] == todo;
  }

  lemma ParkEnds(s: State, s1: State, t: TaskId, path: Fate, chs: seq<Batch.Choices>, undo: Fate, s': State)
    requires Starting(s, t) && Began(s, Safety.ProgressOf(s, s.tasks[t]), s1, t, path, chs)
    requires Inv(s1) && ParkStep(s1, t, undo) == Some(s')
    ensures EndsAsBatch(s, s', t, path, undo, chs)
  {
    BeganEnds(s, s1, t, path, chs, undo);
    ParkIsDispose(s1, t, undo, s');
  }

  /**
   Whatever runs beside it, a run that has its client does what `run_batch_in_session` does on its own with the choices
   it met: from the client's state when it was acquired to where the client goes and the state it is in.
   */
  lemma RunIsBatch(s: State, labels: seq<Label>, t: TaskId, undo: Fate, s': State)
      returns (path: Fate)
    requires Reachable(s) && IsAt(s, t, Arming) && HasClient(s, t) && s.tasks[t].job == RunJob
    requires RunFrom(s, labels).Some? && WithClient(labels, t)
    requires Next(RunFrom(s, labels).value, Park(t, undo)) == Some(s')
    ensures |TurnsOf(s, labels, t)| == |s.tasks[t].todo| && EndsAsBatch(s, s', t, path, undo, TurnsOf(s, labels, t))
  {
    ReachableStarts(s, t);
    ParkMoves(RunFrom(s, labels).value, t, undo, s');
    path := StartedIsBatch(s, labels, t, undo, s');
  }

  lemma ParkMoves(s: State, t: TaskId, undo: Fate, s': State)
    requires Next(s, Park(t, undo)) == Some(s')
    ensures ParkStep(s, t, undo) == Some(s')
  {
  }

  lemma StartedIsBatch(s: State, labels: seq<Label>, t: TaskId, undo: Fate, s': State)
      returns (path: Fate)
    requires Inv(s) && Starting(s, t) && RunFrom(s, labels).Some? && WithClient(labels, t)
    requires ParkStep(RunFrom(s, labels).value, t, undo) == Some(s')
    ensures |TurnsOf(s, labels, t)| == |s.tasks[t].todo| && EndsAsBatch(s, s', t, path, undo, TurnsOf(s, labels, t))
  {
    Preservation.RunKeeps(s, labels);
    path := StartRuns(s, Safety.ProgressOf(s, s.tasks[t]), labels, t);
    ParkEnds(s, RunFrom(s, labels).value, t, path, TurnsOf(s, labels, t), undo, s');
  }

  lemma ReachableStarts(s: State, t: TaskId)
    requires Reachable(s) && IsAt(s, t, Arming) && HasClient(s, t) && s.tasks[t].job == RunJob
    ensures Inv(s) && Starting(s, t)
  {
    Preservation.ReachableInv(s);
    ReachableEarly(s, t);
  }
}

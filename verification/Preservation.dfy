/** Every step of the protocol keeps the invariant. */
module Preservation {
  import opened Text
  import opened Keywords
  import opened Server
  import opened Protocol
  import opened Invariant

  lemma OthersKeep(s: State, s': State, t: TaskId)
    requires TasksOk(s)
    requires forall u :: u in s.tasks && u != t ==> SameView(s, s', u)
    ensures forall u :: u in s.tasks && u != t ==> u in s'.tasks && TaskOk(s', u)
  {
    forall u | u in s.tasks && u != t ensures u in s'.tasks && TaskOk(s', u) {
      SameViewKeeps(s, s', u);
    }
  }

  // -------------------------------------------------------------------------
  // Steps that touch only the task, its clients and its registry entry

  /** Nothing but task `t`, clients it holds or takes from the pool, and its own registry entry changes. */
  ghost predicate PrivateChange(s: State, s': State, t: TaskId) {
    && t in s.tasks && t in s'.tasks
    && s' == s.(conns := s'.conns, tasks := s.tasks[t := s'.tasks[t]], handles := s'.handles, serial := s'.serial)
    && s.serial <= s'.serial
    && SamePlace(s.tasks[t], s'.tasks[t])
    && (forall c :: c in s.conns && s.conns[c].loc != HeldBy(t) && s.conns[c].loc != InPool ==>
          c in s'.conns && s'.conns[c] == s.conns[c])
    && (forall r :: r in s.handles && Some(r) != s.tasks[t].req ==> r in s'.handles && s'.handles[r] == s.handles[r])
    && (forall r :: r in s'.handles && Some(r) != s.tasks[t].req ==> r in s.handles)
    && (forall r :: r in s'.handles && !(r in s.handles && s'.handles[r] == s.handles[r]) ==>
          s'.handles[r].serial == s.serial)
  }

  /** The task keeps its session, its request and its hold on its slot. */
  predicate SamePlace(task: Task, task': Task) {
    && task'.sid == task.sid && task'.req == task.req && task'.slot == task.slot
    && (HoldsLock(task.pc) <==> HoldsLock(task'.pc))
    && (task.pc == Entering <==> task'.pc == Entering)
    && (task.pc == Draining <==> task'.pc == Draining)
    && task.pc != Leaving
  }

  /** The registry entry of the task's own request, if any, is its own live registration. */
  ghost predicate OwnHandleOk(s: State, t: TaskId)
    requires t in s.tasks
  {
    s.tasks[t].req.Some? && s.tasks[t].req.value in s.handles ==>
      HandleOk(s, s.tasks[t].req.value) && s.handles[s.tasks[t].req.value].task == t
  }

  lemma OwnHandle(s: State, t: TaskId)
    requires HandlesOk(s) && ReqsDistinct(s) && t in s.tasks
    ensures OwnHandleOk(s, t)
  {
    if s.tasks[t].req.Some? && s.tasks[t].req.value in s.handles {
      assert HandleOk(s, s.tasks[t].req.value);
    }
  }

  /** Clients a step puts somewhere new are fit to be there. */
  ghost predicate NewConnsOk(s: State, s': State) {
    forall c :: c in s'.conns && !(c in s.conns && s'.conns[c] == s.conns[c]) ==> ConnOk(s', c)
  }

  /** What is left to show of the task itself after a private change. */
  ghost predicate SelfOk(s: State, t: TaskId)
    requires t in s.tasks
  {
    TaskConnOk(s, t) && TodoOk(s.tasks[t]) && GuardOk(s, t) && OwnHandleOk(s, t)
  }

  lemma PrivateSlots(s: State, s': State, t: TaskId)
    requires SlotsOk(s) && PrivateChange(s, s', t)
    ensures SlotsOk(s')
  {
    forall k | k in s'.slots ensures SlotOk(s', k) {
      assert SlotOk(s, k);
    }
  }

  lemma PrivateOthers(s: State, s': State, t: TaskId, u: TaskId)
    requires ReqsDistinct(s) && PrivateChange(s, s', t) && u in s.tasks && u != t
    ensures SameView(s, s', u)
  {
    assert s.tasks[u].req.Some? ==> s.tasks[u].req != s.tasks[t].req;
  }

  lemma PrivateTasks(s: State, s': State, t: TaskId)
    requires TasksOk(s) && ReqsDistinct(s) && PrivateChange(s, s', t) && SelfOk(s', t)
    ensures TasksOk(s')
  {
    forall u | u in s.tasks && u != t ensures SameView(s, s', u) {
      PrivateOthers(s, s', t, u);
    }
    OthersKeep(s, s', t);
    assert TaskSlotOk(s', t) by {
      assert TaskSlotOk(s, t);
    }
  }

  lemma PrivateHandles(s: State, s': State, t: TaskId)
    requires HandlesOk(s) && PrivateChange(s, s', t) && OwnHandleOk(s', t)
    ensures HandlesOk(s')
    ensures SerialsDistinct(s) ==> SerialsDistinct(s')
  {
    forall r | r in s.handles ensures s.handles[r].serial < s.serial {
      assert HandleOk(s, r);
    }
    forall r | r in s'.handles ensures HandleOk(s', r) {
      if Some(r) != s.tasks[t].req {
        assert HandleOk(s, r);
      }
    }
  }

  lemma PrivateRest(s: State, s': State, t: TaskId)
    requires ConnsOk(s) && SessionsOk(s) && FiredOk(s) && ReqsDistinct(s)
    requires PrivateChange(s, s', t) && NewConnsOk(s, s')
    ensures ConnsOk(s') && SessionsOk(s') && FiredOk(s') && ReqsDistinct(s')
  {
    forall c | c in s'.conns ensures ConnOk(s', c) {
      if c in s.conns && s'.conns[c] == s.conns[c] {
        assert ConnOk(s, c);
      }
    }
    forall sid | sid in s'.sessions ensures SessionOk(s', sid) {
      assert SessionOk(s, sid);
    }
  }

  lemma PrivateKeeps(s: State, s': State, t: TaskId)
    requires Inv(s) && PrivateChange(s, s', t) && SelfOk(s', t) && NewConnsOk(s, s')
    ensures Inv(s')
  {
    PrivateSlots(s, s', t);
    PrivateTasks(s, s', t);
    PrivateHandles(s, s', t);
    PrivateRest(s, s', t);
  }

  /** What the invariant says of one task, with its request's registry entry and the firing record. */
  lemma SelfFromInv(s: State, t: TaskId)
    requires Inv(s) && t in s.tasks
    ensures SelfOk(s, t) && FiredOk(s)
  {
    assert TaskOk(s, t);
    OwnHandle(s, t);
  }

  lemma Registering(s: State, t: TaskId, task: Task, target: ConnId, s': State)
    requires FiredOk(s) && t in s.tasks && s' == Register(s, t, task, target)
    requires task.guard == None && Guarded(task.pc) && Target(task) == Some(target)
    ensures t in s'.tasks && s'.tasks[t] == task.(guard := s'.tasks[t].guard)
    ensures s' == s.(tasks := s.tasks[t := s'.tasks[t]], handles := s'.handles, serial := s'.serial)
    ensures s.serial <= s'.serial
    ensures forall r :: Some(r) != task.req ==> (r in s.handles <==> r in s'.handles)
    ensures forall r :: r in s.handles && Some(r) != task.req ==> s'.handles[r] == s.handles[r]
    ensures forall r :: r in s'.handles && !(r in s.handles && s'.handles[r] == s.handles[r]) ==>
              s'.handles[r].serial == s.serial
  {
    if task.req.Some? {
      assert s'.handles == s.handles[task.req.value := Action(target, s.serial, t)];
      assert s'.tasks == s.tasks[t := task.(guard := Some(s.serial))] && s'.serial == s.serial + 1;
    } else {
      assert s' == SetTask(s, t, task);
    }
  }

  lemma RegisteredGuard(s: State, t: TaskId, task: Task, target: ConnId, s': State)
    requires FiredOk(s) && t in s.tasks && s' == Register(s, t, task, target)
    requires task.guard == None && Guarded(task.pc) && Target(task) == Some(target)
    ensures t in s'.tasks && GuardOk(s', t) && OwnHandleOk(s', t)
  {
    assert !Taken(s, s.serial);
  }

  lemma Unregistering(s: State, t: TaskId, task: Task, s': State)
    requires t in s.tasks && s' == Unregister(s, t, task)
    requires !Guarded(task.pc) && task.guard == s.tasks[t].guard && task.req == s.tasks[t].req
    requires GuardOk(s, t) && OwnHandleOk(s, t)
    ensures t in s'.tasks && s'.tasks[t] == task.(guard := None) && GuardOk(s', t) && OwnHandleOk(s', t)
    ensures s' == s.(tasks := s.tasks[t := s'.tasks[t]], handles := s'.handles)
    ensures s'.handles == if task.req.Some? then s.handles - {task.req.value} else s.handles
  {
    if task.req.Some? && task.guard.None? {
      assert task.req.value !in s.handles;
    }
  }

  lemma ConnectShape(s: State, t: TaskId, c: ConnId, s': State)
    requires t in s.tasks && SelfOk(s, t) && FiredOk(s) && ConnectStep(s, t, c) == Some(s')
    requires c in s.conns ==> ConnOk(s, c)
    ensures PrivateChange(s, s', t) && NewConnsOk(s, s')
  {
  }

  lemma ConnectSelf(s: State, t: TaskId, c: ConnId, s': State)
    requires t in s.tasks && SelfOk(s, t) && FiredOk(s) && ConnectStep(s, t, c) == Some(s')
    requires c in s.conns ==> ConnOk(s, c)
    ensures t in s'.tasks && SelfOk(s', t)
  {
  }

  lemma ConnectKeeps(s: State, t: TaskId, c: ConnId, s': State)
    requires Inv(s) && ConnectStep(s, t, c) == Some(s')
    ensures Inv(s')
  {
    SelfFromInv(s, t);
    ConnectShape(s, t, c, s');
    ConnectSelf(s, t, c, s');
    PrivateKeeps(s, s', t);
  }

  lemma ConnectFailsShape(s: State, t: TaskId, s': State)
    requires t in s.tasks && SelfOk(s, t) && FiredOk(s) && ConnectFailsStep(s, t) == Some(s')
    ensures PrivateChange(s, s', t) && NewConnsOk(s, s')
  {
  }

  lemma ConnectFailsSelf(s: State, t: TaskId, s': State)
    requires t in s.tasks && SelfOk(s, t) && FiredOk(s) && ConnectFailsStep(s, t) == Some(s')
    ensures t in s'.tasks && SelfOk(s', t)
  {
  }

  lemma ConnectFailsKeeps(s: State, t: TaskId, s': State)
    requires Inv(s) && ConnectFailsStep(s, t) == Some(s')
    ensures Inv(s')
  {
    SelfFromInv(s, t);
    ConnectFailsShape(s, t, s');
    ConnectFailsSelf(s, t, s');
    PrivateKeeps(s, s', t);
  }

  lemma ArmShape(s: State, t: TaskId, s': State)
    requires t in s.tasks && SelfOk(s, t) && FiredOk(s) && ArmStep(s, t) == Some(s')
    ensures PrivateChange(s, s', t) && NewConnsOk(s, s')
  {
    var task := s.tasks[t];
    var pc := if task.pc == Arming && task.hasSchema && !task.inTxn then Configuring else Ready;
    Registering(s, t, task.(pc := pc), task.conn.value, s');
  }

  lemma ArmSelf(s: State, t: TaskId, s': State)
    requires t in s.tasks && SelfOk(s, t) && FiredOk(s) && ArmStep(s, t) == Some(s')
    ensures t in s'.tasks && SelfOk(s', t)
  {
    var task := s.tasks[t];
    var pc := if task.pc == Arming && task.hasSchema && !task.inTxn then Configuring else Ready;
    ArmedSelf(s, t, pc, s');
  }

  lemma ArmedSelf(s: State, t: TaskId, pc: Pc, s': State)
    requires t in s.tasks && SelfOk(s, t) && FiredOk(s)
    requires var task := s.tasks[t];
             && (task.pc == Arming || task.pc == Rearming) && task.conn.Some?
             && (pc == Ready || (pc == Configuring && !task.inTxn))
             && s' == Register(s, t, task.(pc := pc), task.conn.value)
    ensures t in s'.tasks && SelfOk(s', t)
  {
    var task := s.tasks[t];
    Registering(s, t, task.(pc := pc), task.conn.value, s');
    RegisteredGuard(s, t, task.(pc := pc), task.conn.value, s');
  }

  lemma ArmKeeps(s: State, t: TaskId, s': State)
    requires Inv(s) && ArmStep(s, t) == Some(s')
    ensures Inv(s')
  {
    SelfFromInv(s, t);
    ArmShape(s, t, s');
    ArmSelf(s, t, s');
    PrivateKeeps(s, s', t);
  }

  lemma EarlyReturnShape(s: State, t: TaskId, task: Task, c: ConnId, after: ServerState, s': State)
    requires t in s.tasks && task == s.tasks[t] && SelfOk(s, t) && task.pc == Configuring && task.conn == Some(c)
    requires Tracks(false, after)
    requires s' == Unregister(SetConn(s, c, after, InPool), t, task.(pc := Leaving, conn := None))
    ensures PrivateChange(s, s', t) && NewConnsOk(s, s')
  {
    Unregistering(SetConn(s, c, after, InPool), t, task.(pc := Leaving, conn := None), s');
  }

  lemma EarlyReturn(s: State, t: TaskId, task: Task, c: ConnId, after: ServerState, s': State)
    requires t in s.tasks && task == s.tasks[t] && SelfOk(s, t) && task.pc == Configuring && task.conn == Some(c)
    requires Tracks(false, after)
    requires s' == Unregister(SetConn(s, c, after, InPool), t, task.(pc := Leaving, conn := None))
    ensures t in s'.tasks && SelfOk(s', t)
  {
    Unregistering(SetConn(s, c, after, InPool), t, task.(pc := Leaving, conn := None), s');
  }

  lemma ConfigureShape(s: State, t: TaskId, fate: Fate, s': State)
    requires t in s.tasks && SelfOk(s, t) && FiredOk(s) && ConfigureStep(s, t, fate) == Some(s')
    ensures PrivateChange(s, s', t) && NewConnsOk(s, s')
  {
    var task := s.tasks[t];
    var c := task.conn.value;
    var reply := Statement(NoEffect, false, s.conns[c].server, fate);
    if !reply.ok {
      EarlyReturnShape(s, t, task, c, reply.after, s');
    }
  }

  lemma ConfigureSelf(s: State, t: TaskId, fate: Fate, s': State)
    requires t in s.tasks && SelfOk(s, t) && FiredOk(s) && ConfigureStep(s, t, fate) == Some(s')
    ensures t in s'.tasks && SelfOk(s', t)
  {
    var task := s.tasks[t];
    var c := task.conn.value;
    var reply := Statement(NoEffect, false, s.conns[c].server, fate);
    if !reply.ok {
      EarlyReturn(s, t, task, c, reply.after, s');
    }
  }

  lemma ConfigureKeeps(s: State, t: TaskId, fate: Fate, s': State)
    requires Inv(s) && ConfigureStep(s, t, fate) == Some(s')
    ensures Inv(s')
  {
    SelfFromInv(s, t);
    ConfigureShape(s, t, fate, s');
    ConfigureSelf(s, t, fate, s');
    PrivateKeeps(s, s', t);
  }

  lemma HandoverKeeps(s: State, t: TaskId, s': State)
    requires t in s.tasks && SelfOk(s, t) && FiredOk(s) && BeginStep(s, t) == Some(s') && GoesOneShot(s.tasks[t])
    ensures PrivateChange(s, s', t) && NewConnsOk(s, s') && SelfOk(s', t)
  {
    Unregistering(s, t, s.tasks[t].(pc := Handover), s');
  }

  lemma ExecutingKeeps(s: State, t: TaskId, s': State)
    requires t in s.tasks && SelfOk(s, t) && FiredOk(s) && BeginStep(s, t) == Some(s') && !GoesOneShot(s.tasks[t])
    ensures PrivateChange(s, s', t) && NewConnsOk(s, s') && SelfOk(s', t)
  {
    assert s' == SetTask(s, t, s.tasks[t].(pc := Executing));
  }

  lemma BeginKeeps(s: State, t: TaskId, s': State)
    requires Inv(s) && BeginStep(s, t) == Some(s')
    ensures Inv(s')
  {
    SelfFromInv(s, t);
    if GoesOneShot(s.tasks[t]) {
      HandoverKeeps(s, t, s');
    } else {
      ExecutingKeeps(s, t, s');
    }
    PrivateKeeps(s, s', t);
  }

  /**
   A statement on the shared client keeps the flag right; a single one leaves an idle client idle, its flag being false.
   */
  lemma FinishTracks(s: State, t: TaskId, task: Task, fates: Fates)
    requires t in s.tasks && task == s.tasks[t] && TaskConnOk(s, t) && TodoOk(task) && task.pc == Executing
    ensures var (outcome, after) :=
              ExecOnClient(task.todo[0], PreResolves(task.pooler, task.todo[0]), task.inTxn,
                           s.conns[task.conn.value].server, fates);
            Tracks(AfterStatement(task, outcome).inTxn, after)
  {
    var k := task.todo[0];
    assert TodoFits(task, k);
    if task.job == SingleJob {
      assert k.effect != Opens;
    } else {
      StatementKeepsTracking(k, PreResolves(task.pooler, k), task.inTxn, s.conns[task.conn.value].server, fates);
    }
  }

  lemma FinishShape(s: State, t: TaskId, fates: Fates, s': State)
    requires t in s.tasks && SelfOk(s, t) && FiredOk(s) && FinishStep(s, t, fates) == Some(s')
    ensures PrivateChange(s, s', t) && NewConnsOk(s, s')
  {
    FinishTracks(s, t, s.tasks[t], fates);
  }

  lemma FinishSelf(s: State, t: TaskId, fates: Fates, s': State)
    requires t in s.tasks && SelfOk(s, t) && FiredOk(s) && FinishStep(s, t, fates) == Some(s')
    ensures t in s'.tasks && SelfOk(s', t)
  {
    FinishTracks(s, t, s.tasks[t], fates);
  }

  lemma FinishKeeps(s: State, t: TaskId, fates: Fates, s': State)
    requires Inv(s) && FinishStep(s, t, fates) == Some(s')
    ensures Inv(s')
  {
    SelfFromInv(s, t);
    FinishShape(s, t, fates, s');
    FinishSelf(s, t, fates, s');
    PrivateKeeps(s, s', t);
  }

  lemma ShootShape(s: State, t: TaskId, c: ConnId, s': State)
    requires t in s.tasks && SelfOk(s, t) && FiredOk(s) && ShootStep(s, t, c) == Some(s')
    ensures PrivateChange(s, s', t) && NewConnsOk(s, s')
  {
    Registering(SetConn(s, c, InTxn, HeldBy(t)), t, s.tasks[t].(pc := OneShot, shot := Some(c)), c, s');
  }

  lemma ShootSelf(s: State, t: TaskId, c: ConnId, s': State)
    requires t in s.tasks && SelfOk(s, t) && FiredOk(s) && ShootStep(s, t, c) == Some(s')
    ensures t in s'.tasks && SelfOk(s', t)
  {
    Registering(SetConn(s, c, InTxn, HeldBy(t)), t, s.tasks[t].(pc := OneShot, shot := Some(c)), c, s');
    RegisteredGuard(SetConn(s, c, InTxn, HeldBy(t)), t, s.tasks[t].(pc := OneShot, shot := Some(c)), c, s');
  }

  lemma ShootKeeps(s: State, t: TaskId, c: ConnId, s': State)
    requires Inv(s) && ShootStep(s, t, c) == Some(s')
    ensures Inv(s')
  {
    SelfFromInv(s, t);
    ShootShape(s, t, c, s');
    ShootSelf(s, t, c, s');
    PrivateKeeps(s, s', t);
  }

  lemma ShootFailsShape(s: State, t: TaskId, s': State)
    requires t in s.tasks && SelfOk(s, t) && FiredOk(s) && ShootFailsStep(s, t) == Some(s')
    ensures PrivateChange(s, s', t) && NewConnsOk(s, s')
  {
  }

  lemma ShootFailsSelf(s: State, t: TaskId, s': State)
    requires t in s.tasks && SelfOk(s, t) && FiredOk(s) && ShootFailsStep(s, t) == Some(s')
    ensures t in s'.tasks && SelfOk(s', t)
  {
  }

  lemma ShootFailsKeeps(s: State, t: TaskId, s': State)
    requires Inv(s) && ShootFailsStep(s, t) == Some(s')
    ensures Inv(s')
  {
    SelfFromInv(s, t);
    ShootFailsShape(s, t, s');
    ShootFailsSelf(s, t, s');
    PrivateKeeps(s, s', t);
  }

  /** The one-shot client closes, the task and its registry entry move on, and nothing else changes. */
  lemma ShotDoneChange(s: State, t: TaskId, ok: bool, s': State)
    requires t in s.tasks && SelfOk(s, t) && ShotDoneStep(s, t, ok) == Some(s')
    ensures var task := s.tasks[t];
            && s'.conns == s.conns[task.shot.value := Conn(Closed, Dropped)]
            && t in s'.tasks && SamePlace(task, s'.tasks[t])
            && s' == s.(conns := s'.conns, tasks := s.tasks[t := s'.tasks[t]], handles := s'.handles)
            && s'.handles == if task.req.Some? then s.handles - {task.req.value} else s.handles
  {
    var task := s.tasks[t];
    var task' := AfterStatement(task, QueryOutcome(ok, false)).(pc := Rearming, shot := None);
    Unregistering(SetConn(s, task.shot.value, Closed, Dropped), t, task', s');
  }

  lemma ShotDoneShape(s: State, t: TaskId, ok: bool, s': State)
    requires t in s.tasks && SelfOk(s, t) && FiredOk(s) && ShotDoneStep(s, t, ok) == Some(s')
    ensures PrivateChange(s, s', t) && NewConnsOk(s, s')
  {
    ShotDoneChange(s, t, ok, s');
  }

  lemma ShotDoneSelf(s: State, t: TaskId, ok: bool, s': State)
    requires t in s.tasks && SelfOk(s, t) && FiredOk(s) && ShotDoneStep(s, t, ok) == Some(s')
    ensures t in s'.tasks && SelfOk(s', t)
  {
    var task := s.tasks[t];
    var task' := AfterStatement(task, QueryOutcome(ok, false)).(pc := Rearming, shot := None);
    Unregistering(SetConn(s, task.shot.value, Closed, Dropped), t, task', s');
  }

  lemma ShotDoneKeeps(s: State, t: TaskId, ok: bool, s': State)
    requires Inv(s) && ShotDoneStep(s, t, ok) == Some(s')
    ensures Inv(s')
  {
    SelfFromInv(s, t);
    ShotDoneShape(s, t, ok, s');
    ShotDoneSelf(s, t, ok, s');
    PrivateKeeps(s, s', t);
  }

  lemma LaunchShape(s: State, t: TaskId, c: ConnId, s': State)
    requires t in s.tasks && SelfOk(s, t) && FiredOk(s) && LaunchStep(s, t, c) == Some(s')
    ensures PrivateChange(s, s', t) && NewConnsOk(s, s')
  {
    Registering(SetConn(s, c, InTxn, HeldBy(t)), t, s.tasks[t].(pc := Alone, shot := Some(c)), c, s');
  }

  lemma LaunchSelf(s: State, t: TaskId, c: ConnId, s': State)
    requires t in s.tasks && SelfOk(s, t) && FiredOk(s) && LaunchStep(s, t, c) == Some(s')
    ensures t in s'.tasks && SelfOk(s', t)
  {
    Registering(SetConn(s, c, InTxn, HeldBy(t)), t, s.tasks[t].(pc := Alone, shot := Some(c)), c, s');
    RegisteredGuard(SetConn(s, c, InTxn, HeldBy(t)), t, s.tasks[t].(pc := Alone, shot := Some(c)), c, s');
  }

  lemma LaunchKeeps(s: State, t: TaskId, c: ConnId, s': State)
    requires Inv(s) && LaunchStep(s, t, c) == Some(s')
    ensures Inv(s')
  {
    SelfFromInv(s, t);
    LaunchShape(s, t, c, s');
    LaunchSelf(s, t, c, s');
    PrivateKeeps(s, s', t);
  }

  lemma LaunchFailsSelf(s: State, t: TaskId, s': State)
    requires t in s.tasks && SelfOk(s, t) && FiredOk(s) && LaunchFailsStep(s, t) == Some(s')
    ensures PrivateChange(s, s', t) && NewConnsOk(s, s') && SelfOk(s', t)
  {
  }

  lemma LaunchFailsKeeps(s: State, t: TaskId, s': State)
    requires Inv(s) && LaunchFailsStep(s, t) == Some(s')
    ensures Inv(s')
  {
    SelfFromInv(s, t);
    LaunchFailsSelf(s, t, s');
    PrivateKeeps(s, s', t);
  }

  lemma AloneDoneShape(s: State, t: TaskId, s': State)
    requires t in s.tasks && SelfOk(s, t) && FiredOk(s) && AloneDoneStep(s, t) == Some(s')
    ensures PrivateChange(s, s', t) && NewConnsOk(s, s')
  {
    var task := s.tasks[t];
    Unregistering(SetConn(s, task.shot.value, Closed, Dropped), t, task.(pc := Leaving, todo := [], shot := None), s');
  }

  lemma AloneDoneSelf(s: State, t: TaskId, s': State)
    requires t in s.tasks && SelfOk(s, t) && FiredOk(s) && AloneDoneStep(s, t) == Some(s')
    ensures t in s'.tasks && SelfOk(s', t)
  {
    var task := s.tasks[t];
    Unregistering(SetConn(s, task.shot.value, Closed, Dropped), t, task.(pc := Leaving, todo := [], shot := None), s');
  }

  lemma AloneDoneKeeps(s: State, t: TaskId, s': State)
    requires Inv(s) && AloneDoneStep(s, t) == Some(s')
    ensures Inv(s')
  {
    SelfFromInv(s, t);
    AloneDoneShape(s, t, s');
    AloneDoneSelf(s, t, s');
    PrivateKeeps(s, s', t);
  }

  lemma EndLoopShape(s: State, t: TaskId, s': State)
    requires t in s.tasks && SelfOk(s, t) && FiredOk(s) && EndLoopStep(s, t) == Some(s')
    ensures PrivateChange(s, s', t) && NewConnsOk(s, s')
  {
    Unregistering(s, t, s.tasks[t].(pc := Settling), s');
  }

  lemma EndLoopSelf(s: State, t: TaskId, s': State)
    requires t in s.tasks && SelfOk(s, t) && FiredOk(s) && EndLoopStep(s, t) == Some(s')
    ensures t in s'.tasks && SelfOk(s', t)
  {
    Unregistering(s, t, s.tasks[t].(pc := Settling), s');
  }

  lemma EndLoopKeeps(s: State, t: TaskId, s': State)
    requires Inv(s) && EndLoopStep(s, t) == Some(s')
    ensures Inv(s')
  {
    SelfFromInv(s, t);
    EndLoopShape(s, t, s');
    EndLoopSelf(s, t, s');
    PrivateKeeps(s, s', t);
  }

  lemma DrainShape(s: State, t: TaskId, fate: Fate, s': State)
    requires t in s.tasks && SelfOk(s, t) && FiredOk(s) && DrainStep(s, t, fate) == Some(s')
    ensures PrivateChange(s, s', t) && NewConnsOk(s, s')
  {
  }

  lemma DrainSelf(s: State, t: TaskId, fate: Fate, s': State)
    requires t in s.tasks && SelfOk(s, t) && FiredOk(s) && DrainStep(s, t, fate) == Some(s')
    ensures t in s'.tasks && SelfOk(s', t)
  {
    DrainBacklog(s, t, fate, s');
    assert s'.tasks[t] == s.tasks[t].(backlog := s'.tasks[t].backlog);
  }

  lemma DrainBacklog(s: State, t: TaskId, fate: Fate, s': State)
    requires t in s.tasks && BacklogOk(s, t) && DrainStep(s, t, fate) == Some(s')
    ensures t in s'.tasks && BacklogOk(s', t)
  {
    var backlog, backlog' := s.tasks[t].backlog, s'.tasks[t].backlog;
    assert forall i :: 0 <= i < |backlog'| ==> backlog'[i] == backlog[i + 1];
  }

  lemma DrainKeeps(s: State, t: TaskId, fate: Fate, s': State)
    requires Inv(s) && DrainStep(s, t, fate) == Some(s')
    ensures Inv(s')
  {
    SelfFromInv(s, t);
    DrainShape(s, t, fate, s');
    DrainSelf(s, t, fate, s');
    PrivateKeeps(s, s', t);
  }

  // -------------------------------------------------------------------------
  // Steps on slots and the session map

  lemma AllTasks(s: State, s': State, t: TaskId)
    requires TasksOk(s) && s'.tasks.Keys <= s.tasks.Keys + {t}
    requires forall u :: u in s.tasks && u != t ==> SameView(s, s', u)
    requires t in s'.tasks ==> TaskOk(s', t)
    ensures TasksOk(s')
  {
    OthersKeep(s, s', t);
  }

  /** A slot untouched by the step, whose client and holder the step leaves in place. */
  ghost predicate SameSlot(s: State, s': State, k: SlotId) {
    && k in s.slots && k in s'.slots && s'.slots[k] == s.slots[k]
    && (s.slots[k].pinned.Some? && s.slots[k].pinned.value in s.conns ==>
          s.slots[k].pinned.value in s'.conns && s'.conns[s.slots[k].pinned.value] == s.conns[s.slots[k].pinned.value])
    && (s.slots[k].holder.Some? && s.slots[k].holder.value in s.tasks ==>
          s.slots[k].holder.value in s'.tasks && s'.tasks[s.slots[k].holder.value] == s.tasks[s.slots[k].holder.value])
  }

  lemma AllSlots(s: State, s': State, changed: SlotId)
    requires SlotsOk(s)
    requires changed in s'.slots ==> SlotOk(s', changed)
    requires forall k :: k in s'.slots && k != changed ==> SameSlot(s, s', k)
    ensures SlotsOk(s')
  {
    forall k | k in s'.slots ensures SlotOk(s', k) {
      if k != changed {
        assert SlotOk(s, k);
      }
    }
  }

  /** The registry and its record are untouched, and no guarded task left. */
  lemma SameRegistry(s: State, s': State, t: TaskId)
    requires HandlesOk(s) && FiredOk(s) && ReqsDistinct(s)
    requires s'.handles == s.handles && s'.serial == s.serial && s'.pending == s.pending && s'.ran == s.ran
    requires s'.tasks.Keys <= s.tasks.Keys
    requires forall u :: u in s.tasks && u != t ==> u in s'.tasks && s'.tasks[u] == s.tasks[u]
    requires t in s.tasks && s.tasks[t].guard == None
    requires t in s'.tasks ==> s'.tasks[t].req == s.tasks[t].req
    ensures HandlesOk(s') && FiredOk(s') && ReqsDistinct(s')
    ensures SerialsDistinct(s) ==> SerialsDistinct(s')
  {
    forall r | r in s'.handles ensures HandleOk(s', r) {
      assert HandleOk(s, r);
    }
  }

  lemma EnterOthers(s: State, t: TaskId, newSlot: SlotId, s': State, u: TaskId)
    requires EnterStep(s, t, newSlot) == Some(s') && u in s.tasks && u != t
    ensures SameView(s, s', u)
  {
  }

  lemma EnterSelf(s: State, t: TaskId, newSlot: SlotId, s': State)
    requires EnterStep(s, t, newSlot) == Some(s') && TaskOk(s, t)
    requires (s.tasks[t].sid.value in s.sessions ==> SessionOk(s, s.tasks[t].sid.value))
    ensures TaskOk(s', t)
  {
  }

  lemma EnterSlots(s: State, t: TaskId, newSlot: SlotId, s': State)
    requires SlotsOk(s) && EnterStep(s, t, newSlot) == Some(s') && TaskOk(s, t)
    ensures SlotsOk(s')
  {
    forall k | k in s'.slots ensures SlotOk(s', k) {
      assert k in s.slots ==> SlotOk(s, k);
    }
  }

  lemma EnterTasks(s: State, t: TaskId, newSlot: SlotId, s': State)
    requires TasksOk(s) && EnterStep(s, t, newSlot) == Some(s') && t in s.tasks
    requires s.tasks[t].sid.Some? && (s.tasks[t].sid.value in s.sessions ==> SessionOk(s, s.tasks[t].sid.value))
    ensures TasksOk(s')
  {
    assert TaskOk(s, t);
    forall u | u in s.tasks && u != t ensures SameView(s, s', u) {
      EnterOthers(s, t, newSlot, s', u);
    }
    EnterSelf(s, t, newSlot, s');
    AllTasks(s, s', t);
  }

  lemma EnterConns(s: State, t: TaskId, newSlot: SlotId, s': State)
    requires ConnsOk(s) && EnterStep(s, t, newSlot) == Some(s')
    ensures ConnsOk(s')
  {
    forall c | c in s'.conns ensures ConnOk(s', c) {
      assert c in s.conns ==> ConnOk(s, c);
    }
  }

  lemma EnterSessions(s: State, t: TaskId, newSlot: SlotId, s': State)
    requires SessionsOk(s) && EnterStep(s, t, newSlot) == Some(s')
    ensures SessionsOk(s')
  {
    forall other | other in s'.sessions ensures SessionOk(s', other) {
      assert other in s.sessions ==> SessionOk(s, other);
    }
  }

  lemma EnterRegistry(s: State, t: TaskId, newSlot: SlotId, s': State)
    requires HandlesOk(s) && FiredOk(s) && ReqsDistinct(s) && SerialsDistinct(s)
    requires EnterStep(s, t, newSlot) == Some(s') && t in s.tasks && s.tasks[t].guard == None
    ensures HandlesOk(s') && FiredOk(s') && ReqsDistinct(s') && SerialsDistinct(s')
  {
    SameRegistry(s, s', t);
  }

  lemma EnterKeeps(s: State, t: TaskId, newSlot: SlotId, s': State)
    requires Inv(s) && EnterStep(s, t, newSlot) == Some(s')
    ensures Inv(s')
  {
    assert TaskOk(s, t);
    assert s.tasks[t].sid.value in s.sessions ==> SessionOk(s, s.tasks[t].sid.value);
    EnterTasks(s, t, newSlot, s');
    EnterConns(s, t, newSlot, s');
    EnterSlots(s, t, newSlot, s');
    EnterSessions(s, t, newSlot, s');
    EnterRegistry(s, t, newSlot, s');
  }

  // The three pieces that take a client out of a slot, drop a slot and unmap a session.

  ghost predicate Taking(s: State, s': State, t: TaskId, k: SlotId) {
    && t in s.tasks && s.tasks[t].pc == Draining && k in s.slots && s.slots[k].holder == None
    && s.slots[k].pinned.Some? && s.slots[k].pinned.value in s.conns
    && s' == TakePinned(s, t, k)
  }

  lemma TakeOthers(s: State, s': State, t: TaskId, k: SlotId, u: TaskId)
    requires Taking(s, s', t, k) && SlotOk(s, k) && u in s.tasks && u != t
    ensures SameView(s, s', u)
  {
  }

  lemma TakeBacklog(s: State, s': State, t: TaskId, k: SlotId)
    requires Taking(s, s', t, k) && SlotOk(s, k) && BacklogOk(s, t)
    ensures t in s'.tasks && BacklogOk(s', t)
  {
    var c := s.slots[k].pinned.value;
    assert s'.tasks[t].backlog == s.tasks[t].backlog + [c];
    assert s'.conns == s.conns[c := Conn(s.conns[c].server, HeldBy(t))] && s.conns[c].loc == PinnedIn(k);
  }

  lemma TakeConn(s: State, s': State, t: TaskId, k: SlotId)
    requires Taking(s, s', t, k) && SlotOk(s, k) && TaskConnOk(s, t)
    ensures t in s'.tasks && TaskConnOk(s', t)
  {
    TakeBacklog(s, s', t, k);
    assert s'.tasks[t] == s.tasks[t].(backlog := s'.tasks[t].backlog);
  }

  lemma TakeSelf(s: State, s': State, t: TaskId, k: SlotId)
    requires Taking(s, s', t, k) && SlotOk(s, k) && TaskOk(s, t)
    ensures TaskOk(s', t)
  {
    TakeConn(s, s', t, k);
    assert s'.tasks[t].slot == s.tasks[t].slot && s'.tasks[t].guard == s.tasks[t].guard;
  }

  lemma TakeTasks(s: State, s': State, t: TaskId, k: SlotId)
    requires Taking(s, s', t, k) && SlotOk(s, k) && TasksOk(s)
    ensures TasksOk(s')
  {
    forall u | u in s.tasks && u != t ensures SameView(s, s', u) {
      TakeOthers(s, s', t, k, u);
    }
    assert TaskOk(s, t);
    TakeSelf(s, s', t, k);
    AllTasks(s, s', t);
  }

  lemma TakeSlots(s: State, s': State, t: TaskId, k: SlotId)
    requires Taking(s, s', t, k) && SlotsOk(s)
    ensures SlotsOk(s')
  {
    assert SlotOk(s, k);
    forall other | other in s'.slots && other != k ensures SameSlot(s, s', other) {
      assert SlotOk(s, other);
    }
    AllSlots(s, s', k);
  }

  lemma TakeRest(s: State, s': State, t: TaskId, k: SlotId)
    requires Taking(s, s', t, k) && ConnsOk(s) && SessionsOk(s)
    ensures ConnsOk(s') && SessionsOk(s')
  {
    forall c | c in s'.conns ensures ConnOk(s', c) {
      assert ConnOk(s, c);
    }
    forall sid | sid in s'.sessions ensures SessionOk(s', sid) {
      assert SessionOk(s, sid);
    }
  }

  lemma TakeRegistry(s: State, s': State, t: TaskId, k: SlotId)
    requires Taking(s, s', t, k) && s.tasks[t].guard == None
    requires HandlesOk(s) && FiredOk(s) && ReqsDistinct(s) && SerialsDistinct(s)
    ensures HandlesOk(s') && FiredOk(s') && ReqsDistinct(s') && SerialsDistinct(s')
  {
    SameRegistry(s, s', t);
  }

  lemma TakeKeeps(s: State, t: TaskId, k: SlotId)
    requires Inv(s) && t in s.tasks && s.tasks[t].pc == Draining && k in s.slots && s.slots[k].holder == None
    ensures Inv(TakePinned(s, t, k))
  {
    assert SlotOk(s, k) && TaskOk(s, t);
    if s.slots[k].pinned.Some? {
      var s' := TakePinned(s, t, k);
      TakeTasks(s, s', t, k);
      TakeSlots(s, s', t, k);
      TakeRest(s, s', t, k);
      TakeRegistry(s, s', t, k);
    }
  }

  ghost predicate Dropping(s: State, s': State, k: SlotId) {
    k in s.slots && !Mapped(s, k) && !Referenced(s, k) && s' == DropUnused(s, k)
  }

  lemma DropUnseen(s: State, s': State, k: SlotId, u: TaskId)
    requires Dropping(s, s', k) && SlotOk(s, k) && u in s.tasks
    ensures SameView(s, s', u)
  {
    assert s.tasks[u].slot != Some(k);
  }

  lemma DropTasks(s: State, s': State, k: SlotId)
    requires Dropping(s, s', k) && SlotOk(s, k) && TasksOk(s)
    ensures TasksOk(s')
  {
    forall u | u in s.tasks ensures TaskOk(s', u) {
      DropUnseen(s, s', k, u);
      SameViewKeeps(s, s', u);
    }
  }

  lemma DropRest(s: State, s': State, k: SlotId)
    requires Dropping(s, s', k) && SlotsOk(s) && ConnsOk(s) && SessionsOk(s)
    ensures SlotsOk(s') && ConnsOk(s') && SessionsOk(s')
  {
    assert SlotOk(s, k);
    forall other | other in s'.slots ensures SlotOk(s', other) {
      assert SlotOk(s, other);
    }
    forall c | c in s'.conns ensures ConnOk(s', c) {
      assert c in s.conns ==> ConnOk(s, c);
    }
    forall sid | sid in s'.sessions ensures SessionOk(s', sid) {
      assert SessionOk(s, sid);
    }
  }

  lemma DropRegistry(s: State, s': State, k: SlotId)
    requires Dropping(s, s', k) && HandlesOk(s) && FiredOk(s) && ReqsDistinct(s) && SerialsDistinct(s)
    ensures HandlesOk(s') && FiredOk(s') && ReqsDistinct(s') && SerialsDistinct(s')
  {
    forall r | r in s'.handles ensures HandleOk(s', r) {
      assert HandleOk(s, r);
    }
  }

  lemma DropKeeps(s: State, k: SlotId)
    requires Inv(s) && k in s.slots
    ensures Inv(DropUnused(s, k))
  {
    if !Mapped(s, k) && !Referenced(s, k) {
      var s' := DropUnused(s, k);
      assert SlotOk(s, k);
      DropTasks(s, s', k);
      DropRest(s, s', k);
      DropRegistry(s, s', k);
    }
  }

  /** A session may leave the map if nobody has its slot's Arc, or once shutdown has started. */
  lemma UnmapTasks(s: State, sid: Sid)
    requires sid in s.sessions && SessionOk(s, sid) && TasksOk(s) && (s.shutdown || !Referenced(s, s.sessions[sid]))
    ensures TasksOk(Unmap(s, sid))
  {
    var s' := Unmap(s, sid);
    forall u | u in s.tasks ensures TaskOk(s', u) {
      UnmapTask(s, sid, u);
    }
  }

  lemma UnmapTask(s: State, sid: Sid, u: TaskId)
    requires sid in s.sessions && SessionOk(s, sid) && (s.shutdown || !Referenced(s, s.sessions[sid]))
    requires u in s.tasks && TaskOk(s, u)
    ensures TaskOk(Unmap(s, sid), u)
  {
    assert !s.shutdown ==> s.tasks[u].slot != Some(s.sessions[sid]);
    assert SameView(s, Unmap(s, sid), u);
    SameViewKeeps(s, Unmap(s, sid), u);
  }

  lemma UnmapKeeps(s: State, sid: Sid)
    requires Inv(s) && sid in s.sessions && (s.shutdown || !Referenced(s, s.sessions[sid]))
    ensures Inv(Unmap(s, sid))
  {
    var s' := Unmap(s, sid);
    assert SessionOk(s, sid);
    UnmapTasks(s, sid);
    UnmapRest(s, sid);
  }

  lemma UnmapRest(s: State, sid: Sid)
    requires SlotsOk(s) && ConnsOk(s) && SessionsOk(s) && HandlesOk(s)
    ensures SlotsOk(Unmap(s, sid)) && ConnsOk(Unmap(s, sid)) && SessionsOk(Unmap(s, sid)) && HandlesOk(Unmap(s, sid))
  {
    var s' := Unmap(s, sid);
    forall k | k in s'.slots ensures SlotOk(s', k) {
      assert SlotOk(s, k);
    }
    forall c | c in s'.conns ensures ConnOk(s', c) {
      assert ConnOk(s, c);
    }
    forall other | other in s'.sessions ensures SessionOk(s', other) {
      assert SessionOk(s, other);
    }
    forall r | r in s'.handles ensures HandleOk(s', r) {
      assert HandleOk(s, r);
    }
  }

  // The lock granted to a release: its Arc goes, then the client, then perhaps the slot.

  lemma LetGoKeeps(s: State, t: TaskId, s': State)
    requires Inv(s) && t in s.tasks && s.tasks[t].pc == Waiting
    requires s' == SetTask(s, t, s.tasks[t].(pc := Draining, slot := None))
    ensures Inv(s')
  {
    assert TaskOk(s, t);
    LetGoTasks(s, t, s');
    LetGoRegistry(s, t, s');
    LetGoRest(s, t, s');
  }

  lemma LetGoRegistry(s: State, t: TaskId, s': State)
    requires HandlesOk(s) && FiredOk(s) && ReqsDistinct(s) && SerialsDistinct(s) && t in s.tasks
    requires s.tasks[t].guard == None
    requires s' == SetTask(s, t, s.tasks[t].(pc := Draining, slot := None))
    ensures HandlesOk(s') && FiredOk(s') && ReqsDistinct(s') && SerialsDistinct(s')
  {
    SameRegistry(s, s', t);
  }

  lemma LetGoTasks(s: State, t: TaskId, s': State)
    requires TasksOk(s) && t in s.tasks && s.tasks[t].pc == Waiting
    requires s' == SetTask(s, t, s.tasks[t].(pc := Draining, slot := None))
    ensures TasksOk(s')
  {
    assert TaskOk(s, t);
    forall u | u in s.tasks && u != t ensures SameView(s, s', u) {
    }
    assert TaskOk(s', t);
    AllTasks(s, s', t);
  }

  lemma LetGoRest(s: State, t: TaskId, s': State)
    requires SlotsOk(s) && ConnsOk(s) && SessionsOk(s) && t in s.tasks && s.tasks[t].pc == Waiting
    requires s' == SetTask(s, t, s.tasks[t].(pc := Draining, slot := None))
    ensures SlotsOk(s') && ConnsOk(s') && SessionsOk(s')
  {
    forall k | k in s'.slots ensures SlotOk(s', k) {
      assert SlotOk(s, k);
    }
    forall c | c in s'.conns ensures ConnOk(s', c) {
      assert ConnOk(s, c);
    }
    forall other | other in s'.sessions ensures SessionOk(s', other) {
      assert SessionOk(s, other);
    }
  }

  // The lock granted to a run.

  ghost predicate Locking(s: State, s': State, t: TaskId) {
    && t in s.tasks && s.tasks[t].pc == Waiting && s.tasks[t].slot.Some? && s.tasks[t].slot.value in s.slots
    && s.slots[s.tasks[t].slot.value].holder == None
    && RunLock(s, t) == Some(s')
  }

  lemma RunLockOthers(s: State, t: TaskId, s': State, u: TaskId)
    requires Locking(s, s', t) && u in s.tasks && u != t
    requires SlotOk(s, s.tasks[t].slot.value)
    ensures SameView(s, s', u)
  {
  }

  /** The task after the lock: on the pinned client if there is one, off to get a client otherwise. */
  function Locked(task: Task, pinned: Option<ConnId>): Task {
    if pinned.None? then task.(pc := Connecting) else task.(pc := Arming, conn := pinned, inTxn := true)
  }

  lemma RunLockTask(s: State, t: TaskId, s': State)
    requires Locking(s, s', t)
    ensures var k := s.tasks[t].slot.value; var cell := s.slots[k];
            && s'.tasks == s.tasks[t := Locked(s.tasks[t], cell.pinned)]
            && s'.slots == s.slots[k := cell.(pinned := None, holder := Some(t))]
            && s'.sessions == s.sessions && s'.shutdown == s.shutdown
            && s'.handles == s.handles && s'.serial == s.serial && s'.pending == s.pending && s'.ran == s.ran
  {
  }

  lemma RunLockPlace(s: State, t: TaskId, s': State)
    requires Locking(s, s', t) && TaskSlotOk(s, t) && SlotOk(s, s.tasks[t].slot.value)
    ensures t in s'.tasks && TaskSlotOk(s', t)
  {
    RunLockTask(s, t, s');
  }

  lemma RunLockSelf(s: State, t: TaskId, s': State)
    requires Locking(s, s', t) && TaskOk(s, t) && SlotOk(s, s.tasks[t].slot.value)
    ensures t in s'.tasks && TaskConnOk(s', t) && TodoOk(s'.tasks[t]) && GuardOk(s', t)
  {
    RunLockTask(s, t, s');
    RunLockConn(s, t, s');
  }

  lemma RunLockConn(s: State, t: TaskId, s': State)
    requires Locking(s, s', t) && TaskConnOk(s, t) && SlotOk(s, s.tasks[t].slot.value)
    ensures t in s'.tasks && TaskConnOk(s', t)
  {
    RunLockTask(s, t, s');
  }

  lemma RunLockTasks(s: State, t: TaskId, s': State)
    requires TasksOk(s) && Locking(s, s', t) && SlotOk(s, s.tasks[t].slot.value)
    ensures TasksOk(s')
  {
    assert TaskOk(s, t);
    forall u | u in s.tasks && u != t ensures SameView(s, s', u) {
      RunLockOthers(s, t, s', u);
    }
    RunLockPlace(s, t, s');
    RunLockSelf(s, t, s');
    AllTasks(s, s', t);
  }

  lemma RunLockOtherSlot(s: State, t: TaskId, s': State, other: SlotId)
    requires Locking(s, s', t) && SlotOk(s, s.tasks[t].slot.value)
    requires other in s.slots && other != s.tasks[t].slot.value && SlotOk(s, other)
    ensures SameSlot(s, s', other)
  {
  }

  lemma RunLockOwnSlot(s: State, t: TaskId, s': State)
    requires Locking(s, s', t)
    ensures s.tasks[t].slot.value in s'.slots && SlotOk(s', s.tasks[t].slot.value) && s'.slots.Keys == s.slots.Keys
  {
  }

  lemma RunLockSlots(s: State, t: TaskId, s': State)
    requires SlotsOk(s) && Locking(s, s', t)
    ensures SlotsOk(s')
  {
    var k := s.tasks[t].slot.value;
    assert SlotOk(s, k);
    RunLockOwnSlot(s, t, s');
    forall other | other in s'.slots && other != k ensures SameSlot(s, s', other) {
      assert SlotOk(s, other);
      RunLockOtherSlot(s, t, s', other);
    }
    AllSlots(s, s', k);
  }

  lemma RunLockRest(s: State, t: TaskId, s': State)
    requires ConnsOk(s) && SessionsOk(s) && Locking(s, s', t)
    ensures ConnsOk(s') && SessionsOk(s')
  {
    forall c | c in s'.conns ensures ConnOk(s', c) {
      assert ConnOk(s, c);
    }
    forall other | other in s'.sessions ensures SessionOk(s', other) {
      assert SessionOk(s, other);
    }
  }

  lemma RunLockRegistry(s: State, t: TaskId, s': State)
    requires HandlesOk(s) && FiredOk(s) && ReqsDistinct(s) && SerialsDistinct(s)
    requires Locking(s, s', t) && s.tasks[t].guard == None
    ensures HandlesOk(s') && FiredOk(s') && ReqsDistinct(s') && SerialsDistinct(s')
  {
    SameRegistry(s, s', t);
  }

  lemma RunLockKeeps(s: State, t: TaskId, s': State)
    requires Inv(s) && Locking(s, s', t)
    ensures Inv(s')
  {
    assert TaskOk(s, t) && SlotOk(s, s.tasks[t].slot.value);
    RunLockTasks(s, t, s');
    RunLockSlots(s, t, s');
    RunLockRest(s, t, s');
    RunLockRegistry(s, t, s');
  }

  lemma LockKeeps(s: State, t: TaskId, s': State)
    requires Inv(s) && LockStep(s, t) == Some(s')
    ensures Inv(s')
  {
    if s.tasks[t].job == ReleaseJob {
      var k := s.tasks[t].slot.value;
      var s1 := SetTask(s, t, s.tasks[t].(pc := Draining, slot := None));
      LetGoKeeps(s, t, s1);
      TakeKeeps(s1, t, k);
      DropKeeps(TakePinned(s1, t, k), k);
    } else {
      RunLockKeeps(s, t, s');
    }
  }

  // Parking: pinning changes the slot; handing the client back is private.

  lemma HandBackShape(s: State, t: TaskId, fate: Fate, s': State)
    requires t in s.tasks && SelfOk(s, t) && s.tasks[t].pc == Settling && s' == HandBack(s, t, fate)
    ensures PrivateChange(s, s', t) && NewConnsOk(s, s')
  {
  }

  lemma HandBackSelf(s: State, t: TaskId, fate: Fate, s': State)
    requires t in s.tasks && SelfOk(s, t) && s.tasks[t].pc == Settling && s' == HandBack(s, t, fate)
    ensures t in s'.tasks && SelfOk(s', t)
  {
  }

  ghost predicate Pinning(s: State, s': State, t: TaskId) {
    && t in s.tasks && TaskOk(s, t) && s.tasks[t].pc == Settling && s.tasks[t].inTxn && s.tasks[t].slot.Some?
    && PinClient(s, t) == Some(s')
  }

  lemma PinOthers(s: State, t: TaskId, s': State, u: TaskId)
    requires Pinning(s, s', t) && u in s.tasks && u != t
    ensures SameView(s, s', u)
  {
  }

  lemma PinSelf(s: State, t: TaskId, s': State)
    requires Pinning(s, s', t)
    ensures TaskOk(s', t)
  {
  }

  lemma PinTasks(s: State, t: TaskId, s': State)
    requires TasksOk(s) && Pinning(s, s', t)
    ensures TasksOk(s')
  {
    forall u | u in s.tasks && u != t ensures SameView(s, s', u) {
      PinOthers(s, t, s', u);
    }
    PinSelf(s, t, s');
    AllTasks(s, s', t);
  }

  lemma PinSlots(s: State, t: TaskId, s': State)
    requires SlotsOk(s) && Pinning(s, s', t)
    ensures SlotsOk(s')
  {
    var k := s.tasks[t].slot.value;
    forall other | other in s'.slots && other != k ensures SameSlot(s, s', other) {
      assert SlotOk(s, other);
    }
    assert SlotOk(s, k);
    AllSlots(s, s', k);
  }

  lemma PinRest(s: State, t: TaskId, s': State)
    requires ConnsOk(s) && SessionsOk(s) && Pinning(s, s', t)
    ensures ConnsOk(s') && SessionsOk(s')
  {
    forall c | c in s'.conns ensures ConnOk(s', c) {
      assert ConnOk(s, c);
    }
    forall other | other in s'.sessions ensures SessionOk(s', other) {
      assert SessionOk(s, other);
    }
  }

  lemma PinRegistry(s: State, t: TaskId, s': State)
    requires HandlesOk(s) && FiredOk(s) && ReqsDistinct(s) && SerialsDistinct(s) && Pinning(s, s', t)
    ensures HandlesOk(s') && FiredOk(s') && ReqsDistinct(s') && SerialsDistinct(s')
  {
    SameRegistry(s, s', t);
  }

  lemma ParkKeeps(s: State, t: TaskId, fate: Fate, s': State)
    requires Inv(s) && ParkStep(s, t, fate) == Some(s')
    ensures Inv(s')
  {
    SelfFromInv(s, t);
    assert TaskOk(s, t);
    if s.tasks[t].inTxn && s.tasks[t].slot.Some? {
      PinTasks(s, t, s');
      PinSlots(s, t, s');
      PinRest(s, t, s');
      PinRegistry(s, t, s');
    } else {
      HandBackShape(s, t, fate, s');
      HandBackSelf(s, t, fate, s');
      PrivateKeeps(s, s', t);
    }
  }

  // Leaving.

  ghost predicate Leaves(s: State, s': State, t: TaskId) {
    && t in s.tasks && s.tasks[t].pc == Leaving
    && s' == (if s.tasks[t].slot.Some? && s.tasks[t].slot.value in s.slots then Unlock(s, t)
              else s.(tasks := s.tasks - {t}))
  }

  lemma UnlockOthers(s: State, t: TaskId, s': State, u: TaskId)
    requires Leaves(s, s', t) && TaskSlotOk(s, t) && u in s.tasks && u != t
    ensures SameView(s, s', u)
  {
  }

  lemma UnlockTasks(s: State, t: TaskId, s': State)
    requires TasksOk(s) && Leaves(s, s', t)
    ensures TasksOk(s')
  {
    assert TaskOk(s, t);
    forall u | u in s.tasks && u != t ensures SameView(s, s', u) {
      UnlockOthers(s, t, s', u);
    }
    AllTasks(s, s', t);
  }

  lemma UnlockSlots(s: State, t: TaskId, s': State)
    requires SlotsOk(s) && Leaves(s, s', t) && TaskOk(s, t)
    ensures SlotsOk(s')
  {
    forall k | k in s'.slots ensures SlotOk(s', k) {
      assert SlotOk(s, k);
    }
  }

  lemma UnlockRest(s: State, t: TaskId, s': State)
    requires ConnsOk(s) && SessionsOk(s) && Leaves(s, s', t)
    ensures ConnsOk(s') && SessionsOk(s')
  {
    forall c | c in s'.conns ensures ConnOk(s', c) {
      assert ConnOk(s, c);
    }
    forall other | other in s'.sessions ensures SessionOk(s', other) {
      assert SessionOk(s, other);
    }
  }

  lemma UnlockRegistry(s: State, t: TaskId, s': State)
    requires HandlesOk(s) && FiredOk(s) && ReqsDistinct(s) && SerialsDistinct(s) && Leaves(s, s', t)
    requires s.tasks[t].guard == None
    ensures HandlesOk(s') && FiredOk(s') && ReqsDistinct(s') && SerialsDistinct(s')
  {
    SameRegistry(s, s', t);
  }

  lemma UnlockKeeps(s: State, t: TaskId, s': State)
    requires Inv(s) && Leaves(s, s', t)
    ensures Inv(s')
  {
    assert TaskOk(s, t);
    UnlockTasks(s, t, s');
    UnlockSlots(s, t, s');
    UnlockRest(s, t, s');
    UnlockRegistry(s, t, s');
  }

  lemma LeaveKeeps(s: State, t: TaskId, s': State)
    requires Inv(s) && LeaveStep(s, t) == Some(s')
    ensures Inv(s')
  {
    if s.tasks[t].slot.None? {
      UnlockKeeps(s, t, s');
    } else {
      UnlockKeeps(s, t, Unlock(s, t));
      DropKeeps(Unlock(s, t), s.tasks[t].slot.value);
    }
  }

  // One entry of a sweep or of shutdown.

  lemma SweepKeeps(s: State, t: TaskId, sid: Sid, expired: bool, s': State)
    requires Inv(s) && SweepStep(s, t, sid, expired) == Some(s')
    ensures Inv(s')
  {
    var k := s.sessions[sid];
    if s.slots[k].holder.None? {
      var s1 := if expired then TakePinned(s, t, k) else s;
      if expired {
        TakeKeeps(s, t, k);
      }
      if !(s1.slots[k].pinned.Some? || Referenced(s1, k)) {
        UnmapKeeps(s1, sid);
        DropKeeps(Unmap(s1, sid), k);
      }
    }
  }

  lemma FlagKeeps(s: State)
    requires Inv(s)
    ensures Inv(s.(shutdown := true))
  {
    var s' := s.(shutdown := true);
    assert TasksOk(s') by {
      forall u | u in s.tasks ensures TaskOk(s', u) {
        assert TaskOk(s, u);
        assert SameView(s, s', u);
        SameViewKeeps(s, s', u);
      }
    }
    FlagRest(s, s');
  }

  lemma FlagRest(s: State, s': State)
    requires SlotsOk(s) && ConnsOk(s) && SessionsOk(s) && HandlesOk(s) && s' == s.(shutdown := true)
    ensures SlotsOk(s') && ConnsOk(s') && SessionsOk(s') && HandlesOk(s')
  {
    forall k | k in s'.slots ensures SlotOk(s', k) {
      assert SlotOk(s, k);
    }
    forall c | c in s'.conns ensures ConnOk(s', c) {
      assert ConnOk(s, c);
    }
    forall other | other in s'.sessions ensures SessionOk(s', other) {
      assert SessionOk(s, other);
    }
    forall r | r in s'.handles ensures HandleOk(s', r) {
      assert HandleOk(s, r);
    }
  }

  lemma ShutdownKeeps(s: State, t: TaskId, sid: Sid, s': State)
    requires Inv(s) && ShutdownStep(s, t, sid) == Some(s')
    ensures Inv(s')
  {
    FlagKeeps(s);
    var k := s.sessions[sid];
    if s.slots[k].holder.None? {
      var s0 := s.(shutdown := true);
      TakeKeeps(s0, t, k);
      UnmapKeeps(TakePinned(s0, t, k), sid);
      DropKeeps(Unmap(TakePinned(s0, t, k), sid), k);
    }
  }

  // -------------------------------------------------------------------------
  // Tasks that start and end, cancels, and the environment

  /** Slots, sessions and clients are untouched, and every task a slot names is still there. */
  lemma SameStores(s: State, s': State)
    requires SlotsOk(s) && SessionsOk(s) && ConnsOk(s)
    requires s'.slots == s.slots && s'.sessions == s.sessions && s'.conns == s.conns
    requires forall u :: u in s.tasks && s.tasks[u].slot.Some? ==> u in s'.tasks && s'.tasks[u] == s.tasks[u]
    ensures SlotsOk(s') && SessionsOk(s') && ConnsOk(s')
  {
    forall k | k in s'.slots ensures SlotOk(s', k) {
      assert SlotOk(s, k);
    }
    forall c | c in s'.conns ensures ConnOk(s', c) {
      assert ConnOk(s, c);
    }
    forall other | other in s'.sessions ensures SessionOk(s', other) {
      assert SessionOk(s, other);
    }
  }

  lemma SpawnTasks(s: State, t: TaskId, job: Job, sid: Option<Sid>, req: Option<ReqId>, pooler: bool, hasSchema: bool,
                   todo: seq<Kind>, s': State)
    requires TasksOk(s) && Admitted(job, pooler, todo)
    requires SpawnStep(s, t, job, sid, req, pooler, hasSchema, todo) == Some(s')
    ensures TasksOk(s')
  {
    forall u | u in s.tasks && u != t ensures SameView(s, s', u) {
    }
    assert TaskOk(s', t);
    AllTasks(s, s', t);
  }

  lemma SpawnRegistry(s: State, t: TaskId, job: Job, sid: Option<Sid>, req: Option<ReqId>, pooler: bool,
                      hasSchema: bool, todo: seq<Kind>, s': State)
    requires HandlesOk(s) && FiredOk(s) && ReqsDistinct(s) && SerialsDistinct(s)
    requires SpawnStep(s, t, job, sid, req, pooler, hasSchema, todo) == Some(s')
    ensures HandlesOk(s') && FiredOk(s') && ReqsDistinct(s') && SerialsDistinct(s')
  {
    forall r | r in s'.handles ensures HandleOk(s', r) {
      assert HandleOk(s, r);
    }
  }

  lemma SpawnKeeps(s: State, t: TaskId, job: Job, sid: Option<Sid>, req: Option<ReqId>, pooler: bool, hasSchema: bool,
                   todo: seq<Kind>, s': State)
    requires Inv(s) && Admitted(job, pooler, todo)
    requires SpawnStep(s, t, job, sid, req, pooler, hasSchema, todo) == Some(s')
    ensures Inv(s')
  {
    SpawnTasks(s, t, job, sid, req, pooler, hasSchema, todo, s');
    SpawnRegistry(s, t, job, sid, req, pooler, hasSchema, todo, s');
    SameStores(s, s');
  }

  lemma DrainedOthers(s: State, t: TaskId, s': State, u: TaskId)
    requires DrainedStep(s, t) == Some(s') && u in s.tasks && u != t
    ensures SameView(s, s', u)
  {
  }

  lemma DrainedTasks(s: State, t: TaskId, s': State)
    requires TasksOk(s) && DrainedStep(s, t) == Some(s')
    ensures TasksOk(s')
  {
    forall u | u in s.tasks && u != t ensures SameView(s, s', u) {
      DrainedOthers(s, t, s', u);
    }
    AllTasks(s, s', t);
  }

  lemma DrainedRegistry(s: State, t: TaskId, s': State)
    requires DrainedStep(s, t) == Some(s') && s.tasks[t].guard == None
    requires HandlesOk(s) && FiredOk(s) && ReqsDistinct(s) && SerialsDistinct(s)
    ensures HandlesOk(s') && FiredOk(s') && ReqsDistinct(s') && SerialsDistinct(s')
  {
    SameRegistry(s, s', t);
  }

  lemma DrainedStores(s: State, t: TaskId, s': State)
    requires SlotsOk(s) && SessionsOk(s) && ConnsOk(s) && t in s.tasks && TaskSlotOk(s, t)
    requires DrainedStep(s, t) == Some(s')
    ensures SlotsOk(s') && SessionsOk(s') && ConnsOk(s')
  {
    SameStores(s, s');
  }

  lemma DrainedKeeps(s: State, t: TaskId, s': State)
    requires Inv(s) && DrainedStep(s, t) == Some(s')
    ensures Inv(s')
  {
    assert TaskSlotOk(s, t) && GuardOk(s, t) by {
      assert TaskOk(s, t);
    }
    DrainedTasks(s, t, s');
    DrainedRegistry(s, t, s');
    DrainedStores(s, t, s');
  }

  /** Cancels, firings and pool evictions are seen by no task. */
  lemma UnseenKeeps(s: State, s': State)
    requires SlotsOk(s) && SessionsOk(s) && TasksOk(s)
    requires s' == s.(conns := s'.conns, handles := s'.handles, pending := s'.pending, ran := s'.ran)
    requires forall c :: c in s.conns && s.conns[c].loc != InPool ==> c in s'.conns && s'.conns[c] == s.conns[c]
    requires forall u :: u in s.tasks ==> SameView(s, s', u)
    ensures SlotsOk(s') && SessionsOk(s') && TasksOk(s')
  {
    forall u | u in s.tasks ensures TaskOk(s', u) {
      SameViewKeeps(s, s', u);
    }
    forall k | k in s'.slots ensures SlotOk(s', k) {
      assert SlotOk(s, k);
    }
    forall other | other in s'.sessions ensures SessionOk(s', other) {
      assert SessionOk(s, other);
    }
  }

  lemma CancelHandles(s: State, r: ReqId, s': State)
    requires HandlesOk(s) && FiredOk(s) && SerialsDistinct(s) && r in s.handles && CancelStep(s, r) == Some(s')
    ensures HandlesOk(s') && FiredOk(s')
  {
    assert HandleOk(s, r);
    forall other | other in s'.handles ensures HandleOk(s', other) {
      assert HandleOk(s, other);
      assert s.handles[other].serial != s.handles[r].serial;
    }
  }

  lemma CancelUnseen(s: State, r: ReqId, s': State, u: TaskId)
    requires r in s.handles && CancelStep(s, r) == Some(s') && u in s.tasks
    ensures SameView(s, s', u)
  {
  }

  lemma CancelKeeps(s: State, r: ReqId, s': State)
    requires Inv(s) && CancelStep(s, r) == Some(s')
    ensures Inv(s')
  {
    if r in s.handles {
      forall u | u in s.tasks ensures SameView(s, s', u) {
        CancelUnseen(s, r, s', u);
      }
      UnseenKeeps(s, s');
      CancelHandles(s, r, s');
      assert ConnsOk(s') by {
        forall c | c in s'.conns ensures ConnOk(s', c) {
          assert ConnOk(s, c);
        }
      }
    }
  }

  lemma FireKeeps(s: State, serial: nat, s': State)
    requires Inv(s) && FireStep(s, serial) == Some(s')
    ensures Inv(s')
  {
    assert forall g :: Taken(s, g) <==> Taken(s', g);
    forall u | u in s.tasks ensures SameView(s, s', u) {
    }
    UnseenKeeps(s, s');
    forall r | r in s'.handles ensures HandleOk(s', r) {
      assert HandleOk(s, r);
    }
    forall c | c in s'.conns ensures ConnOk(s', c) {
      assert ConnOk(s, c);
    }
  }

  lemma EvictKeeps(s: State, c: ConnId, s': State)
    requires Inv(s) && EvictStep(s, c) == Some(s')
    ensures Inv(s')
  {
    forall u | u in s.tasks ensures SameView(s, s', u) {
    }
    UnseenKeeps(s, s');
    forall r | r in s'.handles ensures HandleOk(s', r) {
      assert HandleOk(s, r);
    }
    forall other | other in s'.conns ensures ConnOk(s', other) {
      assert ConnOk(s, other);
    }
  }

  lemma DyingTasks(s: State, c: ConnId, s': State)
    requires TasksOk(s) && DyingStep(s, c) == Some(s')
    ensures TasksOk(s')
  {
    forall u | u in s.tasks ensures TaskOk(s', u) {
      assert TaskOk(s, u);
    }
  }

  lemma DyingSlots(s: State, c: ConnId, s': State)
    requires SlotsOk(s) && ConnsOk(s) && SessionsOk(s) && DyingStep(s, c) == Some(s')
    ensures SlotsOk(s') && ConnsOk(s') && SessionsOk(s')
  {
    forall k | k in s'.slots ensures SlotOk(s', k) {
      assert SlotOk(s, k);
    }
    forall other | other in s'.conns ensures ConnOk(s', other) {
      assert ConnOk(s, other);
    }
    forall other | other in s'.sessions ensures SessionOk(s', other) {
      assert SessionOk(s, other);
    }
  }

  lemma DyingKeeps(s: State, c: ConnId, s': State)
    requires Inv(s) && DyingStep(s, c) == Some(s')
    ensures Inv(s')
  {
    DyingTasks(s, c, s');
    DyingSlots(s, c, s');
    assert HandlesOk(s') by {
      forall r | r in s'.handles ensures HandleOk(s', r) {
        assert HandleOk(s, r);
      }
    }
  }

  // -------------------------------------------------------------------------
  // Every step, every run

  /** The steps of a run on its shared client. */
  lemma SharedKeeps(s: State, l: Label, s': State)
    requires Inv(s) && Next(s, l) == Some(s')
    requires l.Connect? || l.ConnectFails? || l.Arm? || l.Configure? || l.Begin? || l.Finish? || l.EndLoop?
    ensures Inv(s')
  {
    match l {
      case Connect(t, c) => ConnectKeeps(s, t, c, s');
      case ConnectFails(t) => ConnectFailsKeeps(s, t, s');
      case Arm(t) => ArmKeeps(s, t, s');
      case Configure(t, fate) => ConfigureKeeps(s, t, fate, s');
      case Begin(t) => BeginKeeps(s, t, s');
      case Finish(t, fates) => FinishKeeps(s, t, fates, s');
      case EndLoop(t) => EndLoopKeeps(s, t, s');
    }
  }

  /** The steps of a one-shot client. */
  lemma OneShotKeeps(s: State, l: Label, s': State)
    requires Inv(s) && Next(s, l) == Some(s')
    requires l.Shoot? || l.ShootFails? || l.ShotDone? || l.Launch? || l.LaunchFails? || l.AloneDone?
    ensures Inv(s')
  {
    match l {
      case Shoot(t, c) => ShootKeeps(s, t, c, s');
      case ShootFails(t) => ShootFailsKeeps(s, t, s');
      case ShotDone(t, ok) => ShotDoneKeeps(s, t, ok, s');
      case Launch(t, c) => LaunchKeeps(s, t, c, s');
      case LaunchFails(t) => LaunchFailsKeeps(s, t, s');
      case AloneDone(t) => AloneDoneKeeps(s, t, s');
    }
  }

  /** The steps of a sweep, a shutdown or a release, of the pool and of cancels. */
  lemma UpkeepKeeps(s: State, l: Label, s': State)
    requires Inv(s) && Next(s, l) == Some(s')
    requires l.SweepEntry? || l.ShutdownEntry? || l.Drain? || l.Drained? || l.Dying? || l.Evict? || l.Cancel? || l.Fire?
    ensures Inv(s')
  {
    match l {
      case SweepEntry(t, key, expired) => SweepKeeps(s, t, key, expired, s');
      case ShutdownEntry(t, key) => ShutdownKeeps(s, t, key, s');
      case Drain(t, fate) => DrainKeeps(s, t, fate, s');
      case Drained(t) => DrainedKeeps(s, t, s');
      case Dying(c) => DyingKeeps(s, c, s');
      case Evict(c) => EvictKeeps(s, c, s');
      case Cancel(r) => CancelKeeps(s, r, s');
      case Fire(serial) => FireKeeps(s, serial, s');
    }
  }

  /** The steps that start a task, take it into its session and out of it. */
  lemma SessionKeeps(s: State, l: Label, s': State)
    requires Inv(s) && Next(s, l) == Some(s')
    requires l.Spawn? || l.Enter? || l.Lock? || l.Park? || l.Leave?
    ensures Inv(s')
  {
    match l {
      case Spawn(t, job, sid, req, pooler, hasSchema, todo) =>
        SpawnKeeps(s, t, job, sid, req, pooler, hasSchema, todo, s');
      case Enter(t, newSlot) => EnterKeeps(s, t, newSlot, s');
      case Lock(t) => LockKeeps(s, t, s');
      case Park(t, fate) => ParkKeeps(s, t, fate, s');
      case Leave(t) => LeaveKeeps(s, t, s');
    }
  }

  lemma StepKeeps(s: State, l: Label, s': State)
    requires Inv(s) && Next(s, l) == Some(s')
    ensures Inv(s')
  {
    if l.Spawn? || l.Enter? || l.Lock? || l.Park? || l.Leave? {
      SessionKeeps(s, l, s');
    } else if l.Connect? || l.ConnectFails? || l.Arm? || l.Configure? || l.Begin? || l.Finish? || l.EndLoop? {
      SharedKeeps(s, l, s');
    } else if l.Shoot? || l.ShootFails? || l.ShotDone? || l.Launch? || l.LaunchFails? || l.AloneDone? {
      OneShotKeeps(s, l, s');
    } else {
      UpkeepKeeps(s, l, s');
    }
  }

  lemma {:induction false} RunKeeps(s: State, labels: seq<Label>)
    requires Inv(s) && RunFrom(s, labels).Some?
    ensures Inv(RunFrom(s, labels).value)
    decreases |labels|
  {
    if labels != [] {
      var s' := Next(s, labels[0]).value;
      StepKeeps(s, labels[0], s');
      RunKeeps(s', labels[1..]);
    }
  }

  /** The invariant holds after every run, whatever the interleaving. */
  lemma ReachableInv(s: State)
    requires Reachable(s)
    ensures Inv(s)
  {
    var labels: seq<Label> :| RunFrom(Init(), labels) == Some(s);
    RunKeeps(Init(), labels);
  }
}

/** What one step of the protocol leaves alone: every task but its own, every client but those it is about. */
module Frames {
  import opened Text
  import opened Keywords
  import opened Server
  import opened Protocol
  import opened Invariant

  /** The task that moves; `None` for the steps of the pool and of cancels. */
  function Mover(l: Label): Option<TaskId> {
    match l {
      case Dying(_) => None
      case Evict(_) => None
      case Cancel(_) => None
      case Fire(_) => None
      case _ => Some(l.t)
    }
  }

  function PinnedAt(s: State, k: SlotId): set<ConnId> {
    if k in s.slots && s.slots[k].pinned.Some? then {s.slots[k].pinned.value} else {}
  }

  function PinnedOf(s: State, t: TaskId): set<ConnId> {
    if t in s.tasks && s.tasks[t].slot.Some? then PinnedAt(s, s.tasks[t].slot.value) else {}
  }

  function PinnedUnder(s: State, sid: Sid): set<ConnId> {
    if sid in s.sessions then PinnedAt(s, s.sessions[sid]) else {}
  }

  function Only(c: Option<ConnId>): set<ConnId> {
    if c.Some? then {c.value} else {}
  }

  /** The task's own clients: the shared one, the one-shot one, the next one to release. */
  function Own(s: State, t: TaskId): set<ConnId> {
    if t !in s.tasks then {}
    else
      var task := s.tasks[t];
      Only(task.conn) + Only(task.shot) + Only(if task.backlog == [] then None else Some(task.backlog[0]))
  }

  /** The clients a step may change. */
  function Touched(s: State, l: Label): set<ConnId> {
    match l {
      case Lock(t) => PinnedOf(s, t)
      case Leave(t) => PinnedOf(s, t)
      case Park(t, _) => PinnedOf(s, t) + Own(s, t)
      case SweepEntry(_, key, _) => PinnedUnder(s, key)
      case ShutdownEntry(_, key) => PinnedUnder(s, key)
      case Connect(_, c) => {c}
      case Shoot(_, c) => {c}
      case Launch(_, c) => {c}
      case Dying(c) => {c}
      case Evict(c) => {c}
      case Cancel(_) => {}
      case Fire(_) => {}
      case _ => Own(s, l.t)
    }
  }

  predicate SameConn(s: State, s': State, c: ConnId) {
    c in s.conns ==> c in s'.conns && s'.conns[c] == s.conns[c]
  }

  /** The task is there or not as before, and the same if it is. */
  predicate SameTask(s: State, s': State, u: TaskId) {
    (u in s'.tasks <==> u in s.tasks) && (u in s.tasks ==> s'.tasks[u] == s.tasks[u])
  }

  predicate Early(pc: Pc) {
    pc == Entering || pc == Waiting || pc == Connecting || pc == Arming || pc == Configuring
  }

  /** No session state is set before the loop. */
  predicate EarlyOk(s: State, u: TaskId) {
    u in s.tasks && Early(s.tasks[u].pc) ==> !s.tasks[u].stateSet
  }

  /** Of a task `u` and a client `c`. */
  predicate Frame(s: State, s': State, l: Label, u: TaskId, c: ConnId) {
    && (if Mover(l) == Some(u) then EarlyOk(s, u) ==> EarlyOk(s', u) else SameTask(s, s', u))
    && (c !in Touched(s, l) ==> SameConn(s, s', c))
  }

  // -------------------------------------------------------------------------
  // Pieces of the steps

  lemma Registered(s: State, t: TaskId, task: Task, target: ConnId, s': State)
    requires s' == Register(s, t, task, target) || s' == Unregister(s, t, task)
    ensures s'.conns == s.conns && t in s'.tasks && s'.tasks[t] == task.(guard := s'.tasks[t].guard)
    ensures s'.tasks == s.tasks[t := s'.tasks[t]]
  {
    if s' == Register(s, t, task, target) {
      assert s'.tasks == s.tasks[t := if task.req.None? then task else task.(guard := Some(s.serial))];
    } else {
      assert s'.tasks == s.tasks[t := if task.req.Some? && task.guard.Some? then task.(guard := None) else task];
    }
  }

  lemma TakeFrame(s: State, t: TaskId, k: SlotId, u: TaskId, c: ConnId)
    requires t in s.tasks && k in s.slots
    ensures var s' := TakePinned(s, t, k);
            && t in s'.tasks && k in s'.slots && (u != t ==> SameTask(s, s', u)) && (EarlyOk(s, t) ==> EarlyOk(s', t))
            && (c !in PinnedAt(s, k) ==> SameConn(s, s', c) && c !in PinnedAt(s', k))
  {
  }

  lemma DropFrame(s: State, k: SlotId, c: ConnId)
    requires k in s.slots
    ensures DropUnused(s, k).tasks == s.tasks
    ensures c !in PinnedAt(s, k) ==> SameConn(s, DropUnused(s, k), c)
  {
  }

  lemma UnmapFrame(s: State, sid: Sid, k: SlotId, c: ConnId)
    requires k in s.slots
    ensures DropUnused(Unmap(s, sid), k).tasks == s.tasks
    ensures c !in PinnedAt(s, k) ==> SameConn(s, DropUnused(Unmap(s, sid), k), c)
  {
    DropFrame(Unmap(s, sid), k, c);
  }

  // -------------------------------------------------------------------------
  // The steps

  lemma SpawnFrame(s: State, l: Label, s': State, u: TaskId, c: ConnId)
    requires l.Spawn? && SpawnStep(s, l.t, l.job, l.sid, l.req, l.pooler, l.hasSchema, l.todo) == Some(s')
    ensures Frame(s, s', l, u, c)
  {
  }

  lemma EnterFrame(s: State, t: TaskId, newSlot: SlotId, s': State, u: TaskId, c: ConnId)
    requires EnterStep(s, t, newSlot) == Some(s')
    ensures Frame(s, s', Enter(t, newSlot), u, c)
  {
  }

  lemma LockFrame(s: State, t: TaskId, s': State, u: TaskId, c: ConnId)
    requires LockStep(s, t) == Some(s')
    ensures Frame(s, s', Lock(t), u, c)
  {
    var k := s.tasks[t].slot.value;
    if s.tasks[t].job == ReleaseJob {
      var s1 := SetTask(s, t, s.tasks[t].(pc := Draining, slot := None));
      TakeFrame(s1, t, k, u, c);
      DropFrame(TakePinned(s1, t, k), k, c);
    } else {
      RunLockFrame(s, t, s', u, c);
    }
  }

  lemma RunLockFrame(s: State, t: TaskId, s': State, u: TaskId, c: ConnId)
    requires t in s.tasks && s.tasks[t].slot.Some? && s.tasks[t].slot.value in s.slots && RunLock(s, t) == Some(s')
    requires Early(s.tasks[t].pc)
    ensures Frame(s, s', Lock(t), u, c)
  {
  }

  lemma ConnectFrame(s: State, t: TaskId, d: ConnId, s': State, u: TaskId, c: ConnId)
    requires ConnectStep(s, t, d) == Some(s')
    ensures Frame(s, s', Connect(t, d), u, c)
  {
  }

  lemma ConnectFailsFrame(s: State, t: TaskId, s': State, u: TaskId, c: ConnId)
    requires ConnectFailsStep(s, t) == Some(s')
    ensures Frame(s, s', ConnectFails(t), u, c)
  {
  }

  lemma ArmFrame(s: State, t: TaskId, s': State, u: TaskId, c: ConnId)
    requires ArmStep(s, t) == Some(s')
    ensures Frame(s, s', Arm(t), u, c)
  {
    var task := s.tasks[t];
    var pc := if task.pc == Arming && task.hasSchema && !task.inTxn then Configuring else Ready;
    Registered(s, t, task.(pc := pc), task.conn.value, s');
  }

  /** `apply_search_path` failed: the client goes back as that left it. */
  function Unconfigured(s: State, t: TaskId, fate: Fate): State
    requires HasClient(s, t)
  {
    var c := s.tasks[t].conn.value;
    SetConn(s, c, Statement(NoEffect, false, s.conns[c].server, fate).after, InPool)
  }

  lemma ConfigureFrame(s: State, t: TaskId, fate: Fate, s': State, u: TaskId, c: ConnId)
    requires ConfigureStep(s, t, fate) == Some(s')
    ensures Frame(s, s', Configure(t, fate), u, c)
  {
    var task := s.tasks[t];
    if s' != SetTask(s, t, task.(pc := Ready)) {
      Registered(Unconfigured(s, t, fate), t, task.(pc := Leaving, conn := None), 0, s');
    }
  }

  lemma BeginFrame(s: State, t: TaskId, s': State, u: TaskId, c: ConnId)
    requires BeginStep(s, t) == Some(s')
    ensures Frame(s, s', Begin(t), u, c)
  {
    if GoesOneShot(s.tasks[t]) {
      Registered(s, t, s.tasks[t].(pc := Handover), 0, s');
    }
  }

  lemma FinishFrame(s: State, t: TaskId, fates: Fates, s': State, u: TaskId, c: ConnId)
    requires FinishStep(s, t, fates) == Some(s')
    ensures Frame(s, s', Finish(t, fates), u, c)
  {
  }

  lemma ShootFrame(s: State, t: TaskId, d: ConnId, s': State, u: TaskId, c: ConnId)
    requires ShootStep(s, t, d) == Some(s')
    ensures Frame(s, s', Shoot(t, d), u, c)
  {
    Registered(SetConn(s, d, InTxn, HeldBy(t)), t, s.tasks[t].(pc := OneShot, shot := Some(d)), d, s');
  }

  lemma ShootFailsFrame(s: State, t: TaskId, s': State, u: TaskId, c: ConnId)
    requires ShootFailsStep(s, t) == Some(s')
    ensures Frame(s, s', ShootFails(t), u, c)
  {
  }

  lemma ShotDoneFrame(s: State, t: TaskId, ok: bool, s': State, u: TaskId, c: ConnId)
    requires ShotDoneStep(s, t, ok) == Some(s')
    ensures Frame(s, s', ShotDone(t, ok), u, c)
  {
    var task := AfterStatement(s.tasks[t], QueryOutcome(ok, false)).(pc := Rearming, shot := None);
    Registered(SetConn(s, s.tasks[t].shot.value, Closed, Dropped), t, task, 0, s');
  }

  lemma LaunchFrame(s: State, t: TaskId, d: ConnId, s': State, u: TaskId, c: ConnId)
    requires LaunchStep(s, t, d) == Some(s')
    ensures Frame(s, s', Launch(t, d), u, c)
  {
    Registered(SetConn(s, d, InTxn, HeldBy(t)), t, s.tasks[t].(pc := Alone, shot := Some(d)), d, s');
  }

  lemma LaunchFailsFrame(s: State, t: TaskId, s': State, u: TaskId, c: ConnId)
    requires LaunchFailsStep(s, t) == Some(s')
    ensures Frame(s, s', LaunchFails(t), u, c)
  {
  }

  lemma AloneDoneFrame(s: State, t: TaskId, s': State, u: TaskId, c: ConnId)
    requires AloneDoneStep(s, t) == Some(s')
    ensures Frame(s, s', AloneDone(t), u, c)
  {
    var task := s.tasks[t].(pc := Leaving, todo := [], shot := None);
    Registered(SetConn(s, s.tasks[t].shot.value, Closed, Dropped), t, task, 0, s');
  }

  lemma EndLoopFrame(s: State, t: TaskId, s': State, u: TaskId, c: ConnId)
    requires EndLoopStep(s, t) == Some(s')
    ensures Frame(s, s', EndLoop(t), u, c)
  {
    Registered(s, t, s.tasks[t].(pc := Settling), 0, s');
  }

  lemma ParkFrame(s: State, t: TaskId, fate: Fate, s': State, u: TaskId, c: ConnId)
    requires ParkStep(s, t, fate) == Some(s')
    ensures Frame(s, s', Park(t, fate), u, c)
  {
    if s.tasks[t].inTxn && s.tasks[t].slot.Some? {
      PinFrame(s, t, fate, s', u, c);
    } else {
      HandBackFrame(s, t, fate, u, c);
    }
  }

  lemma HandBackFrame(s: State, t: TaskId, fate: Fate, u: TaskId, c: ConnId)
    requires HasClient(s, t) && s.tasks[t].pc == Settling
    ensures Frame(s, HandBack(s, t, fate), Park(t, fate), u, c)
  {
  }

  lemma PinFrame(s: State, t: TaskId, fate: Fate, s': State, u: TaskId, c: ConnId)
    requires HasClient(s, t) && s.tasks[t].slot.Some? && PinClient(s, t) == Some(s')
    ensures Frame(s, s', Park(t, fate), u, c)
  {
  }

  lemma LeaveFrame(s: State, t: TaskId, s': State, u: TaskId, c: ConnId)
    requires LeaveStep(s, t) == Some(s')
    ensures Frame(s, s', Leave(t), u, c)
  {
    if s.tasks[t].slot.Some? {
      DropFrame(Unlock(s, t), s.tasks[t].slot.value, c);
    }
  }

  lemma SweepFrame(s: State, t: TaskId, sid: Sid, expired: bool, s': State, u: TaskId, c: ConnId)
    requires SweepStep(s, t, sid, expired) == Some(s')
    ensures Frame(s, s', SweepEntry(t, sid, expired), u, c)
  {
    var k := s.sessions[sid];
    if s.slots[k].holder.None? {
      if expired {
        TakeFrame(s, t, k, u, c);
      }
      SweptFrame(s, t, sid, expired, if expired then TakePinned(s, t, k) else s, u, c);
    }
  }

  /** The entry goes if nothing is pinned and nobody has the Arc. */
  lemma SweptFrame(s: State, t: TaskId, sid: Sid, expired: bool, s1: State, u: TaskId, c: ConnId)
    requires sid in s.sessions && s.sessions[sid] in s1.slots
    requires (u != t ==> SameTask(s, s1, u)) && (EarlyOk(s, t) ==> EarlyOk(s1, t))
    requires c !in PinnedAt(s, s.sessions[sid]) ==> SameConn(s, s1, c) && c !in PinnedAt(s1, s.sessions[sid])
    ensures var k := s.sessions[sid];
            var s' := if s1.slots[k].pinned.Some? || Referenced(s1, k) then s1 else DropUnused(Unmap(s1, sid), k);
            Frame(s, s', SweepEntry(t, sid, expired), u, c)
  {
    UnmapFrame(s1, sid, s.sessions[sid], c);
  }

  lemma ShutdownFrame(s: State, t: TaskId, sid: Sid, s': State, u: TaskId, c: ConnId)
    requires ShutdownStep(s, t, sid) == Some(s')
    ensures Frame(s, s', ShutdownEntry(t, sid), u, c)
  {
    var k := s.sessions[sid];
    var s0 := s.(shutdown := true);
    TakeFrame(s0, t, k, u, c);
    UnmapFrame(TakePinned(s0, t, k), sid, k, c);
    assert s' == s0 || s' == DropUnused(Unmap(TakePinned(s0, t, k), sid), k);
  }

  lemma DrainFrame(s: State, t: TaskId, fate: Fate, s': State, u: TaskId, c: ConnId)
    requires DrainStep(s, t, fate) == Some(s')
    ensures Frame(s, s', Drain(t, fate), u, c)
  {
  }

  lemma OutsideFrame(s: State, l: Label, s': State, u: TaskId, c: ConnId)
    requires (Mover(l).None? || l.Drained?) && Next(s, l) == Some(s')
    ensures Frame(s, s', l, u, c)
  {
  }

  lemma StepFrame(s: State, l: Label, s': State, u: TaskId, c: ConnId)
    requires Next(s, l) == Some(s')
    ensures Frame(s, s', l, u, c)
  {
    match l {
      case Spawn(_, _, _, _, _, _, _) => SpawnFrame(s, l, s', u, c);
      case Enter(t, newSlot) => EnterFrame(s, t, newSlot, s', u, c);
      case Lock(t) => LockFrame(s, t, s', u, c);
      case Connect(t, d) => ConnectFrame(s, t, d, s', u, c);
      case ConnectFails(t) => ConnectFailsFrame(s, t, s', u, c);
      case Arm(t) => ArmFrame(s, t, s', u, c);
      case Configure(t, fate) => ConfigureFrame(s, t, fate, s', u, c);
      case Begin(t) => BeginFrame(s, t, s', u, c);
      case Finish(t, fates) => FinishFrame(s, t, fates, s', u, c);
      case Shoot(t, d) => ShootFrame(s, t, d, s', u, c);
      case ShootFails(t) => ShootFailsFrame(s, t, s', u, c);
      case ShotDone(t, ok) => ShotDoneFrame(s, t, ok, s', u, c);
      case Launch(t, d) => LaunchFrame(s, t, d, s', u, c);
      case LaunchFails(t) => LaunchFailsFrame(s, t, s', u, c);
      case AloneDone(t) => AloneDoneFrame(s, t, s', u, c);
      case EndLoop(t) => EndLoopFrame(s, t, s', u, c);
      case Park(t, fate) => ParkFrame(s, t, fate, s', u, c);
      case Leave(t) => LeaveFrame(s, t, s', u, c);
      case SweepEntry(t, key, expired) => SweepFrame(s, t, key, expired, s', u, c);
      case ShutdownEntry(t, key) => ShutdownFrame(s, t, key, s', u, c);
      case Drain(t, fate) => DrainFrame(s, t, fate, s', u, c);
      case _ => OutsideFrame(s, l, s', u, c);
    }
  }

  /** Only its own steps change a task. */
  lemma OthersStay(s: State, l: Label, s': State, u: TaskId)
    requires Next(s, l) == Some(s') && Mover(l) != Some(u)
    ensures SameTask(s, s', u)
  {
    StepFrame(s, l, s', u, 0);
  }

  // -------------------------------------------------------------------------
  // Nobody else's step changes a client that a task holds

  lemma OwnIsHeld(s: State, u: TaskId, c: ConnId, t: TaskId)
    requires TasksOk(s) && c in s.conns && s.conns[c].loc == HeldBy(t) && u != t
    ensures c !in Own(s, u)
  {
    assert u in s.tasks ==> TaskOk(s, u);
  }

  lemma HeldNotPinned(s: State, c: ConnId, t: TaskId)
    requires SlotsOk(s) && c in s.conns && s.conns[c].loc == HeldBy(t)
    ensures forall k :: c !in PinnedAt(s, k)
  {
    forall k ensures c !in PinnedAt(s, k) {
      assert k in s.slots ==> SlotOk(s, k);
    }
  }

  /** A step that takes a client or discards one takes a pooled or a new one. */
  lemma TakesFree(s: State, l: Label, s': State, c: ConnId)
    requires Next(s, l) == Some(s') && c in s.conns
    ensures l.Connect? && l.c == c ==> s.conns[c].loc == InPool
    ensures (l.Shoot? || l.Launch?) ==> l.c != c
    ensures l.Evict? && l.c == c ==> s.conns[c].loc == InPool
  {
  }

  /** A client that a task holds changes only by that task's own steps and by dying. */
  lemma HeldStays(s: State, l: Label, s': State, t: TaskId, c: ConnId)
    requires Inv(s) && Next(s, l) == Some(s') && Mover(l) != Some(t) && l != Dying(c)
    requires c in s.conns && s.conns[c].loc == HeldBy(t)
    ensures c in s'.conns && s'.conns[c] == s.conns[c]
  {
    HeldNotPinned(s, c, t);
    TakesFree(s, l, s', c);
    if Mover(l).Some? {
      OwnIsHeld(s, l.t, c, t);
    }
    StepFrame(s, l, s', t, c);
  }

  // -------------------------------------------------------------------------
  // Nothing is set before the loop

  lemma {:induction false} EarlyRuns(s: State, labels: seq<Label>, t: TaskId)
    requires EarlyOk(s, t) && RunFrom(s, labels).Some?
    ensures EarlyOk(RunFrom(s, labels).value, t)
    decreases |labels|
  {
    if labels != [] {
      var s' := Next(s, labels[0]).value;
      StepFrame(s, labels[0], s', t, 0);
      EarlyRuns(s', labels[1..], t);
    }
  }

  lemma ReachableEarly(s: State, t: TaskId)
    requires Reachable(s)
    ensures EarlyOk(s, t)
  {
    var labels: seq<Label> :| RunFrom(Init(), labels) == Some(s);
    EarlyRuns(Init(), labels, t);
  }
}

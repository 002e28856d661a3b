/** The invariant of the protocol, and what a step of one task must leave alone for the others. */
module Invariant {
  import opened Text
  import opened Keywords
  import opened Server
  import opened Protocol

  // -------------------------------------------------------------------------
  // The invariant, one entity at a time

  /** No connection in the pool has its transaction open or aborted. */
  ghost predicate ConnOk(s: State, c: ConnId)
    requires c in s.conns
  {
    s.conns[c].loc == InPool ==> Tracks(false, s.conns[c].server)
  }

  /** A pinned client sits in its slot with its transaction open; a slot is held by a task that has its Arc. */
  ghost predicate SlotOk(s: State, k: SlotId)
    requires k in s.slots
  {
    var cell := s.slots[k];
    && (cell.pinned.Some? ==>
          && cell.pinned.value in s.conns
          && s.conns[cell.pinned.value].loc == PinnedIn(k)
          && Tracks(true, s.conns[cell.pinned.value].server))
    && (cell.holder.Some? ==>
          && cell.holder.value in s.tasks
          && s.tasks[cell.holder.value].slot == Some(k)
          && HoldsLock(s.tasks[cell.holder.value].pc))
  }

  ghost predicate SessionOk(s: State, sid: Sid)
    requires sid in s.sessions
  {
    s.sessions[sid] in s.slots && s.slots[s.sessions[sid]].key == sid
  }

  /** The part of a task's state that concerns its slot. */
  ghost predicate TaskSlotOk(s: State, t: TaskId)
    requires t in s.tasks
  {
    var task := s.tasks[t];
    && (task.slot.Some? ==>
          && task.slot.value in s.slots
          && task.sid == Some(s.slots[task.slot.value].key)
          && (!s.shutdown ==> Mapped(s, task.slot.value))
          && (HoldsLock(task.pc) ==>
                && s.slots[task.slot.value].holder == Some(t)
                && (task.pc != Leaving ==> s.slots[task.slot.value].pinned == None)))
    && (task.slot.None? <==> task.pc == Entering || task.sid.None? || task.pc == Draining)
  }

  /** The clients it is to release are its own, each once. */
  ghost predicate BacklogOk(s: State, t: TaskId)
    requires t in s.tasks
  {
    var backlog := s.tasks[t].backlog;
    && (forall i :: 0 <= i < |backlog| ==> backlog[i] in s.conns && s.conns[backlog[i]].loc == HeldBy(t))
    && (forall i, j :: 0 <= i < j < |backlog| ==> backlog[i] != backlog[j])
  }

  /** The part that concerns its clients: it holds what it names, and its flag tracks the shared client. */
  ghost predicate TaskConnOk(s: State, t: TaskId)
    requires t in s.tasks
  {
    var task := s.tasks[t];
    && (task.conn.Some? <==> HasConn(task.pc))
    && (task.conn.Some? ==>
          && task.conn.value in s.conns
          && s.conns[task.conn.value].loc == HeldBy(t)
          && Tracks(task.inTxn, s.conns[task.conn.value].server))
    && (task.shot.Some? <==> task.pc == OneShot || task.pc == Alone)
    && (task.shot.Some? ==>
          task.shot.value in s.conns && s.conns[task.shot.value].loc == HeldBy(t) && task.shot != task.conn)
    && (task.pc == Configuring || task.pc == Handover || task.pc == OneShot ==> !task.inTxn)
    && (task.pc != Draining ==> task.backlog == [])
    && BacklogOk(s, t)
  }

  /** What the statements still to run are known not to do. */
  predicate TodoFits(task: Task, k: Kind) {
    if task.job != SingleJob then Trackable(k)
    else task.pc == Launching || task.pc == Alone || (k.effect != Opens && !(task.pooler && k.rows))
  }

  ghost predicate TodoOk(task: Task) {
    && (forall i :: 0 <= i < |task.todo| ==> TodoFits(task, task.todo[i]))
    && (task.job == SingleJob ==> task.sid == None && !task.inTxn)
    && (task.pc == Executing || task.pc == Handover || task.pc == OneShot ==> task.todo != [])
    && (task.pc == Handover || task.pc == OneShot ==> task.todo[0].rows)
  }

  predicate Taken(s: State, serial: nat) {
    serial in s.pending || serial in s.ran
  }

  /** The program points at which a guard is alive. */
  predicate Guarded(pc: Pc) {
    pc == Configuring || pc == Ready || pc == Executing || pc == OneShot || pc == Alone
  }

  /** The client whose statements a guarded task runs. */
  function Target(task: Task): Option<ConnId> {
    if task.pc == OneShot || task.pc == Alone then task.shot else task.conn
  }

  /**
   While a guarded task runs, the registry maps its request to its current client, unless a cancel took that very
   registration.
   */
  ghost predicate GuardOk(s: State, t: TaskId)
    requires t in s.tasks
  {
    var task := s.tasks[t];
    && (task.guard.Some? <==> task.req.Some? && Guarded(task.pc))
    && (task.guard.Some? && task.req.Some? && Target(task).Some? ==>
          var g := task.guard.value;
          && g < s.serial
          && (|| (task.req.value in s.handles && s.handles[task.req.value] == Action(Target(task).value, g, t))
              || Taken(s, g)))
  }

  ghost predicate TaskOk(s: State, t: TaskId)
    requires t in s.tasks
  {
    TaskSlotOk(s, t) && TaskConnOk(s, t) && TodoOk(s.tasks[t]) && GuardOk(s, t)
  }

  /** Every registered action belongs to a live guard and has not been taken. */
  ghost predicate HandleOk(s: State, r: ReqId)
    requires r in s.handles
  {
    var a := s.handles[r];
    && a.serial < s.serial && !Taken(s, a.serial)
    && a.task in s.tasks && s.tasks[a.task].req == Some(r) && s.tasks[a.task].guard == Some(a.serial)
  }

  /** Taken actions are old, wait or have run, and have run at most once. */
  ghost predicate FiredOk(s: State) {
    && (forall g :: g in s.pending ==> g < s.serial && g !in s.ran)
    && (forall g :: g in s.ran ==> g < s.serial && s.ran[g] == 1)
  }

  ghost predicate ReqsDistinct(s: State) {
    forall t, u :: t in s.tasks && u in s.tasks && t != u && s.tasks[t].req.Some? ==> s.tasks[t].req != s.tasks[u].req
  }

  /** No two registrations share a serial number. */
  ghost predicate SerialsDistinct(s: State) {
    forall r, q :: r in s.handles && q in s.handles && r != q ==> s.handles[r].serial != s.handles[q].serial
  }

  ghost predicate ConnsOk(s: State) { forall c :: c in s.conns ==> ConnOk(s, c) }
  ghost predicate SlotsOk(s: State) { forall k :: k in s.slots ==> SlotOk(s, k) }
  ghost predicate SessionsOk(s: State) { forall sid :: sid in s.sessions ==> SessionOk(s, sid) }
  ghost predicate TasksOk(s: State) { forall t :: t in s.tasks ==> TaskOk(s, t) }
  ghost predicate HandlesOk(s: State) { forall r :: r in s.handles ==> HandleOk(s, r) }

  ghost predicate Inv(s: State) {
    ConnsOk(s) && SlotsOk(s) && SessionsOk(s) && TasksOk(s) && HandlesOk(s) && FiredOk(s) && ReqsDistinct(s)
    && SerialsDistinct(s)
  }

  // -------------------------------------------------------------------------
  // Frames: what a step of task `t` leaves alone

  /** Another task's view of the state is the same after the step. */
  ghost predicate SameView(s: State, s': State, u: TaskId)
    requires u in s.tasks
  {
    && u in s'.tasks && s'.tasks[u] == s.tasks[u]
    && (forall c :: c in s.conns && s.conns[c].loc == HeldBy(u) ==> c in s'.conns && s'.conns[c] == s.conns[c])
    && (s.tasks[u].slot.Some? && s.tasks[u].slot.value in s.slots ==>
          var k := s.tasks[u].slot.value;
          && k in s'.slots && s'.slots[k].key == s.slots[k].key
          && (s.slots[k].holder == Some(u) ==> s'.slots[k] == s.slots[k])
          && (Mapped(s, k) && !s'.shutdown ==> Mapped(s', k)))
    && (s.shutdown ==> s'.shutdown)
    && s.serial <= s'.serial
    && (forall g :: Taken(s, g) ==> Taken(s', g))
    && (s.tasks[u].req.Some? && s.tasks[u].req.value in s.handles ==>
          || (s.tasks[u].req.value in s'.handles && s'.handles[s.tasks[u].req.value] == s.handles[s.tasks[u].req.value])
          || Taken(s', s.handles[s.tasks[u].req.value].serial))
  }

  lemma SameViewKeeps(s: State, s': State, u: TaskId)
    requires u in s.tasks && TaskOk(s, u) && SameView(s, s', u)
    ensures TaskOk(s', u)
  {
  }
}

/** What the protocol's invariant gives over whole runs. */
module Safety {
  import opened Text
  import opened Keywords
  import opened Server
  import opened Protocol
  import opened Invariant
  import Preservation
  import Batch
  import Session

  lemma ReachableTask(s: State, t: TaskId)
    requires Reachable(s) && t in s.tasks
    ensures TaskOk(s, t)
  {
    Preservation.ReachableInv(s);
  }

  // -------------------------------------------------------------------------
  // Connections

  /** In every interleaving, a client in the pool has no transaction open and none aborted. */
  lemma PoolIsClean(s: State, c: ConnId)
    requires Reachable(s) && c in s.conns && s.conns[c].loc == InPool
    ensures s.conns[c].server == Idle || s.conns[c].server == Closed
  {
    Preservation.ReachableInv(s);
    assert ConnOk(s, c);
  }

  /** A run that pins its client finds the slot empty. */
  lemma PinFindsSlotEmpty(s: State, t: TaskId, fate: Fate, s': State)
    requires Reachable(s) && Next(s, Park(t, fate)) == Some(s')
    requires s.tasks[t].inTxn && s.tasks[t].slot.Some?
    ensures var k := s.tasks[t].slot.value;
            && s.slots[k].pinned == None
            && s'.slots[k].pinned == s.tasks[t].conn
            && s'.conns[s.tasks[t].conn.value].loc == PinnedIn(k)
  {
    ReachableTask(s, t);
  }

  /** Between statements and during them, a run's flag is its client's transaction state, unless that client is dead. */
  lemma FlagIsServerState(s: State, t: TaskId)
    requires Reachable(s) && t in s.tasks && HasConn(s.tasks[t].pc)
    ensures var task := s.tasks[t];
            && task.conn.Some? && task.conn.value in s.conns
            && var server := s.conns[task.conn.value].server;
               && server != Aborted
               && (server != Closed ==> (task.inTxn <==> server == InTxn))
  {
    ReachableTask(s, t);
  }

  // -------------------------------------------------------------------------
  // The steps are those of the imperative code

  function ProgressOf(s: State, task: Task): Batch.Progress
    requires task.conn.Some? && task.conn.value in s.conns
  {
    Batch.Progress(task.inTxn, task.stateSet, s.conns[task.conn.value].server)
  }

  /** What one turn of the batch loop makes of the task's next statement. */
  function LoopTurn(s: State, task: Task, ch: Batch.Choices): Batch.Progress
    requires task.conn.Some? && task.conn.value in s.conns && task.todo != []
  {
    Batch.RunOne(task.todo[0], task.pooler, task.hasSchema, ProgressOf(s, task), ch).1
  }

  /** A statement the protocol runs on the shared client does what one turn of the batch loop does. */
  lemma FinishIsLoopTurn(s: State, t: TaskId, ch: Batch.Choices, s': State)
    requires Next(s, Finish(t, ch.shared)) == Some(s') && s.tasks[t].job != SingleJob && !GoesOneShot(s.tasks[t])
    ensures HasClient(s', t) && s'.tasks[t].todo == s.tasks[t].todo[1..]
    ensures ProgressOf(s', s'.tasks[t]) == LoopTurn(s, s.tasks[t], ch)
  {
    assert FinishStep(s, t, ch.shared) == Some(s');
  }

  /** What the end of a one-shot statement does to its task. */
  lemma ShotDoneTask(s: State, t: TaskId, ok: bool, s': State)
    requires ShotDoneStep(s, t, ok) == Some(s') && HasClient(s, t) && s.tasks[t].shot != s.tasks[t].conn
    ensures HasClient(s', t) && s'.conns[s'.tasks[t].conn.value] == s.conns[s.tasks[t].conn.value]
    ensures var task := AfterStatement(s.tasks[t], QueryOutcome(ok, false));
            s'.tasks[t] == task.(pc := Rearming, shot := None, guard := s'.tasks[t].guard)
  {
    var task := s.tasks[t];
    Unregistered(SetConn(s, task.shot.value, Closed, Dropped), t,
                 AfterStatement(task, QueryOutcome(ok, false)).(pc := Rearming, shot := None), s');
  }

  lemma Unregistered(s: State, t: TaskId, task: Task, s': State)
    requires s' == Unregister(s, t, task)
    ensures s'.conns == s.conns && t in s'.tasks && s'.tasks[t] == task.(guard := s'.tasks[t].guard)
  {
    if task.req.Some? && task.guard.Some? {
      assert s' == SetTask(s.(handles := s.handles - {task.req.value}), t, task.(guard := None));
    } else {
      assert s' == SetTask(s, t, task);
    }
  }

  /** So does a statement it runs on a one-shot client, whose result is that of the one-shot transaction. */
  lemma ShotIsLoopTurn(s: State, t: TaskId, ok: bool, ch: Batch.Choices, s': State)
    requires Reachable(s) && Next(s, ShotDone(t, ok)) == Some(s') && GoesOneShot(s.tasks[t])
    requires ch.connects && ok == PinnedTxn(s.tasks[t].todo[0], s.tasks[t].hasSchema, ch.oneShot).0
    ensures HasClient(s, t) && HasClient(s', t) && s'.tasks[t].todo == s.tasks[t].todo[1..]
    ensures ProgressOf(s', s'.tasks[t]) == LoopTurn(s, s.tasks[t], ch)
  {
    ReachableTask(s, t);
    ShotTurns(s, t, ok, ch, s');
  }

  lemma ShotTurns(s: State, t: TaskId, ok: bool, ch: Batch.Choices, s': State)
    requires IsAt(s, t, OneShot) && TaskConnOk(s, t) && s.tasks[t].todo != []
    requires GoesOneShot(s.tasks[t]) && ch.connects && ShotDoneStep(s, t, ok) == Some(s')
    requires ok == PinnedTxn(s.tasks[t].todo[0], s.tasks[t].hasSchema, ch.oneShot).0
    ensures HasClient(s, t) && HasClient(s', t) && s'.tasks[t].todo == s.tasks[t].todo[1..]
    ensures ProgressOf(s', s'.tasks[t]) == LoopTurn(s, s.tasks[t], ch)
  {
    var task := s.tasks[t];
    ShotDoneTask(s, t, ok, s');
    Batch.OneShotTurn(task.todo[0], task.pooler, task.hasSchema, ProgressOf(s, task), ch);
  }

  /** And one whose one-shot client cannot be acquired. */
  lemma ShootFailsIsLoopTurn(s: State, t: TaskId, ch: Batch.Choices, s': State)
    requires Reachable(s) && Next(s, ShootFails(t)) == Some(s') && GoesOneShot(s.tasks[t]) && !ch.connects
    ensures HasClient(s, t) && HasClient(s', t) && s'.tasks[t].todo == s.tasks[t].todo[1..]
    ensures ProgressOf(s', s'.tasks[t]) == LoopTurn(s, s.tasks[t], ch)
  {
    ReachableTask(s, t);
  }

  /** A single statement on a pooled client leaves the state that `exec_query` leaves, and the flag stays false. */
  lemma FinishIsSingle(s: State, t: TaskId, fates: Fates, s': State)
    requires Reachable(s) && Next(s, Finish(t, fates)) == Some(s') && s.tasks[t].job == SingleJob
    ensures HasClient(s', t) && !s'.tasks[t].inTxn
    ensures var task := s.tasks[t]; var c := task.conn.value;
            s'.conns[c].server == ExecOnClient(task.todo[0], !task.pooler, false, s.conns[c].server, fates).1
  {
    ReachableTask(s, t);
    assert TodoFits(s.tasks[t], s.tasks[t].todo[0]);
  }

  /** The tasks that hold the slot's Arc. */
  function Holders(s: State, k: SlotId): set<TaskId> {
    set u | u in s.tasks && s.tasks[u].slot == Some(k)
  }

  /** What the session map sees of a slot. */
  function FaceOf(s: State, k: SlotId): Session.Face<ConnId>
    requires k in s.slots
  {
    Session.Face(s.slots[k].pinned, s.slots[k].holder.Some?, |Holders(s, k)|)
  }

  /** Entering a session is the lookup of the session map: the same slot, the same map, and the slot looks the same. */
  lemma EnterIsLookup(s: State, t: TaskId, newSlot: SlotId, s': State)
    requires Reachable(s) && Next(s, Enter(t, newSlot)) == Some(s')
    ensures s.tasks[t].sid.Some? && s'.tasks[t].slot.Some? && s'.tasks[t].slot.value in s'.slots
    ensures var sid, k := s.tasks[t].sid.value, s'.tasks[t].slot.value;
            && (k, s'.sessions) == Session.OrDefault(s.sessions, sid, newSlot)
            && (sid in s.sessions ==> k in s.slots)
            && FaceOf(s', k) == Session.Entered(if sid in s.sessions then Some(FaceOf(s, k)) else None)
  {
    ReachableTask(s, t);
    Preservation.ReachableInv(s);
    assert s.tasks[t].sid.value in s.sessions ==> SessionOk(s, s.tasks[t].sid.value);
    EnterLooksUp(s, t, newSlot, s');
  }

  lemma EnterLooksUp(s: State, t: TaskId, newSlot: SlotId, s': State)
    requires TasksOk(s) && EnterStep(s, t, newSlot) == Some(s') && s.tasks[t].slot.None?
    requires s.tasks[t].sid.value in s.sessions ==> SessionOk(s, s.tasks[t].sid.value)
    ensures s'.tasks[t].slot.Some? && s'.tasks[t].slot.value in s'.slots
    ensures var sid, k := s.tasks[t].sid.value, s'.tasks[t].slot.value;
            && (k, s'.sessions) == Session.OrDefault(s.sessions, sid, newSlot)
            && (sid in s.sessions ==> k in s.slots)
            && FaceOf(s', k) == Session.Entered(if sid in s.sessions then Some(FaceOf(s, k)) else None)
  {
    var sid, k := s.tasks[t].sid.value, s'.tasks[t].slot.value;
    if sid !in s.sessions {
      NoHolders(s, k);
    }
    assert s'.tasks == s.tasks[t := s'.tasks[t]];
    OneMoreHolder(s, t, k, s');
  }

  lemma OneMoreHolder(s: State, t: TaskId, k: SlotId, s': State)
    requires t in s.tasks && s.tasks[t].slot.None?
    requires t in s'.tasks && s'.tasks == s.tasks[t := s'.tasks[t]] && s'.tasks[t].slot == Some(k)
    ensures |Holders(s', k)| == |Holders(s, k)| + 1
  {
    assert Holders(s', k) == Holders(s, k) + {t} && t !in Holders(s, k);
  }

  lemma NoHolders(s: State, k: SlotId)
    requires TasksOk(s) && k !in s.slots
    ensures Holders(s, k) == {}
  {
    forall u | u in s.tasks ensures s.tasks[u].slot != Some(k) {
      assert TaskOk(s, u);
    }
  }

  lemma KeptReferences(s: State, t: TaskId, k: SlotId)
    requires t in s.tasks && k in s.slots
    ensures Referenced(TakePinned(s, t, k), k) <==> Referenced(s, k)
  {
    var s' := TakePinned(s, t, k);
    if u :| u in s.tasks && s.tasks[u].slot == Some(k) {
      assert u in s'.tasks && s'.tasks[u].slot == Some(k);
    }
    if u :| u in s'.tasks && s'.tasks[u].slot == Some(k) {
      assert u in s.tasks && s.tasks[u].slot == Some(k);
    }
  }

  lemma TakenFrom(s: State, t: TaskId, k: SlotId)
    requires t in s.tasks && k in s.slots && SlotOk(s, k)
    ensures var s' := TakePinned(s, t, k);
            s'.sessions == s.sessions && s'.shutdown == s.shutdown && t in s'.tasks
            && s'.slots == s.slots[k := s.slots[k].(pinned := None)]
  {
    assert s.slots[k].pinned.None? ==> s.slots[k].(pinned := None) == s.slots[k];
  }

  /** What a sweep or shutdown does to one entry is what the visit of the session map decides. */
  ghost predicate Visited(s: State, s': State, sid: Sid, stale: bool, shutdown: bool)
    requires sid in s.sessions && s.sessions[sid] in s.slots
  {
    var k := s.sessions[sid];
    var locked, pinned := s.slots[k].holder.Some?, s.slots[k].pinned.Some?;
    && (sid in s'.sessions <==> Session.VisitKeeps(locked, pinned, stale, Referenced(s, k), shutdown))
    && (k in s'.slots ==>
          s'.slots[k].pinned == if Session.VisitTakes(locked, pinned, stale, shutdown) then None else s.slots[k].pinned)
    && (forall other :: other != sid ==> (other in s'.sessions <==> other in s.sessions))
  }

  lemma DropUnusedMaps(s: State, k: SlotId)
    requires k in s.slots
    ensures DropUnused(s, k).sessions == s.sessions
    ensures k in DropUnused(s, k).slots ==> DropUnused(s, k).slots[k] == s.slots[k]
  {
  }

  lemma SweepIsVisit(s: State, t: TaskId, sid: Sid, expired: bool, s': State)
    requires Reachable(s) && Next(s, SweepEntry(t, sid, expired)) == Some(s')
    ensures Visited(s, s', sid, expired, false)
  {
    var k := s.sessions[sid];
    assert SlotOk(s, k) by {
      Preservation.ReachableInv(s);
    }
    assert SweepStep(s, t, sid, expired) == Some(s');
    SweepVisits(s, t, sid, expired, s');
  }

  lemma SweepVisits(s: State, t: TaskId, sid: Sid, expired: bool, s': State)
    requires Retaining(s, t, sid) && SlotOk(s, s.sessions[sid]) && SweepStep(s, t, sid, expired) == Some(s')
    ensures Visited(s, s', sid, expired, false)
  {
    var k := s.sessions[sid];
    var s1 := if expired then TakePinned(s, t, k) else s;
    TakenFrom(s, t, k);
    KeptReferences(s, t, k);
    if s.slots[k].holder.None? && s1.slots[k].pinned.None? && !Referenced(s1, k) {
      DropUnusedMaps(Unmap(s1, sid), k);
    }
  }

  lemma ShutdownIsVisit(s: State, t: TaskId, sid: Sid, stale: bool, s': State)
    requires Reachable(s) && Next(s, ShutdownEntry(t, sid)) == Some(s')
    ensures Visited(s, s', sid, stale, true) && s'.shutdown
  {
    var k := s.sessions[sid];
    assert SlotOk(s, k) by {
      Preservation.ReachableInv(s);
    }
    assert ShutdownStep(s, t, sid) == Some(s');
    ShutdownVisits(s, t, sid, stale, s');
  }

  lemma ShutdownVisits(s: State, t: TaskId, sid: Sid, stale: bool, s': State)
    requires Retaining(s, t, sid) && SlotOk(s, s.sessions[sid]) && ShutdownStep(s, t, sid) == Some(s')
    ensures Visited(s, s', sid, stale, true) && s'.shutdown
  {
    var k := s.sessions[sid];
    var s0 := s.(shutdown := true);
    assert SlotOk(s0, k);
    TakenFrom(s0, t, k);
    if s.slots[k].holder.None? {
      DropUnusedMaps(Unmap(TakePinned(s0, t, k), sid), k);
    }
  }

  // -------------------------------------------------------------------------
  // Sessions

  predicate Uses(task: Task, sid: Sid) {
    task.slot.Some? && task.sid == Some(sid)
  }

  /** Until shutdown starts, every task waiting for a session or inside it has the Arc of the one slot the map holds. */
  lemma OneSlotPerSession(s: State, t: TaskId, sid: Sid)
    requires Reachable(s) && !s.shutdown && t in s.tasks && Uses(s.tasks[t], sid)
    ensures sid in s.sessions && s.tasks[t].slot == Some(s.sessions[sid])
  {
    ReachableTask(s, t);
  }

  /** Until shutdown starts, two runs are never inside the same session. */
  lemma RunsNeverOverlap(s: State, t: TaskId, u: TaskId, sid: Sid)
    requires Reachable(s) && !s.shutdown
    requires t in s.tasks && Uses(s.tasks[t], sid) && HoldsLock(s.tasks[t].pc)
    requires u in s.tasks && Uses(s.tasks[u], sid) && HoldsLock(s.tasks[u].pc)
    ensures t == u
  {
    Preservation.ReachableInv(s);
    assert TaskOk(s, t) && TaskOk(s, u);
  }

  /** The session's slot is mapped and holds client `c`, and shutdown has not started. */
  predicate PinnedAs(s: State, sid: Sid, c: ConnId) {
    !s.shutdown && sid in s.sessions && s.sessions[sid] in s.slots && s.slots[s.sessions[sid]].pinned == Some(c)
  }

  /** The steps that may end a pin: the session's next run or its release, its expiry, shutdown. */
  predicate Disturbs(s: State, l: Label, sid: Sid) {
    || (l.Lock? && l.t in s.tasks && s.tasks[l.t].sid == Some(sid))
    || (l.SweepEntry? && l.key == sid && l.expired)
    || l.ShutdownEntry?
  }

  lemma SameCell(s: State, s': State, sid: Sid, c: ConnId)
    requires PinnedAs(s, sid, c)
    requires !s'.shutdown && sid in s'.sessions && s'.sessions[sid] == s.sessions[sid]
    requires s.sessions[sid] in s'.slots && s'.slots[s.sessions[sid]].pinned == s.slots[s.sessions[sid]].pinned
    ensures PinnedAs(s', sid, c)
  {
  }

  lemma LockElsewhere(s: State, t: TaskId, s': State, sid: Sid, c: ConnId)
    requires t in s.tasks && sid in s.sessions && TaskOk(s, t) && SessionOk(s, sid) && PinnedAs(s, sid, c)
    requires LockStep(s, t) == Some(s') && s.tasks[t].sid != Some(sid)
    ensures PinnedAs(s', sid, c)
  {
    assert s.tasks[t].slot.value != s.sessions[sid];
    SameCell(s, s', sid, c);
  }

  lemma ParkElsewhere(s: State, t: TaskId, fate: Fate, s': State, sid: Sid, c: ConnId)
    requires t in s.tasks && TaskOk(s, t) && PinnedAs(s, sid, c) && ParkStep(s, t, fate) == Some(s')
    ensures PinnedAs(s', sid, c)
  {
    assert s.tasks[t].slot != Some(s.sessions[sid]);
    SameCell(s, s', sid, c);
  }

  lemma LeaveElsewhere(s: State, t: TaskId, s': State, sid: Sid, c: ConnId)
    requires t in s.tasks && sid in s.sessions && TaskOk(s, t) && SessionOk(s, sid) && PinnedAs(s, sid, c)
    requires LeaveStep(s, t) == Some(s')
    ensures PinnedAs(s', sid, c)
  {
    SameCell(s, s', sid, c);
  }

  lemma SweepElsewhere(s: State, t: TaskId, key: Sid, expired: bool, s': State, sid: Sid, c: ConnId)
    requires sid in s.sessions && SessionOk(s, sid) && (key in s.sessions ==> SessionOk(s, key)) && PinnedAs(s, sid, c)
    requires SweepStep(s, t, key, expired) == Some(s') && !(key == sid && expired)
    ensures PinnedAs(s', sid, c)
  {
    assert key != sid ==> s.sessions[key] != s.sessions[sid];
    SameCell(s, s', sid, c);
  }

  lemma EnterElsewhere(s: State, t: TaskId, newSlot: SlotId, s': State, sid: Sid, c: ConnId)
    requires PinnedAs(s, sid, c) && EnterStep(s, t, newSlot) == Some(s')
    ensures PinnedAs(s', sid, c)
  {
  }

  lemma OutsideSteps(s: State, l: Label, s': State)
    requires Next(s, l) == Some(s')
    requires l.Spawn? || l.Drain? || l.Drained? || l.Dying? || l.Evict? || l.Cancel? || l.Fire?
    ensures SameMaps(s, s')
  {
  }

  /** The steps that leave slots and sessions alone. */
  predicate Elsewhere(l: Label) {
    !l.Lock? && !l.Park? && !l.Leave? && !l.SweepEntry? && !l.Enter? && !l.ShutdownEntry?
  }

  lemma ElsewhereMaps(s: State, l: Label, s': State)
    requires Next(s, l) == Some(s') && Elsewhere(l)
    ensures SameMaps(s, s')
  {
    if l.Spawn? || l.Drain? || l.Drained? || l.Dying? || l.Evict? || l.Cancel? || l.Fire? {
      OutsideSteps(s, l, s');
    }
  }

  lemma UndisturbedStep(s: State, l: Label, s': State, sid: Sid, c: ConnId)
    requires TasksOk(s) && SessionsOk(s)
    requires PinnedAs(s, sid, c) && Next(s, l) == Some(s') && !Disturbs(s, l, sid)
    ensures PinnedAs(s', sid, c)
  {
    assert SessionOk(s, sid);
    if Elsewhere(l) {
      ElsewhereMaps(s, l, s');
    } else {
      match l {
        case Lock(t) =>
          assert TaskOk(s, t);
          LockElsewhere(s, t, s', sid, c);
        case Park(t, fate) =>
          assert TaskOk(s, t);
          ParkElsewhere(s, t, fate, s', sid, c);
        case Leave(t) =>
          assert TaskOk(s, t);
          LeaveElsewhere(s, t, s', sid, c);
        case SweepEntry(t, key, expired) =>
          assert key in s.sessions ==> SessionOk(s, key);
          SweepElsewhere(s, t, key, expired, s', sid, c);
        case Enter(t, newSlot) => EnterElsewhere(s, t, newSlot, s', sid, c);
      }
    }
  }

  /** No step of `labels`, taken from `s`, disturbs the session. */
  predicate Undisturbed(s: State, labels: seq<Label>, sid: Sid)
    decreases |labels|
  {
    labels == [] ||
    (&& !Disturbs(s, labels[0], sid)
     && match Next(s, labels[0]) {
          case None => true
          case Some(s') => Undisturbed(s', labels[1..], sid)
        })
  }

  lemma {:induction false} PinSurvives(s: State, labels: seq<Label>, sid: Sid, c: ConnId)
    requires Inv(s) && PinnedAs(s, sid, c) && RunFrom(s, labels).Some? && Undisturbed(s, labels, sid)
    ensures PinnedAs(RunFrom(s, labels).value, sid, c)
    decreases |labels|
  {
    if labels != [] {
      var s' := Next(s, labels[0]).value;
      UndisturbedStep(s, labels[0], s', sid, c);
      Preservation.StepKeeps(s, labels[0], s');
      PinSurvives(s', labels[1..], sid, c);
    }
  }

  /** A session run that ends inside a transaction leaves its client pinned to the session. */
  lemma EndsPinned(s: State, t: TaskId, fate: Fate, s': State)
    requires Reachable(s) && !s.shutdown && Next(s, Park(t, fate)) == Some(s')
    requires s.tasks[t].inTxn && s.tasks[t].slot.Some?
    ensures s.tasks[t].sid.Some? && PinnedAs(s', s.tasks[t].sid.value, s.tasks[t].conn.value)
  {
    ReachableTask(s, t);
    assert ParkStep(s, t, fate) == Some(s');
  }

  /**
   Unless released, expired or shut down in between, the session's next run continues on the pinned client, with
   its transaction still open if the client is alive.
   */
  lemma NextRunContinues(s: State, labels: seq<Label>, sid: Sid, c: ConnId, t: TaskId, s': State)
    requires Reachable(s) && PinnedAs(s, sid, c)
    requires RunFrom(s, labels).Some? && Undisturbed(s, labels, sid)
    requires Next(RunFrom(s, labels).value, Lock(t)) == Some(s')
    requires var task := RunFrom(s, labels).value.tasks[t]; task.sid == Some(sid) && task.job != ReleaseJob
    ensures t in s'.tasks && s'.tasks[t].conn == Some(c) && s'.tasks[t].inTxn
    ensures c in s'.conns && s'.conns[c].loc == HeldBy(t)
    ensures s'.conns[c].server == InTxn || s'.conns[c].server == Closed
  {
    Preservation.ReachableInv(s);
    PinSurvives(s, labels, sid, c);
    Preservation.RunKeeps(s, labels);
    var before := RunFrom(s, labels).value;
    assert TaskOk(before, t) && SlotOk(before, before.tasks[t].slot.value);
    assert LockStep(before, t) == Some(s');
  }

  /**
   A task leaves a slot that shutdown took out of the map: the client pinned there is closed, not pooled, exactly if no
   other task holds the slot's Arc; otherwise it stays pinned for them.
   */
  lemma OrphanSlotClosesClient(s: State, t: TaskId, s': State)
    requires Reachable(s) && Next(s, Leave(t)) == Some(s') && s.tasks[t].slot.Some?
    requires var k := s.tasks[t].slot.value; !Mapped(s, k) && s.slots[k].pinned.Some?
    ensures var k, c := s.tasks[t].slot.value, s.slots[s.tasks[t].slot.value].pinned.value;
            && c in s'.conns
            && if Holders(s, k) == {t} then k !in s'.slots && s'.conns[c] == Conn(Closed, Dropped)
               else k in s'.slots && s'.slots[k].pinned == Some(c) && s'.conns[c] == s.conns[c]
  {
    ReachableTask(s, t);
    var k := s.tasks[t].slot.value;
    assert SlotOk(s, k) by {
      Preservation.ReachableInv(s);
    }
    assert LeaveStep(s, t) == Some(s');
    assert !Mapped(Unlock(s, t), k);
    LastHolder(s, t, k);
  }

  lemma LastHolder(s: State, t: TaskId, k: SlotId)
    requires t in s.tasks && s.tasks[t].slot == Some(k) && k in s.slots
    ensures Referenced(Unlock(s, t), k) <==> Holders(s, k) != {t}
  {
    var s' := Unlock(s, t);
    assert t in Holders(s, k);
    if Referenced(s', k) {
      var u :| u in s'.tasks && s'.tasks[u].slot == Some(k);
      assert u in Holders(s, k) && u != t;
    }
    if Holders(s, k) != {t} {
      var u :| u in Holders(s, k) && u != t;
      assert s'.tasks[u].slot == Some(k);
    }
  }

  // -------------------------------------------------------------------------
  // Cancels

  /**
   While a statement of request `r` runs, a cancel of `r` finds the action for the very client it runs on, unless one
   already took it.
   */
  lemma CancelReachesStatement(s: State, t: TaskId, r: ReqId)
    requires Reachable(s) && t in s.tasks && s.tasks[t].req == Some(r)
    requires var pc := s.tasks[t].pc; pc == Configuring || pc == Executing || pc == OneShot || pc == Alone
    ensures var task := s.tasks[t];
            && task.guard.Some? && Target(task).Some?
            && (|| (r in s.handles && s.handles[r] == Action(Target(task).value, task.guard.value, t))
                || Taken(s, task.guard.value))
  {
    ReachableTask(s, t);
  }

  /** However many cancels arrive, each registered action runs at most once. */
  lemma ActionsRunOnce(s: State, g: nat)
    requires Reachable(s)
    ensures s.ran[g] <= 1
    ensures g in s.pending ==> s.ran[g] == 0
  {
    Preservation.ReachableInv(s);
  }

  lemma EntryHasTask(s: State, r: ReqId)
    requires HandlesOk(s) && r in s.handles
    ensures exists t :: t in s.tasks && s.tasks[t].req == Some(r)
  {
    assert HandleOk(s, r);
    assert s.handles[r].task in s.tasks;
  }

  /** Once no task of request `r` is left, the registry has nothing for it and a late cancel changes nothing. */
  lemma LateCancelIsNoOp(s: State, r: ReqId)
    requires Reachable(s) && forall t :: t in s.tasks ==> s.tasks[t].req != Some(r)
    ensures r !in s.handles
    ensures Next(s, Cancel(r)) == Some(s)
  {
    Preservation.ReachableInv(s);
    if r in s.handles {
      EntryHasTask(s, r);
    }
  }
}

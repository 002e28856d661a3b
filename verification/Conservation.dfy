/** No client is lost: wherever the steps move it, something still has it or it is closed. */
module Conservation {
  import opened Text
  import opened Keywords
  import opened Server
  import opened Protocol
  import opened Invariant
  import Preservation

  predicate Names(task: Task, c: ConnId) {
    task.conn == Some(c) || task.shot == Some(c) || c in task.backlog
  }

  /** Whoever the client is with knows it, and nobody else's client is dropped while open. */
  predicate Placed(s: State, c: ConnId)
    requires c in s.conns
  {
    match s.conns[c].loc {
      case InPool => true
      case PinnedIn(k) => k in s.slots && s.slots[k].pinned == Some(c)
      case HeldBy(t) => t in s.tasks && Names(s.tasks[t], c)
      case Dropped => s.conns[c].server == Closed
    }
  }

  ghost predicate AllPlaced(s: State) {
    forall c :: c in s.conns ==> Placed(s, c)
  }

  /** A slot lives as long as the map or a task has its Arc. */
  ghost predicate AllShared(s: State) {
    forall k :: k in s.slots ==> Mapped(s, k) || Referenced(s, k)
  }

  // -------------------------------------------------------------------------
  // Slots

  /** The step takes no Arc away. */
  ghost predicate KeepsArcs(s: State, s': State) {
    forall u :: u in s.tasks && s.tasks[u].slot.Some? ==> u in s'.tasks && s'.tasks[u].slot == s.tasks[u].slot
  }

  lemma SharedKeeps(s: State, s': State)
    requires AllShared(s) && KeepsArcs(s, s')
    requires forall k :: k in s'.slots && !(k in s.slots && s'.slots[k].key == s.slots[k].key) ==> Mapped(s', k)
    requires forall k :: k in s.slots && k in s'.slots && Mapped(s, k) ==> Mapped(s', k)
    ensures AllShared(s')
  {
    forall k | k in s'.slots ensures Mapped(s', k) || Referenced(s', k) {
      if !Mapped(s', k) {
        ReferencedKeeps(s, s', k);
      }
    }
  }

  lemma ReferencedKeeps(s: State, s': State, k: SlotId)
    requires KeepsArcs(s, s') && Referenced(s, k)
    ensures Referenced(s', k)
  {
    var u :| u in s.tasks && s.tasks[u].slot == Some(k);
    assert s'.tasks[u].slot == Some(k);
  }

  /** All slots but perhaps `k` have an Arc; dropping `k` if it has none mends it. */
  ghost predicate SharedBut(s: State, k: SlotId) {
    forall other :: other in s.slots && other != k ==> Mapped(s, other) || Referenced(s, other)
  }

  lemma DropMends(s: State, k: SlotId)
    requires k in s.slots && SharedBut(s, k)
    ensures AllShared(DropUnused(s, k))
  {
    var s' := DropUnused(s, k);
    assert s'.tasks == s.tasks && s'.sessions == s.sessions;
    forall other | other in s'.slots ensures Mapped(s', other) || Referenced(s', other) {
      assert Referenced(s, other) ==> Referenced(s', other) by {
        if Referenced(s, other) {
          ReferencedKeeps(s, s', other);
        }
      }
    }
  }

  lemma DropPlaced(s: State, k: SlotId)
    requires k in s.slots && AllPlaced(s)
    ensures AllPlaced(DropUnused(s, k))
  {
    var s' := DropUnused(s, k);
    forall c | c in s'.conns ensures Placed(s', c) {
      assert c in s.conns ==> Placed(s, c);
    }
  }

  lemma TakePlaced(s: State, t: TaskId, k: SlotId)
    requires t in s.tasks && k in s.slots && AllPlaced(s)
    ensures AllPlaced(TakePinned(s, t, k))
  {
    var s' := TakePinned(s, t, k);
    forall c | c in s'.conns ensures Placed(s', c) {
      assert Placed(s, c);
    }
  }

  /** Taking a client out of a slot leaves the Arcs alone. */
  lemma TakeArcs(s: State, t: TaskId, k: SlotId)
    requires t in s.tasks && k in s.slots
    ensures var s' := TakePinned(s, t, k);
            && KeepsArcs(s, s') && s'.sessions == s.sessions && s'.slots.Keys == s.slots.Keys
            && forall other :: other in s.slots ==> s'.slots[other].key == s.slots[other].key
  {
  }

  // -------------------------------------------------------------------------
  // Entering, locking, parking, leaving

  lemma EnterKeeps(s: State, t: TaskId, newSlot: SlotId, s': State)
    requires AllPlaced(s) && AllShared(s) && t in s.tasks && TaskSlotOk(s, t)
    requires s.tasks[t].sid.Some? && s.tasks[t].sid.value in s.sessions ==> SessionOk(s, s.tasks[t].sid.value)
    requires EnterStep(s, t, newSlot) == Some(s')
    ensures AllPlaced(s') && AllShared(s')
  {
    forall c | c in s'.conns ensures Placed(s', c) {
      assert Placed(s, c);
    }
    assert s.tasks[t].slot.None?;
    SharedKeeps(s, s');
  }

  lemma ReleaseKeeps(s: State, t: TaskId, s': State)
    requires AllPlaced(s) && AllShared(s) && t in s.tasks && TaskConnOk(s, t) && s.tasks[t].pc == Waiting
    requires s.tasks[t].slot.Some? && s.tasks[t].slot.value in s.slots && s' == ReleaseLock(s, t)
    ensures AllPlaced(s') && AllShared(s')
  {
    var k := s.tasks[t].slot.value;
    var s1 := SetTask(s, t, s.tasks[t].(pc := Draining, slot := None));
    forall c | c in s1.conns ensures Placed(s1, c) {
      assert Placed(s, c);
    }
    forall other | other in s1.slots && other != k ensures Mapped(s1, other) || Referenced(s1, other) {
      if u :| u in s.tasks && s.tasks[u].slot == Some(other) {
        assert u in s1.tasks && s1.tasks[u].slot == Some(other);
      }
    }
    var s2 := TakePinned(s1, t, k);
    TakePlaced(s1, t, k);
    TakeShared(s1, t, k);
    DropPlaced(s2, k);
    DropMends(s2, k);
  }

  lemma TakeShared(s: State, t: TaskId, k: SlotId)
    requires t in s.tasks && k in s.slots && SharedBut(s, k)
    ensures SharedBut(TakePinned(s, t, k), k)
  {
    var s' := TakePinned(s, t, k);
    TakeArcs(s, t, k);
    forall other | other in s'.slots && other != k ensures Mapped(s', other) || Referenced(s', other) {
      if !Mapped(s, other) {
        ReferencedKeeps(s, s', other);
      }
    }
  }

  /** What a granted lock changes: the slot's client, if any, moves to the task. */
  ghost predicate MovesIn(s: State, s': State, t: TaskId, k: SlotId)
    requires k in s.slots
  {
    var pinned := s.slots[k].pinned;
    && s'.slots == s.slots[k := s.slots[k].(pinned := None, holder := Some(t))] && s'.sessions == s.sessions
    && t in s.tasks && t in s'.tasks && s'.tasks == s.tasks[t := s'.tasks[t]] && s'.tasks[t].slot == s.tasks[t].slot
    && (pinned.Some? ==> s'.tasks[t].conn == pinned)
    && (forall c :: c in s'.conns && Some(c) != pinned ==> c in s.conns && s'.conns[c] == s.conns[c])
    && (forall c :: c in s'.conns && Some(c) == pinned ==> s'.conns[c].loc == HeldBy(t))
  }

  lemma RunLockMoves(s: State, t: TaskId, s': State)
    requires t in s.tasks && s.tasks[t].slot.Some? && s.tasks[t].slot.value in s.slots && RunLock(s, t) == Some(s')
    ensures MovesIn(s, s', t, s.tasks[t].slot.value)
  {
  }

  lemma RunLockKeeps(s: State, t: TaskId, s': State)
    requires AllPlaced(s) && AllShared(s) && t in s.tasks && TaskConnOk(s, t) && s.tasks[t].pc == Waiting
    requires s.tasks[t].slot.Some? && s.tasks[t].slot.value in s.slots && RunLock(s, t) == Some(s')
    ensures AllPlaced(s') && AllShared(s')
  {
    RunLockMoves(s, t, s');
    MovedPlaced(s, t, s.tasks[t].slot.value, s');
    SharedKeeps(s, s');
  }

  lemma MovedPlaced(s: State, t: TaskId, k: SlotId, s': State)
    requires AllPlaced(s) && k in s.slots && MovesIn(s, s', t, k)
    requires s.tasks[t].conn.None? && s.tasks[t].shot.None? && s.tasks[t].backlog == []
    ensures AllPlaced(s')
  {
    forall c | c in s'.conns ensures Placed(s', c) {
      if Some(c) != s.slots[k].pinned {
        assert Placed(s, c);
      }
    }
  }

  lemma LockKeeps(s: State, t: TaskId, s': State)
    requires AllPlaced(s) && AllShared(s) && t in s.tasks && TaskConnOk(s, t) && LockStep(s, t) == Some(s')
    ensures AllPlaced(s') && AllShared(s')
  {
    if s.tasks[t].job == ReleaseJob {
      ReleaseKeeps(s, t, s');
    } else {
      RunLockKeeps(s, t, s');
    }
  }

  lemma PinPlaced(s: State, t: TaskId, s': State)
    requires AllPlaced(s) && HasClient(s, t) && TaskConnOk(s, t) && s.tasks[t].pc == Settling
    requires s.tasks[t].slot.Some? && PinClient(s, t) == Some(s')
    ensures AllPlaced(s')
  {
    var k, pinned := s.tasks[t].slot.value, s.slots[s.tasks[t].slot.value].pinned;
    var mine := s.tasks[t].conn;
    assert s'.tasks == s.tasks[t := s.tasks[t].(pc := Leaving, conn := None)];
    assert s'.slots == s.slots[k := s.slots[k].(pinned := mine)];
    forall c | c in s'.conns ensures Placed(s', c) {
      assert Placed(s, c);
      assert Some(c) != mine && Some(c) != pinned ==> s'.conns[c] == s.conns[c];
    }
  }

  lemma PinKeeps(s: State, t: TaskId, s': State)
    requires AllPlaced(s) && AllShared(s) && HasClient(s, t) && TaskConnOk(s, t) && s.tasks[t].pc == Settling
    requires s.tasks[t].slot.Some? && PinClient(s, t) == Some(s')
    ensures AllPlaced(s') && AllShared(s')
  {
    PinPlaced(s, t, s');
    assert s'.sessions == s.sessions && s'.slots.Keys == s.slots.Keys;
    SharedKeeps(s, s');
  }

  lemma ParkKeeps(s: State, t: TaskId, fate: Fate, s': State)
    requires AllPlaced(s) && AllShared(s) && t in s.tasks && TaskConnOk(s, t) && ParkStep(s, t, fate) == Some(s')
    ensures AllPlaced(s') && AllShared(s')
  {
    if s.tasks[t].inTxn && s.tasks[t].slot.Some? {
      PinKeeps(s, t, s');
    } else {
      HandBackPrivate(s, t, fate, s');
      PrivateKeeps(s, s', t);
    }
  }

  lemma HandBackPrivate(s: State, t: TaskId, fate: Fate, s': State)
    requires HasClient(s, t) && s' == HandBack(s, t, fate)
    ensures Private(s, s', t)
  {
    PooledPrivate(s, s', t, s.tasks[t].conn.value, s'.conns[s.tasks[t].conn.value].server);
  }

  lemma LeaveKeeps(s: State, t: TaskId, s': State)
    requires AllPlaced(s) && AllShared(s) && t in s.tasks && TaskConnOk(s, t) && LeaveStep(s, t) == Some(s')
    ensures AllPlaced(s') && AllShared(s')
  {
    if s.tasks[t].slot.None? {
      forall c | c in s'.conns ensures Placed(s', c) {
        assert Placed(s, c);
      }
      SharedKeeps(s, s');
    } else {
      UnlockKeeps(s, t, Unlock(s, t));
      DropPlaced(Unlock(s, t), s.tasks[t].slot.value);
      DropMends(Unlock(s, t), s.tasks[t].slot.value);
    }
  }

  lemma UnlockKeeps(s: State, t: TaskId, s': State)
    requires AllPlaced(s) && AllShared(s) && t in s.tasks && TaskConnOk(s, t) && s.tasks[t].pc == Leaving
    requires s.tasks[t].slot.Some? && s.tasks[t].slot.value in s.slots && s' == Unlock(s, t)
    ensures AllPlaced(s') && SharedBut(s', s.tasks[t].slot.value)
  {
    var k := s.tasks[t].slot.value;
    forall c | c in s'.conns ensures Placed(s', c) {
      assert Placed(s, c);
    }
    forall other | other in s'.slots && other != k ensures Mapped(s', other) || Referenced(s', other) {
      if u :| u in s.tasks && s.tasks[u].slot == Some(other) {
        assert u in s'.tasks && s'.tasks[u].slot == Some(other);
      }
    }
  }

  // -------------------------------------------------------------------------
  // Sweeps and shutdown

  lemma UnmapKeeps(s: State, sid: Sid)
    requires AllPlaced(s) && AllShared(s) && sid in s.sessions && s.sessions[sid] in s.slots
    ensures AllPlaced(Unmap(s, sid)) && SharedBut(Unmap(s, sid), s.sessions[sid])
  {
    var s' := Unmap(s, sid);
    forall c | c in s'.conns ensures Placed(s', c) {
      assert Placed(s, c);
    }
    forall other | other in s'.slots && other != s.sessions[sid] ensures Mapped(s', other) || Referenced(s', other) {
      if !Mapped(s, other) {
        ReferencedKeeps(s, s', other);
      }
    }
  }

  lemma TakeKeeps(s: State, t: TaskId, k: SlotId)
    requires AllPlaced(s) && AllShared(s) && t in s.tasks && k in s.slots
    ensures AllPlaced(TakePinned(s, t, k)) && AllShared(TakePinned(s, t, k))
  {
    TakePlaced(s, t, k);
    TakeArcs(s, t, k);
    SharedKeeps(s, TakePinned(s, t, k));
  }

  lemma SweepKeeps(s: State, t: TaskId, sid: Sid, expired: bool, s': State)
    requires AllPlaced(s) && AllShared(s) && SweepStep(s, t, sid, expired) == Some(s')
    ensures AllPlaced(s') && AllShared(s')
  {
    var k := s.sessions[sid];
    TakeKeeps(s, t, k);
    TakeArcs(s, t, k);
    var s1 := if expired then TakePinned(s, t, k) else s;
    if s.slots[k].holder.None? && s1.slots[k].pinned.None? && !Referenced(s1, k) {
      UnmapKeeps(s1, sid);
      DropPlaced(Unmap(s1, sid), k);
      DropMends(Unmap(s1, sid), k);
    }
  }

  lemma ShutdownKeeps(s: State, t: TaskId, sid: Sid, s': State)
    requires AllPlaced(s) && AllShared(s) && ShutdownStep(s, t, sid) == Some(s')
    ensures AllPlaced(s') && AllShared(s')
  {
    var k := s.sessions[sid];
    var s0 := s.(shutdown := true);
    forall c | c in s0.conns ensures Placed(s0, c) {
      assert Placed(s, c);
    }
    SharedKeeps(s, s0);
    if s.slots[k].holder.None? {
      TakeKeeps(s0, t, k);
      TakeArcs(s0, t, k);
      var s1 := TakePinned(s0, t, k);
      UnmapKeeps(s1, sid);
      DropPlaced(Unmap(s1, sid), k);
      DropMends(Unmap(s1, sid), k);
    }
  }

  // -------------------------------------------------------------------------
  // The steps that leave the maps alone

  /** One task changes, keeps its Arc, and knows every client that is with it afterwards. */
  ghost predicate Private(s: State, s': State, t: TaskId) {
    && SameMaps(s, s') && t in s.tasks && t in s'.tasks && s'.tasks == s.tasks[t := s'.tasks[t]]
    && s'.tasks[t].slot == s.tasks[t].slot
    && (forall c :: c in s'.conns && !(c in s.conns && s'.conns[c] == s.conns[c]) ==> Placed(s', c))
    && (forall c :: c in s'.conns && s'.conns[c].loc == HeldBy(t) && Names(s.tasks[t], c) ==> Names(s'.tasks[t], c))
  }

  lemma PrivateKeeps(s: State, s': State, t: TaskId)
    requires AllPlaced(s) && AllShared(s) && Private(s, s', t)
    ensures AllPlaced(s') && AllShared(s')
  {
    forall c | c in s'.conns ensures Placed(s', c) {
      if c in s.conns && s'.conns[c] == s.conns[c] {
        assert Placed(s, c);
      }
    }
    SharedKeeps(s, s');
  }

  /** The task moves on with the same clients in hand. */
  lemma QuietPrivate(s: State, s': State, t: TaskId)
    requires SameMaps(s, s') && s'.conns == s.conns && t in s.tasks && t in s'.tasks
    requires s'.tasks == s.tasks[t := s'.tasks[t]] && s'.tasks[t].slot == s.tasks[t].slot
    requires var task, task' := s.tasks[t], s'.tasks[t];
             task'.conn == task.conn && task'.shot == task.shot && task'.backlog == task.backlog
    ensures Private(s, s', t)
  {
  }

  /** The task's shared client goes back to the pool. */
  lemma PooledPrivate(s: State, s': State, t: TaskId, c: ConnId, after: ServerState)
    requires SameMaps(s, s') && s'.conns == s.conns[c := Conn(after, InPool)] && t in s.tasks && t in s'.tasks
    requires s'.tasks == s.tasks[t := s'.tasks[t]] && s'.tasks[t].slot == s.tasks[t].slot
    requires var task, task' := s.tasks[t], s'.tasks[t];
             task.conn == Some(c) && task'.shot == task.shot && task'.backlog == task.backlog
    ensures Private(s, s', t)
  {
  }

  /** Registering and deregistering concern only the registry. */
  lemma Registers(s: State, t: TaskId, task: Task, target: ConnId, s': State)
    requires s' == Register(s, t, task, target)
    ensures s'.conns == s.conns && SameMaps(s, s') && t in s'.tasks && s'.tasks == s.tasks[t := s'.tasks[t]]
    ensures s'.tasks[t] == task.(guard := s'.tasks[t].guard)
  {
    if task.req.Some? {
      assert s'.tasks == s.tasks[t := task.(guard := Some(s.serial))];
    } else {
      assert s' == SetTask(s, t, task);
    }
  }

  lemma Unregisters(s: State, t: TaskId, task: Task, s': State)
    requires s' == Unregister(s, t, task)
    ensures s'.conns == s.conns && SameMaps(s, s') && t in s'.tasks && s'.tasks == s.tasks[t := s'.tasks[t]]
    ensures s'.tasks[t] == task.(guard := s'.tasks[t].guard)
  {
    if task.req.Some? && task.guard.Some? {
      assert s'.tasks == s.tasks[t := task.(guard := None)];
    } else {
      assert s' == SetTask(s, t, task);
    }
  }

  lemma UnregistersQuietly(s: State, t: TaskId, task: Task, s': State)
    requires t in s.tasks && s' == Unregister(s, t, task) && task == s.tasks[t].(pc := task.pc)
    ensures Private(s, s', t)
  {
    Unregisters(s, t, task, s');
    QuietPrivate(s, s', t);
  }

  lemma ConnectPrivate(s: State, t: TaskId, c: ConnId, s': State)
    requires t in s.tasks && TaskConnOk(s, t) && ConnectStep(s, t, c) == Some(s')
    ensures Private(s, s', t)
  {
  }

  lemma ConnectFailsPrivate(s: State, t: TaskId, s': State)
    requires t in s.tasks && TaskConnOk(s, t) && ConnectFailsStep(s, t) == Some(s')
    ensures Private(s, s', t)
  {
  }

  lemma ArmPrivate(s: State, t: TaskId, s': State)
    requires t in s.tasks && TaskConnOk(s, t) && ArmStep(s, t) == Some(s')
    ensures Private(s, s', t)
  {
    var task := s.tasks[t];
    var pc := if task.pc == Arming && task.hasSchema && !task.inTxn then Configuring else Ready;
    Registers(s, t, task.(pc := pc), task.conn.value, s');
    QuietPrivate(s, s', t);
  }

  lemma ConfigurePrivate(s: State, t: TaskId, fate: Fate, s': State)
    requires t in s.tasks && TaskConnOk(s, t) && ConfigureStep(s, t, fate) == Some(s')
    ensures Private(s, s', t)
  {
    var task := s.tasks[t];
    var c := task.conn.value;
    var reply := Statement(NoEffect, false, s.conns[c].server, fate);
    if !reply.ok {
      Unregisters(SetConn(s, c, reply.after, InPool), t, task.(pc := Leaving, conn := None), s');
      PooledPrivate(s, s', t, c, reply.after);
    } else {
      QuietPrivate(s, s', t);
    }
  }

  lemma BeginPrivate(s: State, t: TaskId, s': State)
    requires t in s.tasks && TaskConnOk(s, t) && BeginStep(s, t) == Some(s')
    ensures Private(s, s', t)
  {
    if GoesOneShot(s.tasks[t]) {
      UnregistersQuietly(s, t, s.tasks[t].(pc := Handover), s');
    } else {
      QuietPrivate(s, s', t);
    }
  }

  lemma FinishPrivate(s: State, t: TaskId, fates: Fates, s': State)
    requires t in s.tasks && TaskConnOk(s, t) && FinishStep(s, t, fates) == Some(s')
    ensures Private(s, s', t)
  {
  }

  lemma ShootPrivate(s: State, t: TaskId, c: ConnId, s': State)
    requires t in s.tasks && TaskConnOk(s, t) && ShootStep(s, t, c) == Some(s')
    ensures Private(s, s', t)
  {
    Registers(SetConn(s, c, InTxn, HeldBy(t)), t, s.tasks[t].(pc := OneShot, shot := Some(c)), c, s');
  }

  lemma ShootFailsPrivate(s: State, t: TaskId, s': State)
    requires t in s.tasks && TaskConnOk(s, t) && ShootFailsStep(s, t) == Some(s')
    ensures Private(s, s', t)
  {
  }

  lemma ShotDonePrivate(s: State, t: TaskId, ok: bool, s': State)
    requires t in s.tasks && TaskConnOk(s, t) && ShotDoneStep(s, t, ok) == Some(s')
    ensures Private(s, s', t)
  {
    var task := AfterStatement(s.tasks[t], QueryOutcome(ok, false)).(pc := Rearming, shot := None);
    Unregisters(SetConn(s, s.tasks[t].shot.value, Closed, Dropped), t, task, s');
  }

  lemma LaunchPrivate(s: State, t: TaskId, c: ConnId, s': State)
    requires t in s.tasks && TaskConnOk(s, t) && LaunchStep(s, t, c) == Some(s')
    ensures Private(s, s', t)
  {
    Registers(SetConn(s, c, InTxn, HeldBy(t)), t, s.tasks[t].(pc := Alone, shot := Some(c)), c, s');
  }

  lemma LaunchFailsPrivate(s: State, t: TaskId, s': State)
    requires t in s.tasks && TaskConnOk(s, t) && LaunchFailsStep(s, t) == Some(s')
    ensures Private(s, s', t)
  {
  }

  lemma AloneDonePrivate(s: State, t: TaskId, s': State)
    requires t in s.tasks && TaskConnOk(s, t) && AloneDoneStep(s, t) == Some(s')
    ensures Private(s, s', t)
  {
    var task := s.tasks[t].(pc := Leaving, todo := [], shot := None);
    Unregisters(SetConn(s, s.tasks[t].shot.value, Closed, Dropped), t, task, s');
  }

  lemma EndLoopPrivate(s: State, t: TaskId, s': State)
    requires t in s.tasks && TaskConnOk(s, t) && EndLoopStep(s, t) == Some(s')
    ensures Private(s, s', t)
  {
    UnregistersQuietly(s, t, s.tasks[t].(pc := Settling), s');
  }

  lemma DrainPrivate(s: State, t: TaskId, fate: Fate, s': State)
    requires t in s.tasks && TaskConnOk(s, t) && DrainStep(s, t, fate) == Some(s')
    ensures Private(s, s', t)
  {
    var backlog := s.tasks[t].backlog;
    assert backlog == [backlog[0]] + backlog[1..];
  }

  lemma DrainedKeeps(s: State, t: TaskId, s': State)
    requires AllPlaced(s) && AllShared(s) && t in s.tasks && TaskConnOk(s, t) && TaskSlotOk(s, t)
    requires DrainedStep(s, t) == Some(s')
    ensures AllPlaced(s') && AllShared(s')
  {
    assert s' == s.(tasks := s.tasks - {t}) && s.tasks[t].slot.None?;
    GonePlaced(s, t);
    SharedKeeps(s, s');
  }

  lemma GonePlaced(s: State, t: TaskId)
    requires AllPlaced(s) && t in s.tasks
    requires s.tasks[t].conn.None? && s.tasks[t].shot.None? && s.tasks[t].backlog == []
    ensures AllPlaced(s.(tasks := s.tasks - {t}))
  {
    var s' := s.(tasks := s.tasks - {t});
    forall c | c in s'.conns ensures Placed(s', c) {
      assert Placed(s, c);
    }
  }

  /** The steps of the pool and of cancels, and a task that starts. */
  lemma OutsideKeeps(s: State, l: Label, s': State)
    requires AllPlaced(s) && AllShared(s) && Next(s, l) == Some(s')
    requires l.Spawn? || l.Dying? || l.Evict? || l.Cancel? || l.Fire?
    ensures AllPlaced(s') && AllShared(s')
  {
    forall c | c in s'.conns ensures Placed(s', c) {
      assert Placed(s, c);
    }
    SharedKeeps(s, s');
  }

  /** The steps of a run on its shared client, and of draining a backlog. */
  predicate SharedStep(l: Label) {
    || l.Connect? || l.ConnectFails? || l.Arm? || l.Configure? || l.Begin? || l.Finish? || l.EndLoop? || l.Drain?
  }

  predicate OneShotStep(l: Label) {
    l.Shoot? || l.ShootFails? || l.ShotDone? || l.Launch? || l.LaunchFails? || l.AloneDone?
  }

  lemma SharedStepPrivate(s: State, l: Label, s': State)
    requires SharedStep(l) && l.t in s.tasks && TaskConnOk(s, l.t) && Next(s, l) == Some(s')
    ensures Private(s, s', l.t)
  {
    match l {
      case Connect(t, c) => ConnectPrivate(s, t, c, s');
      case ConnectFails(t) => ConnectFailsPrivate(s, t, s');
      case Arm(t) => ArmPrivate(s, t, s');
      case Configure(t, fate) => ConfigurePrivate(s, t, fate, s');
      case Begin(t) => BeginPrivate(s, t, s');
      case Finish(t, fates) => FinishPrivate(s, t, fates, s');
      case EndLoop(t) => EndLoopPrivate(s, t, s');
      case Drain(t, fate) => DrainPrivate(s, t, fate, s');
    }
  }

  lemma OneShotStepPrivate(s: State, l: Label, s': State)
    requires OneShotStep(l) && l.t in s.tasks && TaskConnOk(s, l.t) && Next(s, l) == Some(s')
    ensures Private(s, s', l.t)
  {
    match l {
      case Shoot(t, c) => ShootPrivate(s, t, c, s');
      case ShootFails(t) => ShootFailsPrivate(s, t, s');
      case ShotDone(t, ok) => ShotDonePrivate(s, t, ok, s');
      case Launch(t, c) => LaunchPrivate(s, t, c, s');
      case LaunchFails(t) => LaunchFailsPrivate(s, t, s');
      case AloneDone(t) => AloneDonePrivate(s, t, s');
    }
  }

  /** The steps that change slots or the map. */
  predicate MapStep(l: Label) {
    l.Enter? || l.Lock? || l.Park? || l.Leave? || l.SweepEntry? || l.ShutdownEntry? || l.Drained?
  }

  lemma MapStepKeeps(s: State, l: Label, s': State)
    requires MapStep(l) && l.t in s.tasks && TaskSlotOk(s, l.t) && TaskConnOk(s, l.t) && SessionsOk(s)
    requires AllPlaced(s) && AllShared(s) && Next(s, l) == Some(s')
    ensures AllPlaced(s') && AllShared(s')
  {
    match l {
      case Enter(t, newSlot) =>
        assert s.tasks[t].sid.value in s.sessions ==> SessionOk(s, s.tasks[t].sid.value);
        EnterKeeps(s, t, newSlot, s');
      case Lock(t) => LockKeeps(s, t, s');
      case Park(t, fate) => ParkKeeps(s, t, fate, s');
      case Leave(t) => LeaveKeeps(s, t, s');
      case SweepEntry(t, key, expired) => SweepKeeps(s, t, key, expired, s');
      case ShutdownEntry(t, key) => ShutdownKeeps(s, t, key, s');
      case Drained(t) => DrainedKeeps(s, t, s');
    }
  }

  lemma StepKeeps(s: State, l: Label, s': State)
    requires TasksOk(s) && SessionsOk(s) && AllPlaced(s) && AllShared(s) && Next(s, l) == Some(s')
    ensures AllPlaced(s') && AllShared(s')
  {
    if SharedStep(l) || OneShotStep(l) || MapStep(l) {
      assert TaskOk(s, l.t);
      if MapStep(l) {
        MapStepKeeps(s, l, s');
      } else {
        if SharedStep(l) {
          SharedStepPrivate(s, l, s');
        } else {
          OneShotStepPrivate(s, l, s');
        }
        PrivateKeeps(s, s', l.t);
      }
    } else {
      OutsideKeeps(s, l, s');
    }
  }

  lemma {:induction false} RunKeeps(s: State, labels: seq<Label>)
    requires Inv(s) && AllPlaced(s) && AllShared(s) && RunFrom(s, labels).Some?
    ensures AllPlaced(RunFrom(s, labels).value) && AllShared(RunFrom(s, labels).value)
    decreases |labels|
  {
    if labels != [] {
      var s' := Next(s, labels[0]).value;
      StepKeeps(s, labels[0], s');
      Preservation.StepKeeps(s, labels[0], s');
      RunKeeps(s', labels[1..]);
    }
  }

  // -------------------------------------------------------------------------
  // What it gives

  /**
   In every interleaving, a client that is not in the pool and not closed is with a live task that has it in hand, or
   pinned in a slot that the map still has or a live task still holds the Arc of.
   */
  lemma NoClientIsLost(s: State, c: ConnId)
    requires Reachable(s) && c in s.conns && s.conns[c].loc != InPool && s.conns[c].server != Closed
    ensures (exists t :: t in s.tasks && s.conns[c].loc == HeldBy(t) && Names(s.tasks[t], c))
            || (exists k :: k in s.slots && s.conns[c].loc == PinnedIn(k) && s.slots[k].pinned == Some(c)
                            && (Mapped(s, k) || Referenced(s, k)))
  {
    var labels: seq<Label> :| RunFrom(Init(), labels) == Some(s);
    RunKeeps(Init(), labels);
    assert Placed(s, c);
  }

  predicate PinnedFor(s: State, sid: Sid, c: ConnId)
    requires sid in s.sessions
  {
    s.sessions[sid] in s.slots && s.slots[s.sessions[sid]].pinned == Some(c)
  }

  /** So once every task is done, an open client is in the pool or pinned to a session of the map. */
  lemma AtRest(s: State, c: ConnId)
    requires Reachable(s) && s.tasks == map[] && c in s.conns && s.conns[c].server != Closed
    ensures s.conns[c].loc == InPool || (exists sid :: sid in s.sessions && PinnedFor(s, sid, c))
  {
    if s.conns[c].loc != InPool {
      NoClientIsLost(s, c);
      var k :| k in s.slots && s.conns[c].loc == PinnedIn(k) && s.slots[k].pinned == Some(c)
               && (Mapped(s, k) || Referenced(s, k));
      assert PinnedFor(s, s.slots[k].key, c);
    }
  }
}

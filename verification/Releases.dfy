/** A release takes the session's pinned client and, once it has drained, has handed it to the pool. */
module Releases {
  import opened Text
  import opened Keywords
  import opened Server
  import opened Protocol
  import opened Invariant
  import opened Frames
  import Preservation
  import Safety

  // -------------------------------------------------------------------------
  // The release

  /** A releasing task with exactly this client left to roll back. */
  predicate Releasing(s: State, t: TaskId, c: ConnId) {
    IsAt(s, t, Draining) && s.tasks[t].job == ReleaseJob && s.tasks[t].backlog == [c]
  }

  /**
   The lock granted to a release is `release` of the session map: the pinned client leaves the slot and is the task's,
   which has no other; without one the task has nothing to do.
   */
  lemma ReleaseTakes(s: State, t: TaskId, s': State)
    requires Reachable(s) && Next(s, Lock(t)) == Some(s') && s.tasks[t].job == ReleaseJob
    ensures s.tasks[t].slot.Some? && s.tasks[t].slot.value in s.slots
    ensures var k := s.tasks[t].slot.value; var pinned := s.slots[k].pinned;
            && IsAt(s', t, Draining) && s'.tasks[t].job == ReleaseJob && s'.tasks[t].slot == None
            && s'.tasks[t].backlog == (if pinned.Some? then [pinned.value] else [])
            && (k in s'.slots ==> s'.slots[k] == s.slots[k].(pinned := None))
            && (pinned.Some? ==> pinned.value in s.conns && pinned.value in s'.conns
                                 && s'.conns[pinned.value] == Conn(s.conns[pinned.value].server, HeldBy(t)))
  {
    Safety.ReachableTask(s, t);
    var k := s.tasks[t].slot.value;
    assert SlotOk(s, k) by {
      Preservation.ReachableInv(s);
    }
    assert LockStep(s, t) == Some(s');
    ReleasedTake(s, t, k, s');
  }

  lemma ReleasedTake(s: State, t: TaskId, k: SlotId, s': State)
    requires t in s.tasks && s.tasks[t].slot == Some(k) && k in s.slots && s' == ReleaseLock(s, t)
    requires SlotOk(s, k) && s.tasks[t].backlog == []
    ensures t in s'.tasks
    ensures var pinned := s.slots[k].pinned;
            && s'.tasks[t] == s.tasks[t].(pc := Draining, slot := None,
                                          backlog := if pinned.Some? then [pinned.value] else [])
            && (k in s'.slots ==> s'.slots[k] == s.slots[k].(pinned := None))
            && (pinned.Some? ==> pinned.value in s.conns && pinned.value in s'.conns
                                 && s'.conns[pinned.value] == Conn(s.conns[pinned.value].server, HeldBy(t)))
  {
    var s1 := SetTask(s, t, s.tasks[t].(pc := Draining, slot := None));
    var s2 := TakePinned(s1, t, k);
    assert s2.slots[k].pinned == None && s2.slots[k] == s.slots[k].(pinned := None);
    DropEmpty(s2, k);
  }

  lemma DropEmpty(s: State, k: SlotId)
    requires k in s.slots && s.slots[k].pinned.None?
    ensures var s' := DropUnused(s, k);
            s'.tasks == s.tasks && s'.conns == s.conns && (k in s'.slots ==> s'.slots[k] == s.slots[k])
  {
  }

  lemma ReleaseStep(s: State, l: Label, s': State, t: TaskId, c: ConnId)
    requires Releasing(s, t, c) && Next(s, l) == Some(s')
    ensures if Mover(l) == Some(t) then l.Drain? && HandedOver(s', c) else Releasing(s', t, c)
  {
    if Mover(l) == Some(t) {
      OwnStep(s, l, s', t, c);
    } else {
      OthersStay(s, l, s', t);
    }
  }

  predicate HandedOver(s: State, c: ConnId) {
    c in s.conns && s.conns[c].loc == InPool && (s.conns[c].server == Idle || s.conns[c].server == Closed)
  }

  /** A releasing task can only roll its client back and release it. */
  lemma OwnStep(s: State, l: Label, s': State, t: TaskId, c: ConnId)
    requires Releasing(s, t, c) && Mover(l) == Some(t) && Next(s, l) == Some(s')
    ensures l.Drain? && HandedOver(s', c)
  {
    OwnIsDrain(s, l, s', t, c);
  }

  lemma OwnIsDrain(s: State, l: Label, s': State, t: TaskId, c: ConnId)
    requires Releasing(s, t, c) && Mover(l) == Some(t) && Next(s, l) == Some(s')
    ensures l.Drain?
  {
    assert !l.SweepEntry? && !l.ShutdownEntry?;
  }

  /** Over whole runs: once the task has left, its client was handed to the pool, idle or closed. */
  lemma {:induction false} ReleaseHandsBack(s: State, labels: seq<Label>, t: TaskId, c: ConnId) returns (i: nat)
    requires Releasing(s, t, c) && RunFrom(s, labels).Some? && t !in RunFrom(s, labels).value.tasks
    ensures i < |labels| && labels[i].Drain? && labels[i].t == t
    ensures RunFrom(s, labels[..i + 1]).Some? && HandedOver(RunFrom(s, labels[..i + 1]).value, c)
    decreases |labels|
  {
    assert labels != [];
    var s' := Next(s, labels[0]).value;
    ReleaseStep(s, labels[0], s', t, c);
    if Mover(labels[0]) == Some(t) {
      i := 0;
      assert labels[..1] == [labels[0]] && [labels[0]][1..] == [];
    } else {
      var j := ReleaseHandsBack(s', labels[1..], t, c);
      i := j + 1;
      assert labels[..i + 1][0] == labels[0] && labels[..i + 1][1..] == labels[1..][..j + 1];
    }
  }

  /**
   Releasing a session with a pinned client: whatever runs beside it, by the time the release is over, the client has
   left the session and gone back to the pool with no transaction open.
   */
  lemma ReleaseFreesSession(s: State, t: TaskId, s1: State, labels: seq<Label>) returns (i: nat)
    requires Reachable(s) && Next(s, Lock(t)) == Some(s1) && s.tasks[t].job == ReleaseJob
    requires s.tasks[t].slot.Some? && s.tasks[t].slot.value in s.slots && s.slots[s.tasks[t].slot.value].pinned.Some?
    requires RunFrom(s1, labels).Some? && t !in RunFrom(s1, labels).value.tasks
    ensures var c := s.slots[s.tasks[t].slot.value].pinned.value; c in s.conns && s.conns[c].server != Idle
    ensures i < |labels| && RunFrom(s1, labels[..i + 1]).Some?
    ensures HandedOver(RunFrom(s1, labels[..i + 1]).value, s.slots[s.tasks[t].slot.value].pinned.value)
  {
    var c := s.slots[s.tasks[t].slot.value].pinned.value;
    PinnedIsOpen(s, s.tasks[t].slot.value);
    ReleaseTakes(s, t, s1);
    i := ReleaseHandsBack(s1, labels, t, c);
  }

  lemma PinnedIsOpen(s: State, k: SlotId)
    requires Reachable(s) && k in s.slots && s.slots[k].pinned.Some?
    ensures s.slots[k].pinned.value in s.conns && s.conns[s.slots[k].pinned.value].server != Idle
  {
    Preservation.ReachableInv(s);
    assert SlotOk(s, k);
  }
}

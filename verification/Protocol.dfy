/**
 The interactive-transaction protocol as a state machine: runs of `run_batch_in_session`, single statements of
 `exec_query`, session releases, sweeps and shutdown, cancels and dying connections, one atomic step at a time.

 A label names which task moves and every outside choice (fates, fresh identities, expiry), so `Next` is
 a partial function and a run is a sequence of labels.
 */
module Protocol {
  import opened Text
  import opened Keywords
  import opened Server
  import Session

  type ConnId = nat
  type TaskId = nat
  type SlotId = nat
  type ReqId = nat
  type Sid = string

  /** Who owns a client: Rust moves clients, so each is in one place. */
  datatype Loc = InPool | PinnedIn(slot: SlotId) | HeldBy(task: TaskId) | Dropped

  datatype Conn = Conn(server: ServerState, loc: Loc)

  /** One `Arc<Mutex<Slot>>`: the session it was made for, its pinned client, the task holding its lock. */
  datatype Cell = Cell(key: Sid, pinned: Option<ConnId>, holder: Option<TaskId>)

  /** A registered cancel action: its target, a serial number, and the task whose guard registered it. */
  datatype Action = Action(conn: ConnId, serial: nat, task: TaskId)

  /** A batch or session run, a single statement without a session, a release, a sweep or shutdown. */
  datatype Job = RunJob | SingleJob | ReleaseJob | SweepJob

  datatype Pc =
    | Entering    // about to look the session up in the map
    | Waiting     // holds the slot's Arc, waits for its lock
    | Connecting  // needs a pooled client
    | Arming      // has a client, about to register the cancel guard
    | Configuring // applying search_path
    | Ready       // between statements
    | Executing   // a statement runs on the shared client
    | Handover    // guard dropped, acquiring a one-shot client
    | OneShot     // a statement runs on the one-shot client
    | Rearming    // one-shot client gone, about to register the guard again
    | Launching   // a single statement, acquiring its one-shot client
    | Alone       // a single statement runs on its one-shot client
    | Settling    // all statements done, guard dropped
    | Leaving     // client disposed of, about to drop the slot guard
    | Draining    // rolling back and releasing the clients in the backlog

  datatype Task = Task(
    job: Job, sid: Option<Sid>, req: Option<ReqId>, pooler: bool, hasSchema: bool, todo: seq<Kind>,
    pc: Pc, slot: Option<SlotId>, conn: Option<ConnId>, shot: Option<ConnId>,
    inTxn: bool, stateSet: bool, guard: Option<nat>, backlog: seq<ConnId>)

  datatype State = State(
    conns: map<ConnId, Conn>, slots: map<SlotId, Cell>, sessions: map<Sid, SlotId>, tasks: map<TaskId, Task>,
    handles: map<ReqId, Action>, serial: nat, pending: set<nat>, ran: multiset<nat>, shutdown: bool)

  function Init(): State {
    State(map[], map[], map[], map[], map[], 0, {}, multiset{}, false)
  }

  datatype Label =
    | Spawn(t: TaskId, job: Job, sid: Option<Sid>, req: Option<ReqId>, pooler: bool, hasSchema: bool, todo: seq<Kind>)
    | Enter(t: TaskId, newSlot: SlotId)
    | Lock(t: TaskId)
    | Connect(t: TaskId, c: ConnId)
    | ConnectFails(t: TaskId)
    | Arm(t: TaskId)
    | Configure(t: TaskId, fate: Fate)
    | Begin(t: TaskId)
    | Finish(t: TaskId, fates: Fates)
    | Shoot(t: TaskId, c: ConnId)
    | ShootFails(t: TaskId)
    | ShotDone(t: TaskId, ok: bool)
    | Launch(t: TaskId, c: ConnId)
    | LaunchFails(t: TaskId)
    | AloneDone(t: TaskId)
    | EndLoop(t: TaskId)
    | Park(t: TaskId, fate: Fate)
    | Leave(t: TaskId)
    | SweepEntry(t: TaskId, key: Sid, expired: bool)
    | ShutdownEntry(t: TaskId, key: Sid)
    | Drain(t: TaskId, fate: Fate)
    | Drained(t: TaskId)
    | Dying(c: ConnId)
    | Evict(c: ConnId)
    | Cancel(r: ReqId)
    | Fire(serial: nat)

  // -------------------------------------------------------------------------
  // Pieces of the steps

  /** The task still holds the slot's lock if it ever took it. */
  predicate HoldsLock(pc: Pc) {
    pc != Entering && pc != Waiting && pc != Draining
  }

  predicate HasConn(pc: Pc) {
    pc == Arming || pc == Configuring || pc == Ready || pc == Executing || pc == Handover || pc == OneShot
    || pc == Rearming || pc == Settling
  }

  /** Some task holds the slot's Arc: `Arc::strong_count` beyond the map's own. */
  predicate Referenced(s: State, k: SlotId) {
    exists u :: u in s.tasks && s.tasks[u].slot == Some(k)
  }

  predicate Mapped(s: State, k: SlotId)
    requires k in s.slots
  {
    s.slots[k].key in s.sessions && s.sessions[s.slots[k].key] == k
  }

  function SetTask(s: State, t: TaskId, task: Task): State {
    s.(tasks := s.tasks[t := task])
  }

  function SetConn(s: State, c: ConnId, server: ServerState, loc: Loc): State {
    s.(conns := s.conns[c := Conn(server, loc)])
  }

  /** `CancelGuard::register` on `target`, for task `t`. */
  function Register(s: State, t: TaskId, task: Task, target: ConnId): State {
    match task.req {
      case None => SetTask(s, t, task)
      case Some(r) =>
        SetTask(s.(handles := s.handles[r := Action(target, s.serial, t)], serial := s.serial + 1),
                t, task.(guard := Some(s.serial)))
    }
  }

  /** `CancelGuard::drop`: the key goes, whatever it maps to. */
  function Unregister(s: State, t: TaskId, task: Task): State {
    match (task.req, task.guard) {
      case (Some(r), Some(_)) => SetTask(s.(handles := s.handles - {r}), t, task.(guard := None))
      case _ => SetTask(s, t, task)
    }
  }

  /** `Slot::take` for a task that will release the client: it moves from the slot to the task's backlog. */
  function TakePinned(s: State, t: TaskId, k: SlotId): State
    requires t in s.tasks && k in s.slots
  {
    var pinned := s.slots[k].pinned;
    if pinned.None? || pinned.value !in s.conns then s
    else
      var s1 := SetConn(s, pinned.value, s.conns[pinned.value].server, HeldBy(t));
      SetTask(s1.(slots := s.slots[k := s.slots[k].(pinned := None)]), t,
              s.tasks[t].(backlog := s.tasks[t].backlog + [pinned.value]))
  }

  /** The slot goes when its last Arc does, and closes a client left in it. */
  function DropUnused(s: State, k: SlotId): State
    requires k in s.slots
  {
    if Mapped(s, k) || Referenced(s, k) then s
    else
      var pinned := s.slots[k].pinned;
      var conns := if pinned.Some? then s.conns[pinned.value := Conn(Closed, Dropped)] else s.conns;
      s.(conns := conns, slots := s.slots - {k})
  }

  function Unmap(s: State, sid: Sid): State {
    s.(sessions := s.sessions - {sid})
  }

  function AfterStatement(task: Task, outcome: QueryOutcome): Task
    requires task.todo != []
  {
    var (inTxn, stateSet) := FlagsAfter(task.todo[0], outcome, task.inTxn, task.stateSet);
    task.(todo := task.todo[1..], inTxn := task.job != SingleJob && inTxn, stateSet := stateSet)
  }

  predicate GoesOneShot(task: Task)
    requires task.todo != []
  {
    task.job != SingleJob && RunsOneShot(task.pooler, task.todo[0], task.inTxn, task.stateSet)
  }

  predicate IsAt(s: State, t: TaskId, pc: Pc) {
    t in s.tasks && s.tasks[t].pc == pc
  }

  predicate HasClient(s: State, t: TaskId) {
    t in s.tasks && s.tasks[t].conn.Some? && s.tasks[t].conn.value in s.conns
  }

  /** The slots and the session map are as they were. */
  predicate SameMaps(s: State, s': State) {
    s'.slots == s.slots && s'.sessions == s.sessions && s'.shutdown == s.shutdown
  }

  // -------------------------------------------------------------------------
  // The steps

  predicate ReqFree(s: State, req: Option<ReqId>) {
    req.Some? ==> forall u :: u in s.tasks ==> s.tasks[u].req != req
  }

  function SpawnStep(s: State, t: TaskId, job: Job, sid: Option<Sid>, req: Option<ReqId>, pooler: bool, hasSchema: bool,
                     todo: seq<Kind>)
      : Option<State>
  {
    if t in s.tasks || !ReqFree(s, req) then None
    else if (job == ReleaseJob && sid.None?) || (job == SingleJob && |todo| != 1) then None
    else
      var session := if job == SweepJob || job == SingleJob then None else sid;
      var pc := if job == SweepJob then Draining
                else if job == SingleJob && pooler && todo[0].rows then Launching
                else if session.Some? then Entering
                else Connecting;
      Some(SetTask(s, t,
                   Task(job, session, req, pooler, hasSchema, todo, pc, None, None, None, false, false, None, [])))
  }

  /** The map half of `session::lock`: look the slot up or insert a default one, and clone its Arc. */
  function EnterStep(s: State, t: TaskId, newSlot: SlotId): Option<State> {
    if !IsAt(s, t, Entering) || s.tasks[t].sid.None? then None
    else
      var task := s.tasks[t];
      var sid := task.sid.value;
      var (k, sessions) := Session.OrDefault(s.sessions, sid, newSlot);
      if sid in s.sessions then Some(SetTask(s, t, task.(pc := Waiting, slot := Some(k))))
      else if k in s.slots then None
      else
        var s1 := s.(slots := s.slots[k := Cell(sid, None, None)], sessions := sessions);
        Some(SetTask(s1, t, task.(pc := Waiting, slot := Some(k))))
  }

  /**
   The lock is granted. A run keeps it and takes the pinned client; a release takes the client and lets go at once.
   */
  function LockStep(s: State, t: TaskId): Option<State> {
    if !IsAt(s, t, Waiting) || s.tasks[t].slot.None? || s.tasks[t].slot.value !in s.slots then None
    else if s.slots[s.tasks[t].slot.value].holder.Some? then None
    else if s.tasks[t].job == ReleaseJob then Some(ReleaseLock(s, t))
    else RunLock(s, t)
  }

  function ReleaseLock(s: State, t: TaskId): State
    requires t in s.tasks && s.tasks[t].slot.Some? && s.tasks[t].slot.value in s.slots
  {
    var k := s.tasks[t].slot.value;
    var s1 := SetTask(s, t, s.tasks[t].(pc := Draining, slot := None));
    DropUnused(TakePinned(s1, t, k), k)
  }

  function RunLock(s: State, t: TaskId): Option<State>
    requires t in s.tasks && s.tasks[t].slot.Some? && s.tasks[t].slot.value in s.slots
  {
    var k := s.tasks[t].slot.value;
    var cell := s.slots[k];
    var pinned := cell.pinned;
    var s1 := s.(slots := s.slots[k := cell.(pinned := None, holder := Some(t))]);
    if pinned.None? then Some(SetTask(s1, t, s.tasks[t].(pc := Connecting)))
    else if pinned.value !in s.conns then None
    else
      var s2 := SetConn(s1, pinned.value, s.conns[pinned.value].server, HeldBy(t));
      Some(SetTask(s2, t, s.tasks[t].(pc := Arming, conn := pinned, inTxn := true)))
  }

  /** A pooled client that is still open, or a new connection. */
  function ConnectStep(s: State, t: TaskId, c: ConnId): (r: Option<State>)
    ensures r.Some? ==> SameMaps(s, r.value)
  {
    if !IsAt(s, t, Connecting) then None
    else
      var server := if c in s.conns then s.conns[c].server else Idle;
      if c in s.conns && (s.conns[c].loc != InPool || server == Closed) then None
      else Some(SetTask(SetConn(s, c, server, HeldBy(t)), t,
                        s.tasks[t].(pc := Arming, conn := Some(c), inTxn := false)))
  }

  function ConnectFailsStep(s: State, t: TaskId): (r: Option<State>)
    ensures r.Some? ==> SameMaps(s, r.value)
  {
    if !IsAt(s, t, Connecting) then None else Some(SetTask(s, t, s.tasks[t].(pc := Leaving)))
  }

  /** Register the guard on the shared client, at the start of the run or after a one-shot statement. */
  function ArmStep(s: State, t: TaskId): (r: Option<State>)
    ensures r.Some? ==> SameMaps(s, r.value)
  {
    if !HasClient(s, t) then None
    else
      var task := s.tasks[t];
      if task.pc == Arming then
        Some(Register(s, t, task.(pc := if task.hasSchema && !task.inTxn then Configuring else Ready), task.conn.value))
      else if task.pc == Rearming then
        Some(Register(s, t, task.(pc := Ready), task.conn.value))
      else None
  }

  /** `apply_search_path`; its failure returns early, which drops the guard and the client. */
  function ConfigureStep(s: State, t: TaskId, fate: Fate): (r: Option<State>)
    ensures r.Some? ==> SameMaps(s, r.value)
  {
    if !IsAt(s, t, Configuring) || !HasClient(s, t) then None
    else
      var task := s.tasks[t];
      var c := task.conn.value;
      var reply := Statement(NoEffect, false, s.conns[c].server, fate);
      if reply.ok then Some(SetTask(s, t, task.(pc := Ready)))
      else Some(Unregister(SetConn(s, c, reply.after, InPool), t, task.(pc := Leaving, conn := None)))
  }

  function BeginStep(s: State, t: TaskId): (r: Option<State>)
    ensures r.Some? ==> SameMaps(s, r.value)
  {
    if !IsAt(s, t, Ready) || s.tasks[t].todo == [] then None
    else
      var task := s.tasks[t];
      if GoesOneShot(task) then Some(Unregister(s, t, task.(pc := Handover)))
      else Some(SetTask(s, t, task.(pc := Executing)))
  }

  function FinishStep(s: State, t: TaskId, fates: Fates): (r: Option<State>)
    ensures r.Some? ==> SameMaps(s, r.value)
  {
    if !IsAt(s, t, Executing) || !HasClient(s, t) || s.tasks[t].todo == [] then None
    else
      var task := s.tasks[t];
      var c := task.conn.value;
      var (outcome, after) :=
          ExecOnClient(task.todo[0], PreResolves(task.pooler, task.todo[0]), task.inTxn, s.conns[c].server, fates);
      Some(SetTask(SetConn(s, c, after, s.conns[c].loc), t, AfterStatement(task, outcome).(pc := Ready)))
  }

  /** The one-shot client is acquired and its own guard registered; it is in its own transaction from then on. */
  function ShootStep(s: State, t: TaskId, c: ConnId): (r: Option<State>)
    ensures r.Some? ==> SameMaps(s, r.value)
  {
    if !IsAt(s, t, Handover) || c in s.conns then None
    else Some(Register(SetConn(s, c, InTxn, HeldBy(t)), t, s.tasks[t].(pc := OneShot, shot := Some(c)), c))
  }

  function ShootFailsStep(s: State, t: TaskId): (r: Option<State>)
    ensures r.Some? ==> SameMaps(s, r.value)
  {
    if !IsAt(s, t, Handover) || s.tasks[t].todo == [] then None
    else Some(SetTask(s, t, AfterStatement(s.tasks[t], QueryOutcome(false, false)).(pc := Rearming)))
  }

  /** The one-shot client closes with its connection; its guard takes the map entry with it. */
  function ShotDoneStep(s: State, t: TaskId, ok: bool): (r: Option<State>)
    ensures r.Some? ==> SameMaps(s, r.value)
  {
    if !IsAt(s, t, OneShot) || s.tasks[t].todo == [] || s.tasks[t].shot.None? then None
    else
      var task := s.tasks[t];
      var s1 := SetConn(s, task.shot.value, Closed, Dropped);
      Some(Unregister(s1, t, AfterStatement(task, QueryOutcome(ok, false)).(pc := Rearming, shot := None)))
  }

  /** `exec_query` on a transaction pooler: a row-returning statement gets a one-shot client and no shared one. */
  function LaunchStep(s: State, t: TaskId, c: ConnId): (r: Option<State>)
    ensures r.Some? ==> SameMaps(s, r.value)
  {
    if !IsAt(s, t, Launching) || c in s.conns then None
    else Some(Register(SetConn(s, c, InTxn, HeldBy(t)), t, s.tasks[t].(pc := Alone, shot := Some(c)), c))
  }

  function LaunchFailsStep(s: State, t: TaskId): (r: Option<State>)
    ensures r.Some? ==> SameMaps(s, r.value)
  {
    if !IsAt(s, t, Launching) then None else Some(SetTask(s, t, s.tasks[t].(pc := Leaving, todo := [])))
  }

  function AloneDoneStep(s: State, t: TaskId): (r: Option<State>)
    ensures r.Some? ==> SameMaps(s, r.value)
  {
    if !IsAt(s, t, Alone) || s.tasks[t].shot.None? then None
    else
      var task := s.tasks[t];
      Some(Unregister(SetConn(s, task.shot.value, Closed, Dropped), t, task.(pc := Leaving, todo := [], shot := None)))
  }

  function EndLoopStep(s: State, t: TaskId): (r: Option<State>)
    ensures r.Some? ==> SameMaps(s, r.value)
  {
    if !IsAt(s, t, Ready) || s.tasks[t].todo != [] then None
    else Some(Unregister(s, t, s.tasks[t].(pc := Settling)))
  }

  /** Pin the client, roll it back and release it, or just release it. */
  function ParkStep(s: State, t: TaskId, fate: Fate): Option<State> {
    if !IsAt(s, t, Settling) || !HasClient(s, t) then None
    else if s.tasks[t].inTxn && s.tasks[t].slot.Some? then PinClient(s, t)
    else Some(HandBack(s, t, fate))
  }

  function HandBack(s: State, t: TaskId, fate: Fate): State
    requires HasClient(s, t)
  {
    var c := s.tasks[t].conn.value;
    var server := s.conns[c].server;
    var after := if s.tasks[t].inTxn then Rollback(server, fate).after else server;
    SetTask(SetConn(s, c, after, InPool), t, s.tasks[t].(pc := Leaving, conn := None))
  }

  /** `Slot::pin`. Pinning over a pinned client would drop that one, which returns it to the pool as it is. */
  function PinClient(s: State, t: TaskId): Option<State>
    requires HasClient(s, t) && s.tasks[t].slot.Some?
  {
    var k := s.tasks[t].slot.value;
    var c := s.tasks[t].conn.value;
    if k !in s.slots then None
    else
      var overwritten := s.slots[k].pinned;
      var s1 := if overwritten.Some? && overwritten.value in s.conns
                then SetConn(s, overwritten.value, s.conns[overwritten.value].server, InPool) else s;
      var s2 := SetConn(s1, c, s.conns[c].server, PinnedIn(k));
      var s3 := s2.(slots := s.slots[k := s.slots[k].(pinned := Some(c))]);
      Some(SetTask(s3, t, s.tasks[t].(pc := Leaving, conn := None)))
  }

  /** The run returns: the slot's lock and Arc are dropped. */
  function LeaveStep(s: State, t: TaskId): Option<State> {
    if !IsAt(s, t, Leaving) then None
    else if s.tasks[t].slot.None? then Some(s.(tasks := s.tasks - {t}))
    else if s.tasks[t].slot.value !in s.slots then None
    else Some(DropUnused(Unlock(s, t), s.tasks[t].slot.value))
  }

  function Unlock(s: State, t: TaskId): (s': State)
    requires t in s.tasks && s.tasks[t].slot.Some? && s.tasks[t].slot.value in s.slots
    ensures s.tasks[t].slot.value in s'.slots
  {
    var k := s.tasks[t].slot.value;
    s.(slots := s.slots[k := s.slots[k].(holder := None)], tasks := s.tasks - {t})
  }

  predicate Retaining(s: State, t: TaskId, sid: Sid) {
    IsAt(s, t, Draining) && s.tasks[t].job == SweepJob && sid in s.sessions && s.sessions[sid] in s.slots
  }

  /** One entry of the `retain` in `sweep_idle`: a busy slot stays, an expired client is taken, an unused slot goes. */
  function SweepStep(s: State, t: TaskId, sid: Sid, expired: bool): Option<State> {
    if !Retaining(s, t, sid) then None
    else
      var k := s.sessions[sid];
      if s.slots[k].holder.Some? then Some(s)
      else
        var s1 := if expired then TakePinned(s, t, k) else s;
        if s1.slots[k].pinned.Some? || Referenced(s1, k) then Some(s1)
        else Some(DropUnused(Unmap(s1, sid), k))
  }

  /** One entry of the `retain` in `release_all`: a busy slot stays, any other leaves the map, waiters or not. */
  function ShutdownStep(s: State, t: TaskId, sid: Sid): Option<State> {
    if !Retaining(s, t, sid) then None
    else
      var k := s.sessions[sid];
      var s0 := s.(shutdown := true);
      if s.slots[k].holder.Some? then Some(s0)
      else Some(DropUnused(Unmap(TakePinned(s0, t, k), sid), k))
  }

  /** `rollback_and_release` on the next client of the backlog. */
  function DrainStep(s: State, t: TaskId, fate: Fate): Option<State> {
    if !IsAt(s, t, Draining) || s.tasks[t].backlog == [] || s.tasks[t].backlog[0] !in s.conns then None
    else
      var task := s.tasks[t];
      var c := task.backlog[0];
      Some(SetTask(SetConn(s, c, Rollback(s.conns[c].server, fate).after, InPool), t,
                   task.(backlog := task.backlog[1..])))
  }

  function DrainedStep(s: State, t: TaskId): Option<State> {
    if !IsAt(s, t, Draining) || s.tasks[t].backlog != [] then None else Some(s.(tasks := s.tasks - {t}))
  }

  function DyingStep(s: State, c: ConnId): Option<State> {
    if c !in s.conns then None else Some(SetConn(s, c, Closed, s.conns[c].loc))
  }

  /** The pool discards an idle client: it found it closed, or the pool itself was dropped. */
  function EvictStep(s: State, c: ConnId): Option<State> {
    if c !in s.conns || s.conns[c].loc != InPool then None else Some(SetConn(s, c, Closed, Dropped))
  }

  /** `cancel::cancel`: the action leaves the map and is then run outside the map's lock. An unknown id is a no-op. */
  function CancelStep(s: State, r: ReqId): Option<State> {
    if r !in s.handles then Some(s)
    else Some(s.(handles := s.handles - {r}, pending := s.pending + {s.handles[r].serial}))
  }

  function FireStep(s: State, serial: nat): Option<State> {
    if serial !in s.pending then None
    else Some(s.(pending := s.pending - {serial}, ran := s.ran + multiset{serial}))
  }

  /**
   The statements the claims are about: a batch's keep their flag right, and a single one does not open a transaction on
   a pooled client.
   */
  predicate Admitted(job: Job, pooler: bool, todo: seq<Kind>) {
    forall i :: 0 <= i < |todo| ==>
      if job == SingleJob then todo[i].effect != Opens || (pooler && todo[i].rows) else Trackable(todo[i])
  }

  function Next(s: State, l: Label): Option<State> {
    match l {
      case Spawn(t, job, sid, req, pooler, hasSchema, todo) =>
        if Admitted(job, pooler, todo) then SpawnStep(s, t, job, sid, req, pooler, hasSchema, todo) else None
      case Enter(t, newSlot) => EnterStep(s, t, newSlot)
      case Lock(t) => LockStep(s, t)
      case Connect(t, c) => ConnectStep(s, t, c)
      case ConnectFails(t) => ConnectFailsStep(s, t)
      case Arm(t) => ArmStep(s, t)
      case Configure(t, fate) => ConfigureStep(s, t, fate)
      case Begin(t) => BeginStep(s, t)
      case Finish(t, fates) => FinishStep(s, t, fates)
      case Shoot(t, c) => ShootStep(s, t, c)
      case ShootFails(t) => ShootFailsStep(s, t)
      case ShotDone(t, ok) => ShotDoneStep(s, t, ok)
      case Launch(t, c) => LaunchStep(s, t, c)
      case LaunchFails(t) => LaunchFailsStep(s, t)
      case AloneDone(t) => AloneDoneStep(s, t)
      case EndLoop(t) => EndLoopStep(s, t)
      case Park(t, fate) => ParkStep(s, t, fate)
      case Leave(t) => LeaveStep(s, t)
      case SweepEntry(t, key, expired) => SweepStep(s, t, key, expired)
      case ShutdownEntry(t, key) => ShutdownStep(s, t, key)
      case Drain(t, fate) => DrainStep(s, t, fate)
      case Drained(t) => DrainedStep(s, t)
      case Dying(c) => DyingStep(s, c)
      case Evict(c) => EvictStep(s, c)
      case Cancel(r) => CancelStep(s, r)
      case Fire(serial) => FireStep(s, serial)
    }
  }

  /** The state after taking the steps of `labels` from `s`, or `None` if one was not enabled. */
  function RunFrom(s: State, labels: seq<Label>): Option<State>
    decreases |labels|
  {
    if labels == [] then Some(s)
    else match Next(s, labels[0]) {
      case None => None
      case Some(s') => RunFrom(s', labels[1..])
    }
  }

  /** The steps of the plugin itself, which admits every statement. */
  function AnyNext(s: State, l: Label): Option<State> {
    if l.Spawn? then SpawnStep(s, l.t, l.job, l.sid, l.req, l.pooler, l.hasSchema, l.todo) else Next(s, l)
  }

  function AnyRunFrom(s: State, labels: seq<Label>): Option<State>
    decreases |labels|
  {
    if labels == [] then Some(s)
    else match AnyNext(s, labels[0]) {
      case None => None
      case Some(s') => AnyRunFrom(s', labels[1..])
    }
  }

  /** Some run, in some interleaving, leads to `s`. */
  ghost predicate Reachable(s: State) {
    exists labels: seq<Label> :: RunFrom(Init(), labels) == Some(s)
  }
}

/** Which statements dirty the pool: exactly those that `Admitted` keeps out. */
module Leaks {
  import opened Text
  import opened Keywords
  import opened Server
  import opened Protocol
  import Safety

  ghost predicate Dirty(s: State) {
    exists c :: c in s.conns && s.conns[c].loc == InPool && (s.conns[c].server == InTxn || s.conns[c].server == Aborted)
  }

  /** The plugin can get from the empty state to a dirty pool along these labels. */
  ghost predicate Dirties(labels: seq<Label>) {
    AnyRunFrom(Init(), labels).Some? && Dirty(AnyRunFrom(Init(), labels).value)
  }

  /** The only tasks started run this one statement without a session. */
  predicate OnlySingle(labels: seq<Label>, pooler: bool, k: Kind) {
    forall i :: 0 <= i < |labels| && labels[i].Spawn? ==>
        labels[i].job == SingleJob && labels[i].pooler == pooler && labels[i].todo == [k]
  }

  predicate TodoOf(todo: seq<Kind>, k: Kind) {
    forall i :: 0 <= i < |todo| ==> todo[i] == k || Trackable(todo[i])
  }

  /** The only tasks started run batches of this statement and of trackable ones. */
  predicate OnlyBatches(labels: seq<Label>, pooler: bool, k: Kind) {
    forall i :: 0 <= i < |labels| && labels[i].Spawn? ==>
        labels[i].job == RunJob && labels[i].pooler == pooler && TodoOf(labels[i].todo, k)
  }

  // -------------------------------------------------------------------------
  // Runs of admitted tasks keep the pool clean

  predicate AllAdmitted(labels: seq<Label>) {
    forall i :: 0 <= i < |labels| && labels[i].Spawn? ==> Admitted(labels[i].job, labels[i].pooler, labels[i].todo)
  }

  lemma {:induction false} AdmittedRun(s: State, labels: seq<Label>)
    requires AllAdmitted(labels)
    ensures AnyRunFrom(s, labels) == RunFrom(s, labels)
    decreases |labels|
  {
    if labels != [] {
      assert AnyNext(s, labels[0]) == Next(s, labels[0]);
      if Next(s, labels[0]).Some? {
        AdmittedRun(Next(s, labels[0]).value, labels[1..]);
      }
    }
  }

  lemma AdmittedStaysClean(labels: seq<Label>)
    requires AllAdmitted(labels)
    ensures !Dirties(labels)
  {
    AdmittedRun(Init(), labels);
    if AnyRunFrom(Init(), labels).Some? {
      var s := AnyRunFrom(Init(), labels).value;
      assert RunFrom(Init(), labels) == Some(s);
      forall c | c in s.conns && s.conns[c].loc == InPool
        ensures s.conns[c].server == Idle || s.conns[c].server == Closed
      {
        Safety.PoolIsClean(s, c);
      }
    }
  }

  // -------------------------------------------------------------------------
  // The runs that leak

  lemma FirstStep(s: State, l: Label, labels: seq<Label>)
    requires AnyNext(s, l).Some?
    ensures AnyRunFrom(s, [l] + labels) == AnyRunFrom(AnyNext(s, l).value, labels)
  {
    assert ([l] + labels)[0] == l && ([l] + labels)[1..] == labels;
  }

  function AllWork(): Fates {
    Fates(Works, Works, Works, Works, false)
  }

  /** The task alone on its pooled client, its first statement just begun. */
  predicate Begun(s: State, job: Job, pooler: bool, todo: seq<Kind>) {
    && IsAt(s, 0, Executing) && s.conns == map[0 := Conn(Idle, HeldBy(0))]
    && s.tasks[0] == Task(job, None, None, pooler, false, todo, Executing, None, Some(0), None, false, false, None, [])
  }

  function Starting(job: Job, pooler: bool, todo: seq<Kind>): seq<Label> {
    [Spawn(0, job, None, None, pooler, false, todo), Connect(0, 0), Arm(0), Begin(0)]
  }

  lemma Starts(job: Job, pooler: bool, todo: seq<Kind>, rest: seq<Label>) returns (s: State)
    requires (job == SingleJob && |todo| == 1) || (job == RunJob && todo != [])
    requires !(pooler && todo[0].rows)
    ensures Begun(s, job, pooler, todo)
    ensures AnyRunFrom(Init(), Starting(job, pooler, todo) + rest) == AnyRunFrom(s, rest)
  {
    var l0, l1, l2, l3 := Spawn(0, job, None, None, pooler, false, todo), Connect(0, 0), Arm(0), Begin(0);
    assert Starting(job, pooler, todo) + rest == [l0] + ([l1] + ([l2] + ([l3] + rest)));
    var s1 := AnyNext(Init(), l0).value;
    FirstStep(Init(), l0, [l1] + ([l2] + ([l3] + rest)));
    var s2 := Connects(s1, job, pooler, todo, [l2] + ([l3] + rest));
    s := ArmsAndBegins(s2, job, pooler, todo, rest);
  }

  lemma Connects(s: State, job: Job, pooler: bool, todo: seq<Kind>, rest: seq<Label>) returns (s': State)
    requires s.conns == map[] && IsAt(s, 0, Connecting)
    requires s.tasks[0]
             == Task(job, None, None, pooler, false, todo, Connecting, None, None, None, false, false, None, [])
    ensures Armed(s', job, pooler, todo) && AnyRunFrom(s, [Connect(0, 0)] + rest) == AnyRunFrom(s', rest)
  {
    s' := AnyNext(s, Connect(0, 0)).value;
    FirstStep(s, Connect(0, 0), rest);
  }

  /** The task with its new client. */
  predicate Armed(s: State, job: Job, pooler: bool, todo: seq<Kind>) {
    && IsAt(s, 0, Arming) && s.conns == map[0 := Conn(Idle, HeldBy(0))]
    && s.tasks[0] == Task(job, None, None, pooler, false, todo, Arming, None, Some(0), None, false, false, None, [])
  }

  lemma ArmsAndBegins(s: State, job: Job, pooler: bool, todo: seq<Kind>, rest: seq<Label>) returns (s': State)
    requires Armed(s, job, pooler, todo) && todo != [] && !(pooler && todo[0].rows)
    ensures Begun(s', job, pooler, todo)
    ensures AnyRunFrom(s, [Arm(0)] + ([Begin(0)] + rest)) == AnyRunFrom(s', rest)
  {
    var s1 := AnyNext(s, Arm(0)).value;
    s' := AnyNext(s1, Begin(0)).value;
    FirstStep(s, Arm(0), [Begin(0)] + rest);
    FirstStep(s1, Begin(0), rest);
  }

  /** The task between statements, its client in `server`. */
  predicate Between(s: State, job: Job, pooler: bool, todo: seq<Kind>, inTxn: bool, stateSet: bool,
                    server: ServerState) {
    && IsAt(s, 0, Ready) && s.conns == map[0 := Conn(server, HeldBy(0))]
    && s.tasks[0]
       == Task(job, None, None, pooler, false, todo, Ready, None, Some(0), None, inTxn, stateSet, None, [])
  }

  /** The loop ends with the flag false and the transaction open: the client goes back to the pool as it is. */
  lemma OpenIsParked(s: State, job: Job, pooler: bool, stateSet: bool)
    requires Between(s, job, pooler, [], false, stateSet, InTxn)
    ensures var end := AnyRunFrom(s, [EndLoop(0), Park(0, Works)]); end.Some? && Dirty(end.value)
  {
    var l0, l1 := EndLoop(0), Park(0, Works);
    var s1 := AnyNext(s, l0).value;
    var s2 := AnyNext(s1, l1).value;
    assert s2.conns[0] == Conn(InTxn, InPool);
    assert [l0, l1] == [l0] + ([l1] + []);
    FirstStep(s, l0, [l1] + []);
    FirstStep(s1, l1, []);
  }

  lemma SingleFinishes(s: State, pooler: bool, k: Kind, s': State)
    requires Begun(s, SingleJob, pooler, [k]) && k.effect == Opens && FinishStep(s, 0, AllWork()) == Some(s')
    ensures Between(s', SingleJob, pooler, [], false, s'.tasks[0].stateSet, InTxn)
  {
  }

  /**
   From its start to its return, a single opening statement leaves its pooled client in the pool, its transaction open.
   */
  lemma SingleLeaks(pooler: bool, k: Kind) returns (labels: seq<Label>)
    requires k.effect == Opens && !(pooler && k.rows)
    ensures OnlySingle(labels, pooler, k) && Dirties(labels)
  {
    var rest := [EndLoop(0), Park(0, Works)];
    labels := Starting(SingleJob, pooler, [k]) + ([Finish(0, AllWork())] + rest);
    var s := Starts(SingleJob, pooler, [k], [Finish(0, AllWork())] + rest);
    SingleReturns(s, pooler, k, rest);
  }

  lemma SingleReturns(s: State, pooler: bool, k: Kind, rest: seq<Label>)
    requires Begun(s, SingleJob, pooler, [k]) && k.effect == Opens && rest == [EndLoop(0), Park(0, Works)]
    ensures var end := AnyRunFrom(s, [Finish(0, AllWork())] + rest); end.Some? && Dirty(end.value)
  {
    var s1 := AnyNext(s, Finish(0, AllWork())).value;
    SingleFinishes(s, pooler, k, s1);
    FirstStep(s, Finish(0, AllWork()), rest);
    OpenIsParked(s1, SingleJob, pooler, s1.tasks[0].stateSet);
  }

  /** What keeps the next statement on the shared client: a `SET`, or for a chain, which needs one, a `BEGIN`. */
  function Before(k: Kind): Kind {
    if k.effect == Opens then Kind(NoEffect, false, true) else Kind(Opens, false, false)
  }

  /** How the statement slips: opened but timed out after a failed `prepare`, or chained with its reply lost. */
  function Slipping(k: Kind): Fates {
    Fates(if k.effect == Opens then Refused else Works, ClientFails, Works, Works, false)
  }

  lemma BeforeFinishes(s: State, pooler: bool, k: Kind, s': State)
    requires Begun(s, RunJob, pooler, [Before(k), k]) && !Trackable(k) && FinishStep(s, 0, AllWork()) == Some(s')
    ensures Between(s', RunJob, pooler, [k], k.effect == Chains, k.effect == Opens,
                    if k.effect == Chains then InTxn else Idle)
  {
  }

  lemma SlipBegins(s: State, pooler: bool, k: Kind, s': State)
    requires !Trackable(k) && BeginStep(s, 0) == Some(s')
    requires Between(s, RunJob, pooler, [k], k.effect == Chains, k.effect == Opens,
                     if k.effect == Chains then InTxn else Idle)
    ensures s'.conns == s.conns && IsAt(s', 0, Executing) && s'.tasks[0] == s.tasks[0].(pc := Executing)
  {
  }

  lemma SlipFinishes(s: State, pooler: bool, k: Kind, s': State)
    requires !Trackable(k) && IsAt(s, 0, Executing) && FinishStep(s, 0, Slipping(k)) == Some(s')
    requires s.conns == map[0 := Conn(if k.effect == Chains then InTxn else Idle, HeldBy(0))]
    requires s.tasks[0] == Task(RunJob, None, None, pooler, false, [k], Executing, None, Some(0), None,
                                k.effect == Chains, k.effect == Opens, None, [])
    ensures Between(s', RunJob, pooler, [], false, k.effect == Opens, InTxn)
  {
  }

  lemma BatchSlips(s: State, pooler: bool, k: Kind, rest: seq<Label>) returns (s': State)
    requires Begun(s, RunJob, pooler, [Before(k), k]) && !Trackable(k)
    ensures Between(s', RunJob, pooler, [], false, k.effect == Opens, InTxn)
    ensures AnyRunFrom(s, [Finish(0, AllWork())] + ([Begin(0)] + ([Finish(0, Slipping(k))] + rest)))
            == AnyRunFrom(s', rest)
  {
    var s1 := AnyNext(s, Finish(0, AllWork())).value;
    BeforeFinishes(s, pooler, k, s1);
    var s2 := AnyNext(s1, Begin(0)).value;
    SlipBegins(s1, pooler, k, s2);
    s' := AnyNext(s2, Finish(0, Slipping(k))).value;
    SlipFinishes(s2, pooler, k, s');
    FirstStep(s, Finish(0, AllWork()), [Begin(0)] + ([Finish(0, Slipping(k))] + rest));
    FirstStep(s1, Begin(0), [Finish(0, Slipping(k))] + rest);
    FirstStep(s2, Finish(0, Slipping(k)), rest);
  }

  lemma BatchLeaks(pooler: bool, k: Kind) returns (labels: seq<Label>)
    requires !Trackable(k)
    ensures OnlyBatches(labels, pooler, k) && Dirties(labels)
  {
    var rest := [EndLoop(0), Park(0, Works)];
    var slipping := [Finish(0, AllWork())] + ([Begin(0)] + ([Finish(0, Slipping(k))] + rest));
    labels := Starting(RunJob, pooler, [Before(k), k]) + slipping;
    var s := Starts(RunJob, pooler, [Before(k), k], slipping);
    var s' := BatchSlips(s, pooler, k, rest);
    OpenIsParked(s', RunJob, pooler, k.effect == Opens);
  }

  // -------------------------------------------------------------------------
  // The conditions

  /**
   Runs of a single statement can dirty the pool, in some interleaving, if and only if it opens a transaction on a
   pooled client.
   */
  lemma SingleDirtiesExactly(pooler: bool, k: Kind)
    ensures (exists labels: seq<Label> :: OnlySingle(labels, pooler, k) && Dirties(labels))
            <==> k.effect == Opens && !(pooler && k.rows)
  {
    if k.effect == Opens && !(pooler && k.rows) {
      var labels := SingleLeaks(pooler, k);
    } else {
      forall labels: seq<Label> | OnlySingle(labels, pooler, k) ensures !Dirties(labels) {
        assert Admitted(SingleJob, pooler, [k]);
        AdmittedStaysClean(labels);
      }
    }
  }

  /**
   Batches of one statement among trackable ones can dirty the pool, in some interleaving, if and only if that statement
   both returns rows and leaves a transaction open.
   */
  lemma BatchDirtiesExactly(pooler: bool, k: Kind)
    ensures (exists labels: seq<Label> :: OnlyBatches(labels, pooler, k) && Dirties(labels)) <==> !Trackable(k)
  {
    if !Trackable(k) {
      var labels := BatchLeaks(pooler, k);
    } else {
      forall labels: seq<Label> | OnlyBatches(labels, pooler, k) ensures !Dirties(labels) {
        AdmittedStaysClean(labels);
      }
    }
  }
}

/** The cache of connection pools (src/client.rs): the map as an object, and every interleaving of its users. */
module PoolCache {
  import opened Text
  import opened PoolKey

  /** A pool: what it was configured with, and how many of its connections exist and are free. */
  datatype Pool = Pool(config: Config, size: nat, available: nat)

  // -------------------------------------------------------------------------
  // The map

  /** `pools.entry(key).or_insert(pool)`: whichever is cached already stays. */
  function OrInsert(pools: map<string, Pool>, key: string, pool: Pool): map<string, Pool> {
    if key in pools then pools else pools[key := pool]
  }

  /** `cleanup_idle_pools`: only pools with a connection checked out stay. */
  function InUse(pools: map<string, Pool>): map<string, Pool> {
    map k | k in pools && pools[k].size > pools[k].available :: pools[k]
  }

  class Pools {
    var pools: map<string, Pool>

    constructor ()
      ensures pools == map[]
    {
      pools := map[];
    }

    /** `get_or_create_pool_with_key`; `built` is what `build_pool` gives if it is called. */
    method GetOrCreate(key: string, built: Option<Pool>) returns (pool: Option<Pool>)
      modifies this
      ensures key in old(pools) ==> pool == Some(old(pools)[key]) && pools == old(pools)
      ensures key !in old(pools) ==>
                pool == built && pools == if built.Some? then old(pools)[key := built.value] else old(pools)
    {
      if key in pools {
        return Some(pools[key]);
      }
      if built.None? {
        return None;
      }
      pools := OrInsert(pools, key, built.value);
      pool := Some(pools[key]);
    }

    /** `get_pool_client`: a pool that cannot connect leaves the cache. */
    method GetPoolClient(w: World, params: Params, built: Option<Pool>, connects: bool) returns (pool: Option<Pool>)
      modifies this
      ensures pool.Some? ==>
                connects && ConnectionKey(w, params) in pools && pools[ConnectionKey(w, params)] == pool.value
      ensures !connects && (built.Some? || ConnectionKey(w, params) in old(pools)) ==>
                pools == old(pools) - {ConnectionKey(w, params)}
      ensures forall k :: k != ConnectionKey(w, params) ==>
                (k in pools <==> k in old(pools)) && (k in pools ==> pools[k] == old(pools)[k])
    {
      var key := ConnectionKey(w, params);
      pool := GetOrCreate(key, built);
      if pool.Some? && !connects {
        pools := pools - {key};
        pool := None;
      }
    }

    /** `cleanup_idle_pools` over the entries in any order. */
    method CleanupIdlePools()
      modifies this
      ensures forall k :: k in pools <==> k in old(pools) && old(pools)[k].available < old(pools)[k].size
      ensures forall k :: k in pools ==> pools[k] == old(pools)[k]
    {
      var todo := pools.Keys;
      while todo != {}
        invariant todo <= old(pools).Keys && todo <= pools.Keys
        invariant pools == map k | k in old(pools)
                  && (k in todo || old(pools)[k].size > old(pools)[k].available) :: old(pools)[k]
        decreases |todo|
      {
        var key :| key in todo;
        todo := todo - {key};
        if pools[key].size <= pools[key].available {
          pools := pools - {key};
        }
      }
    }
  }

  // -------------------------------------------------------------------------
  // Every interleaving: a request looks up, builds, inserts and connects in separate steps

  /** How parameters are keyed and configured, and which ones arrive. */
  datatype Scheme = Scheme(key: Params -> string, config: Params -> Option<Config>, arrives: Params -> bool)

  /** Equal keys of arriving parameters mean equal configurations. */
  ghost predicate Sound(m: Scheme) {
    forall p: Params, q: Params ::
      m.arrives(p) && m.arrives(q) && m.key(p) == m.key(q) && m.config(p).Some? ==>
        m.config(q).Some? && SameConfig(m.config(p).value, m.config(q).value)
  }

  function SchemeOf(w: World, arriving: Params -> bool): Scheme {
    Scheme(p => ConnectionKey(w, p), p => ConfigOf(w, p), arriving)
  }

  /** Arriving parameters with one key have one form, and the fields that matter hold colons and are present alike. */
  ghost predicate Agreed(w: World, arriving: Params -> bool) {
    forall p: Params, q: Params ::
      arriving(p) && arriving(q) && ConnectionKey(w, p) == ConnectionKey(w, q) && ConfigOf(w, p).Some? ==>
        ColonsAgree(p, q) && PresentAlike(p, q)
  }

  lemma SchemeIsSound(w: World, arriving: Params -> bool)
    requires GoodHash(w) && Agreed(w, arriving)
    ensures Sound(SchemeOf(w, arriving))
  {
    var m := SchemeOf(w, arriving);
    forall p: Params, q: Params | m.arrives(p) && m.arrives(q) && m.key(p) == m.key(q) && m.config(p).Some?
      ensures m.config(q).Some? && SameConfig(m.config(p).value, m.config(q).value)
    {
      AgreeingConfigs(w, p, q);
    }
  }

  datatype Phase = LookingUp | Building | Inserting(built: Pool) | Connecting(pool: Pool) | Serving(pool: Pool) | Failed

  datatype Request = Request(params: Params, phase: Phase)

  datatype State = State(pools: map<string, Pool>, requests: map<nat, Request>)

  datatype Label =
    | Arrive(r: nat, params: Params)
    | Lookup(r: nat)
    | Build(r: nat, ok: bool, size: nat, available: nat)
    | Insert(r: nat)
    | Connect(r: nat, ok: bool)
    | Sweep
    | Change(key: string, size: nat, available: nat)

  function Moved(s: State, r: nat, phase: Phase): State
    requires r in s.requests
  {
    s.(requests := s.requests[r := s.requests[r].(phase := phase)])
  }

  function Next(m: Scheme, s: State, l: Label): Option<State> {
    match l {
      case Arrive(r, params) =>
        if r in s.requests then None else Some(s.(requests := s.requests[r := Request(params, LookingUp)]))
      case Lookup(r) =>
        if r !in s.requests || !s.requests[r].phase.LookingUp? then None
        else
          var key := m.key(s.requests[r].params);
          Some(Moved(s, r, if key in s.pools then Connecting(s.pools[key]) else Building))
      case Build(r, ok, size, available) =>
        if r !in s.requests || !s.requests[r].phase.Building? then None
        else
          var config := m.config(s.requests[r].params);
          Some(Moved(s, r, if ok && config.Some? then Inserting(Pool(config.value, size, available)) else Failed))
      case Insert(r) =>
        if r !in s.requests || !s.requests[r].phase.Inserting? then None
        else
          var key := m.key(s.requests[r].params);
          var pools := OrInsert(s.pools, key, s.requests[r].phase.built);
          Some(Moved(s.(pools := pools), r, Connecting(pools[key])))
      case Connect(r, ok) =>
        if r !in s.requests || !s.requests[r].phase.Connecting? then None
        else if ok then Some(Moved(s, r, Serving(s.requests[r].phase.pool)))
        else Some(Moved(s.(pools := s.pools - {m.key(s.requests[r].params)}), r, Failed))
      case Sweep => Some(s.(pools := InUse(s.pools)))
      case Change(key, size, available) =>
        if key !in s.pools then None else Some(s.(pools := s.pools[key := Pool(s.pools[key].config, size, available)]))
    }
  }

  function RunFrom(m: Scheme, s: State, labels: seq<Label>): Option<State>
    decreases |labels|
  {
    if labels == [] then Some(s)
    else match Next(m, s, labels[0]) {
      case None => None
      case Some(s') => RunFrom(m, s', labels[1..])
    }
  }

  /** The pool a request has in hand. */
  function PoolOf(phase: Phase): Option<Pool> {
    match phase {
      case Inserting(pool) => Some(pool)
      case Connecting(pool) => Some(pool)
      case Serving(pool) => Some(pool)
      case _ => None
    }
  }

  /** A fresh build for these parameters would configure the same pool. */
  predicate Fits(m: Scheme, pool: Pool, params: Params) {
    m.config(params).Some? && SameConfig(pool.config, m.config(params).value)
  }

  ghost predicate CachedFits(m: Scheme, s: State, key: string)
    requires key in s.pools
  {
    forall p: Params :: m.arrives(p) && m.key(p) == key ==> Fits(m, s.pools[key], p)
  }

  predicate RequestOk(m: Scheme, request: Request) {
    m.arrives(request.params) && (PoolOf(request.phase).Some? ==> Fits(m, PoolOf(request.phase).value, request.params))
  }

  /**
   Every cached pool fits every request that may come for its key, and every pool in hand fits the request that has it.
   */
  ghost predicate Inv(m: Scheme, s: State) {
    && (forall r :: r in s.requests ==> RequestOk(m, s.requests[r]))
    && (forall key :: key in s.pools ==> CachedFits(m, s, key))
  }

  predicate Arriving(m: Scheme, l: Label) {
    l.Arrive? ==> m.arrives(l.params)
  }

  lemma InsertKeeps(m: Scheme, s: State, r: nat, s': State)
    requires Sound(m) && Inv(m, s) && Next(m, s, Insert(r)) == Some(s')
    ensures Inv(m, s')
  {
    var request := s.requests[r];
    assert RequestOk(m, request);
    forall key | key in s'.pools ensures CachedFits(m, s', key) {
      assert key in s.pools ==> CachedFits(m, s, key);
    }
    assert CachedFits(m, s', m.key(request.params));
  }

  /**
   Two requests that build for one key at once: the pool cached first stays and both use it, and a pool that cannot
   connect leaves no pool behind for its key.
   */
  lemma FirstPoolStays(m: Scheme, s: State, r: nat, ok: bool)
    requires r in s.requests
    ensures var key := m.key(s.requests[r].params);
            && (s.requests[r].phase.Inserting? && key in s.pools ==>
                  && Next(m, s, Insert(r)).Some?
                  && var s' := Next(m, s, Insert(r)).value;
                     s'.pools == s.pools && s'.requests[r].phase == Connecting(s.pools[key]))
            && (s.requests[r].phase.Connecting? ==>
                  && Next(m, s, Connect(r, ok)).Some?
                  && var s' := Next(m, s, Connect(r, ok)).value;
                     s'.pools == (if ok then s.pools else s.pools - {key})
                     && s'.requests[r].phase == if ok then Serving(s.requests[r].phase.pool) else Failed)
  {
  }

  /** A sweep takes exactly the pools of which no connection is in use. */
  lemma SweepExactly(m: Scheme, s: State, key: string)
    ensures Next(m, s, Sweep).Some?
    ensures var s' := Next(m, s, Sweep).value;
            && s'.requests == s.requests
            && (key in s'.pools <==> key in s.pools && s.pools[key].available < s.pools[key].size)
            && (key in s'.pools ==> s'.pools[key] == s.pools[key])
  {
  }

  /** The steps that only shrink the cache or change counts. */
  lemma PoolStepKeeps(m: Scheme, s: State, l: Label, s': State)
    requires Inv(m, s) && Next(m, s, l) == Some(s') && (l.Sweep? || l.Change? || l.Connect?)
    ensures Inv(m, s')
  {
    forall key | key in s'.pools ensures CachedFits(m, s', key) {
      assert CachedFits(m, s, key);
    }
  }

  lemma RequestStepKeeps(m: Scheme, s: State, l: Label, s': State)
    requires Inv(m, s) && Arriving(m, l) && Next(m, s, l) == Some(s') && (l.Arrive? || l.Lookup? || l.Build?)
    ensures Inv(m, s')
  {
    assert s'.pools == s.pools;
    forall key | key in s'.pools ensures CachedFits(m, s', key) {
      assert CachedFits(m, s, key);
    }
    if l.Lookup? {
      var key := m.key(s.requests[l.r].params);
      assert key in s.pools ==> CachedFits(m, s, key);
    }
  }

  lemma StepKeeps(m: Scheme, s: State, l: Label, s': State)
    requires Sound(m) && Inv(m, s) && Arriving(m, l) && Next(m, s, l) == Some(s')
    ensures Inv(m, s')
  {
    if l.Insert? {
      InsertKeeps(m, s, l.r, s');
    } else if l.Sweep? || l.Change? || l.Connect? {
      PoolStepKeeps(m, s, l, s');
    } else {
      RequestStepKeeps(m, s, l, s');
    }
  }

  lemma {:induction false} RunKeeps(m: Scheme, s: State, labels: seq<Label>)
    requires Sound(m) && Inv(m, s) && RunFrom(m, s, labels).Some?
    requires forall i :: 0 <= i < |labels| ==> Arriving(m, labels[i])
    ensures Inv(m, RunFrom(m, s, labels).value)
    decreases |labels|
  {
    if labels != [] {
      var s' := Next(m, s, labels[0]).value;
      StepKeeps(m, s, labels[0], s');
      RunKeeps(m, s', labels[1..]);
    }
  }

  lemma ServedFits(m: Scheme, labels: seq<Label>, r: nat)
    requires Sound(m) && (forall i :: 0 <= i < |labels| ==> Arriving(m, labels[i]))
    requires RunFrom(m, State(map[], map[]), labels).Some?
    requires var s := RunFrom(m, State(map[], map[]), labels).value; r in s.requests && s.requests[r].phase.Serving?
    ensures var request := RunFrom(m, State(map[], map[]), labels).value.requests[r];
            Fits(m, request.phase.pool, request.params)
  {
    RunKeeps(m, State(map[], map[]), labels);
    assert RequestOk(m, RunFrom(m, State(map[], map[]), labels).value.requests[r]);
  }

  /** The run keeps to the parameters that may arrive. */
  predicate Admits(m: Scheme, labels: seq<Label>) {
    && (forall i :: 0 <= i < |labels| ==> Arriving(m, labels[i]))
    && RunFrom(m, State(map[], map[]), labels).Some?
  }

  predicate Served(m: Scheme, labels: seq<Label>, r: nat) {
    Admits(m, labels) &&
    var s := RunFrom(m, State(map[], map[]), labels).value; r in s.requests && s.requests[r].phase.Serving?
  }

  /** Request `r` is served from a pool configured as its own build would be. */
  predicate ServedOwn(m: Scheme, labels: seq<Label>, r: nat)
    requires Served(m, labels, r)
  {
    var request := RunFrom(m, State(map[], map[]), labels).value.requests[r];
    Fits(m, request.phase.pool, request.params)
  }

  lemma RunCons(m: Scheme, s: State, l: Label, labels: seq<Label>)
    requires Next(m, s, l).Some?
    ensures RunFrom(m, s, [l] + labels) == RunFrom(m, Next(m, s, l).value, labels)
  {
    assert ([l] + labels)[1..] == labels;
  }

  lemma MovedAgain(s: State, r: nat, request: Request, phase: Phase)
    ensures Moved(s.(requests := s.requests[r := request]), r, phase)
            == s.(requests := s.requests[r := request.(phase := phase)])
  {
    assert s.requests[r := request][r := request.(phase := phase)] == s.requests[r := request.(phase := phase)];
  }

  /** The second request finds the pool the first one had built. */
  lemma SecondIsServed(m: Scheme, p: Params, q: Params) returns (labels: seq<Label>)
    requires m.arrives(p) && m.arrives(q) && m.key(p) == m.key(q) && m.config(p).Some?
    ensures Served(m, labels, 1)
    ensures var request := RunFrom(m, State(map[], map[]), labels).value.requests[1];
            request.params == q && request.phase.pool.config == m.config(p).value
  {
    var pool := Pool(m.config(p).value, 1, 1);
    var built := State(map[m.key(p) := pool], map[0 := Request(p, Connecting(pool))]);
    var first := [Arrive(0, p), Lookup(0), Build(0, true, 1, 1), Insert(0)];
    var second := [Arrive(1, q), Lookup(1), Connect(1, true)];
    labels := first + second;
    FirstBuilds(m, p, second);
    SecondHits(m, built, q);
  }

  lemma FirstBuilds(m: Scheme, p: Params, labels: seq<Label>)
    requires m.config(p).Some?
    ensures var pool := Pool(m.config(p).value, 1, 1);
            RunFrom(m, State(map[], map[]), [Arrive(0, p), Lookup(0), Build(0, true, 1, 1), Insert(0)] + labels)
            == RunFrom(m, State(map[m.key(p) := pool], map[0 := Request(p, Connecting(pool))]), labels)
  {
    var pool := Pool(m.config(p).value, 1, 1);
    var s0 := State(map[], map[]);
    var s1 := State(map[], map[0 := Request(p, LookingUp)]);
    var s2 := State(map[], map[0 := Request(p, Building)]);
    var s3 := State(map[], map[0 := Request(p, Inserting(pool))]);
    var l1, l2, l3, l4 := Arrive(0, p), Lookup(0), Build(0, true, 1, 1), Insert(0);
    assert [l1, l2, l3, l4] + labels == [l1] + ([l2] + ([l3] + ([l4] + labels)));
    MovedAgain(s0, 0, Request(p, LookingUp), Building);
    MovedAgain(s0, 0, Request(p, Building), Inserting(pool));
    MovedAgain(s0.(pools := map[m.key(p) := pool]), 0, Request(p, Inserting(pool)), Connecting(pool));
    assert Next(m, s0, l1) == Some(s1) && Next(m, s1, l2) == Some(s2) && Next(m, s2, l3) == Some(s3);
    RunCons(m, s0, l1, [l2] + ([l3] + ([l4] + labels)));
    RunCons(m, s1, l2, [l3] + ([l4] + labels));
    RunCons(m, s2, l3, [l4] + labels);
    RunCons(m, s3, l4, labels);
  }

  lemma SecondHits(m: Scheme, s: State, q: Params)
    requires m.key(q) in s.pools && 1 !in s.requests
    ensures RunFrom(m, s, [Arrive(1, q), Lookup(1), Connect(1, true)])
            == Some(s.(requests := s.requests[1 := Request(q, Serving(s.pools[m.key(q)]))]))
  {
    var l1, l2, l3 := Arrive(1, q), Lookup(1), Connect(1, true);
    var pool := s.pools[m.key(q)];
    var s1 := s.(requests := s.requests[1 := Request(q, LookingUp)]);
    var s2 := s.(requests := s.requests[1 := Request(q, Connecting(pool))]);
    assert [l1, l2, l3] == [l1] + ([l2] + ([l3] + []));
    MovedAgain(s, 1, Request(q, LookingUp), Connecting(pool));
    MovedAgain(s, 1, Request(q, Connecting(pool)), Serving(pool));
    assert Next(m, s, l1) == Some(s1) && Next(m, s1, l2) == Some(s2);
    RunCons(m, s, l1, [l2] + ([l3] + []));
    RunCons(m, s1, l2, [l3] + []);
    RunCons(m, s2, l3, []);
  }

  /** All requests of all interleavings are served from pools configured as their own builds would be. */
  ghost predicate AllServedOwn(m: Scheme) {
    forall labels: seq<Label>, r: nat :: Served(m, labels, r) ==> ServedOwn(m, labels, r)
  }

  /**
   Over every interleaving of lookups, builds, insertions, evictions and sweeps, each request is served from a pool
   configured as its own build would be, if and only if any two of the parameter sets that may arrive with one key have
   one form, each field that reaches the configuration holds equally many colons in both, and each name that does is
   absent in both or in neither.
   */
  lemma HitsExactly(w: World, arriving: Params -> bool)
    requires GoodHash(w) && Acyclic(w)
    ensures AllServedOwn(SchemeOf(w, arriving)) <==> Agreed(w, arriving)
  {
    var m := SchemeOf(w, arriving);
    if Agreed(w, arriving) {
      AgreedHits(w, arriving);
    } else {
      var p: Params, q: Params :| arriving(p) && arriving(q) && ConnectionKey(w, p) == ConnectionKey(w, q)
                                  && ConfigOf(w, p).Some? && !(ColonsAgree(p, q) && PresentAlike(p, q));
      var labels := SecondIsServed(m, p, q);
      ConfigExactly(w, p, q);
      assert !ServedOwn(m, labels, 1);
    }
  }

  lemma AgreedHits(w: World, arriving: Params -> bool)
    requires GoodHash(w) && Agreed(w, arriving)
    ensures AllServedOwn(SchemeOf(w, arriving))
  {
    var m := SchemeOf(w, arriving);
    SchemeIsSound(w, arriving);
    forall labels: seq<Label>, r: nat | Served(m, labels, r) ensures ServedOwn(m, labels, r) {
      ServedFits(m, labels, r);
    }
  }

  /** Arriving parameters with one key agree on the colons of the fields that matter. */
  ghost predicate ToldApart(w: World, arriving: Params -> bool) {
    forall p: Params, q: Params ::
      arriving(p) && arriving(q) && ConnectionKey(w, p) == ConnectionKey(w, q) ==> ColonsAgree(p, q)
  }

  /** So hits are sound for parameters whose colons agree and that have no empty names that matter. */
  lemma HitsAreSound(w: World, arriving: Params -> bool)
    requires GoodHash(w) && ToldApart(w, arriving) && forall p: Params :: arriving(p) ==> Settled(p)
    ensures AllServedOwn(SchemeOf(w, arriving))
  {
    forall p: Params, q: Params
      | arriving(p) && arriving(q) && ConnectionKey(w, p) == ConnectionKey(w, q) && ConfigOf(w, p).Some?
      ensures ColonsAgree(p, q) && PresentAlike(p, q)
    {
      EqualKeysEqualConfig(w, p, q);
      AgreeingConfigs(w, p, q);
    }
    AgreedHits(w, arriving);
  }

  /** Among them are all settled parameters without colons. */
  lemma PlainHits(w: World)
    requires GoodHash(w)
    ensures AllServedOwn(SchemeOf(w, p => Plain(p) && Settled(p)))
  {
    var arriving := (p: Params) => Plain(p) && Settled(p);
    forall p: Params, q: Params | arriving(p) && arriving(q) && ConnectionKey(w, p) == ConnectionKey(w, q)
      ensures ColonsAgree(p, q)
    {
      PlainAgree(w, p, q);
    }
    HitsAreSound(w, arriving);
  }
}

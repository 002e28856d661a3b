/** Pinned connections and the session map (src/session.rs) as the objects they are. */
module Session {
  import opened Text
  import opened Server

  type Sid = string

  /** `entry(..).or_default()`: the value at the key, and the map with the default there if there was none. */
  function OrDefault<V>(values: map<Sid, V>, sid: Sid, made: V): (V, map<Sid, V>) {
    if sid in values then (values[sid], values) else (made, values[sid := made])
  }

  /** What the map sees of a slot: its client, whether a run has its lock, and the Arcs besides the map's own. */
  datatype Face<C> = Face(pinned: Option<C>, locked: bool, others: nat)

  /** The slot after a lookup has cloned its Arc, `before` being `None` for a new one. */
  function Entered<C>(before: Option<Face<C>>): Face<C> {
    if before.None? then Face(None, false, 1) else before.value.(others := before.value.others + 1)
  }

  /** `rollback_and_release`. */
  method RollbackAndRelease(client: Connection, fate: Fate)
    modifies client
    ensures client.state == Rollback(old(client.state), fate).after
    ensures Tracks(false, client.state)
  {
    client.SendRollback(fate);
  }

  /**
   One `Arc<Mutex<Slot>>`: the pinned client and whether it sat idle too long, the lock, the Arcs besides the map's own.
   */
  class Slot {
    var pinned: Option<Connection>
    var stale: bool
    var locked: bool
    var others: nat

    constructor ()
      ensures pinned == None && !stale && !locked && others == 0
    {
      pinned, stale, locked, others := None, false, false, 0;
    }

    ghost function Shown(): Face<Connection>
      reads this
    {
      Face(pinned, locked, others)
    }

    method Take() returns (client: Option<Connection>)
      modifies `pinned
      ensures client == old(pinned) && pinned == None
    {
      client := pinned;
      pinned := None;
    }

    method Pin(client: Connection)
      modifies `pinned, `stale
      ensures pinned == Some(client) && !stale
    {
      pinned, stale := Some(client), false;
    }
  }

  /** `Slot::drop`: a client still in the slot is closed instead of going back to the pool. */
  method DropSlot(slot: Slot)
    modifies slot`pinned
    modifies if slot.pinned.Some? then {slot.pinned.value} else {}
    ensures slot.pinned == None
    ensures old(slot.pinned).Some? ==> old(slot.pinned).value.state == Closed
  {
    var client := slot.Take();
    if client.Some? {
      client.value.state := Closed;
    }
  }

  /** The clients of `slots`. */
  ghost function Clients(slots: set<Slot>): set<Connection>
    reads slots
  {
    set slot | slot in slots && slot.pinned.Some? :: slot.pinned.value
  }

  /** Roll back and release every client collected under the map's lock. */
  method ReleaseClients(clients: seq<Connection>, fates: Connection -> Fate)
    modifies clients
    ensures forall c :: c in clients ==> c.state == Rollback(old(c.state), fates(c)).after
  {
    var i := 0;
    while i < |clients|
      invariant 0 <= i <= |clients|
      invariant forall c :: c in clients[..i] ==> c.state == Rollback(old(c.state), fates(c)).after
      invariant forall c :: c in clients && c !in clients[..i] ==> c.state == old(c.state)
    {
      RollbackAndRelease(clients[i], fates(clients[i]));
      assert clients[..i + 1] == clients[..i] + [clients[i]];
      i := i + 1;
    }
  }

  class Sessions {
    var slots: map<Sid, Slot>

    ghost predicate Valid()
      reads this
    {
      forall a, b :: a in slots && b in slots && a != b ==> slots[a] != slots[b]
    }

    constructor ()
      ensures Valid() && slots == map[]
    {
      slots := map[];
    }

    /** `entry(..).or_default().clone()`: the session's one slot, made on first use, with one more Arc. */
    method Lookup(sid: Sid) returns (slot: Slot)
      requires Valid()
      modifies this, if sid in slots then {slots[sid]} else {}
      ensures Valid() && (slot, slots) == OrDefault(old(slots), sid, slot)
      ensures slot.Shown() == Entered(if sid in old(slots) then Some(old(slots[sid].Shown())) else None)
      ensures if sid in old(slots) then slot.stale == old(slots[sid].stale) else fresh(slot)
    {
      if sid in slots {
        slot := slots[sid];
      } else {
        slot := new Slot();
        slots := slots[sid := slot];
      }
      slot.others := slot.others + 1;
    }

    /** `release`, once the lock is free: the client leaves the slot before its ROLLBACK, and the Arc is gone again. */
    method Release(sid: Sid, fate: Fate)
      requires Valid() && (sid in slots ==> !slots[sid].locked)
      modifies this
      modifies if sid in slots then {slots[sid]} else {}
      modifies if sid in slots && slots[sid].pinned.Some? then {slots[sid].pinned.value} else {}
      ensures Valid() && sid in slots && slots == old(slots)[sid := slots[sid]] && slots[sid].pinned == None
      ensures sid in old(slots) ==> slots == old(slots) && slots[sid].others == old(slots[sid].others)
      ensures sid in old(slots) && old(slots[sid].pinned).Some? ==>
                var c := old(slots[sid].pinned.value); c.state == Rollback(old(c.state), fate).after
    {
      var slot := Lookup(sid);
      var client := slot.Take();
      slot.others := slot.others - 1;
      if client.Some? {
        RollbackAndRelease(client.value, fate);
      }
    }

    /** The `retain` closures of `sweep_idle` and `release_all` on one entry. */
    method Visit(sid: Sid, slot: Slot, shutdown: bool) returns (client: Option<Connection>)
      requires sid in slots && slot == slots[sid]
      modifies `slots, slot`pinned
      ensures client == (if old(Takes(slot, shutdown)) then old(slot.pinned) else None)
      ensures slot.pinned == (if old(Takes(slot, shutdown)) then None else old(slot.pinned))
      ensures slots == if old(Keeps(slot, shutdown)) then old(slots) else old(slots) - {sid}
    {
      client := None;
      if slot.locked {
        return;
      }
      if slot.pinned.Some? && (shutdown || slot.stale) {
        client := slot.Take();
      }
      if shutdown || (slot.pinned.None? && slot.others == 0) {
        slots := slots - {sid};
      }
    }

    /** `retain` over the whole map, entries in any order: which slots stay, and which clients were taken. */
    method Retain(shutdown: bool) returns (taken: seq<Connection>)
      requires Valid()
      modifies `slots, (set slot | slot in slots.Values)`pinned
      ensures Valid()
      ensures slots == map sid | sid in old(slots) && old(Keeps(slots[sid], shutdown)) :: old(slots)[sid]
      ensures forall sid :: sid in old(slots) ==>
                old(slots)[sid].pinned == (if old(Takes(slots[sid], shutdown)) then None else old(slots[sid].pinned))
      ensures forall sid :: sid in old(slots) && old(Takes(slots[sid], shutdown)) ==>
                old(slots[sid].pinned.value) in taken
      ensures forall c :: c in taken ==> c in old(Clients(slots.Values))
    {
      taken := [];
      ghost var clients := Clients(slots.Values);
      var todo := slots.Keys;
      while todo != {}
        invariant todo <= old(slots).Keys
        invariant forall sid :: sid in old(slots) ==>
                    (sid in slots <==> sid in todo || old(Keeps(slots[sid], shutdown)))
        invariant forall sid :: sid in slots ==> sid in old(slots) && slots[sid] == old(slots)[sid]
        invariant forall sid :: sid in old(slots) ==>
                    old(slots)[sid].pinned
                    == (if sid !in todo && old(Takes(slots[sid], shutdown)) then None else old(slots[sid].pinned))
        invariant forall sid :: sid in old(slots) && sid !in todo && old(Takes(slots[sid], shutdown)) ==>
                    old(slots[sid].pinned.value) in taken
        invariant forall c :: c in taken ==> c in clients
        decreases |todo|
      {
        var sid :| sid in todo;
        todo := todo - {sid};
        assert old(slots)[sid] in old(slots).Values;
        var client := Visit(sid, slots[sid], shutdown);
        if client.Some? {
          taken := taken + [client.value];
        }
      }
    }

    /**
     `sweep_idle`: stale clients of free slots are rolled back; a free slot left with no client and no other Arc is
     forgotten.
     */
    method SweepIdle(fates: Connection -> Fate)
      requires Valid()
      modifies this, slots.Values, Clients(slots.Values)
      ensures Valid()
      ensures slots == map sid | sid in old(slots)
                                 && old(slots[sid].locked || slots[sid].others > 0
                                        || (slots[sid].pinned.Some? && !slots[sid].stale)) :: old(slots)[sid]
      ensures forall slot :: slot in old(slots).Values ==>
                slot.pinned == (if old(!slot.locked && slot.stale) then None else old(slot.pinned))
      ensures forall slot :: slot in old(slots).Values && old(!slot.locked && slot.stale && slot.pinned.Some?) ==>
                var c := old(slot.pinned.value); c.state == Rollback(old(c.state), fates(c)).after
    {
      var expired := Retain(false);
      ReleaseClients(expired, fates);
    }

    /**
     `release_all`: every free slot leaves the map, whoever waits for it; a busy one stays for its run to pin into.
     */
    method ReleaseAll(fates: Connection -> Fate)
      requires Valid()
      modifies this, slots.Values, Clients(slots.Values)
      ensures Valid()
      ensures slots == map sid | sid in old(slots) && old(slots[sid].locked) :: old(slots)[sid]
      ensures forall slot :: slot in old(slots).Values ==>
                slot.pinned == (if old(slot.locked) then old(slot.pinned) else None)
      ensures forall slot :: slot in old(slots).Values && !old(slot.locked) && old(slot.pinned).Some? ==>
                var c := old(slot.pinned.value); c.state == Rollback(old(c.state), fates(c)).after
    {
      var clients := Retain(true);
      ReleaseClients(clients, fates);
    }
  }

  /** The decisions of a visit, from what it sees of the slot. */
  predicate VisitTakes(locked: bool, pinned: bool, stale: bool, shutdown: bool) {
    !locked && pinned && (shutdown || stale)
  }

  predicate VisitKeeps(locked: bool, pinned: bool, stale: bool, shared: bool, shutdown: bool) {
    locked || (!shutdown && ((pinned && !stale) || shared))
  }

  /**
   The visit takes the slot's client: it is free and its client idle for too long, or the process is shutting down.
   */
  ghost predicate Takes(slot: Slot, shutdown: bool)
    reads slot
  {
    VisitTakes(slot.locked, slot.pinned.Some?, slot.stale, shutdown)
  }

  /** The visit leaves the slot in the map: a run holds it, or it keeps a client, or some task waits for it. */
  ghost predicate Keeps(slot: Slot, shutdown: bool)
    reads slot
  {
    VisitKeeps(slot.locked, slot.pinned.Some?, slot.stale, slot.others > 0, shutdown)
  }
}

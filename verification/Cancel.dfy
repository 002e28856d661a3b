/** The registry of in-flight cancel actions (src/cancel.rs) as the object it is. */
module Cancel {
  import opened Text
  import opened Server

  type ReqId = nat

  /** `HANDLES`: each request id maps to the connection its action would cancel. */
  class Registry {
    var handles: map<ReqId, Connection>

    constructor ()
      ensures handles == map[]
    {
      handles := map[];
    }

    /** `CancelGuard::register`: a later registration under the same id replaces the earlier one. */
    method Register(id: Option<ReqId>, target: Connection)
      modifies this
      ensures handles == if id.Some? then old(handles)[id.value := target] else old(handles)
    {
      if id.Some? {
        handles := handles[id.value := target];
      }
    }

    /** `CancelGuard::drop`: whatever the id maps to goes, even a registration that is not the guard's own. */
    method Deregister(id: Option<ReqId>)
      modifies this
      ensures handles == if id.Some? then old(handles) - {id.value} else old(handles)
    {
      if id.Some? {
        handles := handles - {id.value};
      }
    }

    /** `cancel`: the action is removed before it runs, so a second cancel finds none. */
    method Cancel(id: ReqId) returns (action: Option<Connection>)
      modifies this
      ensures handles == old(handles) - {id}
      ensures action == if id in old(handles) then Some(old(handles)[id]) else None
      ensures action == None ==> handles == old(handles)
    {
      if id in handles {
        action := Some(handles[id]);
        handles := handles - {id};
      } else {
        action := None;
      }
    }
  }

  /** While a guard of `id` on `conn` is registered the map says so; no guard leaves no trace. */
  predicate Armed(handles: map<ReqId, Connection>, before: map<ReqId, Connection>, id: Option<ReqId>,
                  conn: Connection) {
    handles == if id.Some? then before[id.value := conn] else before
  }

  predicate Disarmed(handles: map<ReqId, Connection>, before: map<ReqId, Connection>, id: Option<ReqId>) {
    handles == if id.Some? then before - {id.value} else before
  }
}

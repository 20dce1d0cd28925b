/**
  Native MCP connections: permits, leases and their disconnects (src/mcp/listener.rs, src/mcp/mod.rs,
  src/mcp/resources.rs).

  A lease takes a slot of its listener and one of the 128 global slots before the client is asked to
  connect, and gives both back when its disconnect attempt has ended. Each step below is one region
  between two awaits; connects, drops, retirements, queue overflows and closes interleave freely.
 */
module McpLeases {
  import opened Prelude

  type ListenerId = nat
  type LeaseId = nat
  type ConnectionId = string

  const LISTENER_SLOTS: nat := 32
  const MAX_CONNECTIONS: nat := 128

  datatype Phase =
    | Admitted                     // holds a listener slot
    | Connecting                   // holds both slots; the connect request is outstanding
    | Accepted(cid: ConnectionId)  // entered in the endpoint table; the connect has not returned yet
    | Owned(cid: ConnectionId)     // a ProviderLease held by the connect task or the HTTP handler
    | Tabled(cid: ConnectionId)    // in the listener's session table
    | Cleaning(cid: ConnectionId)  // taken for cleanup
    | Removed(cid: ConnectionId)   // its endpoint table entry is gone
    | Over(accepted: bool)         // both slots are back

  /** `requests` counts the disconnect requests sent for the lease's endpoint. */
  datatype Lease = Lease(
    listener: ListenerId,
    phase: Phase,
    shutdown: bool,
    overflowed: bool,
    disconnected: bool,
    finished: bool,
    requests: nat)

  datatype Listener = Listener(shutdown: bool, available: nat, table: set<LeaseId>, drained: bool)

  datatype World = World(
    listeners: map<ListenerId, Listener>,
    available: nat,
    connecting: nat,
    endpoints: map<ConnectionId, LeaseId>,
    leases: map<LeaseId, Lease>)

  // ---------------------------------------------------------------- regions under the listener's table lock

  function Admit(l: Listener): Option<Listener> {
    if l.shutdown || l.available == 0 then None else Some(l.(available := l.available - 1))
  }

  /** A lease enters the table only while neither the listener nor its endpoint is shutting down. */
  function Register(l: Listener, id: LeaseId, endpointShutdown: bool): Option<Listener> {
    if l.shutdown || endpointShutdown then None else Some(l.(table := l.table + {id}))
  }

  function Retire(l: Listener, id: LeaseId): Listener { l.(table := l.table - {id}) }

  function Drain(l: Listener): Listener { l.(table := {}) }

  function Return(l: Listener): Listener { l.(available := l.available + 1) }

  /** Endpoint::disconnect: only the first caller sends the request. */
  function BeginDisconnect(lease: Lease): Lease {
    if lease.disconnected then lease else lease.(disconnected := true, requests := lease.requests + 1)
  }

  /** The listener's mutable fields. */
  class ListenerState {
    var shutdown: bool
    var available: nat
    var sessions: set<LeaseId>
    ghost var drained: bool

    ghost function Model(): Listener
      reads this
    {
      Listener(shutdown, available, sessions, drained)
    }

    constructor ()
      ensures Model() == Listener(false, LISTENER_SLOTS, {}, false)
    {
      shutdown, available, sessions, drained := false, LISTENER_SLOTS, {}, false;
    }

    method Connect() returns (admitted: bool)
      modifies this`available
      ensures admitted <==> Admit(old(Model())).Some?
      ensures Model() == if admitted then Admit(old(Model())).value else old(Model())
    {
      if shutdown || available == 0 {
        return false;
      }
      available := available - 1;
      return true;
    }

    method RegisterLease(id: LeaseId, endpointShutdown: bool) returns (registered: bool)
      modifies this`sessions
      ensures registered <==> Register(old(Model()), id, endpointShutdown).Some?
      ensures Model() == if registered then Register(old(Model()), id, endpointShutdown).value else old(Model())
    {
      if shutdown || endpointShutdown {
        return false;
      }
      sessions := sessions + {id};
      return true;
    }

    method Disconnect(id: LeaseId) returns (found: bool)
      modifies this`sessions
      ensures found == (id in old(sessions)) && Model() == Retire(old(Model()), id)
    {
      found := id in sessions;
      sessions := sessions - {id};
    }

    method CloseTable() returns (taken: set<LeaseId>)
      modifies this`shutdown, this`sessions
      ensures taken == old(sessions) && Model() == Drain(old(Model()).(shutdown := true))
    {
      shutdown := true;
      taken := sessions;
      sessions := {};
    }
  }

  /** An endpoint's flags: whoever calls Disconnect first sends the request, everybody waits for its end. */
  class EndpointState {
    var shutdown: bool
    var disconnected: bool
    var finished: bool
    ghost var requests: nat

    ghost function Flags(lease: Lease): Lease
      reads this
    {
      lease.(shutdown := shutdown, disconnected := disconnected, finished := finished, requests := requests)
    }

    method Disconnect(ghost lease: Lease) returns (first: bool)
      requires Flags(lease) == lease
      modifies this`disconnected, this`requests
      ensures Flags(lease) == BeginDisconnect(lease) && first == !lease.disconnected
    {
      first := !disconnected;
      disconnected := true;
      if first {
        requests := requests + 1;
      }
    }
  }

  // ---------------------------------------------------------------- steps

  datatype ListenerAction =
    | Open
    | Connect(id: LeaseId)
    | Shutdown
    | DrainTable
    | ObtainAll                         // close has acquired every slot of the listener

  datatype LeaseAction =
    | AcquireGlobal
    | ConnectFails                      // error or timeout of the connect request
    | ConnectReplies(cid: ConnectionId)
    | ConnectReturns
    | EnterTable                        // Listener::register
    | Drop                              // explicit close, failed initialize, abandoned HTTP request
    | Disconnect                        // HTTP delete, or the retirement watcher
    | Overflow                          // publish closes the endpoint
    | RemoveEntry
    | CallDisconnect
    | DisconnectEnds
    | Release

  datatype Step = OnListener(l: ListenerId, action: ListenerAction) | OnLease(id: LeaseId, event: LeaseAction)

  predicate HasEntry(p: Phase) { p.Accepted? || p.Owned? || p.Tabled? || p.Cleaning? }

  predicate HasEndpoint(p: Phase) { HasEntry(p) || p.Removed? }

  // A connect in progress is counted in `connecting` (UnknownMeansNone), so this condition never blocks a step.
  predicate LeaseEnabled(lease: Lease, connecting: nat, event: LeaseAction) {
    match event
    case AcquireGlobal => lease.phase.Admitted?
    case ConnectFails => lease.phase.Connecting? && connecting > 0
    case ConnectReplies(_) => lease.phase.Connecting? && connecting > 0
    case ConnectReturns => lease.phase.Accepted? && connecting > 0
    case EnterTable => lease.phase.Owned?
    case Drop => lease.phase.Owned?
    case Disconnect => lease.phase.Tabled?
    case Overflow => HasEndpoint(lease.phase) && !lease.shutdown
    case RemoveEntry => lease.phase.Cleaning?
    case CallDisconnect => lease.phase.Removed? || (HasEndpoint(lease.phase) && lease.overflowed)
    case DisconnectEnds => lease.disconnected && !lease.finished
    case Release => lease.phase.Removed? && lease.finished
  }

  predicate Enabled(w: World, step: Step) {
    match step
    case OnListener(l, Open) => l !in w.listeners
    case OnListener(l, Connect(id)) => l in w.listeners && id !in w.leases && Admit(w.listeners[l]).Some?
    case OnListener(l, Shutdown) => l in w.listeners
    case OnListener(l, DrainTable) => l in w.listeners && w.listeners[l].shutdown
    case OnListener(l, ObtainAll) =>
      l in w.listeners && w.listeners[l].shutdown && w.listeners[l].available == LISTENER_SLOTS
    case OnLease(id, event) =>
      && id in w.leases && w.leases[id].listener in w.listeners
      && LeaseEnabled(w.leases[id], w.connecting, event)
  }

  /** What one lease action does to the lease, its listener and the manager. */
  datatype Effect = Effect(
    lease: Lease,
    listener: Listener,
    available: nat,
    connecting: nat,
    endpoints: map<ConnectionId, LeaseId>)

  /** Both slots go back with the lease. */
  function GiveBack(e: Effect): Effect {
    var over := e.(lease := e.lease.(phase := Over(HasEndpoint(e.lease.phase))), listener := Return(e.listener));
    if e.lease.phase.Admitted? then over else over.(available := e.available + 1)
  }

  function Clean(lease: Lease): Lease
    requires HasEndpoint(lease.phase)
  {
    lease.(phase := Cleaning(lease.phase.cid), shutdown := true)
  }

  function Act(e: Effect, id: LeaseId, event: LeaseAction): Effect
    requires LeaseEnabled(e.lease, e.connecting, event)
  {
    match event
    case AcquireGlobal =>
      if e.available == 0 then GiveBack(e)
      else e.(lease := e.lease.(phase := Connecting), available := e.available - 1, connecting := e.connecting + 1)
    case ConnectFails => GiveBack(e).(connecting := e.connecting - 1)
    case ConnectReplies(cid) =>
      if cid in e.endpoints then GiveBack(e).(connecting := e.connecting - 1)
      else e.(lease := e.lease.(phase := Accepted(cid)), endpoints := e.endpoints[cid := id])
    case ConnectReturns =>
      e.(lease := if e.listener.shutdown then Clean(e.lease) else e.lease.(phase := Owned(e.lease.phase.cid)),
         connecting := e.connecting - 1)
    case EnterTable =>
      var registered := Register(e.listener, id, e.lease.shutdown);
      if registered.None? then e.(lease := Clean(e.lease))
      else e.(lease := e.lease.(phase := Tabled(e.lease.phase.cid)), listener := registered.value)
    case Drop => e.(lease := Clean(e.lease))
    case Disconnect => e.(lease := Clean(e.lease), listener := Retire(e.listener, id))
    case Overflow => e.(lease := e.lease.(shutdown := true, overflowed := true))
    case RemoveEntry =>
      e.(lease := e.lease.(phase := Removed(e.lease.phase.cid)), endpoints := e.endpoints - {e.lease.phase.cid})
    case CallDisconnect => e.(lease := BeginDisconnect(e.lease))
    case DisconnectEnds => e.(lease := e.lease.(finished := true))
    case Release => GiveBack(e)
  }

  function Current(w: World, id: LeaseId): Effect
    requires id in w.leases && w.leases[id].listener in w.listeners
  {
    Effect(w.leases[id], w.listeners[w.leases[id].listener], w.available, w.connecting, w.endpoints)
  }

  function Install(w: World, id: LeaseId, e: Effect): World {
    World(w.listeners[e.lease.listener := e.listener], e.available, e.connecting, e.endpoints, w.leases[id := e.lease])
  }

  function ActOnListener(w: World, l: ListenerId, action: ListenerAction): World
    requires Enabled(w, OnListener(l, action))
  {
    match action
    case Open => w.(listeners := w.listeners[l := Listener(false, LISTENER_SLOTS, {}, false)])
    case Connect(id) =>
      w.(listeners := w.listeners[l := Admit(w.listeners[l]).value],
         leases := w.leases[id := Lease(l, Admitted, false, false, false, false, 0)])
    case Shutdown => w.(listeners := w.listeners[l := w.listeners[l].(shutdown := true)])
    case DrainTable =>
      w.(listeners := w.listeners[l := Drain(w.listeners[l])],
         leases := map id | id in w.leases ::
                     if w.leases[id].phase.Tabled? && id in w.listeners[l].table then Clean(w.leases[id]) else w.leases[id])
    case ObtainAll => w.(listeners := w.listeners[l := w.listeners[l].(drained := true)])
  }

  function Apply(w: World, step: Step): World
    requires Enabled(w, step)
  {
    match step
    case OnListener(l, action) => ActOnListener(w, l, action)
    case OnLease(id, event) => Install(w, id, Act(Current(w, id), id, event))
  }

  ghost predicate Legal(w: World, steps: seq<Step>)
    decreases |steps|
  {
    steps == [] || (Enabled(w, steps[0]) && Legal(Apply(w, steps[0]), steps[1..]))
  }

  ghost function Execute(w: World, steps: seq<Step>): World
    requires Legal(w, steps)
    decreases |steps|
  {
    if steps == [] then w else Execute(Apply(w, steps[0]), steps[1..])
  }

  const Initial: World := World(map[], MAX_CONNECTIONS, 0, map[], map[])

  // ---------------------------------------------------------------- invariants

  function Holders(w: World, l: ListenerId): set<LeaseId> {
    set id | id in w.leases && w.leases[id].listener == l && !w.leases[id].phase.Over?
  }

  function GlobalHolders(w: World): set<LeaseId> {
    set id | id in w.leases && !w.leases[id].phase.Over? && !w.leases[id].phase.Admitted?
  }

  function Connects(w: World): set<LeaseId> {
    set id | id in w.leases && (w.leases[id].phase.Connecting? || w.leases[id].phase.Accepted?)
  }

  /** A lease's own bookkeeping: one disconnect request at most, and slots kept until it has ended. */
  predicate Sound(lease: Lease) {
    && lease.requests == (if lease.disconnected then 1 else 0)
    && (lease.finished ==> lease.disconnected)
    && (lease.disconnected ==> HasEndpoint(lease.phase) || lease.phase == Over(true))
    && (lease.phase == Over(true) ==> lease.finished)
    && (lease.phase.Cleaning? || lease.phase.Removed? ==> lease.shutdown)
  }

  predicate LeaseFine(w: World, id: LeaseId)
    requires id in w.leases
  {
    var lease := w.leases[id];
    && lease.listener in w.listeners
    && Sound(lease)
    && (HasEntry(lease.phase) ==> lease.phase.cid in w.endpoints && w.endpoints[lease.phase.cid] == id)
  }

  ghost predicate ListenerFine(w: World, l: ListenerId)
    requires l in w.listeners
  {
    && |Holders(w, l)| + w.listeners[l].available == LISTENER_SLOTS
    && (w.listeners[l].drained ==> w.listeners[l].shutdown && Holders(w, l) == {})
  }

  ghost predicate TableFine(w: World, l: ListenerId)
    requires l in w.listeners
  {
    forall id :: id in w.listeners[l].table
      <==> id in w.leases && w.leases[id].listener == l && w.leases[id].phase.Tabled?
  }

  ghost predicate EndpointsFine(w: World) {
    forall cid <- w.endpoints ::
      && w.endpoints[cid] in w.leases
      && HasEntry(w.leases[w.endpoints[cid]].phase) && w.leases[w.endpoints[cid]].phase.cid == cid
  }

  ghost predicate LeasesFine(w: World) {
    && (forall id <- w.leases :: LeaseFine(w, id))
    && (forall l <- w.listeners :: TableFine(w, l))
    && EndpointsFine(w)
  }

  ghost predicate PermitsFine(w: World) {
    && (forall l <- w.listeners :: ListenerFine(w, l))
    && |GlobalHolders(w)| + w.available == MAX_CONNECTIONS
    && |Connects(w)| == w.connecting
  }

  ghost predicate Inv(w: World) { LeasesFine(w) && PermitsFine(w) }

  // ---------------------------------------------------------------- every step keeps the invariant

  lemma OneMember<T>(s: set<T>, s': set<T>, x: T)
    requires forall y :: y != x ==> (y in s <==> y in s')
    ensures |s'| == |s| - (if x in s then 1 else 0) + (if x in s' then 1 else 0)
  {
    assert s - {x} == s' - {x};
    if x in s {
      assert |s - {x}| == |s| - 1;
    } else {
      assert s - {x} == s;
    }
    if x in s' {
      assert |s' - {x}| == |s'| - 1;
    } else {
      assert s' - {x} == s';
    }
  }

  /** How one lease action moves the slots and the connect count. */
  lemma ActCounts(e: Effect, id: LeaseId, event: LeaseAction)
    requires LeaseEnabled(e.lease, e.connecting, event)
    requires e.lease.phase.Over? ==> e.lease.disconnected == e.lease.finished
    ensures var e' := Act(e, id, event);
            var p, p' := e.lease.phase, e'.lease.phase;
            && !p.Over? && e'.lease.listener == e.lease.listener
            && e'.listener.shutdown == e.listener.shutdown && e'.listener.drained == e.listener.drained
            && e'.listener.available == e.listener.available + (if p'.Over? then 1 else 0)
            && e'.available + Weight(p') == e.available + Weight(p)
            && e'.connecting + Pending(p) == e.connecting + Pending(p')
  {
  }

  /** The global slots a lease holds, and its share of the connect count. */
  function Weight(p: Phase): nat { if p.Over? || p.Admitted? then 0 else 1 }

  function Pending(p: Phase): nat { if p.Connecting? || p.Accepted? then 1 else 0 }

  lemma GlobalMembers(w: World, id: LeaseId, e': Effect)
    requires id in w.leases
    ensures var w' := Install(w, id, e');
            && |GlobalHolders(w')| == |GlobalHolders(w)| - (if id in GlobalHolders(w) then 1 else 0) + (if id in GlobalHolders(w') then 1 else 0)
            && |Connects(w')| == |Connects(w)| - (if id in Connects(w) then 1 else 0) + (if id in Connects(w') then 1 else 0)
  {
    var w' := Install(w, id, e');
    OneMember(GlobalHolders(w), GlobalHolders(w'), id);
    OneMember(Connects(w), Connects(w'), id);
  }

  lemma LeasePermits(w: World, id: LeaseId, event: LeaseAction)
    requires LeasesFine(w) && PermitsFine(w) && Enabled(w, OnLease(id, event))
    ensures PermitsFine(Apply(w, OnLease(id, event)))
  {
    hide Act, LeaseEnabled, EndpointsFine, TableFine, ListenerFine;
    var e := Current(w, id);
    var e' := Act(e, id, event);
    var w' := Install(w, id, e');
    assert LeaseFine(w, id);
    ActCounts(e, id, event);
    GlobalMembers(w, id, e');
    forall l <- w'.listeners ensures ListenerFine(w', l) {
      HoldersMove(w, id, e', l);
    }
  }

  lemma HoldersMove(w: World, id: LeaseId, e': Effect, l: ListenerId)
    requires id in w.leases && w.leases[id].listener in w.listeners && l in w.listeners && ListenerFine(w, l)
    requires var e := Current(w, id);
             && !e.lease.phase.Over? && e'.lease.listener == e.lease.listener
             && e'.listener.shutdown == e.listener.shutdown && e'.listener.drained == e.listener.drained
             && e'.listener.available == e.listener.available + (if e'.lease.phase.Over? then 1 else 0)
    ensures ListenerFine(Install(w, id, e'), l)
  {
    var e, w' := Current(w, id), Install(w, id, e');
    OneMember(Holders(w, l), Holders(w', l), id);
    assert l == e.lease.listener ==> id in Holders(w, l);
  }

  /** How one lease action moves the lease through the endpoint table and the session table. */
  lemma ActTables(e: Effect, id: LeaseId, event: LeaseAction)
    requires LeaseEnabled(e.lease, e.connecting, event) && Sound(e.lease)
    requires id in e.listener.table <==> e.lease.phase.Tabled?
    ensures var e' := Act(e, id, event);
            var p, p' := e.lease.phase, e'.lease.phase;
            && Sound(e'.lease) && e'.lease.listener == e.lease.listener
            && (id in e'.listener.table <==> p'.Tabled?)
            && (forall i :: i != id ==> (i in e'.listener.table <==> i in e.listener.table))
            && (HasEntry(p) && HasEntry(p') ==> p'.cid == p.cid && e'.endpoints == e.endpoints)
            && (!HasEntry(p) && !HasEntry(p') ==> e'.endpoints == e.endpoints)
            && (HasEntry(p) && !HasEntry(p') ==> e'.endpoints == e.endpoints - {p.cid})
            && (!HasEntry(p) && HasEntry(p') ==> p'.cid !in e.endpoints && e'.endpoints == e.endpoints[p'.cid := id])
  {
  }

  lemma LeaseLeases(w: World, id: LeaseId, event: LeaseAction)
    requires LeasesFine(w) && Enabled(w, OnLease(id, event))
    ensures LeasesFine(Apply(w, OnLease(id, event)))
  {
    hide Act, LeaseEnabled, Sound, LeaseFine, TableFine, EndpointsFine, HasEntry;
    LeaseFacts(w, id);
    var e := Current(w, id);
    var e' := Act(e, id, event);
    ActTables(e, id, event);
    InstallLeases(w, id, e');
    InstallTables(w, id, e');
  }

  lemma LeaseFacts(w: World, id: LeaseId)
    requires LeasesFine(w) && id in w.leases
    ensures Sound(w.leases[id]) && w.leases[id].listener in w.listeners
    ensures id in w.listeners[w.leases[id].listener].table <==> w.leases[id].phase.Tabled?
  {
    assert LeaseFine(w, id) && TableFine(w, w.leases[id].listener);
  }

  lemma InstallTables(w: World, id: LeaseId, e': Effect)
    requires forall l <- w.listeners :: TableFine(w, l)
    requires id in w.leases && w.leases[id].listener in w.listeners && e'.lease.listener == w.leases[id].listener
    requires id in e'.listener.table <==> e'.lease.phase.Tabled?
    requires forall i :: i != id ==> (i in e'.listener.table <==> i in w.listeners[e'.lease.listener].table)
    ensures forall l <- Install(w, id, e').listeners :: TableFine(Install(w, id, e'), l)
  {
    forall l <- Install(w, id, e').listeners ensures TableFine(Install(w, id, e'), l) {
      assert TableFine(w, l);
    }
  }

  lemma InstallLeases(w: World, id: LeaseId, e': Effect)
    requires (forall i <- w.leases :: LeaseFine(w, i)) && EndpointsFine(w)
    requires id in w.leases && w.leases[id].listener in w.listeners
    requires e'.lease.listener == w.leases[id].listener && Sound(e'.lease)
    requires var p, p' := w.leases[id].phase, e'.lease.phase;
             if HasEntry(p) then
               e'.endpoints == (if HasEntry(p') then w.endpoints else w.endpoints - {p.cid})
               && (HasEntry(p') ==> p'.cid == p.cid)
             else if HasEntry(p') then p'.cid !in w.endpoints && e'.endpoints == w.endpoints[p'.cid := id]
             else e'.endpoints == w.endpoints
    ensures forall i <- Install(w, id, e').leases :: LeaseFine(Install(w, id, e'), i)
    ensures EndpointsFine(Install(w, id, e'))
  {
    hide Sound;
    var w' := Install(w, id, e');
    assert LeaseFine(w, id);
    forall i <- w'.leases ensures LeaseFine(w', i) {
      assert LeaseFine(w, i);
    }
  }

  lemma DrainLeases(w: World, l: ListenerId)
    requires LeasesFine(w) && Enabled(w, OnListener(l, DrainTable))
    ensures LeasesFine(ActOnListener(w, l, DrainTable))
  {
    var w' := ActOnListener(w, l, DrainTable);
    assert TableFine(w, l);
    forall i <- w'.leases ensures LeaseFine(w', i) {
      assert LeaseFine(w, i);
    }
    forall m <- w'.listeners ensures TableFine(w', m) {
      assert TableFine(w, m);
    }
  }

  lemma ConnectLeases(w: World, l: ListenerId, id: LeaseId)
    requires LeasesFine(w) && Enabled(w, OnListener(l, Connect(id)))
    ensures LeasesFine(ActOnListener(w, l, Connect(id)))
  {
    hide Clean;
    var w' := ActOnListener(w, l, Connect(id));
    forall i <- w'.leases ensures LeaseFine(w', i) {
      assert i in w.leases ==> LeaseFine(w, i);
    }
    forall m <- w'.listeners ensures TableFine(w', m) {
      assert TableFine(w, m);
    }
  }

  lemma ListenerLeases(w: World, l: ListenerId, action: ListenerAction)
    requires LeasesFine(w) && Enabled(w, OnListener(l, action))
    ensures LeasesFine(ActOnListener(w, l, action))
  {
    hide Clean, Admit;
    if action.DrainTable? {
      DrainLeases(w, l);
    } else if action.Connect? {
      ConnectLeases(w, l, action.id);
    } else {
      var w' := ActOnListener(w, l, action);
      forall i <- w'.leases ensures LeaseFine(w', i) {
        assert LeaseFine(w, i);
      }
      forall m <- w'.listeners ensures TableFine(w', m) {
        assert m in w.listeners ==> TableFine(w, m);
        assert forall i <- w.leases :: LeaseFine(w, i);
      }
    }
  }

  lemma ConnectPermits(w: World, l: ListenerId, id: LeaseId)
    requires LeasesFine(w) && PermitsFine(w) && Enabled(w, OnListener(l, Connect(id)))
    ensures PermitsFine(ActOnListener(w, l, Connect(id)))
  {
    hide EndpointsFine, TableFine, LeaseFine;
    var w' := ActOnListener(w, l, Connect(id));
    forall m <- w'.listeners ensures ListenerFine(w', m) {
      assert ListenerFine(w, m);
      OneMember(Holders(w, m), Holders(w', m), id);
    }
    assert GlobalHolders(w') == GlobalHolders(w);
    assert Connects(w') == Connects(w);
  }

  lemma DrainPermits(w: World, l: ListenerId)
    requires LeasesFine(w) && PermitsFine(w) && Enabled(w, OnListener(l, DrainTable))
    ensures PermitsFine(ActOnListener(w, l, DrainTable))
  {
    hide EndpointsFine, TableFine, LeaseFine;
    var w' := ActOnListener(w, l, DrainTable);
    forall m <- w'.listeners ensures ListenerFine(w', m) {
      assert ListenerFine(w, m);
      assert Holders(w', m) == Holders(w, m);
    }
    assert GlobalHolders(w') == GlobalHolders(w);
    assert Connects(w') == Connects(w);
  }

  lemma ListenerPermits(w: World, l: ListenerId, action: ListenerAction)
    requires LeasesFine(w) && PermitsFine(w) && Enabled(w, OnListener(l, action))
    ensures PermitsFine(ActOnListener(w, l, action))
  {
    if action.Connect? {
      ConnectPermits(w, l, action.id);
    } else if action.DrainTable? {
      DrainPermits(w, l);
    } else {
      hide EndpointsFine, TableFine;
      var w' := ActOnListener(w, l, action);
      assert GlobalHolders(w') == GlobalHolders(w);
      assert Connects(w') == Connects(w);
      forall m <- w'.listeners ensures ListenerFine(w', m) {
        assert Holders(w', m) == Holders(w, m);
        if m in w.listeners {
          assert ListenerFine(w, m);
        } else {
          assert forall i <- w.leases :: LeaseFine(w, i);
          assert Holders(w, m) == {};
        }
      }
    }
  }

  lemma {:induction false} RunKeeps(w: World, steps: seq<Step>)
    requires Inv(w) && Legal(w, steps)
    ensures Inv(Execute(w, steps))
    decreases |steps|
  {
    hide LeasesFine, PermitsFine, ActOnListener, Act, Install;
    if steps != [] {
      match steps[0] {
        case OnLease(id, event) =>
          LeaseLeases(w, id, event);
          LeasePermits(w, id, event);
        case OnListener(l, action) =>
          ListenerLeases(w, l, action);
          ListenerPermits(w, l, action);
      }
      RunKeeps(Apply(w, steps[0]), steps[1..]);
    }
  }

  lemma InitialInv()
    ensures Inv(Initial)
  {
    assert GlobalHolders(Initial) == {} && Connects(Initial) == {};
  }

  // ---------------------------------------------------------------- theorems about every run

  /** Slots are conserved: what is free and what live connects and leases hold always add up. */
  lemma PermitsConserved(steps: seq<Step>, l: ListenerId)
    requires Legal(Initial, steps) && l in Execute(Initial, steps).listeners
    ensures var w := Execute(Initial, steps);
            && |Holders(w, l)| + w.listeners[l].available == LISTENER_SLOTS
            && |GlobalHolders(w)| + w.available == MAX_CONNECTIONS
            && |Connects(w)| == w.connecting
  {
    hide Apply, Enabled;
    InitialInv();
    RunKeeps(Initial, steps);
    assert ListenerFine(Execute(Initial, steps), l);
  }

  lemma DrainedStep(w: World, step: Step, l: ListenerId)
    requires Enabled(w, step) && l in w.listeners && w.listeners[l].drained
    ensures l in Apply(w, step).listeners && Apply(w, step).listeners[l].drained
  {
    if step.OnLease? {
      ActKeepsDrained(Current(w, step.id), step.id, step.event);
    }
  }

  lemma {:induction false} DrainedStays(w: World, steps: seq<Step>, l: ListenerId)
    requires Legal(w, steps) && l in w.listeners && w.listeners[l].drained
    ensures l in Execute(w, steps).listeners && Execute(w, steps).listeners[l].drained
    decreases |steps|
  {
    hide Apply, Enabled;
    if steps != [] {
      DrainedStep(w, steps[0], l);
      DrainedStays(Apply(w, steps[0]), steps[1..], l);
    }
  }

  lemma ActKeepsDrained(e: Effect, id: LeaseId, event: LeaseAction)
    requires LeaseEnabled(e.lease, e.connecting, event)
    ensures Act(e, id, event).listener.drained == e.listener.drained
    ensures Act(e, id, event).lease.listener == e.lease.listener
  {
  }

  /**
    Close drains: after a close has acquired all of a listener's slots, whatever happens next, its session
    table is empty, no lease of it exists, and no connect is admitted any more.
   */
  lemma CloseDrains(steps: seq<Step>, l: ListenerId, later: seq<Step>)
    requires Legal(Initial, steps) && Enabled(Execute(Initial, steps), OnListener(l, ObtainAll))
    requires var closed := Apply(Execute(Initial, steps), OnListener(l, ObtainAll)); Legal(closed, later)
    ensures var w := Execute(Apply(Execute(Initial, steps), OnListener(l, ObtainAll)), later);
            && l in w.listeners && w.listeners[l].table == {} && Holders(w, l) == {}
            && w.listeners[l].available == LISTENER_SLOTS
            && forall id :: !Enabled(w, OnListener(l, Connect(id)))
  {
    InitialInv();
    RunKeeps(Initial, steps);
    var open := Execute(Initial, steps);
    var closed := Apply(open, OnListener(l, ObtainAll));
    ListenerLeases(open, l, ObtainAll);
    ListenerPermits(open, l, ObtainAll);
    RunKeeps(closed, later);
    DrainedStays(closed, later, l);
    var w := Execute(closed, later);
    assert ListenerFine(w, l) && TableFine(w, l);
    forall id ensures id !in w.listeners[l].table {
      assert id in w.listeners[l].table ==> id in Holders(w, l);
    }
  }

  /**
    Exactly-once disconnect: an endpoint is sent at most one disconnect request, and when a lease that
    was accepted gives its slots back, that request was sent and has ended.
   */
  lemma DisconnectOnce(steps: seq<Step>, id: LeaseId)
    requires Legal(Initial, steps) && id in Execute(Initial, steps).leases
    ensures var lease := Execute(Initial, steps).leases[id];
            && lease.requests <= 1
            && (lease.phase == Over(true) ==> lease.requests == 1 && lease.finished)
            && (lease.phase == Over(false) ==> lease.requests == 0)
  {
    hide Apply, Enabled;
    InitialInv();
    RunKeeps(Initial, steps);
    assert LeaseFine(Execute(Initial, steps), id);
  }

  /** Cleanup removes the lease's own endpoint table entry and leaves every other lease's. */
  lemma CleanupRemovesOwnEntry(steps: seq<Step>, id: LeaseId, other: LeaseId)
    requires Legal(Initial, steps) && Enabled(Execute(Initial, steps), OnLease(id, RemoveEntry)) && other != id
    requires other in Execute(Initial, steps).leases && HasEntry(Execute(Initial, steps).leases[other].phase)
    ensures var w := Execute(Initial, steps);
            var w' := Apply(w, OnLease(id, RemoveEntry));
            && Get(w.endpoints, w.leases[id].phase.cid) == Some(id)
            && w.leases[id].phase.cid !in w'.endpoints
            && Get(w'.endpoints, w.leases[other].phase.cid) == Some(other)
  {
    hide Apply, Enabled, PermitsFine, HasEntry;
    InitialInv();
    RunKeeps(Initial, steps);
    RemovesOwnEntry(Execute(Initial, steps), id, other);
  }

  lemma RemovesOwnEntry(w: World, id: LeaseId, other: LeaseId)
    requires LeasesFine(w) && Enabled(w, OnLease(id, RemoveEntry)) && other != id
    requires other in w.leases && HasEntry(w.leases[other].phase)
    ensures var w' := Apply(w, OnLease(id, RemoveEntry));
            && Get(w.endpoints, w.leases[id].phase.cid) == Some(id)
            && w.leases[id].phase.cid !in w'.endpoints
            && Get(w'.endpoints, w.leases[other].phase.cid) == Some(other)
  {
    hide TableFine, EndpointsFine;
    assert LeaseFine(w, id) && LeaseFine(w, other);
  }

  datatype Lookup = Found(id: LeaseId) | Unknown | Wait

  /** McpManager::endpoint, under the endpoint table's lock. */
  function LookUp(w: World, cid: ConnectionId): Lookup {
    if cid in w.endpoints then Found(w.endpoints[cid])
    else if w.connecting == 0 then Unknown
    else Wait
  }

  /**
    A lookup says "unknown connection" only when no lease answers to the id and no connect is under way
    that could still bring it.
   */
  lemma UnknownMeansNone(steps: seq<Step>, cid: ConnectionId, id: LeaseId)
    requires Legal(Initial, steps) && LookUp(Execute(Initial, steps), cid).Unknown?
    requires id in Execute(Initial, steps).leases
    ensures var p := Execute(Initial, steps).leases[id].phase;
            !p.Connecting? && !p.Accepted? && (HasEntry(p) ==> p.cid != cid)
  {
    hide Apply, Enabled;
    InitialInv();
    RunKeeps(Initial, steps);
    var w := Execute(Initial, steps);
    assert LeaseFine(w, id);
    assert id !in Connects(w);
  }
  // ---------------------------------------------------------------- when each action succeeds

  /**
    A connect is admitted exactly if the listener is open and fewer than 32 connects and leases of it are alive,
    and it can be closed for good exactly if none is.
   */
  lemma ConnectExactly(steps: seq<Step>, l: ListenerId, id: LeaseId)
    requires Legal(Initial, steps) && l in Execute(Initial, steps).listeners && id !in Execute(Initial, steps).leases
    ensures var w := Execute(Initial, steps);
            && (Enabled(w, OnListener(l, Connect(id))) <==> !w.listeners[l].shutdown && |Holders(w, l)| < 32)
            && (Enabled(w, OnListener(l, ObtainAll)) <==> w.listeners[l].shutdown && Holders(w, l) == {})
  {
    hide Apply;
    PermitsConserved(steps, l);
  }

  /** No other lease answers to the connection id. */
  predicate Unused(w: World, cid: ConnectionId) {
    forall other <- w.leases :: HasEntry(w.leases[other].phase) ==> w.leases[other].phase.cid != cid
  }

  /**
    How far a connect gets, in every reachable state: it proceeds to the client exactly if fewer than 128 connects
    and leases are alive in all, is accepted exactly if the client's id is not in use, and becomes a lease exactly if
    the listener has not been shut down meanwhile.
   */
  lemma ConnectProceedsExactly(steps: seq<Step>, id: LeaseId, cid: ConnectionId)
    requires Legal(Initial, steps) && id in Execute(Initial, steps).leases
    ensures var w := Execute(Initial, steps);
            && w.leases[id].listener in w.listeners
            && (Enabled(w, OnLease(id, AcquireGlobal)) ==>
                  Apply(w, OnLease(id, AcquireGlobal)).leases[id].phase
                  == if |GlobalHolders(w)| < 128 then Connecting else Over(false))
            && (Enabled(w, OnLease(id, ConnectReplies(cid))) ==>
                  Apply(w, OnLease(id, ConnectReplies(cid))).leases[id].phase
                  == if Unused(w, cid) then Accepted(cid) else Over(false))
            && (Enabled(w, OnLease(id, ConnectReturns)) ==>
                  Apply(w, OnLease(id, ConnectReturns)).leases[id].phase
                  == var own := w.leases[id].phase.cid;
                     if w.listeners[w.leases[id].listener].shutdown then Cleaning(own) else Owned(own))
  {
    hide Apply, Enabled;
    InitialInv();
    RunKeeps(Initial, steps);
    var w := Execute(Initial, steps);
    assert LeaseFine(w, id);
    Proceeds(w, id);
    EntriesUsed(w, cid);
    if Enabled(w, OnLease(id, ConnectReplies(cid))) {
      Replies(w, id, cid);
    }
  }

  lemma Proceeds(w: World, id: LeaseId)
    requires Inv(w) && id in w.leases && w.leases[id].listener in w.listeners
    ensures Enabled(w, OnLease(id, AcquireGlobal)) ==>
              Apply(w, OnLease(id, AcquireGlobal)).leases[id].phase == if |GlobalHolders(w)| < 128 then Connecting else Over(false)
    ensures Enabled(w, OnLease(id, ConnectReturns)) ==>
              Apply(w, OnLease(id, ConnectReturns)).leases[id].phase
              == var own := w.leases[id].phase.cid;
                 if w.listeners[w.leases[id].listener].shutdown then Cleaning(own) else Owned(own)
  {
    hide LeasesFine, ListenerFine;
  }

  lemma Replies(w: World, id: LeaseId, cid: ConnectionId)
    requires Enabled(w, OnLease(id, ConnectReplies(cid)))
    ensures Apply(w, OnLease(id, ConnectReplies(cid))).leases[id].phase == if cid in w.endpoints then Over(false) else Accepted(cid)
  {
  }

  /** The endpoint table has the connection ids of exactly the leases that have an entry. */
  lemma EntriesUsed(w: World, cid: ConnectionId)
    requires LeasesFine(w)
    ensures cid in w.endpoints <==> !Unused(w, cid)
    ensures cid in w.endpoints ==> w.endpoints[cid] in w.leases && HasEntry(w.leases[w.endpoints[cid]].phase)
                                   && w.leases[w.endpoints[cid]].phase.cid == cid
    ensures forall id <- w.leases :: HasEntry(w.leases[id].phase) && w.leases[id].phase.cid == cid ==> Get(w.endpoints, cid) == Some(id)
  {
    hide TableFine;
    forall other | other in w.leases && HasEntry(w.leases[other].phase) && w.leases[other].phase.cid == cid
      ensures Get(w.endpoints, cid) == Some(other)
    {
      assert LeaseFine(w, other);
    }
  }

  /**
    A lease enters the session table exactly if neither side is shut down, and leaves it, for its cleanup, exactly
    when it is taken out or its listener is drained.
   */
  lemma TableExactly(steps: seq<Step>, id: LeaseId)
    requires Legal(Initial, steps) && id in Execute(Initial, steps).leases
    ensures var w := Execute(Initial, steps);
            var lease := w.leases[id];
            && lease.listener in w.listeners
            && (id in w.listeners[lease.listener].table <==> lease.phase.Tabled?)
            && (Enabled(w, OnLease(id, EnterTable)) ==>
                  var after := Apply(w, OnLease(id, EnterTable)).leases[id];
                  if w.listeners[lease.listener].shutdown || lease.shutdown
                  then after.phase == Cleaning(lease.phase.cid) && after.shutdown
                  else after == lease.(phase := Tabled(lease.phase.cid)))
            && (Enabled(w, OnListener(lease.listener, DrainTable)) ==>
                  Apply(w, OnListener(lease.listener, DrainTable)).leases[id]
                  == if lease.phase.Tabled? then lease.(phase := Cleaning(lease.phase.cid), shutdown := true) else lease)
  {
    hide Apply, Enabled, PermitsFine;
    InitialInv();
    RunKeeps(Initial, steps);
    var w := Execute(Initial, steps);
    LeaseFacts(w, id);
    Enters(w, id);
  }

  lemma Enters(w: World, id: LeaseId)
    requires id in w.leases && w.leases[id].listener in w.listeners
    requires id in w.listeners[w.leases[id].listener].table <==> w.leases[id].phase.Tabled?
    ensures var lease := w.leases[id];
            && (Enabled(w, OnLease(id, EnterTable)) ==>
                  var after := Apply(w, OnLease(id, EnterTable)).leases[id];
                  if w.listeners[lease.listener].shutdown || lease.shutdown
                  then after.phase == Cleaning(lease.phase.cid) && after.shutdown
                  else after == lease.(phase := Tabled(lease.phase.cid)))
            && (Enabled(w, OnListener(lease.listener, DrainTable)) ==>
                  Apply(w, OnListener(lease.listener, DrainTable)).leases[id]
                  == if lease.phase.Tabled? then lease.(phase := Cleaning(lease.phase.cid), shutdown := true) else lease)
  {
  }

  /**
    What a lookup answers, in every reachable state: the lease whose entry has the connection id; if there is none,
    that it is unknown exactly if no connect is under way that could still bring it.
   */
  lemma LookUpExactly(steps: seq<Step>, cid: ConnectionId, id: LeaseId)
    requires Legal(Initial, steps)
    ensures var w := Execute(Initial, steps);
            && (LookUp(w, cid) == Found(id) <==> id in w.leases && HasEntry(w.leases[id].phase) && w.leases[id].phase.cid == cid)
            && (LookUp(w, cid).Unknown?
                <==> Unused(w, cid) && forall other <- w.leases :: !w.leases[other].phase.Connecting? && !w.leases[other].phase.Accepted?)
  {
    hide Apply, Enabled;
    InitialInv();
    RunKeeps(Initial, steps);
    var w := Execute(Initial, steps);
    EntriesUsed(w, cid);
    NoConnects(w);
  }

  lemma NoConnects(w: World)
    requires PermitsFine(w)
    ensures w.connecting == 0 <==> forall other <- w.leases :: !w.leases[other].phase.Connecting? && !w.leases[other].phase.Accepted?
  {
    hide ListenerFine;
    if w.connecting == 0 {
      forall other | other in w.leases ensures !w.leases[other].phase.Connecting? && !w.leases[other].phase.Accepted? {
        assert other !in Connects(w);
      }
    }
    if forall other <- w.leases :: !w.leases[other].phase.Connecting? && !w.leases[other].phase.Accepted? {
      assert Connects(w) == {};
    }
  }

  // ---------------------------------------------------------------- every lease can end

  /** How far a lease still is from its end. */
  function Distance(lease: Lease): nat {
    (match lease.phase
     case Over(_) => 0
     case Removed(_) => 1
     case Cleaning(_) => 2
     case Owned(_) => 3
     case Tabled(_) => 3
     case Accepted(_) => 4
     case Connecting => 5
     case Admitted => 6)
    + if lease.phase.Over? || lease.finished then 0 else if lease.disconnected then 1 else 2
  }

  /** The next step on the way. */
  function Onwards(lease: Lease): LeaseAction
    requires !lease.phase.Over?
  {
    match lease.phase
    case Admitted => AcquireGlobal
    case Connecting => ConnectFails
    case Accepted(_) => ConnectReturns
    case Owned(_) => Drop
    case Tabled(_) => Disconnect
    case Cleaning(_) => RemoveEntry
    case Removed(_) => if !lease.disconnected then CallDisconnect else if !lease.finished then DisconnectEnds else Release
  }

  lemma OnwardsCloser(w: World, id: LeaseId)
    requires LeasesFine(w) && PermitsFine(w) && id in w.leases && !w.leases[id].phase.Over?
    ensures var step := OnLease(id, Onwards(w.leases[id]));
            && Enabled(w, step) && id in Apply(w, step).leases
            && Distance(Apply(w, step).leases[id]) < Distance(w.leases[id])
            && LeasesFine(Apply(w, step)) && PermitsFine(Apply(w, step))
  {
    hide LeasesFine, PermitsFine;
    LeaseFacts(w, id);
    ConnectCounted(w, id);
    LeaseLeases(w, id, Onwards(w.leases[id]));
    LeasePermits(w, id, Onwards(w.leases[id]));
  }

  lemma ConnectCounted(w: World, id: LeaseId)
    requires PermitsFine(w) && id in w.leases
    ensures w.leases[id].phase.Connecting? || w.leases[id].phase.Accepted? ==> w.connecting > 0
  {
    if w.leases[id].phase.Connecting? || w.leases[id].phase.Accepted? {
      assert id in Connects(w);
    }
  }

  /** Whatever the others do, a connect or lease can always be brought to its end by its own steps. */
  lemma {:induction false} EndRun(w: World, id: LeaseId) returns (more: seq<Step>)
    requires LeasesFine(w) && PermitsFine(w) && id in w.leases
    ensures Legal(w, more) && (forall s <- more :: s.OnLease? && s.id == id)
    ensures id in Execute(w, more).leases && Execute(w, more).leases[id].phase.Over?
    decreases Distance(w.leases[id])
  {
    hide LeasesFine, PermitsFine, Apply, Enabled, Onwards;
    if w.leases[id].phase.Over? {
      more := [];
    } else {
      var step := OnLease(id, Onwards(w.leases[id]));
      OnwardsCloser(w, id);
      var rest := EndRun(Apply(w, step), id);
      more := [step] + rest;
      assert more[1..] == rest;
    }
  }

  lemma EveryLeaseCanEnd(steps: seq<Step>, id: LeaseId) returns (more: seq<Step>)
    requires Legal(Initial, steps) && id in Execute(Initial, steps).leases
    ensures Legal(Execute(Initial, steps), more) && forall s <- more :: s.OnLease? && s.id == id
    ensures var w := Execute(Execute(Initial, steps), more); id in w.leases && w.leases[id].phase.Over?
  {
    hide Apply, Enabled;
    InitialInv();
    RunKeeps(Initial, steps);
    more := EndRun(Execute(Initial, steps), id);
  }
  // ---------------------------------------------------------------- a listener that is shut down

  lemma ShutStep(w: World, step: Step, l: ListenerId)
    requires LeasesFine(w) && PermitsFine(w) && Enabled(w, step) && l in w.listeners && w.listeners[l].shutdown
    ensures l in Apply(w, step).listeners && Apply(w, step).listeners[l].shutdown
    ensures LeasesFine(Apply(w, step)) && PermitsFine(Apply(w, step))
  {
    hide LeasesFine, PermitsFine, Act;
    match step
    case OnListener(m, action) =>
      ListenerLeases(w, m, action);
      ListenerPermits(w, m, action);
    case OnLease(id, event) =>
      LeaseLeases(w, id, event);
      LeasePermits(w, id, event);
      LeaseFacts(w, id);
      ActCounts(Current(w, id), id, event);
  }

  lemma {:induction false} ShutRuns(w: World, steps: seq<Step>, l: ListenerId)
    requires LeasesFine(w) && PermitsFine(w) && Legal(w, steps) && l in w.listeners && w.listeners[l].shutdown
    ensures l in Execute(w, steps).listeners && Execute(w, steps).listeners[l].shutdown
    decreases |steps|
  {
    hide LeasesFine, PermitsFine, Apply, Enabled;
    if steps != [] {
      ShutStep(w, steps[0], l);
      ShutRuns(Apply(w, steps[0]), steps[1..], l);
    }
  }

  /** After a shutdown the listener admits no connect and takes no lease into its table, whatever else happens. */
  lemma ShutdownIsFinal(steps: seq<Step>, l: ListenerId, later: seq<Step>, id: LeaseId)
    requires Legal(Initial, steps) && Enabled(Execute(Initial, steps), OnListener(l, Shutdown))
    requires Legal(Apply(Execute(Initial, steps), OnListener(l, Shutdown)), later)
    ensures var w := Execute(Apply(Execute(Initial, steps), OnListener(l, Shutdown)), later);
            && l in w.listeners && !Enabled(w, OnListener(l, Connect(id)))
            && (Enabled(w, OnLease(id, EnterTable)) && w.leases[id].listener == l ==>
                  Apply(w, OnLease(id, EnterTable)).leases[id].phase.Cleaning?)
  {
    hide LeasesFine, PermitsFine, Act, Execute, Legal;
    InitialInv();
    RunKeeps(Initial, steps);
    var open := Execute(Initial, steps);
    ListenerLeases(open, l, Shutdown);
    ListenerPermits(open, l, Shutdown);
    var shut := Apply(open, OnListener(l, Shutdown));
    ShutRuns(shut, later, l);
    RunKeeps(shut, later);
    var w := Execute(shut, later);
    if id in w.leases {
      LeaseFacts(w, id);
      Enters(w, id);
    }
  }

  /** An endpoint whose stream overflows is shut down, keeps its place until it is cleaned up, and may be disconnected at once. */
  lemma OverflowExactly(steps: seq<Step>, id: LeaseId)
    requires Legal(Initial, steps) && Enabled(Execute(Initial, steps), OnLease(id, Overflow))
    ensures var w := Execute(Initial, steps);
            var w' := Apply(w, OnLease(id, Overflow));
            && w'.leases[id] == w.leases[id].(shutdown := true, overflowed := true)
            && w'.endpoints == w.endpoints && w'.available == w.available
            && Enabled(w', OnLease(id, CallDisconnect)) && !Enabled(w', OnLease(id, Overflow))
  {
    hide Legal, Execute;
  }
}

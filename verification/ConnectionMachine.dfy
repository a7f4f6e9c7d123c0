/**
The connection machine of the MCP client: a server registry and a tool route map shared
by concurrent connects, reconnects and disconnects.

Everything between two awaits of the program is one atomic action here. A block that holds
the lifecycle lock without awaiting is one action; the sweep of a disconnect, which awaits
while it holds that lock, is recorded in `sweeper`, and every other action that needs the
lock waits for it. The cleanup of a failed connect takes no lock, as in the program.
*/
module ConnectionMachine {
  import opened Wrappers

  type Name = string
  type Tool = string
  // Identities of connections (their unique session ids), tasks and callers.
  type Id = nat

  /** The part of a connection record that is set when it is built and never changes. */
  datatype Connection = Connection(name: Name, generation: nat, origin: Option<Id>, hasParams: bool)

  /** The shared maps, and which connections are flagged connected or have a session. `holders`
      (who held a name since it was last cleared) and `installed` (connections that were ever
      registered) are history: no action decides anything by them. */
  datatype Registry = Registry(
    servers: map<Name, Id>,
    routing: map<Tool, Name>,
    conns: map<Id, Connection>,
    connected: set<Id>,
    sessions: set<Id>,
    holders: map<Name, seq<Id>>,
    installed: set<Id>)

  /** How a connect ended: it returned (with its connection installed, or without because a
      reconnect was no longer wanted), raised an error, or raised a cancellation. */
  datatype Ending = Returned | Raised | WasCancelled

  datatype Phase =
    | Created      // a reconnect task that has not run yet
    | Waiting      // registered as starting up, waiting for the name's startup lock
    | Checking     // holds the startup lock, about to compare the expected connection
    | Starting(conn: Id, previous: Option<Id>, previousRoutes: set<Tool>)
    | Listing(conn: Id, previous: Option<Id>, previousRoutes: set<Tool>)
    | Leaving(ending: Ending)     // done with the registry, still holds the startup lock
    | Discarding(ending: Ending)  // about to leave the set of startup tasks
    | Done(ending: Ending)

  datatype ConnectOp = ConnectOp(name: Name, expected: Option<Id>, hasParams: bool, phase: Phase)

  /** The connect tasks. `begun` is history: how many sweeps had cleared the registry when a
      connect began. */
  datatype Startups = Startups(
    ops: map<Id, ConnectOp>,
    tasks: set<Id>,
    reconnectTasks: set<Id>,
    locks: map<Name, Id>,
    begun: map<Id, nat>)

  datatype Disconnect =
    | Queued                       // counted, waiting for the disconnect lock
    | Entered                      // holds the disconnect lock
    | Draining(tasks: set<Id>)     // awaits the startup tasks it cancelled
    | Sweeping(tasks: set<Id>)     // holds the lifecycle lock, closes the servers
    | Returning(completed: bool)

  /** `cleanups` (sweeps that cleared the registry) and `groupCleanups` (completed ones of the
      current group of overlapping disconnects) are history. */
  datatype Shutdown = Shutdown(
    closing: bool,
    requests: nat,
    groupCompleted: bool,
    sweeper: Option<Id>,
    closer: Option<Id>,
    discs: map<Id, Disconnect>,
    cleanups: nat,
    groupCleanups: nat)

  datatype ReconnectPhase =
    | Inspecting
    | WaitingOldTask
    | Awaiting(task: Id)
    | Confirming
    | Ended(result: Option<bool>)  // None when a cancellation escaped

  datatype Reconnect = Reconnect(conn: Id, phase: ReconnectPhase)

  datatype Reconnects = Reconnects(calls: map<Id, Reconnect>, locks: map<Id, Id>)

  datatype State = State(reg: Registry, start: Startups, shut: Shutdown, recon: Reconnects)

  const INIT := State(
    Registry(map[], map[], map[], {}, {}, map[], {}),
    Startups(map[], {}, {}, map[], map[]),
    Shutdown(false, 0, false, None, None, map[], 0, 0),
    Reconnects(map[], map[]))

  // ---------- Registry operations ----------

  function RoutesOf(routing: map<Tool, Name>, name: Name): set<Tool> {
    set t | t in routing && routing[t] == name
  }

  function WithoutRoutesOf(routing: map<Tool, Name>, name: Name): map<Tool, Name> {
    map t | t in routing && routing[t] != name :: routing[t]
  }

  /** The route map after `name` gives up its routes and takes those of `tools`. */
  function Rerouted(routing: map<Tool, Name>, name: Name, tools: seq<Tool>): map<Tool, Name> {
    map t | t in routing.Keys + (set x | x in tools) && (t in tools || routing[t] != name) ::
      if t in tools then name else routing[t]
  }

  predicate ConflictsAt(tools: seq<Tool>, i: nat, routing: map<Tool, Name>, name: Name, previousRoutes: set<Tool>)
    requires i < |tools|
  {
    || tools[i] in tools[..i]
    || (tools[i] in routing && !(routing[tools[i]] == name && tools[i] in previousRoutes))
  }

  /** Whether the server's tool list repeats a tool or names one that is already routed,
      other than to the same server by a route its predecessor had. */
  predicate Conflicting(tools: seq<Tool>, routing: map<Tool, Name>, name: Name, previousRoutes: set<Tool>) {
    exists i :: 0 <= i < |tools| && ConflictsAt(tools, i, routing, name, previousRoutes)
  }

  function OpenSession(g: Registry, c: Id): Registry {
    g.(connected := g.connected + {c}, sessions := g.sessions + {c})
  }

  function DropSession(g: Registry, c: Id): Registry {
    g.(connected := g.connected - {c}, sessions := g.sessions - {c})
  }

  function MarkClosed(g: Registry, c: Id): Registry {
    g.(connected := g.connected - {c})
  }

  function Retire(g: Registry, previous: Option<Id>): Registry {
    if previous.Some? then MarkClosed(g, previous.value) else g
  }

  function ClearName(g: Registry, name: Name): Registry {
    g.(servers := g.servers - {name},
       routing := WithoutRoutesOf(g.routing, name),
       holders := g.holders - {name})
  }

  /** A connection that will not be used is marked closed, and its name is cleared only when
      it holds that name. */
  function CleanUp(g: Registry, name: Name, c: Id): Registry {
    var g1 := MarkClosed(g, c);
    if Get(g.servers, name) == Some(c) then ClearName(g1, name) else g1
  }

  function Generation(g: Registry, previous: Option<Id>): nat {
    if previous.Some? && previous.value in g.conns then g.conns[previous.value].generation + 1 else 0
  }

  function AddConnection(g: Registry, op: ConnectOp, c: Id): Registry {
    g.(conns := g.conns[c := Connection(op.name, Generation(g, Get(g.servers, op.name)),
                                        op.expected, op.hasParams)])
  }

  function Install(g: Registry, name: Name, c: Id, previous: Option<Id>, tools: seq<Tool>): Registry {
    var line := if name in g.holders then g.holders[name] else [];
    Retire(g, previous).(servers := g.servers[name := c],
                         routing := Rerouted(g.routing, name, tools),
                         holders := g.holders[name := line + [c]],
                         installed := g.installed + {c})
  }

  /** The owner metadata of a listed tool is invalid: the old holder is already shut down, and
      the half installed connection is removed again before anything can observe it. */
  function FailInstall(g: Registry, name: Name, c: Id, previous: Option<Id>): Registry {
    ClearName(MarkClosed(Retire(g, previous), c), name)
  }

  /** The live connection of `c`'s name was built to replace `c` and is usable. */
  predicate Descends(g: Registry, c: Id) {
    && c in g.conns
    && g.conns[c].name in g.servers
    && g.servers[g.conns[c].name] in g.conns
    && var current := g.servers[g.conns[c].name];
       g.conns[current].origin == Some(c) && current in g.connected && current in g.sessions
  }

  // ---------- Connects ----------

  datatype ConnectAction =
    | BeginFresh(name: Name, hasParams: bool)
    | BeginReconnect
    | TakeStartupLock(conn: Id)
    | CheckExpected(conn: Id)
    | SessionReady
    | ToolsListed(tools: seq<Tool>, ownerInvalid: bool)
    | Abort(cancelled: bool)
    | ReleaseStartupLock
    | Finish(discarded: bool)

  predicate LockFree(s: State) { s.shut.sweeper.None? }

  predicate ConnectEnabled(s: State, op: Id, a: ConnectAction) {
    if a.BeginFresh? then op !in s.start.ops && LockFree(s)
    else
      op in s.start.ops
      && var phase := s.start.ops[op].phase;
      match a
      case BeginFresh(_, _) => false
      case BeginReconnect => phase.Created? && LockFree(s)
      case TakeStartupLock(c) =>
        phase.Waiting? && s.start.ops[op].name !in s.start.locks && c !in s.reg.conns
      case CheckExpected(c) => phase.Checking? && LockFree(s) && c !in s.reg.conns
      case SessionReady => phase.Starting? && LockFree(s)
      case ToolsListed(tools, ownerInvalid) => phase.Listing? && LockFree(s) && (ownerInvalid ==> tools != [])
      case Abort(cancelled) =>
        !phase.Discarding? && !phase.Done? && (phase.Leaving? ==> cancelled && phase.ending.Returned?)
      case ReleaseStartupLock => phase.Leaving?
      case Finish(discarded) => phase.Discarding? && (discarded ==> LockFree(s))
  }

  /** What the two locked blocks of a connect test before they go on. */
  predicate Rejected(s: State, op: ConnectOp)
    requires op.phase.Starting? || op.phase.Listing?
  {
    s.shut.closing || Get(s.reg.servers, op.name) != op.phase.previous
  }

  predicate ListConflicts(g: Registry, op: ConnectOp, tools: seq<Tool>)
    requires op.phase.Listing?
  {
    Conflicting(tools, g.routing, op.name, op.phase.previousRoutes)
  }

  /** Whether the action puts the connect's connection into the registry. */
  predicate Installs(s: State, op: Id, a: ConnectAction) {
    && a.ToolsListed? && op in s.start.ops && s.start.ops[op].phase.Listing?
    && !Rejected(s, s.start.ops[op]) && !ListConflicts(s.reg, s.start.ops[op], a.tools) && !a.ownerInvalid
  }

  function StartPhase(g: Registry, op: ConnectOp, c: Id): Phase {
    var previous := Get(g.servers, op.name);
    Starting(c, previous, if previous.Some? then RoutesOf(g.routing, op.name) else {})
  }

  /** What a connect action does to the registry. */
  function ConnectRegistry(s: State, op: Id, a: ConnectAction): Registry
    requires ConnectEnabled(s, op, a)
  {
    if a.BeginFresh? then s.reg
    else
      var o := s.start.ops[op];
      match a
      case TakeStartupLock(c) => if o.expected.Some? then s.reg else AddConnection(s.reg, o, c)
      case CheckExpected(c) =>
        if s.shut.closing || Get(s.reg.servers, o.name) != o.expected then s.reg
        else AddConnection(s.reg, o, c)
      case SessionReady =>
        if Rejected(s, o) then CleanUp(s.reg, o.name, o.phase.conn)
        else OpenSession(s.reg, o.phase.conn)
      case ToolsListed(tools, ownerInvalid) =>
        if Rejected(s, o) || ListConflicts(s.reg, o, tools) then CleanUp(s.reg, o.name, o.phase.conn)
        else if ownerInvalid then FailInstall(s.reg, o.name, o.phase.conn, o.phase.previous)
        else Install(s.reg, o.name, o.phase.conn, o.phase.previous, tools)
      case Abort(_) =>
        if o.phase.Starting? || o.phase.Listing? then CleanUp(s.reg, o.name, o.phase.conn) else s.reg
      case _ => s.reg
  }

  /** Where a connect action leaves the connect. */
  function NextPhase(s: State, op: Id, a: ConnectAction): Phase
    requires ConnectEnabled(s, op, a) && !a.BeginFresh?
  {
    var o := s.start.ops[op];
    match a
    case BeginFresh(_, _) => Waiting
    case BeginReconnect => if s.shut.closing then Done(WasCancelled) else Waiting
    case TakeStartupLock(c) => if o.expected.Some? then Checking else StartPhase(s.reg, o, c)
    case CheckExpected(c) =>
      if s.shut.closing then Leaving(WasCancelled)
      else if Get(s.reg.servers, o.name) != o.expected then Leaving(Returned)
      else StartPhase(s.reg, o, c)
    case SessionReady =>
      if Rejected(s, o) then Leaving(WasCancelled)
      else Listing(o.phase.conn, o.phase.previous, o.phase.previousRoutes)
    case ToolsListed(tools, ownerInvalid) =>
      Leaving(if Rejected(s, o) then WasCancelled
              else if ListConflicts(s.reg, o, tools) || ownerInvalid then Raised else Returned)
    case Abort(cancelled) =>
      var ending := if cancelled then WasCancelled else Raised;
      if o.phase.Created? then Done(ending) else if o.phase.Waiting? then Discarding(ending) else Leaving(ending)
    case ReleaseStartupLock => Discarding(o.phase.ending)
    case Finish(discarded) => Done(if discarded then o.phase.ending else WasCancelled)
  }

  function ConnectStartups(s: State, op: Id, a: ConnectAction): Startups
    requires ConnectEnabled(s, op, a)
  {
    var u := s.start;
    if a.BeginFresh? then
      if s.shut.closing then u
      else u.(ops := u.ops[op := ConnectOp(a.name, None, a.hasParams, Waiting)],
              tasks := u.tasks + {op}, begun := u.begun[op := s.shut.cleanups])
    else
      var next := u.ops[op := u.ops[op].(phase := NextPhase(s, op, a))];
      match a
      case BeginReconnect =>
        if s.shut.closing then u.(ops := next)
        else u.(ops := next, tasks := u.tasks + {op}, begun := u.begun[op := s.shut.cleanups])
      case TakeStartupLock(_) => u.(ops := next, locks := u.locks[u.ops[op].name := op])
      case ReleaseStartupLock => u.(ops := next, locks := u.locks - {u.ops[op].name})
      case Finish(discarded) =>
        u.(ops := next, tasks := if discarded then u.tasks - {op} else u.tasks)
      case _ => u.(ops := next)
  }

  function ConnectStep(s: State, op: Id, a: ConnectAction): State
    requires ConnectEnabled(s, op, a)
  {
    s.(reg := ConnectRegistry(s, op, a), start := ConnectStartups(s, op, a))
  }

  // ---------- Disconnects ----------

  datatype DisconnectAction =
    | Request
    | Enter
    | Snapshot
    | BeginSweep
    | SweepConnection(name: Name)
    | ClearRegistry(completed: bool)
    | Escape
    | FinishRequest

  predicate DisconnectEnabled(s: State, d: Id, a: DisconnectAction) {
    if a.Request? then d !in s.shut.discs && LockFree(s)
    else
      d in s.shut.discs
      && var phase := s.shut.discs[d];
      match a
      case Request => false
      case Enter => phase.Queued? && s.shut.closer.None?
      case Snapshot => phase.Entered? && LockFree(s)
      case BeginSweep =>
        phase.Draining? && LockFree(s)
        && forall op :: op in phase.tasks && op in s.start.ops ==> s.start.ops[op].phase.Done?
      case SweepConnection(name) => phase.Sweeping? && name in s.reg.servers
      case ClearRegistry(_) =>
        phase.Sweeping?
        && forall n :: n in s.reg.servers ==> s.reg.servers[n] !in s.reg.connected
      case Escape => !phase.Returning?
      case FinishRequest => phase.Returning? && LockFree(s) && s.shut.requests > 0
  }

  function EndRequest(h: Shutdown, d: Id): Shutdown
    requires d in h.discs && h.discs[d].Returning? && h.requests > 0
  {
    var done := h.groupCompleted || h.discs[d].completed;
    h.(discs := h.discs - {d},
       requests := h.requests - 1,
       closing := h.closing && !(h.requests == 1 && done),
       groupCompleted := h.requests > 1 && done)
  }

  function DisconnectShutdown(s: State, d: Id, a: DisconnectAction): Shutdown
    requires DisconnectEnabled(s, d, a)
  {
    var h := s.shut;
    match a
    case Request =>
      h.(discs := h.discs[d := Queued], requests := h.requests + 1, closing := true,
         groupCompleted := h.requests > 0 && h.groupCompleted,
         groupCleanups := if h.requests > 0 then h.groupCleanups else 0)
    case Enter => h.(closer := Some(d), discs := h.discs[d := Entered])
    case Snapshot =>
      h.(closing := true, discs := h.discs[d := Draining(s.start.reconnectTasks + s.start.tasks)])
    case BeginSweep => h.(sweeper := Some(d), discs := h.discs[d := Sweeping(h.discs[d].tasks)])
    case SweepConnection(_) => h
    case ClearRegistry(completed) =>
      h.(sweeper := None, closer := None, discs := h.discs[d := Returning(completed)],
         cleanups := h.cleanups + 1,
         groupCleanups := h.groupCleanups + if completed then 1 else 0)
    case Escape =>
      h.(closer := if h.closer == Some(d) then None else h.closer,
         sweeper := if h.sweeper == Some(d) then None else h.sweeper,
         discs := h.discs[d := Returning(false)])
    case FinishRequest => EndRequest(h, d)
  }

  function DisconnectStep(s: State, d: Id, a: DisconnectAction): State
    requires DisconnectEnabled(s, d, a)
  {
    var s1 := s.(shut := DisconnectShutdown(s, d, a));
    match a
    case BeginSweep =>
      var tasks := s.shut.discs[d].tasks;
      s1.(start := s.start.(tasks := s.start.tasks - tasks, reconnectTasks := s.start.reconnectTasks - tasks))
    case SweepConnection(name) => s1.(reg := MarkClosed(s.reg, s.reg.servers[name]))
    case ClearRegistry(_) => s1.(reg := s.reg.(servers := map[], routing := map[], holders := map[]))
    case _ => s1
  }

  // ---------- Reconnects ----------

  datatype ReconnectAction =
    | StartReconnect(conn: Id)
    | Inspect
    | Spawn(op: Id)
    | Join
    | Confirm
    | CancelReconnect

  predicate ReconnectEnabled(s: State, r: Id, a: ReconnectAction) {
    if a.StartReconnect? then
      r !in s.recon.calls && a.conn in s.reg.conns && a.conn !in s.recon.locks
    else
      r in s.recon.calls && s.recon.calls[r].conn in s.reg.conns
      && var phase := s.recon.calls[r].phase;
      match a
      case StartReconnect(_) => false
      case Inspect => phase.Inspecting? && LockFree(s)
      case Spawn(op) => phase.WaitingOldTask? && LockFree(s) && op !in s.start.ops
      case Join =>
        phase.Awaiting? && LockFree(s)
        && phase.task in s.start.ops && s.start.ops[phase.task].phase.Done?
      case Confirm => phase.Confirming? && LockFree(s)
      case CancelReconnect =>
        // A cancellation while it awaits the connect task goes to that task.
        !phase.Ended? && (phase.Awaiting? ==> phase.task in s.start.ops && s.start.ops[phase.task].phase.Done?)
  }

  predicate StillCurrent(g: Registry, c: Id)
    requires c in g.conns
  {
    Get(g.servers, g.conns[c].name) == Some(c)
  }

  /** Where a reconnect action leaves the caller. */
  function ReconnectPhaseAfter(s: State, r: Id, a: ReconnectAction): ReconnectPhase
    requires ReconnectEnabled(s, r, a)
  {
    if a.StartReconnect? then Inspecting
    else
      var c := s.recon.calls[r].conn;
      match a
      case StartReconnect(_) => Inspecting
      case Inspect =>
        if s.shut.closing then Ended(Some(false))
        else if !StillCurrent(s.reg, c) then Ended(Some(Descends(s.reg, c)))
        else if !s.reg.conns[c].hasParams then Ended(Some(false))
        else WaitingOldTask
      case Spawn(op) =>
        if s.shut.closing then Ended(Some(false))
        else if !StillCurrent(s.reg, c) then Ended(Some(Descends(s.reg, c)))
        else Awaiting(op)
      case Join =>
        (match s.start.ops[s.recon.calls[r].phase.task].phase.ending
         case Returned => Confirming
         case Raised => Ended(Some(false))
         case WasCancelled => Ended(None))
      case Confirm => Ended(Some(!s.shut.closing && Descends(s.reg, c)))
      case CancelReconnect => Ended(None)
  }

  function ReconnectStep(s: State, r: Id, a: ReconnectAction): State
    requires ReconnectEnabled(s, r, a)
  {
    var phase := ReconnectPhaseAfter(s, r, a);
    var c := if a.StartReconnect? then a.conn else s.recon.calls[r].conn;
    var locks := if phase.Ended? then s.recon.locks - {c}
                 else if a.StartReconnect? then s.recon.locks[c := r] else s.recon.locks;
    var s1 := s.(recon := Reconnects(s.recon.calls[r := Reconnect(c, phase)], locks));
    if a.Inspect? && phase.WaitingOldTask? then
      s1.(reg := DropSession(s.reg, c))
    else if a.Spawn? && phase.Awaiting? then
      s1.(start := s.start.(ops := s.start.ops[a.op := ConnectOp(s.reg.conns[c].name, Some(c), true, Created)],
                            reconnectTasks := s.start.reconnectTasks + {a.op}))
    else if a.Join? then
      s1.(start := s.start.(reconnectTasks := s.start.reconnectTasks - {s.recon.calls[r].phase.task}))
    else s1
  }

  // ---------- One action of the whole client ----------

  datatype Action =
    | Connecting(op: Id, connect: ConnectAction)
    | Disconnecting(d: Id, disconnect: DisconnectAction)
    | Reconnecting(r: Id, reconnect: ReconnectAction)
    | LoseSession(conn: Id)  // a dispatch saw the transport of a connection break

  predicate Enabled(s: State, a: Action) {
    match a
    case Connecting(op, c) => ConnectEnabled(s, op, c)
    case Disconnecting(d, c) => DisconnectEnabled(s, d, c)
    case Reconnecting(r, c) => ReconnectEnabled(s, r, c)
    case LoseSession(c) => c in s.reg.conns
  }

  function Step(s: State, a: Action): State
    requires Enabled(s, a)
  {
    match a
    case Connecting(op, c) => ConnectStep(s, op, c)
    case Disconnecting(d, c) => DisconnectStep(s, d, c)
    case Reconnecting(r, c) => ReconnectStep(s, r, c)
    case LoseSession(c) => s.(reg := DropSession(s.reg, c))
  }
}

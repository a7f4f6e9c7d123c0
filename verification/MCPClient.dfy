/**
The client object behind the connection machine: its dictionaries, its connection objects with
their flags, its task sets, its counters and its locks. Each method is one block that the
program runs without awaiting. The ghost field `machine` is the state of the connection machine
that the object stands for: a valid object shows exactly what that state says, the state is
reachable, and a block moves it by one action.
*/
module MCPClient {
  import opened Wrappers
  import opened ConnectionMachine
  import opened ConnectionInvariant
  import opened ConnectionSafety

  class ServerConnection {
    const name: Name
    const sessionId: Id
    const generation: nat
    const origin: Option<Id>
    const hasParams: bool
    var connected: bool
    var hasSession: bool

    function Record(): Connection { Connection(name, generation, origin, hasParams) }

    constructor (name: Name, sessionId: Id, generation: nat, origin: Option<Id>, hasParams: bool)
      ensures this.sessionId == sessionId && Record() == Connection(name, generation, origin, hasParams)
      ensures !connected && !hasSession
    {
      this.name, this.sessionId, this.generation := name, sessionId, generation;
      this.origin, this.hasParams := origin, hasParams;
      connected, hasSession := false, false;
    }
  }

  function IdOf(conn: ServerConnection?): Option<Id> {
    if conn == null then None else Some(conn.sessionId)
  }

  lemma RouteOneMore(routing: map<Tool, Name>, name: Name, tools: seq<Tool>, i: nat)
    requires i < |tools|
    ensures Rerouted(routing, name, tools[..i + 1]) == Rerouted(routing, name, tools[..i])[tools[i] := name]
  {
    assert tools[..i + 1] == tools[..i] + [tools[i]];
  }

  /** No tool is listed twice or routed to another server. */
  ghost predicate Fits(tools: seq<Tool>, routing: map<Tool, Name>, name: Name) {
    && (forall i, j :: 0 <= i < j < |tools| ==> tools[i] != tools[j])
    && (forall t :: t in tools && t in routing ==> routing[t] == name)
  }

  lemma ConflictMeans(tools: seq<Tool>, routing: map<Tool, Name>, name: Name)
    ensures Conflicting(tools, routing, name, RoutesOf(routing, name)) <==> !Fits(tools, routing, name)
  {
    if i, j :| 0 <= i < j < |tools| && tools[i] == tools[j] {
      assert tools[j] in tools[..j];
      assert ConflictsAt(tools, j, routing, name, RoutesOf(routing, name));
    } else if t :| t in tools && t in routing && routing[t] != name {
      var i :| 0 <= i < |tools| && tools[i] == t;
      assert ConflictsAt(tools, i, routing, name, RoutesOf(routing, name));
    }
  }

  /** What a server does while a connect awaits it: it is lost before or after its session opened,
      by an error or because the connect was cancelled, or it lists its tools. */
  datatype Answer =
    | Lost(hadSession: bool, cancelled: bool)
    | Listed(tools: seq<Tool>, ownerInvalid: bool)

  ghost function EndingFor(answer: Answer, routing: map<Tool, Name>, name: Name): Ending {
    match answer
    case Lost(_, cancelled) => if cancelled then WasCancelled else Raised
    case Listed(tools, ownerInvalid) => if ownerInvalid || !Fits(tools, routing, name) then Raised else Returned
  }

  /** A connect found exactly the routes of its name, also when nobody held it. */
  lemma FoundRoutes(s: State, op: Id)
    requires Reachable(s) && op in s.start.ops && s.start.ops[op].phase.Starting?
    requires Get(s.reg.servers, s.start.ops[op].name) == s.start.ops[op].phase.previous
    ensures s.start.ops[op].phase.previousRoutes == RoutesOf(s.reg.routing, s.start.ops[op].name)
  {
    ReachableMeansInv(s);
    assert OpPrepared(s.reg, s.start.ops[op]);
  }

  lemma LockReturned(locks: map<Name, Id>, name: Name, op: Id)
    requires name !in locks
    ensures locks[name := op] - {name} == locks
  {
  }

  ghost predicate NoneStarting(u: Startups) {
    forall op :: op in u.ops ==> u.ops[op].phase.Done?
  }

  ghost predicate AllClosed(conns: set<ServerConnection>)
    reads conns
  {
    forall conn :: conn in conns ==> !conn.connected
  }

  class AgentMCPClient {
    var servers: map<Name, ServerConnection>
    var toolRouting: map<Tool, Name>
    var connectionStartupTasks: set<Id>
    var reconnectStartupTasks: set<Id>
    var closing: bool
    var disconnectRequests: nat
    var disconnectGroupCompleted: bool
    // Locks, by who holds them. The lifecycle lock shows only while a sweep awaits under it.
    var startupLocks: map<Name, Id>
    var reconnectLocks: map<Id, Id>
    var disconnectLock: Option<Id>
    var lifecycleLock: Option<Id>
    // Every connection object ever created, by its session id.
    ghost var conns: map<Id, ServerConnection>
    ghost var machine: State

    // ---------- The object and the state it stands for ----------

    ghost function Served(): map<Name, Id>
      reads this`servers
    {
      map n | n in servers :: servers[n].sessionId
    }

    ghost function Records(): map<Id, Connection>
      reads this`conns
    {
      map c | c in conns :: conns[c].Record()
    }

    ghost function Connected(): set<Id>
      reads this`conns, conns.Values`connected
    {
      set c | c in conns && conns[c].connected
    }

    ghost function Sessions(): set<Id>
      reads this`conns, conns.Values`hasSession
    {
      set c | c in conns && conns[c].hasSession
    }

    /** The maps and the connection objects are those of the registry `g`. */
    ghost predicate Holds(g: Registry)
      reads this`servers, this`toolRouting, this`conns, conns.Values
    {
      && g.servers == Served() && g.routing == toolRouting
      && g.conns == Records() && g.connected == Connected() && g.sessions == Sessions()
    }

    ghost predicate HoldsTasks(u: Startups)
      reads this`connectionStartupTasks, this`reconnectStartupTasks, this`startupLocks
    {
      u.tasks == connectionStartupTasks && u.reconnectTasks == reconnectStartupTasks && u.locks == startupLocks
    }

    ghost predicate HoldsFlags(h: Shutdown)
      reads this`closing, this`disconnectRequests, this`disconnectGroupCompleted, this`disconnectLock, this`lifecycleLock
    {
      && h.closing == closing && h.requests == disconnectRequests && h.groupCompleted == disconnectGroupCompleted
      && h.closer == disconnectLock && h.sweeper == lifecycleLock
    }

    /** A connection object of this client: one for each session id. */
    ghost predicate Known(conn: ServerConnection)
      reads this`conns
    {
      conn.sessionId in conns && conns[conn.sessionId] == conn
    }

    ghost predicate Linked()
      reads this`conns, this`servers
    {
      && (forall c :: c in conns ==> conns[c].sessionId == c)
      && (forall n :: n in servers ==> Known(servers[n]))
    }

    ghost predicate Valid()
      reads this, conns.Values
    {
      && Linked() && Holds(machine.reg)
      && HoldsTasks(machine.start) && HoldsFlags(machine.shut) && machine.recon.locks == reconnectLocks
      && Reachable(machine)
    }

    constructor ()
      ensures Valid() && machine == INIT
    {
      servers, toolRouting, connectionStartupTasks, reconnectStartupTasks := map[], map[], {}, {};
      closing, disconnectRequests, disconnectGroupCompleted := false, 0, false;
      startupLocks, reconnectLocks, disconnectLock, lifecycleLock := map[], map[], None, None;
      conns, machine := map[], INIT;
      new;
      InitIsReachable();
    }

    /** One action of a connect, once the object shows what it leads to. */
    ghost method AdvanceConnect(op: Id, a: ConnectAction)
      requires Linked() && Reachable(machine) && ConnectEnabled(machine, op, a)
      requires Holds(ConnectRegistry(machine, op, a)) && HoldsTasks(ConnectStartups(machine, op, a))
      requires HoldsFlags(machine.shut) && machine.recon.locks == reconnectLocks
      modifies this`machine
      ensures machine == ConnectStep(old(machine), op, a) && Valid()
    {
      StepIsReachable(machine, Connecting(op, a));
      machine := ConnectStep(machine, op, a);
    }

    /** The program compares connection objects; the machine compares their session ids. */
    lemma SameObject(name: Name, other: ServerConnection?)
      requires Linked() && (other != null ==> Known(other))
      ensures Get(Served(), name) == IdOf(other) <==>
              (if name in servers then servers[name] == other else other == null)
    {
    }

    // ---------- The registry ----------

    method CloseConnection(ghost g: Registry, conn: ServerConnection)
      requires Linked() && Known(conn) && Holds(g)
      modifies conn`connected
      ensures Holds(MarkClosed(g, conn.sessionId)) && !conn.connected
    {
      conn.connected := false;
      assert Connected() == g.connected - {conn.sessionId};
    }

    method OpenConnection(ghost g: Registry, conn: ServerConnection)
      requires Linked() && Known(conn) && Holds(g)
      modifies conn
      ensures Holds(OpenSession(g, conn.sessionId)) && conn.connected && conn.hasSession
    {
      conn.hasSession, conn.connected := true, true;
      assert Connected() == g.connected + {conn.sessionId};
      assert Sessions() == g.sessions + {conn.sessionId};
    }

    method RemoveName(ghost g: Registry, name: Name)
      requires Linked() && Holds(g)
      modifies this`servers, this`toolRouting
      ensures Linked() && Holds(ClearName(g, name)) && name !in servers
    {
      servers := servers - {name};
      toolRouting := map tool | tool in toolRouting && toolRouting[tool] != name :: toolRouting[tool];
      assert Served() == g.servers - {name};
    }

    /** A connection that will not be used is closed, and its name is cleared when it holds it. */
    method CleanupConnection(ghost g: Registry, name: Name, conn: ServerConnection)
      requires Linked() && Known(conn) && Holds(g)
      modifies this`servers, this`toolRouting, conn`connected
      ensures Linked() && Holds(CleanUp(g, name, conn.sessionId))
      ensures !conn.connected && (name in servers ==> servers[name] != conn)
    {
      SameObject(name, conn);
      var ownsCurrentConnection := name in servers && servers[name] == conn;
      CloseConnection(g, conn);
      if ownsCurrentConnection {
        RemoveName(MarkClosed(g, conn.sessionId), name);
      }
    }

    /** The scan for a tool that is listed twice or belongs to another server. */
    method FindConflict(tools: seq<Tool>, name: Name, previousRoutes: set<Tool>) returns (found: Option<Tool>)
      ensures found.Some? <==> Conflicting(tools, toolRouting, name, previousRoutes)
      ensures found.Some? ==> found.value in tools
    {
      var seen: set<Tool> := {};
      for i := 0 to |tools|
        invariant seen == set t | t in tools[..i]
        invariant forall k :: 0 <= k < i ==> !ConflictsAt(tools, k, toolRouting, name, previousRoutes)
      {
        if tools[i] in seen {
          assert ConflictsAt(tools, i, toolRouting, name, previousRoutes);
          return Some(tools[i]);
        }
        seen := seen + {tools[i]};
        var existing := Get(toolRouting, tools[i]);
        if existing.Some? && !(existing.value == name && tools[i] in previousRoutes) {
          assert ConflictsAt(tools, i, toolRouting, name, previousRoutes);
          return Some(tools[i]);
        }
        assert tools[..i + 1] == tools[..i] + [tools[i]];
      }
      return None;
    }

    /** The route map is rebuilt without the name's old routes, then gains the listed tools. */
    method TakeRoutes(tools: seq<Tool>, name: Name)
      modifies this`toolRouting
      ensures toolRouting == Rerouted(old(toolRouting), name, tools)
    {
      var routing := map tool | tool in toolRouting && toolRouting[tool] != name :: toolRouting[tool];
      for i := 0 to |tools|
        invariant routing == Rerouted(old(toolRouting), name, tools[..i])
      {
        RouteOneMore(old(toolRouting), name, tools, i);
        routing := routing[tools[i] := name];
      }
      assert tools[..|tools|] == tools;
      toolRouting := routing;
    }

    method RetirePrevious(ghost g: Registry, previous: ServerConnection?)
      requires Linked() && (previous != null ==> Known(previous)) && Holds(g)
      modifies previous
      ensures Holds(Retire(g, IdOf(previous)))
    {
      if previous != null {
        CloseConnection(g, previous);
      }
    }

    method Register(ghost g: Registry, name: Name, conn: ServerConnection, tools: seq<Tool>)
      requires Linked() && Known(conn) && Holds(g)
      modifies this`servers, this`toolRouting
      ensures Linked() && servers == old(servers)[name := conn]
      ensures Holds(g.(servers := g.servers[name := conn.sessionId], routing := Rerouted(g.routing, name, tools)))
    {
      servers := servers[name := conn];
      assert Served() == g.servers[name := conn.sessionId];
      TakeRoutes(tools, name);
    }

    /** The predecessor is retired; the new connection takes its place and exactly the listed tools. */
    method InstallConnection(ghost g: Registry, name: Name, conn: ServerConnection, previous: ServerConnection?,
                             tools: seq<Tool>)
      requires Linked() && Known(conn) && (previous != null ==> Known(previous)) && Holds(g)
      modifies this`servers, this`toolRouting, previous
      ensures Linked() && Holds(Install(g, name, conn.sessionId, IdOf(previous), tools))
      ensures servers == old(servers)[name := conn]
    {
      RetirePrevious(g, previous);
      Register(Retire(g, IdOf(previous)), name, conn, tools);
    }

    // ---------- Connects ----------

    /** The first locked block: refused exactly when the client is closing. */
    method BeginConnect(op: Id, name: Name, hasParams: bool) returns (accepted: bool)
      requires Valid() && ConnectEnabled(machine, op, BeginFresh(name, hasParams))
      modifies this`machine, this`connectionStartupTasks
      ensures machine == ConnectStep(old(machine), op, BeginFresh(name, hasParams))
      ensures Valid() && accepted == !closing
    {
      accepted := !closing;
      if accepted {
        connectionStartupTasks := connectionStartupTasks + {op};
      }
      AdvanceConnect(op, BeginFresh(name, hasParams));
    }

    method BeginReconnectTask(op: Id) returns (accepted: bool)
      requires Valid() && ConnectEnabled(machine, op, BeginReconnect)
      modifies this`machine, this`connectionStartupTasks
      ensures machine == ConnectStep(old(machine), op, BeginReconnect)
      ensures Valid() && accepted == !closing
    {
      accepted := !closing;
      if accepted {
        connectionStartupTasks := connectionStartupTasks + {op};
      }
      AdvanceConnect(op, BeginReconnect);
    }

    /** The new connection: its generation, its predecessor and the routes that one had. */
    method CreateConnection(ghost g: Registry, ghost entry: ConnectOp, name: Name, hasParams: bool,
                            origin: Option<Id>, c: Id)
      returns (conn: ServerConnection, previous: ServerConnection?, previousRoutes: set<Tool>)
      requires Linked() && c !in conns && Holds(g)
      requires entry.name == name && entry.hasParams == hasParams && entry.expected == origin
      modifies this`conns
      ensures Linked() && Holds(AddConnection(g, entry, c))
      ensures conns == old(conns)[c := conn] && conn.sessionId == c && fresh(conn)
      ensures (previous != null ==> Known(previous)) && IdOf(previous) == Get(g.servers, name)
      ensures Starting(c, IdOf(previous), previousRoutes) == StartPhase(g, entry, c)
    {
      previous, previousRoutes := null, {};
      var generation := 0;
      if name in servers {
        previous := servers[name];
        generation := previous.generation + 1;
        previousRoutes := set tool | tool in toolRouting && toolRouting[tool] == name;
      }
      conn := new ServerConnection(name, c, generation, origin, hasParams);
      conns := conns[c := conn];
      assert Connected() == g.connected && Sessions() == g.sessions;
      assert Records() == g.conns[c := conn.Record()];
    }

    /** What a suspended connect has in its variables. */
    ghost predicate Remembers(op: Id, name: Name, conn: ServerConnection, previous: ServerConnection?,
                              previousRoutes: set<Tool>)
      reads this`machine, this`conns
    {
      && op in machine.start.ops && machine.start.ops[op].name == name
      && Known(conn) && (previous != null ==> Known(previous))
      && (machine.start.ops[op].phase == Starting(conn.sessionId, IdOf(previous), previousRoutes)
          || machine.start.ops[op].phase == Listing(conn.sessionId, IdOf(previous), previousRoutes))
    }

    /** Under the name's startup lock a fresh connect builds its connection at once. */
    method TakeLock(op: Id, name: Name, hasParams: bool, c: Id)
      returns (conn: ServerConnection, previous: ServerConnection?, previousRoutes: set<Tool>)
      requires Valid() && ConnectEnabled(machine, op, TakeStartupLock(c))
      requires machine.start.ops[op] == ConnectOp(name, None, hasParams, Waiting)
      modifies this`machine, this`conns, this`startupLocks
      ensures machine == ConnectStep(old(machine), op, TakeStartupLock(c))
      ensures Valid() && Remembers(op, name, conn, previous, previousRoutes) && conn.sessionId == c
      ensures conns == old(conns)[c := conn] && fresh(conn)
    {
      conn, previous, previousRoutes :=
        CreateConnection(machine.reg, machine.start.ops[op], name, hasParams, None, c);
      startupLocks := startupLocks[name := op];
      AdvanceConnect(op, TakeStartupLock(c));
    }

    /** A connect that was made to reconnect takes the lock and has yet to look at the registry. */
    method TakeLockToReconnect(op: Id, name: Name, c: Id)
      requires Valid() && ConnectEnabled(machine, op, TakeStartupLock(c))
      requires machine.start.ops[op].name == name && machine.start.ops[op].expected.Some?
      modifies this`machine, this`startupLocks
      ensures machine == ConnectStep(old(machine), op, TakeStartupLock(c)) && Valid()
    {
      startupLocks := startupLocks[name := op];
      AdvanceConnect(op, TakeStartupLock(c));
    }

    /** A reconnect looks at the registry again under the lock: it goes on exactly when the client
        is open and the registry still holds the connection it is to replace. */
    method ReconnectStillWanted(op: Id, name: Name, hasParams: bool, expected: ServerConnection, c: Id)
      returns (conn: ServerConnection?, previous: ServerConnection?, previousRoutes: set<Tool>)
      requires Valid() && ConnectEnabled(machine, op, CheckExpected(c)) && Known(expected)
      requires machine.start.ops[op] == ConnectOp(name, IdOf(expected), hasParams, Checking)
      modifies this`machine, this`conns
      ensures machine == ConnectStep(old(machine), op, CheckExpected(c)) && Valid()
      ensures conn != null <==> !closing && name in servers && servers[name] == expected
      ensures conn != null ==> Remembers(op, name, conn, previous, previousRoutes)
    {
      SameObject(name, expected);
      conn, previous, previousRoutes := null, null, {};
      if !closing && name in servers && servers[name] == expected {
        conn, previous, previousRoutes :=
          CreateConnection(machine.reg, machine.start.ops[op], name, hasParams, IdOf(expected), c);
      }
      AdvanceConnect(op, CheckExpected(c));
    }

    /** The test at the head of both later blocks. */
    predicate TurnedAway(name: Name, previous: ServerConnection?)
      reads this`closing, this`servers
    {
      closing || (if name in servers then servers[name] != previous else previous != null)
    }

    lemma TurnedAwayIsRejected(op: Id, name: Name, conn: ServerConnection, previous: ServerConnection?,
                               previousRoutes: set<Tool>)
      requires Linked() && Holds(machine.reg) && HoldsFlags(machine.shut)
      requires Remembers(op, name, conn, previous, previousRoutes)
      ensures TurnedAway(name, previous) <==> Rejected(machine, machine.start.ops[op])
    {
      SameObject(name, previous);
    }

    /** The second locked block: turned away, or marked connected. */
    method SessionOpened(op: Id, name: Name, conn: ServerConnection, previous: ServerConnection?,
                         previousRoutes: set<Tool>) returns (rejected: bool)
      requires Valid() && ConnectEnabled(machine, op, SessionReady)
      requires Remembers(op, name, conn, previous, previousRoutes)
      modifies this`machine, this`servers, this`toolRouting, conn
      ensures machine == ConnectStep(old(machine), op, SessionReady) && Valid()
      ensures rejected == old(TurnedAway(name, previous))
      ensures !rejected ==> servers == old(servers) && toolRouting == old(toolRouting)
      ensures !rejected ==> conn.connected && conn.hasSession && Remembers(op, name, conn, previous, previousRoutes)
      ensures rejected ==> !conn.connected
    {
      TurnedAwayIsRejected(op, name, conn, previous, previousRoutes);
      rejected := TurnedAway(name, previous);
      if rejected {
        CleanupConnection(machine.reg, name, conn);
      } else {
        OpenConnection(machine.reg, conn);
      }
      AdvanceConnect(op, SessionReady);
    }

    /** What a client that is still open does with the list: nothing but cleaning up when it
        cannot be accepted. */
    method AcceptTools(ghost g: Registry, name: Name, conn: ServerConnection, previous: ServerConnection?,
                       previousRoutes: set<Tool>, tools: seq<Tool>, ownerInvalid: bool) returns (ending: Ending)
      requires Linked() && Known(conn) && (previous != null ==> Known(previous)) && Holds(g)
      modifies this`servers, this`toolRouting, conn, previous
      ensures Linked()
      ensures Holds(if Conflicting(tools, g.routing, name, previousRoutes) then CleanUp(g, name, conn.sessionId)
                    else if ownerInvalid then FailInstall(g, name, conn.sessionId, IdOf(previous))
                    else Install(g, name, conn.sessionId, IdOf(previous), tools))
      ensures ending == if Conflicting(tools, g.routing, name, previousRoutes) || ownerInvalid then Raised else Returned
      ensures ending.Returned? ==> servers == old(servers)[name := conn]
      ensures ending.Returned? && conn != previous ==> unchanged(conn)
    {
      var conflictingTool := FindConflict(tools, name, previousRoutes);
      if conflictingTool.Some? {
        CleanupConnection(g, name, conn);
        return Raised;
      } else if ownerInvalid {
        RetirePrevious(g, previous);
        ghost var retired := Retire(g, IdOf(previous));
        CloseConnection(retired, conn);
        RemoveName(MarkClosed(retired, conn.sessionId), name);
        return Raised;
      }
      InstallConnection(g, name, conn, previous, tools);
      return Returned;
    }

    /** The third locked block, and what follows it when the list cannot be accepted. */
    method ToolsReceived(op: Id, name: Name, conn: ServerConnection, previous: ServerConnection?,
                         previousRoutes: set<Tool>, tools: seq<Tool>, ownerInvalid: bool) returns (ending: Ending)
      requires Valid() && ConnectEnabled(machine, op, ToolsListed(tools, ownerInvalid))
      requires Remembers(op, name, conn, previous, previousRoutes)
      modifies this`machine, this`servers, this`toolRouting, conn, previous
      ensures machine == ConnectStep(old(machine), op, ToolsListed(tools, ownerInvalid)) && Valid()
      ensures machine.start.ops[op].phase == Leaving(ending)
      ensures ending.Returned? ==> servers == old(servers)[name := conn]
      ensures ending.Returned? && conn != previous ==> unchanged(conn)
    {
      TurnedAwayIsRejected(op, name, conn, previous, previousRoutes);
      if TurnedAway(name, previous) {
        CleanupConnection(machine.reg, name, conn);
        ending := WasCancelled;
      } else {
        ending := AcceptTools(machine.reg, name, conn, previous, previousRoutes, tools, ownerInvalid);
      }
      AdvanceConnect(op, ToolsListed(tools, ownerInvalid));
    }

    /** An error or a cancellation: whatever connection was built is cleaned up. */
    method AbortConnect(op: Id, name: Name, conn: ServerConnection?, cancelled: bool)
      requires Valid() && ConnectEnabled(machine, op, Abort(cancelled))
      requires machine.start.ops[op].name == name
      requires if conn == null then !Holding(machine.start.ops[op])
               else Holding(machine.start.ops[op]) && Known(conn) && machine.start.ops[op].phase.conn == conn.sessionId
      modifies this`machine, this`servers, this`toolRouting, conn
      ensures machine == ConnectStep(old(machine), op, Abort(cancelled)) && Valid()
    {
      if conn != null {
        CleanupConnection(machine.reg, name, conn);
      }
      AdvanceConnect(op, Abort(cancelled));
    }

    /** The name's startup lock is given up, and then the task leaves the startup tasks. */
    method ReleaseLock(op: Id, name: Name)
      requires Valid() && ConnectEnabled(machine, op, ReleaseStartupLock) && machine.start.ops[op].name == name
      modifies this`machine, this`startupLocks
      ensures machine == ConnectStep(old(machine), op, ReleaseStartupLock) && Valid()
    {
      startupLocks := startupLocks - {name};
      AdvanceConnect(op, ReleaseStartupLock);
    }

    method EndConnect(op: Id, discarded: bool)
      requires Valid() && ConnectEnabled(machine, op, Finish(discarded))
      modifies this`machine, this`connectionStartupTasks
      ensures machine == ConnectStep(old(machine), op, Finish(discarded)) && Valid()
    {
      if discarded {
        connectionStartupTasks := connectionStartupTasks - {op};
      }
      AdvanceConnect(op, Finish(discarded));
    }

    /** A server that is lost before or after its session opened. */
    method GiveUp(op: Id, name: Name, conn: ServerConnection, previous: ServerConnection?, previousRoutes: set<Tool>,
                  hadSession: bool, cancelled: bool)
      requires Valid() && lifecycleLock == None && !TurnedAway(name, previous)
      requires Remembers(op, name, conn, previous, previousRoutes) && machine.start.ops[op].phase.Starting?
      modifies this`machine, this`servers, this`toolRouting, conn
      ensures Valid()
      ensures op in machine.start.ops && machine.start.ops[op].name == name
      ensures machine.start.ops[op].phase == Leaving(if cancelled then WasCancelled else Raised)
    {
      if hadSession {
        var rejected := SessionOpened(op, name, conn, previous, previousRoutes);
      }
      AbortConnect(op, name, conn, cancelled);
    }

    /** Building the connection under the startup lock, when nothing interrupts it. */
    method ConnectImpl(op: Id, name: Name, conn: ServerConnection, previous: ServerConnection?,
                       previousRoutes: set<Tool>, answer: Answer) returns (ending: Ending)
      requires Valid() && lifecycleLock == None && !TurnedAway(name, previous) && conn != previous
      requires previousRoutes == RoutesOf(toolRouting, name)
      requires answer.Listed? && answer.ownerInvalid ==> answer.tools != []
      requires Remembers(op, name, conn, previous, previousRoutes) && machine.start.ops[op].phase.Starting?
      modifies this`machine, this`servers, this`toolRouting, conn, previous
      ensures Valid()
      ensures op in machine.start.ops && machine.start.ops[op].name == name
      ensures machine.start.ops[op].phase == Leaving(ending)
      ensures ending == EndingFor(answer, old(toolRouting), name)
      ensures ending.Returned? ==> servers == old(servers)[name := conn]
      ensures ending.Returned? ==> toolRouting == Rerouted(old(toolRouting), name, answer.tools)
      ensures ending.Returned? ==> conn.connected && conn.hasSession
    {
      if answer.Lost? {
        GiveUp(op, name, conn, previous, previousRoutes, answer.hadSession, answer.cancelled);
        return if answer.cancelled then WasCancelled else Raised;
      }
      ConflictMeans(answer.tools, toolRouting, name);
      var rejected := SessionOpened(op, name, conn, previous, previousRoutes);
      ending := ToolsReceived(op, name, conn, previous, previousRoutes, answer.tools, answer.ownerInvalid);
    }

    method EnterStartup(op: Id, name: Name, hasParams: bool, c: Id)
      returns (conn: ServerConnection?, previous: ServerConnection?, previousRoutes: set<Tool>)
      requires Valid() && lifecycleLock == None && op !in machine.start.ops && c !in conns && name !in startupLocks
      modifies this`machine, this`conns, this`connectionStartupTasks, this`startupLocks
      ensures Valid() && (conn == null <==> closing)
      ensures conn == null ==> conns == old(conns) && startupLocks == old(startupLocks)
      ensures conn == null ==> connectionStartupTasks == old(connectionStartupTasks)
      ensures conn != null ==> fresh(conn) && !TurnedAway(name, previous) && previous != conn
      ensures conn != null ==> Remembers(op, name, conn, previous, previousRoutes) && machine.start.ops[op].phase.Starting?
      ensures conn != null ==> previousRoutes == RoutesOf(toolRouting, name)
      ensures conn != null ==> startupLocks == old(startupLocks)[name := op]
      ensures conn != null ==> connectionStartupTasks == old(connectionStartupTasks) + {op}
    {
      conn, previous, previousRoutes := null, null, {};
      var accepted := BeginConnect(op, name, hasParams);
      if accepted {
        conn, previous, previousRoutes := TakeLock(op, name, hasParams, c);
        FoundRoutes(machine, op);
      }
    }

    method LeaveStartup(op: Id, name: Name)
      requires Valid() && lifecycleLock == None && op in machine.start.ops
      requires machine.start.ops[op].name == name && machine.start.ops[op].phase.Leaving?
      modifies this`machine, this`connectionStartupTasks, this`startupLocks
      ensures Valid() && startupLocks == old(startupLocks) - {name}
      ensures connectionStartupTasks == old(connectionStartupTasks) - {op}
    {
      ReleaseLock(op, name);
      EndConnect(op, true);
    }

    method ConnectUnderLock(op: Id, name: Name, conn: ServerConnection, previous: ServerConnection?,
                            previousRoutes: set<Tool>, answer: Answer) returns (ending: Ending)
      requires Valid() && lifecycleLock == None && !TurnedAway(name, previous) && conn != previous
      requires previousRoutes == RoutesOf(toolRouting, name)
      requires answer.Listed? && answer.ownerInvalid ==> answer.tools != []
      requires Remembers(op, name, conn, previous, previousRoutes) && machine.start.ops[op].phase.Starting?
      modifies this`machine, this`servers, this`toolRouting, this`connectionStartupTasks, this`startupLocks, conn, previous
      ensures Valid() && startupLocks == old(startupLocks) - {name}
      ensures ending == EndingFor(answer, old(toolRouting), name)
      ensures ending.Returned? ==> servers == old(servers)[name := conn] && conn.connected && conn.hasSession
      ensures ending.Returned? ==> toolRouting == Rerouted(old(toolRouting), name, answer.tools)
    {
      ending := ConnectImpl(op, name, conn, previous, previousRoutes, answer);
      LeaveStartup(op, name);
    }

    /** A fresh connect that nothing interrupts. */
    method Connect(op: Id, name: Name, hasParams: bool, c: Id, answer: Answer) returns (ending: Ending)
      requires Valid() && lifecycleLock == None && op !in machine.start.ops && c !in conns && name !in startupLocks
      requires answer.Listed? && answer.ownerInvalid ==> answer.tools != []
      modifies this`machine, this`conns, this`connectionStartupTasks, this`startupLocks, this`servers, this`toolRouting,
               servers.Values
      ensures Valid()
      ensures startupLocks == old(startupLocks)
      ensures ending == if closing then WasCancelled else EndingFor(answer, old(toolRouting), name)
      ensures ending.Returned? ==> name in servers && servers == old(servers)[name := servers[name]]
      ensures ending.Returned? ==> fresh(servers[name]) && servers[name].connected && servers[name].hasSession
      ensures ending.Returned? ==> toolRouting == Rerouted(old(toolRouting), name, answer.tools)
    {
      var conn, previous, previousRoutes := EnterStartup(op, name, hasParams, c);
      if conn == null {
        return WasCancelled;
      }
      ending := ConnectUnderLock(op, name, conn, previous, previousRoutes, answer);
      LockReturned(old(startupLocks), name, op);
    }

    // ---------- Disconnects ----------

    ghost method AdvanceDisconnect(d: Id, a: DisconnectAction)
      requires Linked() && Reachable(machine) && DisconnectEnabled(machine, d, a)
      requires Holds(DisconnectStep(machine, d, a).reg) && HoldsTasks(DisconnectStep(machine, d, a).start)
      requires HoldsFlags(DisconnectShutdown(machine, d, a)) && machine.recon.locks == reconnectLocks
      modifies this`machine
      ensures machine == DisconnectStep(old(machine), d, a) && Valid()
    {
      StepIsReachable(machine, Disconnecting(d, a));
      machine := DisconnectStep(machine, d, a);
    }

    method RequestDisconnect(d: Id)
      requires Valid() && DisconnectEnabled(machine, d, Request)
      modifies this`machine, this`closing, this`disconnectRequests, this`disconnectGroupCompleted
      ensures machine == DisconnectStep(old(machine), d, Request) && Valid()
    {
      if disconnectRequests == 0 {
        disconnectGroupCompleted := false;
      }
      disconnectRequests := disconnectRequests + 1;
      closing := true;
      AdvanceDisconnect(d, Request);
    }

    method EnterDisconnect(d: Id)
      requires Valid() && DisconnectEnabled(machine, d, Enter)
      modifies this`machine, this`disconnectLock
      ensures machine == DisconnectStep(old(machine), d, Enter) && Valid()
    {
      disconnectLock := Some(d);
      AdvanceDisconnect(d, Enter);
    }

    /** The startup tasks that a disconnect cancels and awaits. */
    method SnapshotTasks(d: Id) returns (startupTasks: set<Id>)
      requires Valid() && DisconnectEnabled(machine, d, Snapshot)
      modifies this`machine, this`closing
      ensures machine == DisconnectStep(old(machine), d, Snapshot) && Valid()
      ensures machine.shut.discs[d] == Draining(startupTasks)
    {
      closing := true;
      startupTasks := reconnectStartupTasks + connectionStartupTasks;
      AdvanceDisconnect(d, Snapshot);
    }

    method StartSweep(d: Id, startupTasks: set<Id>)
      requires Valid() && DisconnectEnabled(machine, d, BeginSweep) && machine.shut.discs[d] == Draining(startupTasks)
      modifies this`machine, this`lifecycleLock, this`connectionStartupTasks, this`reconnectStartupTasks
      ensures machine == DisconnectStep(old(machine), d, BeginSweep) && Valid()
    {
      lifecycleLock := Some(d);
      reconnectStartupTasks := reconnectStartupTasks - startupTasks;
      connectionStartupTasks := connectionStartupTasks - startupTasks;
      AdvanceDisconnect(d, BeginSweep);
    }

    method CloseServer(d: Id, name: Name)
      requires Valid() && DisconnectEnabled(machine, d, SweepConnection(name)) && name in servers
      modifies this`machine, servers[name]
      ensures machine == old(machine).(reg := MarkClosed(old(machine).reg, servers[name].sessionId)) && Valid()
      ensures !servers[name].connected
    {
      CloseConnection(machine.reg, servers[name]);
      AdvanceDisconnect(d, SweepConnection(name));
    }

    /** A disconnect that fails or is cancelled counts as not completed and gives its locks up. */
    method EscapeDisconnect(d: Id)
      requires Valid() && DisconnectEnabled(machine, d, Escape)
      modifies this`machine, this`disconnectLock, this`lifecycleLock
      ensures machine == DisconnectStep(old(machine), d, Escape) && Valid()
    {
      if disconnectLock == Some(d) {
        disconnectLock := None;
      }
      if lifecycleLock == Some(d) {
        lifecycleLock := None;
      }
      AdvanceDisconnect(d, Escape);
    }

    /** The sweep closes every registered connection, one after the other. */
    method CloseServers(d: Id)
      requires Valid() && d in machine.shut.discs && machine.shut.discs[d].Sweeping?
      modifies this`machine, servers.Values
      ensures Valid() && machine.shut == old(machine.shut)
      ensures AllClosed(servers.Values)
    {
      var left := servers.Keys;
      while left != {}
        invariant Valid() && left <= servers.Keys && machine.shut == old(machine.shut)
        invariant forall n :: n in servers && n !in left ==> !servers[n].connected
      {
        var name :| name in left;
        CloseServer(d, name);
        left := left - {name};
      }
    }

    method EmptyMaps(ghost g: Registry)
      requires Linked() && Holds(g)
      modifies this`servers, this`toolRouting
      ensures Linked() && Holds(g.(servers := map[], routing := map[], holders := map[]))
      ensures servers == map[] && toolRouting == map[]
    {
      servers, toolRouting := map[], map[];
    }

    method ClearAll(d: Id, completed: bool)
      requires Valid() && DisconnectEnabled(machine, d, ClearRegistry(completed))
      modifies this`machine, this`servers, this`toolRouting, this`disconnectLock, this`lifecycleLock
      ensures machine == DisconnectStep(old(machine), d, ClearRegistry(completed)) && Valid()
      ensures servers == map[] && toolRouting == map[]
    {
      EmptyMaps(machine.reg);
      disconnectLock, lifecycleLock := None, None;
      AdvanceDisconnect(d, ClearRegistry(completed));
    }

    method CountDown(ghost h: Shutdown, ghost d: Id, completed: bool)
      requires HoldsFlags(h) && d in h.discs && h.discs[d] == Returning(completed) && disconnectRequests > 0
      modifies this`closing, this`disconnectRequests, this`disconnectGroupCompleted
      ensures HoldsFlags(EndRequest(h, d)) && disconnectRequests == old(disconnectRequests) - 1
      ensures closing <==> old(closing) && (old(disconnectRequests) > 1 || !(completed || old(disconnectGroupCompleted)))
    {
      if completed {
        disconnectGroupCompleted := true;
      }
      disconnectRequests := disconnectRequests - 1;
      if disconnectRequests == 0 {
        if disconnectGroupCompleted {
          closing := false;
        }
        disconnectGroupCompleted := false;
      }
    }

    /** The client opens again with the last disconnect of a group of which one was completed. */
    method FinishDisconnect(d: Id, completed: bool)
      requires Valid() && lifecycleLock == None && disconnectRequests > 0
      requires d in machine.shut.discs && machine.shut.discs[d] == Returning(completed)
      modifies this`machine, this`closing, this`disconnectRequests, this`disconnectGroupCompleted
      ensures machine == old(machine).(shut := EndRequest(old(machine).shut, d)) && Valid()
      ensures disconnectRequests == old(disconnectRequests) - 1
      ensures closing <==> old(closing) && (old(disconnectRequests) > 1 || !(completed || old(disconnectGroupCompleted)))
    {
      CountDown(machine.shut, d, completed);
      AdvanceDisconnect(d, FinishRequest);
    }

    /** Every startup task has ended when the disconnect awaits it. */
    method AwaitStartups(d: Id)
      requires Valid() && d in machine.shut.discs && machine.shut.discs[d].Entered? && lifecycleLock == None
      requires NoneStarting(machine.start)
      modifies this`machine, this`closing, this`connectionStartupTasks, this`reconnectStartupTasks, this`lifecycleLock
      ensures Valid() && d in machine.shut.discs && machine.shut.discs[d].Sweeping? && closing
    {
      var startupTasks := SnapshotTasks(d);
      StartSweep(d, startupTasks);
    }

    /** Cleaning up, when the startup tasks have ended and nothing interrupts it. */
    method DisconnectImpl(d: Id, completed: bool)
      requires Valid() && d in machine.shut.discs && machine.shut.discs[d].Entered? && lifecycleLock == None
      requires NoneStarting(machine.start)
      modifies this`machine, this`servers, this`toolRouting, this`closing, this`connectionStartupTasks,
               this`reconnectStartupTasks, this`disconnectLock, this`lifecycleLock, servers.Values
      ensures Valid() && servers == map[] && toolRouting == map[] && closing && lifecycleLock == None
      ensures AllClosed(old(servers.Values))
      ensures d in machine.shut.discs && machine.shut.discs[d] == Returning(completed)
    {
      AwaitStartups(d);
      CloseServers(d);
      ClearAll(d, completed);
    }

    /** The request is counted, and the disconnect lock is free. */
    method BeginDisconnect(d: Id)
      requires Valid() && d !in machine.shut.discs && lifecycleLock == None && disconnectLock == None
      modifies this`machine, this`closing, this`disconnectRequests, this`disconnectGroupCompleted, this`disconnectLock
      ensures Valid() && machine.start == old(machine.start)
      ensures d in machine.shut.discs && machine.shut.discs[d].Entered?
      ensures disconnectRequests == old(disconnectRequests) + 1
      ensures disconnectGroupCompleted ==> old(disconnectRequests) > 0
    {
      RequestDisconnect(d);
      EnterDisconnect(d);
    }

    /** A disconnect that nothing interrupts: it leaves both maps empty and every connection closed,
        and the client is open again exactly when it was completed and the only one. */
    method Disconnect(d: Id, completed: bool)
      requires Valid() && d !in machine.shut.discs && lifecycleLock == None && disconnectLock == None
      requires NoneStarting(machine.start)
      modifies this`machine, this`servers, this`toolRouting, this`closing, this`disconnectRequests,
               this`disconnectGroupCompleted, this`connectionStartupTasks, this`reconnectStartupTasks,
               this`disconnectLock, this`lifecycleLock, servers.Values
      ensures Valid() && servers == map[] && toolRouting == map[]
      ensures AllClosed(old(servers.Values))
      ensures disconnectRequests == old(disconnectRequests)
      ensures closing <==> old(disconnectRequests) > 0 || !completed
    {
      BeginDisconnect(d);
      DisconnectImpl(d, completed);
      FinishDisconnect(d, completed);
    }

    // ---------- Reconnects ----------

    ghost method AdvanceReconnect(r: Id, a: ReconnectAction)
      requires Linked() && Reachable(machine) && ReconnectEnabled(machine, r, a)
      requires Holds(ReconnectStep(machine, r, a).reg) && HoldsTasks(ReconnectStep(machine, r, a).start)
      requires HoldsFlags(machine.shut) && ReconnectStep(machine, r, a).recon.locks == reconnectLocks
      modifies this`machine
      ensures machine == ReconnectStep(old(machine), r, a) && Valid()
    {
      StepIsReachable(machine, Reconnecting(r, a));
      machine := ReconnectStep(machine, r, a);
    }

    /** The caller `r` tries to re-establish the broken connection `conn`. */
    ghost predicate Reconnects(r: Id, conn: ServerConnection)
      reads this`machine, this`conns
    {
      Known(conn) && r in machine.recon.calls && machine.recon.calls[r].conn == conn.sessionId
    }

    /** Whether the live connection of the name was built to replace `conn` and is usable. */
    predicate Replaced(conn: ServerConnection)
      reads this`servers, servers.Values
    {
      && conn.name in servers
      && var current := servers[conn.name];
         current.origin == Some(conn.sessionId) && current.connected && current.hasSession
    }

    lemma ReplacedMeansDescends(g: Registry, conn: ServerConnection)
      requires Linked() && Known(conn) && Holds(g)
      ensures Replaced(conn) <==> Descends(g, conn.sessionId)
      ensures conn.name in servers && servers[conn.name] == conn <==> StillCurrent(g, conn.sessionId)
    {
      SameObject(conn.name, conn);
    }

    method EnterReconnect(r: Id, conn: ServerConnection)
      requires Valid() && Known(conn) && ReconnectEnabled(machine, r, StartReconnect(conn.sessionId))
      modifies this`machine, this`reconnectLocks
      ensures machine == ReconnectStep(old(machine), r, StartReconnect(conn.sessionId)) && Valid()
    {
      reconnectLocks := reconnectLocks[conn.sessionId := r];
      AdvanceReconnect(r, StartReconnect(conn.sessionId));
    }

    method DropSessionOf(ghost g: Registry, conn: ServerConnection)
      requires Linked() && Known(conn) && Holds(g)
      modifies conn
      ensures Holds(DropSession(g, conn.sessionId))
    {
      conn.connected, conn.hasSession := false, false;
      assert Connected() == g.connected - {conn.sessionId};
      assert Sessions() == g.sessions - {conn.sessionId};
    }

    /** The first block answers at once, or drops the session and goes on. */
    method InspectFailed(r: Id, conn: ServerConnection) returns (answer: Option<bool>)
      requires Valid() && Reconnects(r, conn) && ReconnectEnabled(machine, r, Inspect)
      modifies this`machine, this`reconnectLocks, conn
      ensures machine == ReconnectStep(old(machine), r, Inspect) && Valid()
      ensures machine.recon.calls[r].phase == if answer.Some? then Ended(answer) else WaitingOldTask
    {
      ReplacedMeansDescends(machine.reg, conn);
      answer := None;
      if closing {
        answer := Some(false);
      } else if conn.name !in servers || servers[conn.name] != conn {
        answer := Some(Replaced(conn));
      } else if !conn.hasParams {
        answer := Some(false);
      } else {
        DropSessionOf(machine.reg, conn);
      }
      if answer.Some? {
        reconnectLocks := reconnectLocks - {conn.sessionId};
      }
      AdvanceReconnect(r, Inspect);
    }

    /** The old task has ended; the block looks again before it creates the connect task. */
    method SpawnConnect(r: Id, conn: ServerConnection, task: Id) returns (answer: Option<bool>)
      requires Valid() && Reconnects(r, conn) && ReconnectEnabled(machine, r, Spawn(task))
      modifies this`machine, this`reconnectLocks, this`reconnectStartupTasks
      ensures machine == ReconnectStep(old(machine), r, Spawn(task)) && Valid()
      ensures machine.recon.calls[r].phase == if answer.Some? then Ended(answer) else Awaiting(task)
    {
      ReplacedMeansDescends(machine.reg, conn);
      answer := None;
      if closing {
        answer := Some(false);
      } else if conn.name !in servers || servers[conn.name] != conn {
        answer := Some(Replaced(conn));
      } else {
        reconnectStartupTasks := reconnectStartupTasks + {task};
      }
      if answer.Some? {
        reconnectLocks := reconnectLocks - {conn.sessionId};
      }
      AdvanceReconnect(r, Spawn(task));
    }

    /** The connect task has ended, one way or another, and is forgotten; only a return goes on. */
    method JoinConnect(r: Id, conn: ServerConnection, task: Id, ending: Ending)
      requires Valid() && Reconnects(r, conn) && ReconnectEnabled(machine, r, Join)
      requires machine.recon.calls[r].phase == Awaiting(task) && machine.start.ops[task].phase == Done(ending)
      modifies this`machine, this`reconnectLocks, this`reconnectStartupTasks
      ensures machine == ReconnectStep(old(machine), r, Join) && Valid()
    {
      reconnectStartupTasks := reconnectStartupTasks - {task};
      if !ending.Returned? {
        reconnectLocks := reconnectLocks - {conn.sessionId};
      }
      AdvanceReconnect(r, Join);
    }

    /** The last block answers True exactly for an open client whose live connection replaced `conn`. */
    method ConfirmReconnect(r: Id, conn: ServerConnection) returns (answer: bool)
      requires Valid() && Reconnects(r, conn) && ReconnectEnabled(machine, r, Confirm)
      modifies this`machine, this`reconnectLocks
      ensures machine == ReconnectStep(old(machine), r, Confirm) && Valid()
      ensures answer <==> !closing && Replaced(conn)
      ensures machine.recon.calls[r].phase == Ended(Some(answer))
    {
      ReplacedMeansDescends(machine.reg, conn);
      answer := !closing && Replaced(conn);
      reconnectLocks := reconnectLocks - {conn.sessionId};
      AdvanceReconnect(r, Confirm);
    }

    method AbandonReconnect(r: Id, conn: ServerConnection)
      requires Valid() && Reconnects(r, conn) && ReconnectEnabled(machine, r, CancelReconnect)
      modifies this`machine, this`reconnectLocks
      ensures machine == ReconnectStep(old(machine), r, CancelReconnect) && Valid()
    {
      reconnectLocks := reconnectLocks - {conn.sessionId};
      AdvanceReconnect(r, CancelReconnect);
    }

    /** A dispatch saw the transport of `conn` break. */
    method DropBrokenSession(conn: ServerConnection)
      requires Valid() && Known(conn)
      modifies this`machine, conn
      ensures machine == Step(old(machine), LoseSession(conn.sessionId)) && Valid()
    {
      DropSessionOf(machine.reg, conn);
      StepIsReachable(machine, LoseSession(conn.sessionId));
      machine := Step(machine, LoseSession(conn.sessionId));
    }
  }
}

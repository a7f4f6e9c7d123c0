/** What every action of the connection machine keeps. */
module ConnectionInvariant {
  import opened Wrappers
  import opened ConnectionMachine

  // ---------- The registry by itself ----------

  /** Each routed tool points at a server that is in the registry. */
  ghost predicate RoutesServed(g: Registry) {
    forall t :: t in g.routing ==> g.routing[t] in g.servers
  }

  ghost predicate ServersKnown(g: Registry) {
    forall n :: n in g.servers ==>
      && g.servers[n] in g.conns && g.servers[n] in g.installed
      && g.conns[g.servers[n]].name == n
  }

  ghost predicate LineCounts(g: Registry, n: Name, line: seq<Id>) {
    && |line| > 0
    && n in g.servers && line[|line| - 1] == g.servers[n]
    && forall i :: 0 <= i < |line| ==> line[i] in g.conns && g.conns[line[i]].generation == i
  }

  /** Since a name was last cleared, its holders carry generations 0, 1, 2, ... without a gap. */
  ghost predicate LinesCount(g: Registry) {
    && g.holders.Keys == g.servers.Keys
    && forall n :: n in g.holders ==> LineCounts(g, n, g.holders[n])
  }

  /** A connection that a registered one was built to replace is out of the registry for good. */
  ghost predicate Displaced(g: Registry) {
    && g.installed <= g.conns.Keys
    && forall a {:trigger g.conns[a].origin} :: a in g.installed && g.conns[a].origin.Some? ==>
         && g.conns[a].origin.value in g.installed
         && forall n :: n in g.servers ==> g.servers[n] != g.conns[a].origin.value
  }

  ghost predicate ReplacedOnce(g: Registry)
    requires g.installed <= g.conns.Keys
  {
    forall a, b {:trigger g.conns[a].origin, g.conns[b].origin} ::
      (&& a in g.installed && b in g.installed
       && g.conns[a].origin.Some? && g.conns[a].origin == g.conns[b].origin) ==> a == b
  }

  ghost predicate RegistryOk(g: Registry) {
    RoutesServed(g) && ServersKnown(g) && LinesCount(g) && Displaced(g) && ReplacedOnce(g)
  }

  /** Connections are never forgotten, and what identifies one never changes. */
  ghost predicate Keeps(g: Registry, g': Registry) {
    && g.installed <= g'.installed
    && forall c :: c in g.conns ==>
         && c in g'.conns
         && g'.conns[c].name == g.conns[c].name
         && g'.conns[c].generation == g.conns[c].generation
         && g'.conns[c].origin == g.conns[c].origin
  }

  /** A name whose holder is the same before and after kept its routes. */
  ghost predicate RoutesFollowHolder(g: Registry, g': Registry) {
    forall n :: Get(g'.servers, n) == Get(g.servers, n) ==> RoutesOf(g'.routing, n) == RoutesOf(g.routing, n)
  }

  /** A name that changed hands is either free now or held by a connection never registered before. */
  ghost predicate HoldersAreNew(g: Registry, g': Registry) {
    forall n :: n in g'.servers && Get(g.servers, n) != Some(g'.servers[n]) ==> g'.servers[n] !in g.installed
  }

  ghost predicate RegistryMove(g: Registry, g': Registry) {
    RegistryOk(g') && Keeps(g, g') && RoutesFollowHolder(g, g') && HoldersAreNew(g, g')
  }

  lemma FlagsMove(g: Registry, connected: set<Id>, sessions: set<Id>)
    requires RegistryOk(g)
    ensures RegistryMove(g, g.(connected := connected, sessions := sessions))
  {
  }

  lemma ClearNameMoves(g: Registry, name: Name)
    requires RegistryOk(g)
    ensures RegistryMove(g, ClearName(g, name))
  {
    var g' := ClearName(g, name);
    forall n | Get(g'.servers, n) == Get(g.servers, n)
      ensures RoutesOf(g'.routing, n) == RoutesOf(g.routing, n)
    {
      if n == name {
        assert name !in g.servers;
        assert RoutesOf(g.routing, n) == {} && RoutesOf(g'.routing, n) == {};
      } else {
        assert forall t :: t in RoutesOf(g'.routing, n) <==> t in RoutesOf(g.routing, n);
      }
    }
  }

  lemma CleanUpMoves(g: Registry, name: Name, c: Id)
    requires RegistryOk(g)
    ensures RegistryMove(g, CleanUp(g, name, c))
  {
    FlagsMove(g, g.connected - {c}, g.sessions);
    ClearNameMoves(MarkClosed(g, c), name);
  }

  lemma RetireMoves(g: Registry, previous: Option<Id>)
    requires RegistryOk(g)
    ensures RegistryMove(g, Retire(g, previous))
    ensures Retire(g, previous).servers == g.servers && Retire(g, previous).routing == g.routing
    ensures Retire(g, previous).holders == g.holders && Retire(g, previous).installed == g.installed
    ensures Retire(g, previous).conns.Keys == g.conns.Keys
  {
    if previous.Some? {
      FlagsMove(g, g.connected - {previous.value}, g.sessions);
    }
  }

  lemma FailInstallMoves(g: Registry, name: Name, c: Id, previous: Option<Id>)
    requires RegistryOk(g)
    ensures RegistryMove(g, FailInstall(g, name, c, previous))
  {
    var g1 := Retire(g, previous);
    RetireMoves(g, previous);
    FlagsMove(g1, g1.connected - {c}, g1.sessions);
    ClearNameMoves(MarkClosed(g1, c), name);
  }

  lemma AddConnectionMoves(g: Registry, op: ConnectOp, c: Id)
    requires RegistryOk(g) && c !in g.conns
    ensures RegistryMove(g, AddConnection(g, op, c))
  {
  }

  lemma ClearAllMoves(g: Registry)
    requires RegistryOk(g)
    ensures RegistryMove(g, g.(servers := map[], routing := map[], holders := map[]))
  {
    var g' := g.(servers := map[], routing := map[], holders := map[]);
    forall n | Get(g'.servers, n) == Get(g.servers, n)
      ensures RoutesOf(g'.routing, n) == RoutesOf(g.routing, n)
    {
      assert RoutesOf(g.routing, n) == {} && RoutesOf(g'.routing, n) == {};
    }
  }

  /** What a connect knows about the connection it built. */
  ghost predicate Prepared(g: Registry, name: Name, expected: Option<Id>, c: Id, previous: Option<Id>,
                           previousRoutes: set<Tool>) {
    && c in g.conns && c !in g.installed
    && g.conns[c].name == name && g.conns[c].origin == expected
    && (expected.Some? ==> previous == expected)
    && (previous.None? ==> previousRoutes == {})
    && (previous.Some? ==> previous.value in g.installed && previous.value in g.conns
                           && g.conns[previous.value].name == name)
    && g.conns[c].generation == Generation(g, previous)
    && (Get(g.servers, name) == previous ==> previousRoutes == RoutesOf(g.routing, name))
  }

  /** Exactly the listed tools are routed to `name` afterwards, and no other name's routes change. */
  lemma ReroutedExactly(routing: map<Tool, Name>, name: Name, tools: seq<Tool>, previousRoutes: set<Tool>)
    requires !Conflicting(tools, routing, name, previousRoutes)
    ensures RoutesOf(Rerouted(routing, name, tools), name) == set t | t in tools
    ensures forall n :: n != name ==> RoutesOf(Rerouted(routing, name, tools), n) == RoutesOf(routing, n)
  {
    forall i | 0 <= i < |tools| && tools[i] in routing
      ensures routing[tools[i]] == name
    {
      assert !ConflictsAt(tools, i, routing, name, previousRoutes);
    }
    forall n | n != name
      ensures RoutesOf(Rerouted(routing, name, tools), n) == RoutesOf(routing, n)
    {
      assert forall t :: t in routing && routing[t] == n ==> t !in tools;
    }
  }

  lemma InstallKeepsRoutes(g: Registry, name: Name, c: Id, previous: Option<Id>, tools: seq<Tool>,
                           previousRoutes: set<Tool>)
    requires RegistryOk(g) && c in g.conns && c !in g.installed
    requires !Conflicting(tools, g.routing, name, previousRoutes)
    ensures RoutesServed(Install(g, name, c, previous, tools))
    ensures RoutesFollowHolder(g, Install(g, name, c, previous, tools))
  {
    ReroutedExactly(g.routing, name, tools, previousRoutes);
  }

  lemma InstallKeepsLines(g: Registry, name: Name, c: Id, previous: Option<Id>, tools: seq<Tool>)
    requires RegistryOk(g) && c in g.conns
    requires Get(g.servers, name) == previous && g.conns[c].generation == Generation(g, previous)
    ensures LinesCount(Install(g, name, c, previous, tools))
  {
    var g' := Install(g, name, c, previous, tools);
    forall n | n in g'.holders
      ensures LineCounts(g', n, g'.holders[n])
    {
      if n in g.holders {
        assert LineCounts(g, n, g.holders[n]);
      }
    }
  }

  lemma InstallDisplaces(g: Registry, name: Name, c: Id, previous: Option<Id>, tools: seq<Tool>)
    requires RegistryOk(g) && c in g.conns && c !in g.installed
    requires g.conns[c].origin.Some? ==> previous == g.conns[c].origin
    requires Get(g.servers, name) == previous
    ensures Displaced(Install(g, name, c, previous, tools))
    ensures ReplacedOnce(Install(g, name, c, previous, tools))
  {
    var g' := Install(g, name, c, previous, tools);
    if previous.Some? {
      assert g.servers[name] == previous.value;
      forall n | n in g'.servers
        ensures g'.servers[n] != previous.value
      {
        assert g'.servers[n] == if n == name then c else g.servers[n];
        assert n != name ==> g.conns[g.servers[n]].name == n;
      }
    }
  }

  lemma InstallMoves(g: Registry, name: Name, c: Id, previous: Option<Id>, tools: seq<Tool>,
                     expected: Option<Id>, previousRoutes: set<Tool>)
    requires RegistryOk(g) && Prepared(g, name, expected, c, previous, previousRoutes)
    requires Get(g.servers, name) == previous
    requires !Conflicting(tools, g.routing, name, previousRoutes)
    ensures RegistryMove(g, Install(g, name, c, previous, tools))
  {
    InstallKeepsRoutes(g, name, c, previous, tools, previousRoutes);
    InstallKeepsLines(g, name, c, previous, tools);
    InstallDisplaces(g, name, c, previous, tools);
    assert ServersKnown(Install(g, name, c, previous, tools));
  }

  lemma PreparedSurvives(g: Registry, g': Registry, name: Name, expected: Option<Id>, c: Id,
                         previous: Option<Id>, previousRoutes: set<Tool>)
    requires RegistryOk(g) && RegistryMove(g, g')
    requires Prepared(g, name, expected, c, previous, previousRoutes) && c !in g'.installed
    ensures Prepared(g', name, expected, c, previous, previousRoutes)
  {
    if Get(g'.servers, name) == previous {
      if previous.None? {
        assert RoutesOf(g'.routing, name) == {};
      } else {
        assert Get(g.servers, name) == previous;
      }
    }
  }

  // ---------- The connects ----------

  predicate Holding(op: ConnectOp) { op.phase.Starting? || op.phase.Listing? }

  /** Connects that may still put a connection into the registry. */
  predicate Active(op: ConnectOp) {
    op.phase.Waiting? || op.phase.Checking? || Holding(op)
  }

  ghost predicate OpPrepared(g: Registry, op: ConnectOp) {
    Holding(op) ==> Prepared(g, op.name, op.expected, op.phase.conn, op.phase.previous, op.phase.previousRoutes)
  }

  ghost predicate OpsOk(g: Registry, ops: map<Id, ConnectOp>) {
    && (forall i :: i in ops ==> OpPrepared(g, ops[i]))
    && (forall i, j :: i in ops && j in ops && i != j && Holding(ops[i]) && Holding(ops[j])
          ==> ops[i].phase.conn != ops[j].phase.conn)
  }

  lemma OpSurvives(g: Registry, g': Registry, ops: map<Id, ConnectOp>, i: Id)
    requires RegistryOk(g) && RegistryMove(g, g') && OpsOk(g, ops) && i in ops
    requires Holding(ops[i]) ==> ops[i].phase.conn !in g'.installed
    ensures OpPrepared(g', ops[i])
  {
    var o := ops[i];
    if Holding(o) {
      PreparedSurvives(g, g', o.name, o.expected, o.phase.conn, o.phase.previous, o.phase.previousRoutes);
    }
  }

  lemma OpsSurvive(g: Registry, g': Registry, ops: map<Id, ConnectOp>, k: Id, op: ConnectOp)
    requires OpsOk(g, ops) && OpPrepared(g', op)
    requires forall i :: i in ops && i != k ==> OpPrepared(g', ops[i])
    requires forall i :: i in ops && i != k && Holding(ops[i]) && Holding(op) ==> op.phase.conn != ops[i].phase.conn
    ensures OpsOk(g', ops[k := op])
  {
  }

  lemma OpsSurviveUnchanged(g: Registry, g': Registry, ops: map<Id, ConnectOp>)
    requires RegistryOk(g) && RegistryMove(g, g') && OpsOk(g, ops)
    requires g'.installed == g.installed
    ensures OpsOk(g', ops)
  {
    forall i | i in ops && Holding(ops[i])
      ensures OpPrepared(g', ops[i])
    {
      var o := ops[i];
      PreparedSurvives(g, g', o.name, o.expected, o.phase.conn, o.phase.previous, o.phase.previousRoutes);
    }
  }

  lemma ToolsListedMoves(s: State, op: Id, tools: seq<Tool>, ownerInvalid: bool)
    requires RegistryOk(s.reg) && OpsOk(s.reg, s.start.ops)
    requires ConnectEnabled(s, op, ToolsListed(tools, ownerInvalid))
    ensures RegistryMove(s.reg, ConnectRegistry(s, op, ToolsListed(tools, ownerInvalid)))
  {
    var o := s.start.ops[op];
    assert OpPrepared(s.reg, o);
    if Rejected(s, o) || ListConflicts(s.reg, o, tools) {
      CleanUpMoves(s.reg, o.name, o.phase.conn);
    } else if ownerInvalid {
      FailInstallMoves(s.reg, o.name, o.phase.conn, o.phase.previous);
    } else {
      InstallMoves(s.reg, o.name, o.phase.conn, o.phase.previous, tools, o.expected, o.phase.previousRoutes);
    }
  }

  lemma ConnectMovesRegistry(s: State, op: Id, a: ConnectAction)
    requires RegistryOk(s.reg) && OpsOk(s.reg, s.start.ops) && ConnectEnabled(s, op, a)
    ensures RegistryMove(s.reg, ConnectRegistry(s, op, a))
  {
    FlagsMove(s.reg, s.reg.connected, s.reg.sessions);
    if !a.BeginFresh? {
      var o := s.start.ops[op];
      match a
      case TakeStartupLock(c) => AddConnectionMoves(s.reg, o, c);
      case CheckExpected(c) => AddConnectionMoves(s.reg, o, c);
      case SessionReady =>
        CleanUpMoves(s.reg, o.name, o.phase.conn);
        FlagsMove(s.reg, s.reg.connected + {o.phase.conn}, s.reg.sessions + {o.phase.conn});
      case ToolsListed(tools, ownerInvalid) => ToolsListedMoves(s, op, tools, ownerInvalid);
      case Abort(_) =>
        if Holding(o) {
          CleanUpMoves(s.reg, o.name, o.phase.conn);
        }
      case _ =>
    }
  }

  /** The registry gains a connection only by `Installs`. */
  lemma OnlyInstallsRegister(s: State, op: Id, a: ConnectAction)
    requires ConnectEnabled(s, op, a)
    ensures ConnectRegistry(s, op, a).installed ==
            if Installs(s, op, a) then s.reg.installed + {s.start.ops[op].phase.conn} else s.reg.installed
  {
  }

  lemma NextPhasePrepared(s: State, op: Id, a: ConnectAction)
    requires RegistryOk(s.reg) && OpsOk(s.reg, s.start.ops) && ConnectEnabled(s, op, a) && !a.BeginFresh?
    ensures OpPrepared(ConnectRegistry(s, op, a), s.start.ops[op].(phase := NextPhase(s, op, a)))
  {
    var o := s.start.ops[op];
    assert OpPrepared(s.reg, o);
    match a
    case TakeStartupLock(c) =>
    case CheckExpected(c) =>
    case SessionReady =>
    case _ =>
  }

  /** A connect holds no connection that another connect holds or that was ever registered. */
  lemma NextPhaseDistinct(s: State, op: Id, a: ConnectAction, i: Id)
    requires OpsOk(s.reg, s.start.ops) && ConnectEnabled(s, op, a) && !a.BeginFresh?
    requires i in s.start.ops && i != op && Holding(s.start.ops[i])
    ensures s.start.ops[i].phase.conn !in ConnectRegistry(s, op, a).installed
    ensures var next := NextPhase(s, op, a);
      next.Starting? || next.Listing? ==> next.conn != s.start.ops[i].phase.conn
  {
    OnlyInstallsRegister(s, op, a);
    assert OpPrepared(s.reg, s.start.ops[i]);
  }

  lemma ConnectKeepsOps(s: State, op: Id, a: ConnectAction)
    requires RegistryOk(s.reg) && OpsOk(s.reg, s.start.ops) && ConnectEnabled(s, op, a)
    ensures OpsOk(ConnectRegistry(s, op, a), ConnectStartups(s, op, a).ops)
  {
    var g' := ConnectRegistry(s, op, a);
    ConnectMovesRegistry(s, op, a);
    if a.BeginFresh? {
      OnlyInstallsRegister(s, op, a);
      OpsSurviveUnchanged(s.reg, g', s.start.ops);
    } else {
      var o' := s.start.ops[op].(phase := NextPhase(s, op, a));
      NextPhasePrepared(s, op, a);
      forall i | i in s.start.ops && i != op && Holding(s.start.ops[i])
        ensures s.start.ops[i].phase.conn !in g'.installed
        ensures Holding(o') ==> o'.phase.conn != s.start.ops[i].phase.conn
      {
        NextPhaseDistinct(s, op, a, i);
      }
      forall i | i in s.start.ops && i != op
        ensures OpPrepared(g', s.start.ops[i])
      {
        OpSurvives(s.reg, g', s.start.ops, i);
      }
      OpsSurvive(s.reg, g', s.start.ops, op, o');
      assert ConnectStartups(s, op, a).ops == s.start.ops[op := o'];
    }
  }

  // ---------- The disconnects ----------

  ghost predicate HasLock(p: Disconnect) { p.Entered? || p.Draining? || p.Sweeping? }

  /** Some completed cleanup of the current group is on record. */
  ghost predicate GroupDone(h: Shutdown) {
    h.groupCompleted || exists d :: d in h.discs && h.discs[d] == Returning(true)
  }

  ghost predicate ShutdownOk(h: Shutdown, g: Registry) {
    && h.requests == |h.discs|
    && (h.requests > 0 ==> h.closing)
    && (h.groupCompleted ==> h.requests > 0)
    && (forall d :: d in h.discs ==> (HasLock(h.discs[d]) <==> h.closer == Some(d)))
    && (forall d :: d in h.discs ==> (h.discs[d].Sweeping? <==> h.sweeper == Some(d)))
    && (h.sweeper.Some? ==> h.sweeper.value in h.discs)
    && (h.closer.Some? ==> h.closer.value in h.discs)
    && (GroupDone(h) ==> g.servers == map[] && g.routing == map[] && h.groupCleanups >= 1)
  }

  /** Every connect that may still register a connection began after the last cleanup; while a
      disconnect drains, it awaits all of them, and while it sweeps there is none. */
  ghost predicate StartupsOk(u: Startups, h: Shutdown) {
    && u.begun.Keys <= u.ops.Keys
    && (forall i :: i in u.ops && u.ops[i].phase.Created? ==> i !in u.begun)
    && (forall i :: i in u.ops && Active(u.ops[i]) ==>
          i in u.tasks && i in u.begun && u.begun[i] == h.cleanups)
    && (forall d, i :: d in h.discs && h.discs[d].Draining? && i in u.ops && Active(u.ops[i]) ==>
          i in h.discs[d].tasks)
    && (forall d, i :: d in h.discs && h.discs[d].Sweeping? && i in u.ops ==> !Active(u.ops[i]))
  }

  predicate HasStartupLock(op: ConnectOp) {
    op.phase.Checking? || Holding(op) || op.phase.Leaving?
  }

  /** From the moment it takes a name's startup lock, a connect is alone with that name: the
      holder it found can be cleared under it, but no other connect can put one in. */
  ghost predicate LocksOk(u: Startups, g: Registry) {
    forall i :: i in u.ops && HasStartupLock(u.ops[i]) ==>
      && u.ops[i].name in u.locks && u.locks[u.ops[i].name] == i
      && (Holding(u.ops[i]) ==>
            u.ops[i].name !in g.servers || Get(g.servers, u.ops[i].name) == u.ops[i].phase.previous)
  }

  ghost predicate Inv(s: State) {
    && LocksOk(s.start, s.reg)
    && RegistryOk(s.reg) && OpsOk(s.reg, s.start.ops)
    && ShutdownOk(s.shut, s.reg) && StartupsOk(s.start, s.shut)
  }

  lemma InitInv()
    ensures Inv(INIT)
  {
  }

  /** While a disconnect is outstanding the registry only shrinks. */
  lemma ClosingNeverRegisters(s: State, op: Id, a: ConnectAction)
    requires ConnectEnabled(s, op, a) && s.shut.closing
    ensures ConnectRegistry(s, op, a).servers.Keys <= s.reg.servers.Keys
    ensures ConnectRegistry(s, op, a).routing.Keys <= s.reg.routing.Keys
    ensures ConnectRegistry(s, op, a).installed == s.reg.installed
  {
  }

  /** Only the connect that holds a name's startup lock can change the holder of that name. */
  lemma ConnectChangesOwnName(s: State, op: Id, a: ConnectAction, n: Name)
    requires ConnectEnabled(s, op, a)
    requires Get(ConnectRegistry(s, op, a).servers, n) != Get(s.reg.servers, n)
    ensures op in s.start.ops && s.start.ops[op].name == n && Holding(s.start.ops[op])
    ensures NextPhase(s, op, a).Leaving?
  {
  }

  lemma ConnectKeepsLocks(s: State, op: Id, a: ConnectAction)
    requires LocksOk(s.start, s.reg) && ConnectEnabled(s, op, a)
    ensures LocksOk(ConnectStartups(s, op, a), ConnectRegistry(s, op, a))
  {
    var u', g' := ConnectStartups(s, op, a), ConnectRegistry(s, op, a);
    forall i | i in u'.ops && HasStartupLock(u'.ops[i])
      ensures u'.ops[i].name in u'.locks && u'.locks[u'.ops[i].name] == i
      ensures Holding(u'.ops[i]) ==>
        u'.ops[i].name !in g'.servers || Get(g'.servers, u'.ops[i].name) == u'.ops[i].phase.previous
    {
      if Get(g'.servers, u'.ops[i].name) != Get(s.reg.servers, u'.ops[i].name) {
        ConnectChangesOwnName(s, op, a, u'.ops[i].name);
      }
      if i != op {
        assert i in s.start.ops && s.start.ops[i] == u'.ops[i];
      }
    }
  }

  /** A connect that is past its beginning never becomes one that has yet to begin. */
  lemma PhasesMoveOn(s: State, op: Id, a: ConnectAction)
    requires ConnectEnabled(s, op, a) && !a.BeginFresh?
    ensures !NextPhase(s, op, a).Created?
    ensures Active(s.start.ops[op].(phase := NextPhase(s, op, a))) ==>
      Active(s.start.ops[op]) || (a.BeginReconnect? && !s.shut.closing)
    ensures Active(s.start.ops[op].(phase := NextPhase(s, op, a))) ==> !a.Finish?
  {
  }

  lemma StartupsMove(u: Startups, h: Shutdown, k: Id, op: ConnectOp, tasks: set<Id>, locks: map<Name, Id>)
    requires StartupsOk(u, h) && k in u.ops && !op.phase.Created?
    requires u.tasks - {k} <= tasks
    requires Active(op) ==> Active(u.ops[k]) && k in tasks
    ensures StartupsOk(u.(ops := u.ops[k := op], tasks := tasks, locks := locks), h)
  {
  }

  lemma StartupsBegin(u: Startups, h: Shutdown, k: Id, op: ConnectOp)
    requires StartupsOk(u, h) && h.discs == map[] && !op.phase.Created?
    ensures StartupsOk(u.(ops := u.ops[k := op], tasks := u.tasks + {k}, begun := u.begun[k := h.cleanups]), h)
  {
  }

  lemma ConnectKeepsStartups(s: State, op: Id, a: ConnectAction)
    requires ShutdownOk(s.shut, s.reg) && StartupsOk(s.start, s.shut) && ConnectEnabled(s, op, a)
    ensures StartupsOk(ConnectStartups(s, op, a), s.shut)
  {
    var u := s.start;
    assert !s.shut.closing ==> s.shut.discs == map[];
    if a.BeginFresh? {
      if !s.shut.closing {
        StartupsBegin(u, s.shut, op, ConnectOp(a.name, None, a.hasParams, Waiting));
      }
    } else {
      PhasesMoveOn(s, op, a);
      var o' := u.ops[op].(phase := NextPhase(s, op, a));
      if a.BeginReconnect? && !s.shut.closing {
        StartupsBegin(u, s.shut, op, o');
      } else {
        var u' := ConnectStartups(s, op, a);
        StartupsMove(u, s.shut, op, o', u'.tasks, u'.locks);
        assert u' == u.(ops := u.ops[op := o'], tasks := u'.tasks, locks := u'.locks);
      }
    }
  }

  lemma ConnectKeepsInv(s: State, op: Id, a: ConnectAction)
    requires Inv(s) && ConnectEnabled(s, op, a)
    ensures Inv(ConnectStep(s, op, a))
  {
    var s' := ConnectStep(s, op, a);
    ConnectMovesRegistry(s, op, a);
    ConnectKeepsOps(s, op, a);
    if s.shut.closing {
      ClosingNeverRegisters(s, op, a);
    }
    assert ShutdownOk(s'.shut, s'.reg);
    ConnectKeepsStartups(s, op, a);
    ConnectKeepsLocks(s, op, a);
  }

  lemma RequestKeepsShutdown(s: State, d: Id)
    requires Inv(s) && DisconnectEnabled(s, d, Request)
    ensures ShutdownOk(DisconnectStep(s, d, Request).shut, s.reg)
  {
    var h, h' := s.shut, DisconnectStep(s, d, Request).shut;
    assert h'.discs.Keys == h.discs.Keys + {d};
    assert GroupDone(h') ==> GroupDone(h);
  }

  lemma FinishKeepsShutdown(s: State, d: Id)
    requires Inv(s) && DisconnectEnabled(s, d, FinishRequest)
    ensures ShutdownOk(DisconnectStep(s, d, FinishRequest).shut, s.reg)
  {
    var h, h' := s.shut, DisconnectStep(s, d, FinishRequest).shut;
    assert h'.discs.Keys == h.discs.Keys - {d};
    assert |h'.discs| == |h'.discs.Keys|;
  }

  /** The actions in between leave the number of requests alone. */
  lemma DisconnectKeepsShutdown(s: State, d: Id, a: DisconnectAction)
    requires Inv(s) && DisconnectEnabled(s, d, a)
    ensures ShutdownOk(DisconnectStep(s, d, a).shut, DisconnectStep(s, d, a).reg)
  {
    var h, h' := s.shut, DisconnectStep(s, d, a).shut;
    if a.Request? {
      RequestKeepsShutdown(s, d);
    } else if a.FinishRequest? {
      FinishKeepsShutdown(s, d);
    } else {
      assert a.SweepConnection? || h'.discs.Keys == h.discs.Keys;
      assert |h'.discs| == |h.discs|;
    }
  }

  lemma DisconnectMovesRegistry(s: State, d: Id, a: DisconnectAction)
    requires Inv(s) && DisconnectEnabled(s, d, a)
    ensures RegistryMove(s.reg, DisconnectStep(s, d, a).reg)
    ensures OpsOk(DisconnectStep(s, d, a).reg, s.start.ops)
  {
    var g' := DisconnectStep(s, d, a).reg;
    ClearAllMoves(s.reg);
    FlagsMove(s.reg, g'.connected, s.reg.sessions);
    OpsSurviveUnchanged(s.reg, g', s.start.ops);
  }

  lemma DisconnectKeepsStartups(s: State, d: Id, a: DisconnectAction)
    requires Inv(s) && DisconnectEnabled(s, d, a)
    ensures StartupsOk(DisconnectStep(s, d, a).start, DisconnectStep(s, d, a).shut)
  {
  }

  lemma DisconnectKeepsInv(s: State, d: Id, a: DisconnectAction)
    requires Inv(s) && DisconnectEnabled(s, d, a)
    ensures Inv(DisconnectStep(s, d, a))
  {
    DisconnectMovesRegistry(s, d, a);
    DisconnectKeepsShutdown(s, d, a);
    DisconnectKeepsStartups(s, d, a);
  }

  /** A connect that has yet to begin holds nothing and waits for nothing. */
  lemma CreatedIsIdle(u: Startups, h: Shutdown, k: Id, op: ConnectOp, tasks: set<Id>)
    requires StartupsOk(u, h) && k !in u.ops && op.phase.Created?
    ensures StartupsOk(u.(ops := u.ops[k := op], reconnectTasks := tasks), h)
  {
    assert k !in u.begun;
  }

  lemma CreatedHoldsNothing(u: Startups, g: Registry, k: Id, op: ConnectOp, tasks: set<Id>)
    requires LocksOk(u, g) && OpsOk(g, u.ops) && k !in u.ops && op.phase.Created?
    ensures LocksOk(u.(ops := u.ops[k := op], reconnectTasks := tasks), g) && OpsOk(g, u.ops[k := op])
  {
  }

  lemma SpawnKeepsStartups(s: State, r: Id, op: Id)
    requires Inv(s) && ReconnectEnabled(s, r, Spawn(op))
    ensures var s' := ReconnectStep(s, r, Spawn(op));
      StartupsOk(s'.start, s.shut) && LocksOk(s'.start, s.reg) && OpsOk(s.reg, s'.start.ops)
  {
    var u' := ReconnectStep(s, r, Spawn(op)).start;
    if u' != s.start {
      CreatedIsIdle(s.start, s.shut, op, u'.ops[op], u'.reconnectTasks);
      CreatedHoldsNothing(s.start, s.reg, op, u'.ops[op], u'.reconnectTasks);
    }
  }

  lemma JoinKeepsStartups(s: State, r: Id)
    requires Inv(s) && ReconnectEnabled(s, r, Join)
    ensures var s' := ReconnectStep(s, r, Join);
      StartupsOk(s'.start, s.shut) && LocksOk(s'.start, s.reg) && OpsOk(s.reg, s'.start.ops)
  {
    assert ReconnectStep(s, r, Join).start.ops == s.start.ops;
  }

  lemma ReconnectKeepsStartups(s: State, r: Id, a: ReconnectAction)
    requires Inv(s) && ReconnectEnabled(s, r, a)
    ensures var s' := ReconnectStep(s, r, a);
      StartupsOk(s'.start, s.shut) && LocksOk(s'.start, s.reg) && OpsOk(s.reg, s'.start.ops)
  {
    if a.Spawn? {
      SpawnKeepsStartups(s, r, a.op);
    } else if a.Join? {
      JoinKeepsStartups(s, r);
    } else {
      assert ReconnectStep(s, r, a).start == s.start;
    }
  }

  lemma ReconnectTouchesFlags(s: State, r: Id, a: ReconnectAction)
    requires ReconnectEnabled(s, r, a)
    ensures var g' := ReconnectStep(s, r, a).reg;
      g' == s.reg.(connected := g'.connected, sessions := g'.sessions)
    ensures ReconnectStep(s, r, a).shut == s.shut
  {
  }

  lemma ReconnectKeepsInv(s: State, r: Id, a: ReconnectAction)
    requires Inv(s) && ReconnectEnabled(s, r, a)
    ensures Inv(ReconnectStep(s, r, a))
  {
    var s' := ReconnectStep(s, r, a);
    ReconnectKeepsStartups(s, r, a);
    ReconnectTouchesFlags(s, r, a);
    FlagsMove(s.reg, s'.reg.connected, s'.reg.sessions);
    OpsSurviveUnchanged(s.reg, s'.reg, s'.start.ops);
  }

  /** The invariant holds in every state that any interleaving can reach. */
  lemma StepKeepsInv(s: State, a: Action)
    requires Inv(s) && Enabled(s, a)
    ensures Inv(Step(s, a))
  {
    match a
    case Connecting(op, c) => ConnectKeepsInv(s, op, c);
    case Disconnecting(d, c) => DisconnectKeepsInv(s, d, c);
    case Reconnecting(r, c) => ReconnectKeepsInv(s, r, c);
    case LoseSession(c) =>
      var s' := Step(s, a);
      FlagsMove(s.reg, s'.reg.connected, s'.reg.sessions);
      OpsSurviveUnchanged(s.reg, s'.reg, s.start.ops);
  }
}

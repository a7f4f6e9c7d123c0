/**
What holds over whole runs of the connection machine, whatever the interleaving of connects,
reconnects and disconnects.
*/
module ConnectionSafety {
  import opened Wrappers
  import opened ConnectionMachine
  import opened ConnectionInvariant

  ghost predicate IsRun(states: seq<State>, actions: seq<Action>) {
    && |states| == |actions| + 1
    && states[0] == INIT
    && forall i :: 0 <= i < |actions| ==> Enabled(states[i], actions[i]) && states[i + 1] == Step(states[i], actions[i])
  }

  lemma {:induction false} RunKeepsInv(states: seq<State>, actions: seq<Action>, k: nat)
    requires IsRun(states, actions) && k < |states|
    ensures Inv(states[k])
  {
    if k == 0 {
      InitInv();
    } else {
      RunKeepsInv(states, actions, k - 1);
      StepKeepsInv(states[k - 1], actions[k - 1]);
    }
  }

  ghost predicate MovesAt(states: seq<State>, actions: seq<Action>, i: nat)
    requires i < |actions| < |states|
  {
    Enabled(states[i], actions[i]) && states[i + 1] == Step(states[i], actions[i])
  }

  ghost predicate LeadsTo(states: seq<State>, actions: seq<Action>, s: State) {
    && |states| == |actions| + 1
    && states[0] == INIT && states[|actions|] == s
    && forall i :: 0 <= i < |actions| ==> MovesAt(states, actions, i)
  }

  /** Some interleaving leads from the initial state to `s`. */
  ghost predicate Reachable(s: State) {
    exists states: seq<State>, actions: seq<Action> :: LeadsTo(states, actions, s)
  }

  lemma InitIsReachable()
    ensures Reachable(INIT)
  {
    assert LeadsTo([INIT], [], INIT);
  }

  lemma StepIsReachable(s: State, a: Action)
    requires Reachable(s) && Enabled(s, a)
    ensures Reachable(Step(s, a))
  {
    var states, actions :| LeadsTo(states, actions, s);
    var states', actions' := states + [Step(s, a)], actions + [a];
    forall i | 0 <= i < |actions'|
      ensures MovesAt(states', actions', i)
    {
      assert i < |actions| ==> MovesAt(states, actions, i);
    }
    assert LeadsTo(states', actions', Step(s, a));
  }

  lemma ReachableMeansInv(s: State)
    requires Reachable(s)
    ensures Inv(s)
  {
    var states, actions :| LeadsTo(states, actions, s);
    forall i | 0 <= i < |actions|
      ensures Enabled(states[i], actions[i]) && states[i + 1] == Step(states[i], actions[i])
    {
      assert MovesAt(states, actions, i);
    }
    RunKeepsInv(states, actions, |actions|);
  }

  /** In every reachable state each routed tool points at a server present in the registry. */
  lemma RoutedToolsAreServed(states: seq<State>, actions: seq<Action>, k: nat, t: Tool)
    requires IsRun(states, actions) && k < |states|
    requires t in states[k].reg.routing
    ensures states[k].reg.routing[t] in states[k].reg.servers
  {
    RunKeepsInv(states, actions, k);
  }

  // ---------- Connecting one name leaves the others alone ----------

  lemma ConnectTouchesOnlyItsName(s: State, op: Id, a: ConnectAction, other: Name)
    requires Inv(s) && ConnectEnabled(s, op, a)
    requires op in s.start.ops ==> s.start.ops[op].name != other
    ensures RoutesOf(ConnectStep(s, op, a).reg.routing, other) == RoutesOf(s.reg.routing, other)
    ensures Get(ConnectStep(s, op, a).reg.servers, other) == Get(s.reg.servers, other)
  {
    var g' := ConnectRegistry(s, op, a);
    if Get(g'.servers, other) != Get(s.reg.servers, other) {
      ConnectChangesOwnName(s, op, a, other);
    }
    ConnectMovesRegistry(s, op, a);
    assert RoutesFollowHolder(s.reg, g');
  }

  /** A tool-name conflict leaves both maps exactly as they were. */
  lemma ConflictLeavesMaps(s: State, op: Id, tools: seq<Tool>, ownerInvalid: bool)
    requires Inv(s) && ConnectEnabled(s, op, ToolsListed(tools, ownerInvalid))
    requires ListConflicts(s.reg, s.start.ops[op], tools)
    ensures ConnectStep(s, op, ToolsListed(tools, ownerInvalid)).reg.servers == s.reg.servers
    ensures ConnectStep(s, op, ToolsListed(tools, ownerInvalid)).reg.routing == s.reg.routing
  {
    assert OpPrepared(s.reg, s.start.ops[op]);
  }

  /** What counts as a conflict for a connect whose name has not changed hands: a tool listed
      twice, or one that another server provides. A reconnecting server's own tools never do. */
  lemma ConflictExactly(s: State, op: Id, tools: seq<Tool>)
    requires Inv(s) && op in s.start.ops && s.start.ops[op].phase.Listing?
    requires Get(s.reg.servers, s.start.ops[op].name) == s.start.ops[op].phase.previous
    ensures ListConflicts(s.reg, s.start.ops[op], tools) <==>
      || (exists i, j :: 0 <= i < j < |tools| && tools[i] == tools[j])
      || (exists t :: t in tools && t in s.reg.routing && s.reg.routing[t] != s.start.ops[op].name)
  {
    var o := s.start.ops[op];
    assert OpPrepared(s.reg, o);
    var own := o.phase.previousRoutes;
    assert own == RoutesOf(s.reg.routing, o.name);
    if i, j :| 0 <= i < j < |tools| && tools[i] == tools[j] {
      assert tools[j] in tools[..j];
      assert ConflictsAt(tools, j, s.reg.routing, o.name, own);
    } else if t :| t in tools && t in s.reg.routing && s.reg.routing[t] != o.name {
      var i :| 0 <= i < |tools| && tools[i] == t;
      assert ConflictsAt(tools, i, s.reg.routing, o.name, own);
    }
  }

  // ---------- Disconnecting ----------

  lemma OutstandingMeansClosing(s: State)
    requires Inv(s) && s.shut.discs != map[]
    ensures s.shut.closing
  {
    assert |s.shut.discs| > 0;
  }

  lemma OthersNeverRegister(s: State, a: Action)
    requires Enabled(s, a) && !a.Connecting?
    ensures Step(s, a).reg.installed == s.reg.installed
    ensures Step(s, a).reg.servers == s.reg.servers || Step(s, a).reg.servers == map[]
    ensures Step(s, a).reg.routing == s.reg.routing || Step(s, a).reg.routing == map[]
  {
    if a.Reconnecting? {
      ReconnectTouchesFlags(s, a.r, a.reconnect);
    }
  }

  /** While a disconnect is outstanding the client is closing, and no action taken then puts a
      connection into the registry or a tool into the route map. */
  lemma NothingInstalledWhileClosing(s: State, a: Action)
    requires Inv(s) && Enabled(s, a)
    ensures s.shut.discs != map[] ==> s.shut.closing
    ensures s.shut.closing ==>
      && Step(s, a).reg.installed == s.reg.installed
      && Step(s, a).reg.servers.Keys <= s.reg.servers.Keys
      && Step(s, a).reg.routing.Keys <= s.reg.routing.Keys
  {
    if s.shut.discs != map[] {
      OutstandingMeansClosing(s);
    }
    if !a.Connecting? {
      OthersNeverRegister(s, a);
    } else if s.shut.closing {
      ClosingNeverRegisters(s, a.op, a.connect);
    }
  }

  /** The client reopens only when its last outstanding disconnect ends, with both maps empty
      and at least one completed cleanup in the group. */
  lemma ReopensOnlyClean(s: State, a: Action)
    requires Inv(s) && Enabled(s, a)
    requires s.shut.closing && !Step(s, a).shut.closing
    ensures Step(s, a).shut.discs == map[]
    ensures Step(s, a).reg.servers == map[] && Step(s, a).reg.routing == map[]
    ensures s.shut.groupCleanups >= 1 && s.shut.requests > 0
  {
    var d := a.d;
    assert a.disconnect.FinishRequest?;
    assert GroupDone(s.shut);
    StepKeepsInv(s, a);
    assert |Step(s, a).shut.discs| == 0;
  }

  ghost predicate CompletesCleanup(a: Action) {
    a.Disconnecting? && a.disconnect.ClearRegistry? && a.disconnect.completed
  }

  /** A cleanup goes on record by completing, within a group that is already outstanding. */
  lemma CleanupIsRecordedOnce(s: State, a: Action)
    requires Inv(s) && Enabled(s, a)
    requires Step(s, a).shut.requests > 0 && Step(s, a).shut.groupCleanups >= 1
    ensures s.shut.requests > 0 && (s.shut.groupCleanups >= 1 || CompletesCleanup(a))
  {
    if a.Disconnecting? && !a.disconnect.Request? {
      assert a.d in s.shut.discs && |s.shut.discs| > 0;
    }
  }

  /** A recorded cleanup really happened while the disconnects of this group were outstanding. */
  lemma {:induction false} GroupCleanupHappened(states: seq<State>, actions: seq<Action>, k: nat) returns (j: nat)
    requires IsRun(states, actions) && k < |states|
    requires states[k].shut.requests > 0 && states[k].shut.groupCleanups >= 1
    ensures j < k && CompletesCleanup(actions[j])
    ensures forall i :: j <= i <= k ==> states[i].shut.requests > 0
  {
    var p := k - 1;
    RunKeepsInv(states, actions, p);
    CleanupIsRecordedOnce(states[p], actions[p]);
    if states[p].shut.requests > 0 && states[p].shut.groupCleanups >= 1 {
      j := GroupCleanupHappened(states, actions, p);
    } else {
      j := p;
    }
  }

  /** A run reopens the client only after a completed cleanup during which, and ever since, some
      disconnect of the group was outstanding. */
  lemma ReopeningFollowsCleanup(states: seq<State>, actions: seq<Action>, k: nat)
    requires IsRun(states, actions) && k < |actions|
    requires states[k].shut.closing && !states[k + 1].shut.closing
    ensures exists j :: 0 <= j < k && CompletesCleanup(actions[j])
              && forall i :: j <= i <= k ==> states[i].shut.requests > 0
  {
    RunKeepsInv(states, actions, k);
    ReopensOnlyClean(states[k], actions[k]);
    var j := GroupCleanupHappened(states, actions, k);
  }

  /** The action lets a connect begin: it joins the startup tasks. */
  ghost predicate Begins(s: State, a: Action, op: Id) {
    a.Connecting? && a.op == op && (a.connect.BeginFresh? || a.connect.BeginReconnect?) && !s.shut.closing
  }

  ghost predicate ClearsRegistry(a: Action) { a.Disconnecting? && a.disconnect.ClearRegistry? }

  lemma CleanupsAreCounted(s: State, a: Action)
    requires Enabled(s, a)
    ensures Step(s, a).shut.cleanups == s.shut.cleanups + if ClearsRegistry(a) then 1 else 0
  {
  }

  lemma ConnectingRecordsOnce(s: State, i: Id, a: ConnectAction, op: Id)
    requires Inv(s) && ConnectEnabled(s, i, a) && op in s.start.begun
    ensures op in ConnectStartups(s, i, a).begun && ConnectStartups(s, i, a).begun[op] == s.start.begun[op]
  {
  }

  lemma BegunIsFinal(s: State, a: Action, op: Id)
    requires Inv(s) && Enabled(s, a)
    ensures Step(s, a).shut.cleanups == s.shut.cleanups + if ClearsRegistry(a) then 1 else 0
    ensures op in s.start.begun ==>
      op in Step(s, a).start.begun && Step(s, a).start.begun[op] == s.start.begun[op]
  {
    CleanupsAreCounted(s, a);
    if a.Connecting? && op in s.start.begun {
      ConnectingRecordsOnce(s, a.op, a.connect, op);
    } else if !a.Connecting? {
      assert Step(s, a).start.begun == s.start.begun;
    }
  }

  lemma {:induction false} BegunStays(states: seq<State>, actions: seq<Action>, i: nat, k: nat, op: Id)
    requires IsRun(states, actions) && i <= k < |states|
    ensures states[i].shut.cleanups <= states[k].shut.cleanups
    ensures op in states[i].start.begun ==>
      op in states[k].start.begun && states[k].start.begun[op] == states[i].start.begun[op]
    decreases k - i
  {
    if i < k {
      RunKeepsInv(states, actions, i);
      BegunIsFinal(states[i], actions[i], op);
      BegunStays(states, actions, i + 1, k, op);
    }
  }

  /** What is installed began after the last cleanup. */
  lemma InstalledBeganSince(s: State, op: Id, a: ConnectAction)
    requires Inv(s) && Installs(s, op, a)
    ensures op in s.start.begun && s.start.begun[op] == s.shut.cleanups
  {
    assert Active(s.start.ops[op]);
  }

  lemma BeginIsRecorded(s: State, a: Action, op: Id)
    requires Inv(s) && Enabled(s, a) && Begins(s, a, op)
    ensures op in Step(s, a).start.begun && Step(s, a).start.begun[op] == s.shut.cleanups == Step(s, a).shut.cleanups
  {
  }

  /** No connect begun before a cleanup of the registry can ever be installed after it. */
  lemma NoStaleInstall(states: seq<State>, actions: seq<Action>, i: nat, j: nat, k: nat, op: Id)
    requires IsRun(states, actions) && i < j < k < |actions|
    requires Begins(states[i], actions[i], op) && ClearsRegistry(actions[j])
    requires actions[k].Connecting? && actions[k].op == op
    ensures !Installs(states[k], op, actions[k].connect)
  {
    RunKeepsInv(states, actions, i);
    BeginIsRecorded(states[i], actions[i], op);
    BegunStays(states, actions, i + 1, j, op);
    RunKeepsInv(states, actions, j);
    BegunIsFinal(states[j], actions[j], op);
    BegunStays(states, actions, j + 1, k, op);
    if Installs(states[k], op, actions[k].connect) {
      RunKeepsInv(states, actions, k);
      InstalledBeganSince(states[k], op, actions[k].connect);
    }
  }

  // ---------- Reconnecting ----------

  /** A reconnect's connection goes in only over the connection it set out to replace. */
  lemma ReconnectReplacesItsOwn(s: State, op: Id, a: ConnectAction)
    requires Inv(s) && Installs(s, op, a) && s.start.ops[op].expected.Some?
    ensures var o := s.start.ops[op];
      && Get(s.reg.servers, o.name) == o.expected
      && o.phase.conn in s.reg.conns && s.reg.conns[o.phase.conn].origin == o.expected
      && o.expected.value in s.reg.conns
      && s.reg.conns[o.phase.conn].generation == s.reg.conns[o.expected.value].generation + 1
  {
    assert OpPrepared(s.reg, s.start.ops[op]);
  }

  lemma StepKeepsConnections(s: State, a: Action)
    requires Inv(s) && Enabled(s, a)
    ensures Keeps(s.reg, Step(s, a).reg)
  {
    match a {
      case Connecting(op, c) => ConnectMovesRegistry(s, op, c);
      case Disconnecting(d, c) => DisconnectMovesRegistry(s, d, c);
      case Reconnecting(_, _) =>
      case LoseSession(_) =>
    }
  }

  lemma {:induction false} RunKeepsConnections(states: seq<State>, actions: seq<Action>, i: nat, k: nat)
    requires IsRun(states, actions) && i <= k < |states|
    ensures Keeps(states[i].reg, states[k].reg)
    decreases k - i
  {
    if i < k {
      RunKeepsInv(states, actions, i);
      StepKeepsConnections(states[i], actions[i]);
      RunKeepsConnections(states, actions, i + 1, k);
    }
  }

  ghost predicate ReplacesAt(s: State, a: Action, c: Id) {
    && a.Connecting? && Installs(s, a.op, a.connect)
    && s.start.ops[a.op].expected == Some(c)
  }

  ghost predicate HasReplacement(g: Registry, c: Id) {
    exists a :: a in g.installed && a in g.conns && g.conns[a].origin == Some(c)
  }

  lemma ReplacingLeavesReplacement(s: State, a: Action, c: Id)
    requires Inv(s) && Enabled(s, a) && ReplacesAt(s, a, c)
    ensures HasReplacement(Step(s, a).reg, c)
  {
    var o := s.start.ops[a.op];
    ReconnectReplacesItsOwn(s, a.op, a.connect);
    assert o.phase.conn in Step(s, a).reg.installed && Step(s, a).reg.conns[o.phase.conn].origin == Some(c);
  }

  lemma ReplacedIsGone(s: State, a: Action, c: Id)
    requires Inv(s) && HasReplacement(s.reg, c)
    ensures !ReplacesAt(s, a, c)
  {
    var b :| b in s.reg.installed && b in s.reg.conns && s.reg.conns[b].origin == Some(c);
    if ReplacesAt(s, a, c) {
      ReconnectReplacesItsOwn(s, a.op, a.connect);
    }
  }

  /** However many callers race, a failed connection is replaced by reconnect at most once in a run. */
  lemma ReplacedAtMostOnce(states: seq<State>, actions: seq<Action>, i: nat, k: nat, c: Id)
    requires IsRun(states, actions) && i < k < |actions|
    requires ReplacesAt(states[i], actions[i], c)
    ensures !ReplacesAt(states[k], actions[k], c)
  {
    RunKeepsInv(states, actions, i);
    RunKeepsInv(states, actions, k);
    ReplacingLeavesReplacement(states[i], actions[i], c);
    RunKeepsConnections(states, actions, i + 1, k);
    ReplacedIsGone(states[k], actions[k], c);
  }

  /** A reconnect that answers True leaves a usable live connection built to replace `c`, and
      it never answers True while the client is closing. */
  lemma TrueMeansReplaced(s: State, r: Id, a: ReconnectAction)
    requires Inv(s) && ReconnectEnabled(s, r, a)
    requires r in s.recon.calls ==> !s.recon.calls[r].phase.Ended?
    requires ReconnectStep(s, r, a).recon.calls[r].phase == Ended(Some(true))
    ensures !s.shut.closing
    ensures Descends(ReconnectStep(s, r, a).reg, ReconnectStep(s, r, a).recon.calls[r].conn)
  {
  }

  /** A name gets another holder only when the connect that has its startup lock installs. */
  lemma NewHolderIsInstalled(s: State, op: Id, a: ConnectAction, n: Name)
    requires ConnectEnabled(s, op, a)
    requires Get(ConnectRegistry(s, op, a).servers, n) != Get(s.reg.servers, n) && n in ConnectRegistry(s, op, a).servers
    ensures Installs(s, op, a) && s.start.ops[op].name == n
    ensures ConnectRegistry(s, op, a).servers[n] == s.start.ops[op].phase.conn
    ensures ConnectRegistry(s, op, a).conns == s.reg.conns
  {
    ConnectChangesOwnName(s, op, a, n);
  }

  lemma ConnectRaisesByOne(s: State, op: Id, a: ConnectAction, n: Name)
    requires Inv(s) && ConnectEnabled(s, op, a)
    requires Get(ConnectRegistry(s, op, a).servers, n) != Get(s.reg.servers, n) && n in ConnectRegistry(s, op, a).servers
    ensures var g' := ConnectRegistry(s, op, a);
      && g'.servers[n] in g'.conns
      && (n in s.reg.servers ==> s.reg.servers[n] in s.reg.conns)
      && g'.conns[g'.servers[n]].generation == Generation(s.reg, Get(s.reg.servers, n))
  {
    NewHolderIsInstalled(s, op, a, n);
    assert OpPrepared(s.reg, s.start.ops[op]);
  }

  /** From one holder of a name to the next the generation rises by exactly one; a name that was
      cleared starts again at zero. */
  lemma GenerationsRiseByOne(s: State, a: Action, n: Name)
    requires Inv(s) && Enabled(s, a)
    requires Get(Step(s, a).reg.servers, n) != Get(s.reg.servers, n) && n in Step(s, a).reg.servers
    ensures Step(s, a).reg.servers[n] in Step(s, a).reg.conns
    ensures n in s.reg.servers ==> s.reg.servers[n] in s.reg.conns
    ensures Step(s, a).reg.conns[Step(s, a).reg.servers[n]].generation ==
            if n in s.reg.servers then s.reg.conns[s.reg.servers[n]].generation + 1 else 0
  {
    if a.Connecting? {
      ConnectRaisesByOne(s, a.op, a.connect, n);
    } else {
      OthersNeverRegister(s, a);
    }
  }

  /** A connect that is turned away because its name changed hands, while the client is open,
      found the name cleared: no other connect can have taken it. */
  lemma TurnedAwayMeansCleared(s: State, op: Id)
    requires Inv(s) && op in s.start.ops && Holding(s.start.ops[op])
    requires Rejected(s, s.start.ops[op]) && !s.shut.closing
    ensures s.start.ops[op].name !in s.reg.servers && s.start.ops[op].phase.previous.Some?
  {
  }

  // ---------- What the locks are for ----------

  /** Between taking the startup lock and releasing it, a connect is the only one of its name. */
  lemma OneStartupPerName(states: seq<State>, actions: seq<Action>, k: nat, i: Id, j: Id)
    requires IsRun(states, actions) && k < |states| && i in states[k].start.ops && j in states[k].start.ops
    requires HasStartupLock(states[k].start.ops[i]) && HasStartupLock(states[k].start.ops[j])
    requires states[k].start.ops[i].name == states[k].start.ops[j].name
    ensures i == j
  {
    RunKeepsInv(states, actions, k);
  }

  /** A connect that may still register a connection is among the tasks a disconnect would cancel
      and await; one that left them early can register nothing any more. */
  lemma ActiveConnectsAreTracked(states: seq<State>, actions: seq<Action>, k: nat, op: Id)
    requires IsRun(states, actions) && k < |states| && op in states[k].start.ops
    requires Active(states[k].start.ops[op])
    ensures op in states[k].start.tasks
  {
    RunKeepsInv(states, actions, k);
  }

  /** While the registry is swept no connect is under way that could register anything. */
  lemma NoConnectDuringSweep(states: seq<State>, actions: seq<Action>, k: nat, d: Id, op: Id)
    requires IsRun(states, actions) && k < |states| && d in states[k].shut.discs && op in states[k].start.ops
    requires states[k].shut.discs[d].Sweeping?
    ensures !Active(states[k].start.ops[op])
  {
    RunKeepsInv(states, actions, k);
  }

  /** Of any number of overlapping disconnects one at a time is past the disconnect lock. */
  lemma OneDisconnectAtATime(states: seq<State>, actions: seq<Action>, k: nat, d: Id, e: Id)
    requires IsRun(states, actions) && k < |states| && d in states[k].shut.discs && e in states[k].shut.discs
    requires HasLock(states[k].shut.discs[d]) && HasLock(states[k].shut.discs[e])
    ensures d == e
  {
    RunKeepsInv(states, actions, k);
  }

  /** A group of disconnects that all escaped leaves the client closing: the last of them to return
      reopens it exactly when one of the group completed its cleanup. */
  lemma ReopensIfCompleted(s: State, d: Id)
    requires Inv(s) && DisconnectEnabled(s, d, FinishRequest)
    ensures !DisconnectStep(s, d, FinishRequest).shut.closing <==>
            s.shut.discs.Keys == {d} && (s.shut.groupCompleted || s.shut.discs[d] == Returning(true))
  {
    var left := s.shut.discs.Keys - {d};
    assert |s.shut.discs| == |s.shut.discs.Keys| && |left| == |s.shut.discs.Keys| - 1;
    assert left == {} <==> s.shut.discs.Keys == {d};
  }

  ghost predicate ReconnectLocksOk(q: Reconnects) {
    forall r :: r in q.calls && !q.calls[r].phase.Ended? ==>
      q.calls[r].conn in q.locks && q.locks[q.calls[r].conn] == r
  }

  lemma StepKeepsReconnectLocks(s: State, a: Action)
    requires ReconnectLocksOk(s.recon) && Enabled(s, a)
    ensures ReconnectLocksOk(Step(s, a).recon)
  {
    if !a.Reconnecting? {
      assert Step(s, a).recon == s.recon;
    }
  }

  lemma {:induction false} RunKeepsReconnectLocks(states: seq<State>, actions: seq<Action>, k: nat)
    requires IsRun(states, actions) && k < |states|
    ensures ReconnectLocksOk(states[k].recon)
  {
    if k > 0 {
      RunKeepsReconnectLocks(states, actions, k - 1);
      StepKeepsReconnectLocks(states[k - 1], actions[k - 1]);
    }
  }

  /** However many callers want a connection replaced, one at a time is at it. */
  lemma OneReconnectPerConnection(states: seq<State>, actions: seq<Action>, k: nat, q: Id, r: Id)
    requires IsRun(states, actions) && k < |states| && q in states[k].recon.calls && r in states[k].recon.calls
    requires !states[k].recon.calls[q].phase.Ended? && !states[k].recon.calls[r].phase.Ended?
    requires states[k].recon.calls[q].conn == states[k].recon.calls[r].conn
    ensures q == r
  {
    RunKeepsReconnectLocks(states, actions, k);
  }
}

/**
How connects end, and with them the callers that wait for a reconnect: which of them get no
answer because a cancellation escapes.
*/
module ConnectionEndings {
  import opened Wrappers
  import opened ConnectionMachine
  import opened ConnectionInvariant
  import opened ConnectionSafety

  predicate EndsWith(p: Phase, ending: Ending) {
    (p.Leaving? || p.Discarding? || p.Done?) && p.ending == ending
  }

  predicate Cancelled(s: State, op: Id) {
    op in s.start.ops && EndsWith(s.start.ops[op].phase, WasCancelled)
  }

  /** The client turns a connect away: it is closing, or the name changed hands meanwhile. */
  predicate TurnsAway(s: State, a: Action, op: Id) {
    && a.Connecting? && a.op == op && op in s.start.ops
    && var o := s.start.ops[op];
       match a.connect
       case BeginReconnect => s.shut.closing
       case CheckExpected(_) => s.shut.closing
       case SessionReady => Holding(o) && Rejected(s, o)
       case ToolsListed(_, _) => Holding(o) && Rejected(s, o)
       case _ => false
  }

  /** A cancellation from outside: while the connect is at work, or waits to leave the tasks. */
  predicate CancelsConnect(a: Action, op: Id) {
    a.Connecting? && a.op == op && (a.connect == Abort(true) || a.connect == Finish(false))
  }

  lemma ConnectEndsCancelled(s: State, op: Id, a: ConnectAction)
    requires ConnectEnabled(s, op, a) && !a.BeginFresh?
    ensures EndsWith(NextPhase(s, op, a), WasCancelled) <==>
      Cancelled(s, op) || TurnsAway(s, Connecting(op, a), op) || CancelsConnect(Connecting(op, a), op)
  {
  }

  lemma StepEndsCancelled(s: State, a: Action, op: Id)
    requires Enabled(s, a)
    ensures Cancelled(Step(s, a), op) <==> Cancelled(s, op) || TurnsAway(s, a, op) || CancelsConnect(a, op)
  {
    match a {
      case Connecting(i, c) =>
        if i == op && !c.BeginFresh? {
          ConnectEndsCancelled(s, op, c);
        }
      case Disconnecting(_, _) => assert Step(s, a).start.ops == s.start.ops;
      case Reconnecting(_, c) => assert !c.Spawn? ==> Step(s, a).start.ops == s.start.ops;
      case LoseSession(_) =>
    }
  }

  predicate CutsOff(s: State, a: Action, op: Id) { TurnsAway(s, a, op) || CancelsConnect(a, op) }

  /** A connect ends cancelled if and only if it was turned away or cancelled from outside. */
  lemma {:induction false} CancelledExactly(states: seq<State>, actions: seq<Action>, k: nat, op: Id)
    requires IsRun(states, actions) && k < |states|
    ensures Cancelled(states[k], op) <==> exists i :: 0 <= i < k && CutsOff(states[i], actions[i], op)
  {
    if k > 0 {
      var p := k - 1;
      var s, a := states[p], actions[p];
      CancelledExactly(states, actions, p, op);
      assert Enabled(s, a) && states[k] == Step(s, a);
      StepEndsCancelled(s, a, op);
      assert CutsOff(s, a, op) <==> TurnsAway(s, a, op) || CancelsConnect(a, op);
      if exists i :: 0 <= i < k && CutsOff(states[i], actions[i], op) {
        var i :| 0 <= i < k && CutsOff(states[i], actions[i], op);
        assert i < p || CutsOff(s, a, op);
      }
    }
  }

  // ---------- The callers of a reconnect ----------

  predicate NoAnswer(s: State, r: Id) { r in s.recon.calls && s.recon.calls[r].phase == Ended(None) }

  predicate CancelsCaller(a: Action, r: Id) { a == Reconnecting(r, CancelReconnect) }

  /** The caller takes up what its connect task left, and that was a cancellation. */
  predicate JoinsCancelled(s: State, a: Action, r: Id, op: Id) {
    && a == Reconnecting(r, Join) && r in s.recon.calls && s.recon.calls[r].phase == Awaiting(op)
    && Cancelled(s, op)
  }

  lemma StepLeavesNoAnswer(s: State, a: Action, r: Id)
    requires Enabled(s, a)
    ensures NoAnswer(Step(s, a), r) <==>
      NoAnswer(s, r) || CancelsCaller(a, r)
      || (r in s.recon.calls && s.recon.calls[r].phase.Awaiting? && JoinsCancelled(s, a, r, s.recon.calls[r].phase.task))
  {
    if !a.Reconnecting? {
      assert Step(s, a).recon == s.recon;
    }
  }

  /** A caller ends without an answer if and only if it was cancelled itself or took up a connect
      task that ended cancelled. */
  lemma {:induction false} NoAnswerExactly(states: seq<State>, actions: seq<Action>, k: nat, r: Id)
    requires IsRun(states, actions) && k < |states|
    ensures NoAnswer(states[k], r) <==>
      exists i :: 0 <= i < k && (CancelsCaller(actions[i], r) || exists op :: JoinsCancelled(states[i], actions[i], r, op))
  {
    if k > 0 {
      var p := k - 1;
      NoAnswerExactly(states, actions, p, r);
      StepLeavesNoAnswer(states[p], actions[p], r);
      if CancelsCaller(actions[p], r) || exists op :: JoinsCancelled(states[p], actions[p], r, op) {
        assert NoAnswer(states[k], r);
      }
    }
  }

  /** Behind a caller that nobody cancelled and that got no answer there is a connect that was
      turned away, or was cancelled in its stead. */
  lemma NoAnswerMeansCutOff(states: seq<State>, actions: seq<Action>, k: nat, r: Id) returns (i: nat, j: nat, op: Id)
    requires IsRun(states, actions) && k < |states| && NoAnswer(states[k], r)
    requires forall i :: 0 <= i < k ==> !CancelsCaller(actions[i], r)
    ensures i < j < k && JoinsCancelled(states[j], actions[j], r, op) && CutsOff(states[i], actions[i], op)
  {
    NoAnswerExactly(states, actions, k, r);
    j :| 0 <= j < k && (CancelsCaller(actions[j], r) || exists op :: JoinsCancelled(states[j], actions[j], r, op));
    op :| JoinsCancelled(states[j], actions[j], r, op);
    CancelledExactly(states, actions, j, op);
    i :| 0 <= i < j && CutsOff(states[i], actions[i], op);
  }

  lemma OneMore(states: seq<State>, actions: seq<Action>, s: State, a: Action)
      returns (states': seq<State>, actions': seq<Action>, s': State)
    requires IsRun(states, actions) && s == states[|actions|] && Enabled(s, a)
    ensures IsRun(states', actions') && s' == states'[|actions'|] && s' == Step(s, a)
    ensures actions' == actions + [a]
  {
    s' := Step(s, a);
    states', actions' := states + [s'], actions + [a];
  }

  predicate FromOutside(a: Action) {
    || (a.Connecting? && (a.connect == Abort(true) || a.connect == Finish(false)))
    || (a.Reconnecting? && a.reconnect == CancelReconnect)
  }

  ghost predicate Untouched(actions: seq<Action>) {
    forall i :: 0 <= i < |actions| ==> !FromOutside(actions[i])
  }

  /** One server is connected under the name, by connect 0 with connection 9. */
  predicate OneServer(s: State, n: Name) {
    && s.reg.servers == map[n := 9] && s.reg.conns == map[9 := Connection(n, 0, None, true)]
    && s.start.ops.Keys == {0} && s.shut == INIT.shut && s.recon == INIT.recon
  }

  lemma FirstInstall(n: Name) returns (states: seq<State>, actions: seq<Action>, s: State)
    ensures IsRun(states, actions) && s == states[|actions|] && Untouched(actions) && OneServer(s, n)
  {
    s := INIT;
    states, actions := [s], [];
    states, actions, s := OneMore(states, actions, s, Connecting(0, BeginFresh(n, true)));
    states, actions, s := OneMore(states, actions, s, Connecting(0, TakeStartupLock(9)));
    assert s.start.ops[0].phase == Starting(9, None, {});
    states, actions, s := OneMore(states, actions, s, Connecting(0, SessionReady));
    assert s.start.ops[0].phase == Listing(9, None, {});
    states, actions, s := OneMore(states, actions, s, Connecting(0, ToolsListed([], false)));
  }

  /** Caller 5 waits for connect task 1, which has not run yet. */
  predicate OneCaller(s: State, n: Name) {
    && s.start.ops.Keys == {0, 1} && s.start.ops[1] == ConnectOp(n, Some(9), true, Created)
    && s.shut == INIT.shut && s.recon.calls == map[5 := Reconnect(9, Awaiting(1))] && 9 in s.reg.conns
  }

  lemma FirstSpawn(n: Name) returns (states: seq<State>, actions: seq<Action>, s: State)
    ensures IsRun(states, actions) && s == states[|actions|] && Untouched(actions) && OneCaller(s, n)
  {
    states, actions, s := FirstInstall(n);
    states, actions, s := OneMore(states, actions, s, Reconnecting(5, StartReconnect(9)));
    states, actions, s := OneMore(states, actions, s, Reconnecting(5, Inspect));
    assert s.recon.calls[5].phase == WaitingOldTask && s.reg.servers == map[n := 9];
    states, actions, s := OneMore(states, actions, s, Reconnecting(5, Spawn(1)));
  }

  /** A run in which nothing is cancelled from outside and a caller gets no answer all the same: a
      disconnect is asked for after the connect task was created and before it ran. */
  lemma TurnedAwayRun(n: Name) returns (states: seq<State>, actions: seq<Action>)
    ensures IsRun(states, actions) && Untouched(actions) && NoAnswer(states[|actions|], 5)
  {
    var s;
    states, actions, s := FirstSpawn(n);
    states, actions, s := OneMore(states, actions, s, Disconnecting(7, Request));
    states, actions, s := OneMore(states, actions, s, Connecting(1, BeginReconnect));
    assert s.start.ops[1].phase == Done(WasCancelled) && s.recon.calls[5].phase == Awaiting(1);
    states, actions, s := OneMore(states, actions, s, Reconnecting(5, Join));
  }
}

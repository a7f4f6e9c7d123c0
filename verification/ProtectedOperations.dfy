/**
Protected tool calls of any number of server processes against the operation store. A request
once sent may be delivered at any later time, any number of times, also after its sender gave
up or died; an answer may be lost; leases run out as time passes. The protected handler still
starts at most once per operation key.
*/
module ProtectedOperations {
  import opened Wrappers
  import opened OperationStore

  type Id = nat
  type Key = string

  // The lease of a protected operation, in seconds (`_OPERATION_LEASE_TTL_SECONDS`).
  const LEASE_TTL := 300

  datatype Phase =
    | Auditing
    | Acquiring
    | Preparing(fence: nat)
    | Starting(fence: nat)
    | Running(fence: nat)
    | Gone

  /** One delivery of a protected tool call to some server process. */
  datatype Call = Call(key: Key, requestHash: string, owner: string, phase: Phase)

  datatype Message = Message(call: Id, request: Request)
  datatype Answer = Answer(call: Id, request: Request, fence: nat)

  /** `starts` is history: the calls whose handler was started, in order. */
  datatype World = World(
    now: int,
    rows: map<Key, Operation>,
    calls: map<Id, Call>,
    sent: set<Message>,
    answers: set<Answer>,
    starts: seq<Id>)

  const INIT := World(0, map[], map[], {}, {}, [])

  datatype Action =
    | Wait(seconds: nat)
    | Arrive(call: Id, key: Key, requestHash: string, owner: string)
    | RequestAudited(call: Id)
    | Deliver(message: Message)
    | Hear(answer: Answer)
    | GiveUp(call: Id)
    | Also(call: Id, request: Request)  // heartbeats and the final transitions of a call
    | Outsider(key: Key, owner: string, request: Request)

  /** The request a call is waiting for an answer to. */
  function Awaited(c: Call): Option<Request> {
    match c.phase
    case Acquiring => Some(Claiming(c.requestHash, LEASE_TTL))
    case Preparing(fence) => Some(Moving(fence, Prepared, false))
    case Starting(fence) => Some(Moving(fence, SideEffectStarted, false))
    case _ => None
  }

  predicate Starts(r: Request) { r.Moving? && r.to.SideEffectStarted? }

  predicate Enabled(w: World, a: Action) {
    match a
    case Wait(_) => true
    case Arrive(id, _, _, _) => id !in w.calls
    case RequestAudited(id) => id in w.calls && w.calls[id].phase.Auditing?
    case Deliver(m) => m in w.sent && m.call in w.calls
    case Hear(answer) =>
      answer in w.answers && answer.call in w.calls && Awaited(w.calls[answer.call]) == Some(answer.request)
    case GiveUp(id) => id in w.calls
    case Also(id, r) => id in w.calls && !Starts(r)
    case Outsider(_, _, _) => true
  }

  /** Where an answer takes a call, and what the call asks next. */
  function NextPhase(c: Call, fence: nat): Phase
    requires Awaited(c).Some?
  {
    match c.phase
    case Acquiring => Preparing(fence)
    case Preparing(f) => Starting(f)
    case Starting(f) => Running(f)
  }

  function Enter(w: World, id: Id, phase: Phase): World
    requires id in w.calls
  {
    var c := w.calls[id].(phase := phase);
    w.(calls := w.calls[id := c],
       sent := w.sent + if Awaited(c).Some? then {Message(id, Awaited(c).value)} else {},
       starts := w.starts + if phase.Running? then [id] else [])
  }

  function SetRow(rows: map<Key, Operation>, key: Key, row: Option<Operation>): map<Key, Operation> {
    if row.Some? then rows[key := row.value] else rows
  }

  function Step(w: World, a: Action): World
    requires Enabled(w, a)
  {
    match a
    case Wait(seconds) => w.(now := w.now + seconds)
    case Arrive(id, key, requestHash, owner) =>
      w.(calls := w.calls[id := Call(key, requestHash, owner, Auditing)])
    case RequestAudited(id) => Enter(w, id, Acquiring)
    case Deliver(m) =>
      var c := w.calls[m.call];
      var (row, fence) := Serve(Get(w.rows, c.key), c.owner, m.request, w.now);
      w.(rows := SetRow(w.rows, c.key, row),
         answers := w.answers + if fence.Some? then {Answer(m.call, m.request, fence.value)} else {})
    case Hear(answer) => Enter(w, answer.call, NextPhase(w.calls[answer.call], answer.fence))
    case GiveUp(id) => w.(calls := w.calls[id := w.calls[id].(phase := Gone)])
    case Also(id, r) => w.(sent := w.sent + {Message(id, r)})
    case Outsider(key, owner, r) =>
      w.(rows := SetRow(w.rows, key, Serve(Get(w.rows, key), owner, r, w.now).0))
  }

  // ---------- What every action keeps ----------

  /** The store told this call that its side effect may start. */
  ghost predicate Cleared(w: World, id: Id) {
    exists answer :: answer in w.answers && answer.call == id && Starts(answer.request)
  }

  ghost predicate ClearedOnce(w: World) {
    forall i, j :: i in w.calls && j in w.calls && Cleared(w, i) && Cleared(w, j) && w.calls[i].key == w.calls[j].key
      ==> i == j
  }

  ghost predicate ClearedAreLaunched(w: World) {
    forall i :: i in w.calls && Cleared(w, i) ==> Launched(Get(w.rows, w.calls[i].key))
  }

  ghost predicate StartsOk(w: World) {
    && (forall k :: 0 <= k < |w.starts| ==>
          && w.starts[k] in w.calls && Cleared(w, w.starts[k])
          && (w.calls[w.starts[k]].phase.Running? || w.calls[w.starts[k]].phase.Gone?))
    && (forall k, l :: 0 <= k < l < |w.starts| ==> w.starts[k] != w.starts[l])
  }

  ghost predicate Inv(w: World) {
    && (forall answer :: answer in w.answers ==> answer.call in w.calls)
    && ClearedOnce(w) && ClearedAreLaunched(w) && StartsOk(w)
  }

  lemma DeliverKeepsInv(w: World, m: Message)
    requires Inv(w) && Enabled(w, Deliver(m))
    ensures Inv(Step(w, Deliver(m)))
  {
    var w' := Step(w, Deliver(m));
    var key := w.calls[m.call].key;
    var row := Get(w.rows, key);
    if Launched(row) {
      LaunchedIsFinal(row, w.calls[m.call].owner, m.request, w.now);
    }
    forall i | i in w'.calls && Cleared(w', i)
      ensures Launched(Get(w'.rows, w'.calls[i].key))
      ensures Cleared(w, i) || (i == m.call && !Launched(row))
    {
      var answer :| answer in w'.answers && answer.call == i && Starts(answer.request);
      if answer in w.answers {
        assert Cleared(w, i);
      }
    }
    forall k | 0 <= k < |w'.starts|
      ensures Cleared(w', w'.starts[k])
    {
      assert Cleared(w, w.starts[k]);
      var answer :| answer in w.answers && answer.call == w.starts[k] && Starts(answer.request);
      assert answer in w'.answers;
    }
  }

  lemma EnterKeepsInv(w: World, id: Id, phase: Phase)
    requires Inv(w) && id in w.calls
    requires phase.Running? ==> Cleared(w, id)
    requires !w.calls[id].phase.Running? && !w.calls[id].phase.Gone?
    ensures Inv(Enter(w, id, phase))
  {
    var w' := Enter(w, id, phase);
    assert forall i :: Cleared(w', i) <==> Cleared(w, i);
  }

  lemma StepKeepsInv(w: World, a: Action)
    requires Inv(w) && Enabled(w, a)
    ensures Inv(Step(w, a))
  {
    var w' := Step(w, a);
    match a
    case Deliver(m) => DeliverKeepsInv(w, m);
    case RequestAudited(id) => EnterKeepsInv(w, id, Acquiring);
    case Hear(answer) =>
      assert w.calls[answer.call].phase.Starting? ==> Cleared(w, answer.call);
      EnterKeepsInv(w, answer.call, NextPhase(w.calls[answer.call], answer.fence));
    case Outsider(key, owner, r) =>
      assert forall i :: Cleared(w', i) <==> Cleared(w, i);
      if Launched(Get(w.rows, key)) {
        LaunchedIsFinal(Get(w.rows, key), owner, r, w.now);
      }
    case _ => assert forall i :: Cleared(w', i) <==> Cleared(w, i);
  }

  // ---------- Runs ----------

  ghost predicate IsRun(worlds: seq<World>, actions: seq<Action>) {
    && |worlds| == |actions| + 1
    && worlds[0] == INIT
    && forall i :: 0 <= i < |actions| ==> Enabled(worlds[i], actions[i]) && worlds[i + 1] == Step(worlds[i], actions[i])
  }

  lemma {:induction false} RunKeepsInv(worlds: seq<World>, actions: seq<Action>, k: nat)
    requires IsRun(worlds, actions) && k < |worlds|
    ensures Inv(worlds[k])
  {
    if k > 0 {
      RunKeepsInv(worlds, actions, k - 1);
      StepKeepsInv(worlds[k - 1], actions[k - 1]);
    }
  }

  /** The handler of one operation key starts at most once, in every run. */
  lemma HandlerStartsAtMostOnce(worlds: seq<World>, actions: seq<Action>, k: nat, i: nat, j: nat)
    requires IsRun(worlds, actions) && k < |worlds|
    requires i < |worlds[k].starts| && j < |worlds[k].starts|
    requires worlds[k].starts[i] in worlds[k].calls && worlds[k].starts[j] in worlds[k].calls
    requires worlds[k].calls[worlds[k].starts[i]].key == worlds[k].calls[worlds[k].starts[j]].key
    ensures i == j
  {
    RunKeepsInv(worlds, actions, k);
  }

  /** When a handler starts, its operation is on record as launched, or already settled by others. */
  lemma StartedIsOnRecord(worlds: seq<World>, actions: seq<Action>, k: nat, i: nat)
    requires IsRun(worlds, actions) && k < |worlds| && i < |worlds[k].starts|
    ensures worlds[k].starts[i] in worlds[k].calls
    ensures Launched(Get(worlds[k].rows, worlds[k].calls[worlds[k].starts[i]].key))
  {
    RunKeepsInv(worlds, actions, k);
  }
}

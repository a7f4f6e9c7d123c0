/**
The leader lease of the orchestrator: clients that believe they lead until a deadline of their
own, the store that grants the lease, and a network that may delay, repeat or lose any request
or reply. Time is one real clock.
*/
module LeaderLease {
  import opened Wrappers

  type Id = nat  // a client's session id

  // ---------- The store ----------

  datatype Lease = Lease(session: Id, epoch: int, expires: real)

  datatype Kind = Acquire | Renew(epoch: int) | Release(epoch: int)

  /** `serial` tells apart the requests of one client. */
  datatype Request = Request(client: Id, kind: Kind, ttl: real, started: real, serial: nat)

  /** What the store does with a request, and the epoch it answers with when it grants it. */
  function Serve(lease: Option<Lease>, r: Request, now: real): (Option<Lease>, Option<int>) {
    match r.kind
    case Acquire =>
      if lease.Some? && lease.value.expires > now then
        if lease.value.session == r.client
        then (Some(lease.value.(expires := now + r.ttl)), Some(lease.value.epoch))
        else (lease, None)
      else
        var epoch := if lease.Some? then lease.value.epoch + 1 else 1;
        (Some(Lease(r.client, epoch, now + r.ttl)), Some(epoch))
    case Renew(epoch) =>
      if lease.None? || lease.value.session != r.client || lease.value.epoch != epoch || lease.value.expires <= now
      then (lease, None)
      else (Some(lease.value.(expires := now + r.ttl)), Some(epoch))
    case Release(epoch) =>
      if lease.None? || lease.value.session != r.client || lease.value.epoch != epoch then (lease, None)
      else (None, Some(epoch))
  }

  // ---------- The clients ----------

  datatype Client = Client(
    ttl: real,
    epoch: Option<int>,
    deadline: Option<real>,
    pending: Option<Request>,
    serials: nat,
    releasing: bool)

  datatype Reply = Reply(request: Request, epoch: int)

  datatype World = World(
    now: real,
    lease: Option<Lease>,
    clients: map<Id, Client>,
    sent: set<Request>,
    replies: set<Reply>)

  const INIT := World(0.0, None, map[], {}, {})

  datatype Action =
    | Wait(seconds: real)
    | Join(id: Id, ttl: real)
    | Send(id: Id, kind: Kind)
    | Deliver(request: Request)
    | Hear(reply: Reply)
    | Abandon(id: Id)   // refused, timed out, cancelled, or the reply was lost
    | ClearExpired      // someone inspects the lease after it ran out

  predicate Enabled(w: World, a: Action) {
    match a
    case Wait(seconds) => seconds >= 0.0
    case Join(id, _) => id !in w.clients
    case Send(id, kind) =>
      && id in w.clients && w.clients[id].pending.None?
      && (kind.Renew? ==> w.clients[id].epoch == Some(kind.epoch))
      && (kind.Release? ==> w.clients[id].epoch == Some(kind.epoch))
    case Deliver(r) => r in w.sent
    case Hear(reply) =>
      reply in w.replies && reply.request.client in w.clients
      && w.clients[reply.request.client].pending == Some(reply.request)
    case Abandon(id) => id in w.clients
    case ClearExpired => w.lease.Some? && w.lease.value.expires <= w.now
  }

  /** A granted reply sets the deadline from when the request was started; a release sets none. */
  function Credited(c: Client, reply: Reply): Client {
    match reply.request.kind
    case Acquire =>
      c.(epoch := Some(reply.epoch), deadline := Some(reply.request.started + c.ttl), pending := None)
    case Renew(_) => c.(deadline := Some(reply.request.started + c.ttl), pending := None)
    case Release(_) => c.(pending := None)
  }

  function Step(w: World, a: Action): World
    requires Enabled(w, a)
  {
    match a
    case Wait(seconds) => w.(now := w.now + seconds)
    case Join(id, ttl) => w.(clients := w.clients[id := Client(ttl, None, None, None, 0, false)])
    case Send(id, kind) =>
      var c := w.clients[id];
      var r := Request(id, kind, c.ttl, w.now, c.serials);
      w.(clients := w.clients[id := c.(pending := Some(r), serials := c.serials + 1,
                                       releasing := c.releasing || kind.Release?)],
         sent := w.sent + {r})
    case Deliver(r) =>
      var (lease, epoch) := Serve(w.lease, r, w.now);
      w.(lease := lease, replies := w.replies + if epoch.Some? then {Reply(r, epoch.value)} else {})
    case Hear(reply) =>
      var id := reply.request.client;
      w.(clients := w.clients[id := Credited(w.clients[id], reply)])
    case Abandon(id) => w.(clients := w.clients[id := w.clients[id].(pending := None)])
    case ClearExpired => w.(lease := None)
  }

  // ---------- What every action keeps ----------

  /** While the clock is before `until`, the store holds the lease for this client that long. */
  predicate Covered(w: World, id: Id, until: real) {
    w.now < until ==> w.lease.Some? && w.lease.value.session == id && w.lease.value.expires >= until
  }

  predicate SentOk(w: World, r: Request) {
    && r.client in w.clients && r.started <= w.now
    && r.ttl == w.clients[r.client].ttl
    && (r.kind.Release? ==> w.clients[r.client].releasing)
  }

  ghost predicate ClientOk(w: World, id: Id)
    requires id in w.clients
  {
    var c := w.clients[id];
    && (c.pending.Some? ==> c.pending.value in w.sent)
    && (c.deadline.Some? ==> c.deadline.value <= w.now + c.ttl)
    && (c.deadline.Some? && c.pending.Some? ==> c.deadline.value <= c.pending.value.started + c.ttl)
    && (!c.releasing && c.deadline.Some? ==> Covered(w, id, c.deadline.value))
  }

  ghost predicate ReplyOk(w: World, reply: Reply) {
    var id := reply.request.client;
    && reply.request in w.sent && id in w.clients
    && (!w.clients[id].releasing ==> Covered(w, id, reply.request.started + w.clients[id].ttl))
  }

  predicate LeaseOk(w: World) {
    w.lease.Some? ==> w.lease.value.session in w.clients
                      && w.lease.value.expires <= w.now + w.clients[w.lease.value.session].ttl
  }

  ghost predicate Inv(w: World) {
    && (forall r :: r in w.sent ==> SentOk(w, r))
    && (forall id :: id in w.clients ==> ClientOk(w, id))
    && (forall reply :: reply in w.replies ==> ReplyOk(w, reply))
    && LeaseOk(w)
  }

  /** No request of anyone shortens what the store grants a client that has not begun to release. */
  lemma ServingCovers(w: World, r: Request, id: Id, until: real)
    requires Inv(w) && r in w.sent && id in w.clients && !w.clients[id].releasing
    requires Covered(w, id, until)
    ensures Covered(Step(w, Deliver(r)), id, until)
  {
    assert SentOk(w, r);
  }

  lemma DeliverKeepsInv(w: World, r: Request)
    requires Inv(w) && Enabled(w, Deliver(r))
    ensures Inv(Step(w, Deliver(r)))
  {
    var w' := Step(w, Deliver(r));
    assert SentOk(w, r);
    forall id | id in w'.clients
      ensures ClientOk(w', id)
    {
      assert ClientOk(w, id);
      if !w.clients[id].releasing && w.clients[id].deadline.Some? {
        ServingCovers(w, r, id, w.clients[id].deadline.value);
      }
    }
    forall reply | reply in w'.replies
      ensures ReplyOk(w', reply)
    {
      var id := reply.request.client;
      if reply in w.replies {
        assert ReplyOk(w, reply);
        if !w.clients[id].releasing {
          ServingCovers(w, r, id, reply.request.started + w.clients[id].ttl);
        }
      }
    }
  }

  /** A step that leaves the store alone keeps what was granted, as time only moves forward. */
  lemma StillCovered(w: World, w': World, id: Id, until: real)
    requires Covered(w, id, until) && w.now <= w'.now
    requires w'.lease == w.lease || (w.lease.Some? && w.lease.value.expires <= w.now)
    ensures Covered(w', id, until)
  {
  }

  /** Everything but serving a request: the network is left alone or gains one well-formed request. */
  lemma ClientStepKeepsInv(w: World, w': World)
    requires Inv(w) && w.now <= w'.now
    requires w'.lease == w.lease || (w.lease.Some? && w.lease.value.expires <= w.now && w'.lease.None?)
    requires w.sent <= w'.sent && w'.replies == w.replies
    requires forall r :: r in w'.sent - w.sent ==> SentOk(w', r)
    requires forall id :: id in w.clients ==> id in w'.clients && w'.clients[id].ttl == w.clients[id].ttl
                                              && (w.clients[id].releasing ==> w'.clients[id].releasing)
    requires forall id :: id in w'.clients ==> ClientOk(w', id)
    ensures Inv(w')
  {
    forall r | r in w'.sent
      ensures SentOk(w', r)
    {
      if r in w.sent {
        assert SentOk(w, r);
      }
    }
    forall reply | reply in w'.replies
      ensures ReplyOk(w', reply)
    {
      assert ReplyOk(w, reply);
      var id := reply.request.client;
      if !w'.clients[id].releasing {
        StillCovered(w, w', id, reply.request.started + w.clients[id].ttl);
      }
    }
  }

  lemma ClientUnchanged(w: World, w': World, id: Id)
    requires id in w.clients && ClientOk(w, id) && w.now <= w'.now && w.sent <= w'.sent
    requires id in w'.clients && w'.clients[id] == w.clients[id]
    requires w'.lease == w.lease || (w.lease.Some? && w.lease.value.expires <= w.now && w'.lease.None?)
    ensures ClientOk(w', id)
  {
  }

  lemma SendKeepsInv(w: World, a: Action)
    requires Inv(w) && Enabled(w, a) && a.Send?
    ensures Inv(Step(w, a))
  {
    var w' := Step(w, a);
    assert ClientOk(w, a.id);
    forall id | id in w'.clients
      ensures ClientOk(w', id)
    {
      if id != a.id {
        ClientUnchanged(w, w', id);
      }
    }
    ClientStepKeepsInv(w, w');
  }

  lemma HeardIsCovered(w: World, reply: Reply)
    requires Inv(w) && Enabled(w, Hear(reply))
    ensures ClientOk(Step(w, Hear(reply)), reply.request.client)
  {
    var id := reply.request.client;
    assert ReplyOk(w, reply) && SentOk(w, reply.request) && ClientOk(w, id);
  }

  lemma HearKeepsInv(w: World, reply: Reply)
    requires Inv(w) && Enabled(w, Hear(reply))
    ensures Inv(Step(w, Hear(reply)))
  {
    var w' := Step(w, Hear(reply));
    HeardIsCovered(w, reply);
    forall id | id in w'.clients
      ensures ClientOk(w', id)
    {
      if id != reply.request.client {
        ClientUnchanged(w, w', id);
      }
    }
    ClientStepKeepsInv(w, w');
  }

  lemma QuietKeepsInv(w: World, a: Action)
    requires Inv(w) && Enabled(w, a) && (a.Wait? || a.Join? || a.Abandon? || a.ClearExpired?)
    ensures Inv(Step(w, a))
  {
    var w' := Step(w, a);
    forall id | id in w'.clients
      ensures ClientOk(w', id)
    {
      if id in w.clients && w'.clients[id] == w.clients[id] {
        ClientUnchanged(w, w', id);
      } else if id in w.clients {
        assert ClientOk(w, id);
      }
    }
    ClientStepKeepsInv(w, w');
  }

  lemma StepKeepsInv(w: World, a: Action)
    requires Inv(w) && Enabled(w, a)
    ensures Inv(Step(w, a))
  {
    match a {
      case Deliver(r) => DeliverKeepsInv(w, r);
      case Send(_, _) => SendKeepsInv(w, a);
      case Hear(reply) => HearKeepsInv(w, reply);
      case Wait(_) => QuietKeepsInv(w, a);
      case Join(_, _) => QuietKeepsInv(w, a);
      case Abandon(_) => QuietKeepsInv(w, a);
      case ClearExpired => QuietKeepsInv(w, a);
    }
  }

  /** A client's deadline never moves back. */
  lemma DeadlineNeverDecreases(w: World, a: Action, id: Id)
    requires Inv(w) && Enabled(w, a) && id in w.clients && w.clients[id].deadline.Some?
    ensures id in Step(w, a).clients && Step(w, a).clients[id].deadline.Some?
    ensures Step(w, a).clients[id].deadline.value >= w.clients[id].deadline.value
  {
    assert ClientOk(w, id);
  }

  // ---------- Runs ----------

  ghost predicate IsRun(worlds: seq<World>, actions: seq<Action>) {
    && |worlds| == |actions| + 1
    && worlds[0] == INIT
    && forall i :: 0 <= i < |actions| ==> Enabled(worlds[i], actions[i]) && worlds[i + 1] == Step(worlds[i], actions[i])
  }

  lemma {:induction false} RunKeepsInv(worlds: seq<World>, actions: seq<Action>, k: nat)
    requires IsRun(worlds, actions) && k < |worlds|
    ensures Inv(worlds[k])
  {
    if k > 0 {
      RunKeepsInv(worlds, actions, k - 1);
      StepKeepsInv(worlds[k - 1], actions[k - 1]);
    }
  }

  /** The client believes it leads. */
  predicate Leads(w: World, id: Id) {
    id in w.clients && w.clients[id].deadline.Some? && w.now < w.clients[id].deadline.value
  }

  /** Two clients that have not begun to release never both lead. */
  lemma OneLeader(worlds: seq<World>, actions: seq<Action>, k: nat, a: Id, b: Id)
    requires IsRun(worlds, actions) && k < |worlds|
    requires Leads(worlds[k], a) && !worlds[k].clients[a].releasing
    requires Leads(worlds[k], b) && !worlds[k].clients[b].releasing
    ensures a == b
  {
    RunKeepsInv(worlds, actions, k);
    assert ClientOk(worlds[k], a) && ClientOk(worlds[k], b);
  }

  lemma {:induction false} DeadlinesOverRuns(worlds: seq<World>, actions: seq<Action>, i: nat, k: nat, id: Id)
    requires IsRun(worlds, actions) && i <= k < |worlds|
    requires id in worlds[i].clients && worlds[i].clients[id].deadline.Some?
    ensures id in worlds[k].clients && worlds[k].clients[id].deadline.Some?
    ensures worlds[k].clients[id].deadline.value >= worlds[i].clients[id].deadline.value
    decreases k - i
  {
    if i < k {
      RunKeepsInv(worlds, actions, i);
      DeadlineNeverDecreases(worlds[i], actions[i], id);
      DeadlinesOverRuns(worlds, actions, i + 1, k, id);
    }
  }

  /** The exemption is needed: a client that began to release keeps its deadline, and from the
      moment the store serves the release another client can lead beside it. */
  lemma ReleasingOverlaps(w: World, releaser: Id, r: Request)
    requires Inv(w) && Leads(w, releaser) && r in w.sent && r.client == releaser && r.kind.Release?
    requires w.lease.Some? && w.lease.value.session == releaser && w.lease.value.epoch == r.kind.epoch
    ensures Leads(Step(w, Deliver(r)), releaser) && Step(w, Deliver(r)).lease.None?
    ensures forall q: Request :: q.kind.Acquire? ==> Serve(Step(w, Deliver(r)).lease, q, w.now).1 == Some(1)
  {
  }

  lemma OneMore(worlds: seq<World>, actions: seq<Action>, w: World, a: Action)
      returns (worlds': seq<World>, actions': seq<Action>, w': World)
    requires IsRun(worlds, actions) && w == worlds[|actions|] && Enabled(w, a)
    ensures IsRun(worlds', actions') && w' == worlds'[|actions'|] && w' == Step(w, a)
  {
    w' := Step(w, a);
    worlds', actions' := worlds + [w'], actions + [a];
  }

  /** Such a run: 0 acquires and asks to release, then 1 acquires while 0's deadline still stands. */
  lemma ReleasingRun() returns (worlds: seq<World>, actions: seq<Action>)
    ensures IsRun(worlds, actions)
    ensures Leads(worlds[|actions|], 0) && Leads(worlds[|actions|], 1)
  {
    var first := Request(0, Acquire, 30.0, 0.0, 0);
    var release := Request(0, Release(1), 30.0, 0.0, 1);
    var second := Request(1, Acquire, 30.0, 0.0, 0);
    var w := INIT;
    worlds, actions := [w], [];
    worlds, actions, w := OneMore(worlds, actions, w, Join(0, 30.0));
    worlds, actions, w := OneMore(worlds, actions, w, Join(1, 30.0));
    worlds, actions, w := OneMore(worlds, actions, w, Send(0, Acquire));
    worlds, actions, w := OneMore(worlds, actions, w, Deliver(first));
    worlds, actions, w := OneMore(worlds, actions, w, Hear(Reply(first, 1)));
    worlds, actions, w := OneMore(worlds, actions, w, Send(0, Release(1)));
    worlds, actions, w := OneMore(worlds, actions, w, Deliver(release));
    worlds, actions, w := OneMore(worlds, actions, w, Send(1, Acquire));
    worlds, actions, w := OneMore(worlds, actions, w, Deliver(second));
    worlds, actions, w := OneMore(worlds, actions, w, Hear(Reply(second, 1)));
  }

  // ---------- The client object ----------

  datatype Response = Unreachable | Held | OtherError | Granted(epoch: int)

  datatype Attempt = Attempt(started: real, response: Response)

  datatype Outcome = Acquired | Unavailable | Failed

  predicate Retried(response: Response) { response.Unreachable? || response.Held? }

  class LeaderLeaseClient {
    const ttl: real
    var epoch: Option<int>
    var confirmedDeadline: Option<real>

    constructor (ttl: real)
      ensures this.ttl == ttl && epoch == None && confirmedDeadline == None
    {
      this.ttl, epoch, confirmedDeadline := ttl, None, None;
    }

    /** `attempts` holds what each of the allowed attempts would meet. The first attempt that is
        not retried settles the call; the deadline counts from the start of that very attempt. */
    method AcquireLease(attempts: seq<Attempt>) returns (outcome: Outcome)
      modifies this
      ensures outcome.Unavailable? <==> forall j :: 0 <= j < |attempts| ==> Retried(attempts[j].response)
      ensures !outcome.Unavailable? ==>
        exists k :: 0 <= k < |attempts| && !Retried(attempts[k].response)
                    && (forall j :: 0 <= j < k ==> Retried(attempts[j].response))
                    && (outcome.Acquired? <==> attempts[k].response.Granted?)
                    && (outcome.Acquired? ==> epoch == Some(attempts[k].response.epoch)
                                              && confirmedDeadline == Some(attempts[k].started + ttl))
      ensures !outcome.Acquired? ==> epoch == old(epoch) && confirmedDeadline == old(confirmedDeadline)
    {
      var k := 0;
      while k < |attempts|
        invariant 0 <= k <= |attempts|
        invariant forall j :: 0 <= j < k ==> Retried(attempts[j].response)
        invariant epoch == old(epoch) && confirmedDeadline == old(confirmedDeadline)
      {
        var requestStarted := attempts[k].started;
        match attempts[k].response {
          case Unreachable => k := k + 1;
          case Held => k := k + 1;
          case OtherError => return Failed;
          case Granted(granted) =>
            epoch := Some(granted);
            confirmedDeadline := Some(requestStarted + ttl);
            return Acquired;
        }
      }
      return Unavailable;
    }

    /** A renewal without an epoch is refused before anything is sent. */
    method RenewLease(attempt: Attempt) returns (outcome: Outcome)
      modifies this`confirmedDeadline
      ensures outcome.Unavailable? <==> epoch.None?
      ensures outcome.Acquired? <==> epoch.Some? && attempt.response.Granted?
      ensures confirmedDeadline == if outcome.Acquired? then Some(attempt.started + ttl) else old(confirmedDeadline)
    {
      if epoch.None? {
        return Unavailable;
      }
      if !attempt.response.Granted? {
        return Failed;
      }
      confirmedDeadline := Some(attempt.started + ttl);
      return Acquired;
    }
  }
}

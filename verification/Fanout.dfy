/**
 Fan-out of events to WebSocket clients: bounded send queues, slow clients evicted.

 The classes are the code, one critical section after the other.  The machine below them is the
 protocol: every critical section is a step, and joins, disconnects, drains and `stop` may come
 between any two steps of a delivery.
 */
module Fanout {
  import opened Wrappers
  import opened Collections

  /******* Send queues *******/

  // An event is known by its number, a snapshot is sent once to a client that joins.
  datatype Msg = SnapshotMsg | EventMsg(number: nat)

  // The buffered channel of a connection.
  datatype Channel = Channel(queue: seq<Msg>, cap: nat, closed: bool)

  predicate Accepts(ch: Channel) {
    !ch.closed && |ch.queue| < ch.cap
  }

  function Offer(ch: Channel, m: Msg): Channel {
    if Accepts(ch) then ch.(queue := ch.queue + [m]) else ch
  }

  function Shut(ch: Channel): Channel {
    ch.(closed := true)
  }

  /******* Code *******/

  class Conn {
    var send: seq<Msg>
    const cap: nat
    var closed: bool

    constructor (bufSize: nat)
      ensures Value() == Channel([], bufSize, false)
    {
      send, cap, closed := [], bufSize, false;
    }

    function Value(): Channel
      reads this
    {
      Channel(send, cap, closed)
    }

    method TrySend(data: Msg) returns (ok: bool)
      modifies this
      ensures ok <==> !old(closed) && |old(send)| < cap
      ensures send == (if ok then old(send) + [data] else old(send)) && closed == old(closed)
    {
      if closed {
        return false;
      }
      if |send| < cap {
        send := send + [data];
        return true;
      }
      return false;
    }

    method Close()
      modifies this
      ensures closed && send == old(send)
    {
      if closed {
        return;
      }
      closed := true;
    }
  }

  class Broadcaster {
    const maxConns: int
    var clients: set<Conn>

    constructor (maxConns: int)
      ensures this.maxConns == maxConns && clients == {} && Valid()
    {
      this.maxConns := maxConns;
      clients := {};
    }

    // Registered connections are open and within the limit.
    ghost predicate Valid()
      reads this, clients
    {
      (forall c :: c in clients ==> !c.closed) && (maxConns > 0 ==> |clients| <= maxConns)
    }

    method AddConn(c: Conn) returns (ok: bool)
      requires Valid()
      modifies this
      ensures !c.closed ==> Valid()
      ensures ok == !(maxConns > 0 && |old(clients)| >= maxConns)
      ensures clients == if ok then old(clients) + {c} else old(clients)
    {
      if maxConns > 0 && |clients| >= maxConns {
        return false;
      }
      clients := clients + {c};
      return true;
    }

    method RemoveConn(c: Conn)
      requires Valid()
      modifies this, c
      ensures Valid()
      ensures clients == old(clients) - {c}
      ensures c.send == old(c.send) && c.closed == (c in old(clients) || old(c.closed))
    {
      if c in clients {
        clients := clients - {c};
        c.Close();
      }
    }

    // With nothing else going on: who has room gets the event, who has not is closed and gone.
    method HandleEvent(data: Msg)
      requires Valid()
      modifies this, clients
      ensures Valid() && clients <= old(clients)
      ensures forall c :: c in old(clients) ==>
                if |old(c.send)| < c.cap then c in clients && c.send == old(c.send) + [data] && !c.closed
                else c !in clients && c.send == old(c.send) && c.closed
    {
      var todo := clients;
      while todo != {}
        invariant todo <= old(clients) && todo <= clients <= old(clients)
        invariant Valid()
        invariant forall c :: c in todo ==> c.Value() == old(c.Value())
        invariant forall c :: c in old(clients) - todo ==>
                    if |old(c.send)| < c.cap then c in clients && c.send == old(c.send) + [data] && !c.closed
                    else c !in clients && c.send == old(c.send) && c.closed
        decreases todo
      {
        var c :| c in todo;
        todo := todo - {c};
        var ok := c.TrySend(data);
        if !ok {
          RemoveConn(c);
        }
      }
    }

    method Stop()
      requires Valid()
      modifies this, clients
      ensures Valid() && clients == {}
      ensures forall c :: c in old(clients) ==> c.closed && c.send == old(c.send)
    {
      var todo := clients;
      clients := {};
      while todo != {}
        invariant todo <= old(clients) && clients == {} && Valid()
        invariant forall c :: c in todo ==> c.Value() == old(c.Value())
        invariant forall c :: c in old(clients) - todo ==> c.closed && c.send == old(c.send)
        decreases todo
      {
        var c :| c in todo;
        todo := todo - {c};
        c.Close();
      }
    }
  }

  /******* Protocol *******/

  type ID = nat

  // A connection with its history: the number of events begun when it joined, everything ever put into its
  // queue, what the write pump took out, and how much had been put in when it was closed.
  datatype Client = Client(channel: Channel, joined: nat, accepted: seq<Msg>, drained: seq<Msg>, atClose: nat)

  // Between events, or in the middle of one: the clients still to be sent to, and one being evicted.
  datatype Delivery = Idle | Sending(pending: seq<ID>, evicting: Option<ID>)

  // `begun` numbers the events; `stopping` are the connections a `stop` has yet to close.
  datatype Hub = Hub(conns: map<ID, Client>, clients: set<ID>, begun: nat, delivery: Delivery, stopping: set<ID>)

  const EMPTY_HUB: Hub := Hub(map[], {}, 0, Idle, {})

  datatype Move =
    | Join(id: ID, bufSize: nat)
    | Greet(id: ID)
    | Begin(order: seq<ID>)
    | SendNext
    | Evict
    | Finish
    | Disconnect(id: ID)
    | StopAll
    | StopOne(id: ID)
    | Drain(id: ID)

  function Put(c: Client, m: Msg): Client {
    if Accepts(c.channel) then c.(channel := Offer(c.channel, m), accepted := c.accepted + [m]) else c
  }

  function Closed(c: Client): Client {
    if c.channel.closed then c else c.(channel := Shut(c.channel), atClose := |c.accepted|)
  }

  function Take(c: Client): Client {
    if c.channel.queue == [] then c
    else c.(channel := c.channel.(queue := c.channel.queue[1..]), drained := c.drained + [c.channel.queue[0]])
  }

  function Update(h: Hub, id: ID, c: Client): Hub {
    h.(conns := h.conns[id := c])
  }

  function Removed(h: Hub, id: ID): Hub {
    if id in h.clients && id in h.conns then Update(h, id, Closed(h.conns[id])).(clients := h.clients - {id}) else h
  }

  // When a step can happen.  Events are delivered one at a time; everything else may come at any moment.
  ghost predicate Enabled(h: Hub, m: Move) {
    match m
    case Join(id, _) => id !in h.conns
    case Greet(id) => id in h.conns
    case Begin(order) => h.delivery.Idle? && Visits(order, h.clients)
    case SendNext => h.delivery.Sending? && h.delivery.evicting.None? && h.delivery.pending != []
    case Evict => h.delivery.Sending? && h.delivery.evicting.Some?
    case Finish => h.delivery.Sending? && h.delivery.evicting.None? && h.delivery.pending == []
    case Disconnect(id) => id in h.conns
    case StopAll => true
    case StopOne(id) => id in h.stopping
    case Drain(id) => id in h.conns
  }

  function StepJoin(maxConns: int, h: Hub, id: ID, bufSize: nat): Hub {
    var c := Client(Channel([], bufSize, false), h.begun, [], [], 0);
    if maxConns > 0 && |h.clients| >= maxConns then Update(h, id, c)
    else Update(h, id, c).(clients := h.clients + {id})
  }

  // The next of the clients to send to: one that does not take the event is evicted next.
  function StepSend(h: Hub): Hub {
    if !h.delivery.Sending? || h.delivery.pending == [] || h.delivery.pending[0] !in h.conns then h else
      var id := h.delivery.pending[0];
      var c := h.conns[id];
      Update(h, id, Put(c, EventMsg(h.begun))).(
        delivery := Sending(h.delivery.pending[1..], if Accepts(c.channel) then None else Some(id)))
  }

  function StepEvict(h: Hub): Hub {
    if h.delivery.Sending? && h.delivery.evicting.Some?
    then Removed(h, h.delivery.evicting.value).(delivery := h.delivery.(evicting := None))
    else h
  }

  function Step(maxConns: int, h: Hub, m: Move): Hub {
    match m
    case Join(id, bufSize) => StepJoin(maxConns, h, id, bufSize)
    case Greet(id) => if id in h.conns then Update(h, id, Put(h.conns[id], SnapshotMsg)) else h
    case Begin(order) => h.(begun := h.begun + 1, delivery := Sending(order, None))
    case SendNext => StepSend(h)
    case Evict => StepEvict(h)
    case Finish => h.(delivery := Idle)
    case Disconnect(id) => Removed(h, id)
    case StopAll => h.(clients := {}, stopping := h.stopping + h.clients)
    case StopOne(id) =>
      (if id in h.conns then Update(h, id, Closed(h.conns[id])) else h).(stopping := h.stopping - {id})
    case Drain(id) => if id in h.conns then Update(h, id, Take(h.conns[id])) else h
  }

  function Run(maxConns: int, ms: seq<Move>): Hub {
    if ms == [] then EMPTY_HUB else Step(maxConns, Run(maxConns, ms[..|ms| - 1]), ms[|ms| - 1])
  }

  ghost predicate Possible(maxConns: int, ms: seq<Move>) {
    ms != [] ==> Possible(maxConns, ms[..|ms| - 1]) && Enabled(Run(maxConns, ms[..|ms| - 1]), ms[|ms| - 1])
  }

  /******* What every step keeps *******/

  // The numbers of the events put into a queue.
  function EventsOf(accepted: seq<Msg>): seq<nat> {
    if accepted == [] then [] else
      EventsOf(accepted[..|accepted| - 1])
      + (match accepted[|accepted| - 1] case SnapshotMsg => [] case EventMsg(n) => [n])
  }

  function Count(c: Client): nat {
    |EventsOf(c.accepted)|
  }

  lemma EventsPush(accepted: seq<Msg>, m: Msg)
    ensures EventsOf(accepted + [m]) == EventsOf(accepted) + (match m case SnapshotMsg => [] case EventMsg(n) => [n])
  {
    assert (accepted + [m])[..|accepted|] == accepted;
  }

  // The events accepted are those right after the join, without a gap and in order.
  ghost predicate Contiguous(c: Client) {
    var evs := EventsOf(c.accepted);
    forall i :: 0 <= i < |evs| ==> evs[i] == c.joined + 1 + i
  }

  // What was put in is what was taken out and what is left; after the close nothing was put in.
  ghost predicate QueueOk(c: Client) {
    && c.drained + c.channel.queue == c.accepted
    && |c.channel.queue| <= c.channel.cap
    && (c.channel.closed ==> |c.accepted| == c.atClose)
  }

  // How far a client has come: a pending one lacks the current event, a registered one not being evicted has
  // every event begun since it joined.
  ghost predicate UpToDate(h: Hub, id: ID, c: Client) {
    && c.joined + Count(c) <= h.begun
    && (IsPending(h, id) ==> c.joined + Count(c) + 1 == h.begun)
    && (id in h.clients && !IsPending(h, id) && !IsEvicting(h, id) ==> c.joined + Count(c) == h.begun)
  }

  predicate IsPending(h: Hub, id: ID) {
    h.delivery.Sending? && id in h.delivery.pending
  }

  predicate IsEvicting(h: Hub, id: ID) {
    h.delivery.Sending? && h.delivery.evicting == Some(id)
  }

  ghost predicate ClientOk(h: Hub, id: ID, c: Client) {
    && Contiguous(c) && QueueOk(c) && UpToDate(h, id, c)
    && (id in h.clients ==> !c.channel.closed)
  }

  ghost predicate Inv(maxConns: int, h: Hub) {
    && h.clients <= h.conns.Keys
    && (maxConns > 0 ==> |h.clients| <= maxConns)
    && (h.delivery.Sending? ==> Distinct(h.delivery.pending) && Known(h, h.delivery.pending))
    && (forall id :: id in h.conns ==> ClientOk(h, id, h.conns[id]))
  }

  ghost predicate Distinct(ids: seq<ID>) {
    forall i, j :: 0 <= i < j < |ids| ==> ids[i] != ids[j]
  }

  ghost predicate Known(h: Hub, ids: seq<ID>) {
    forall i :: 0 <= i < |ids| ==> ids[i] in h.conns
  }

  lemma PutKeeps(c: Client, m: Msg)
    requires Contiguous(c) && QueueOk(c)
    requires m.EventMsg? ==> m.number == c.joined + Count(c) + 1
    ensures var d := Put(c, m);
            && Contiguous(d) && QueueOk(d) && d.joined == c.joined && d.channel.closed == c.channel.closed
            && Count(d) == Count(c) + (if Accepts(c.channel) && m.EventMsg? then 1 else 0)
  {
    EventsPush(c.accepted, m);
    assert c.drained + (c.channel.queue + [m]) == (c.drained + c.channel.queue) + [m];
  }

  lemma ClosedKeeps(c: Client)
    requires Contiguous(c) && QueueOk(c)
    ensures Contiguous(Closed(c)) && QueueOk(Closed(c)) && Closed(c).accepted == c.accepted
    ensures Closed(c).joined == c.joined
  {
  }

  lemma TakeKeeps(c: Client)
    requires Contiguous(c) && QueueOk(c)
    ensures Contiguous(Take(c)) && QueueOk(Take(c)) && Take(c).accepted == c.accepted
  {
    if c.channel.queue != [] {
      var q := c.channel.queue;
      assert (c.drained + [q[0]]) + q[1..] == c.drained + q;
    }
  }

  lemma SendKeepsInv(maxConns: int, h: Hub)
    requires Inv(maxConns, h) && Enabled(h, SendNext)
    ensures Inv(maxConns, StepSend(h))
  {
    var h' := StepSend(h);
    var id, rest := h.delivery.pending[0], h.delivery.pending[1..];
    assert h.delivery.pending == [id] + rest;
    assert id !in rest;
    assert IsPending(h, id);
    PutKeeps(h.conns[id], EventMsg(h.begun));
    forall k | k in h'.conns ensures ClientOk(h', k, h'.conns[k]) {
      assert ClientOk(h, k, h.conns[k]);
      assert k != id ==> (IsPending(h', k) <==> IsPending(h, k));
    }
  }

  lemma RemoveKeepsInv(maxConns: int, h: Hub, id: ID, delivery: Delivery)
    requires Inv(maxConns, h) && id in h.conns
    requires delivery == h.delivery || (IsEvicting(h, id) && delivery == h.delivery.(evicting := None))
    ensures Inv(maxConns, Removed(h, id).(delivery := delivery))
  {
    ClosedKeeps(h.conns[id]);
    var h' := Removed(h, id).(delivery := delivery);
    forall k | k in h'.conns ensures ClientOk(h', k, h'.conns[k]) {
      assert ClientOk(h, k, h.conns[k]);
    }
    if id in h.clients {
      assert |h'.clients| == |h.clients| - 1;
    }
  }

  lemma JoinKeepsInv(maxConns: int, h: Hub, id: ID, bufSize: nat)
    requires Inv(maxConns, h) && id !in h.conns
    ensures Inv(maxConns, StepJoin(maxConns, h, id, bufSize))
  {
    var h' := StepJoin(maxConns, h, id, bufSize);
    assert EventsOf([]) == [];
    assert !IsPending(h, id);
    forall k | k in h'.conns ensures ClientOk(h', k, h'.conns[k]) {
      assert k != id ==> ClientOk(h, k, h.conns[k]);
    }
  }

  lemma BeginKeepsInv(maxConns: int, h: Hub, order: seq<ID>)
    requires Inv(maxConns, h) && Enabled(h, Begin(order))
    ensures Inv(maxConns, Step(maxConns, h, Begin(order)))
  {
    var h' := Step(maxConns, h, Begin(order));
    forall k | k in h'.conns ensures ClientOk(h', k, h'.conns[k]) {
      assert ClientOk(h, k, h.conns[k]);
      assert IsPending(h', k) <==> k in h.clients;
    }
  }

  // A change to one connection that leaves its events, and who is registered, alone.
  lemma UpdateKeepsInv(maxConns: int, h: Hub, id: ID, c: Client, clients: set<ID>, stopping: set<ID>)
    requires Inv(maxConns, h) && id in h.conns && clients <= h.clients
    requires Contiguous(c) && QueueOk(c) && c.joined == h.conns[id].joined && Count(c) == Count(h.conns[id])
    requires c.channel.closed == h.conns[id].channel.closed || id !in clients
    ensures Inv(maxConns, Update(h, id, c).(clients := clients, stopping := stopping))
  {
    var h' := Update(h, id, c).(clients := clients, stopping := stopping);
    forall k | k in h'.conns ensures ClientOk(h', k, h'.conns[k]) {
      assert ClientOk(h, k, h.conns[k]);
    }
    SubsetIsSmaller(clients, h.clients);
  }

  // Connections waiting to be closed by a stop are not registered.
  ghost predicate StopOk(h: Hub) {
    h.stopping !! h.clients && h.stopping <= h.conns.Keys
  }

  lemma StepKeepsInv(maxConns: int, h: Hub, m: Move)
    requires Inv(maxConns, h) && StopOk(h) && Enabled(h, m)
    ensures Inv(maxConns, Step(maxConns, h, m)) && StopOk(Step(maxConns, h, m))
  {
    match m
    case Join(id, bufSize) => JoinKeepsInv(maxConns, h, id, bufSize);
    case Greet(id) =>
      PutKeeps(h.conns[id], SnapshotMsg);
      UpdateKeepsInv(maxConns, h, id, Put(h.conns[id], SnapshotMsg), h.clients, h.stopping);
    case Begin(order) => BeginKeepsInv(maxConns, h, order);
    case SendNext => SendKeepsInv(maxConns, h);
    case Evict =>
      var id := h.delivery.evicting.value;
      if id in h.conns {
        RemoveKeepsInv(maxConns, h, id, h.delivery.(evicting := None));
      } else {
        FinishKeepsInv(maxConns, h, h.delivery.(evicting := None));
      }
    case Finish => FinishKeepsInv(maxConns, h, Idle);
    case Disconnect(id) => RemoveKeepsInv(maxConns, h, id, h.delivery);
    case StopAll => StopKeepsInv(maxConns, h);
    case StopOne(id) =>
      ClosedKeeps(h.conns[id]);
      UpdateKeepsInv(maxConns, h, id, Closed(h.conns[id]), h.clients, h.stopping - {id});
    case Drain(id) =>
      TakeKeeps(h.conns[id]);
      UpdateKeepsInv(maxConns, h, id, Take(h.conns[id]), h.clients, h.stopping);
  }

  // The delivery moves on without touching a connection.
  lemma FinishKeepsInv(maxConns: int, h: Hub, delivery: Delivery)
    requires Inv(maxConns, h) && h.delivery.Sending?
    requires (delivery == Idle && h.delivery.pending == [] && h.delivery.evicting.None?)
          || (delivery == h.delivery.(evicting := None) && forall id :: IsEvicting(h, id) ==> id !in h.conns)
    ensures Inv(maxConns, h.(delivery := delivery))
  {
    var h' := h.(delivery := delivery);
    forall k | k in h'.conns ensures ClientOk(h', k, h'.conns[k]) {
      assert ClientOk(h, k, h.conns[k]);
    }
  }

  lemma StopKeepsInv(maxConns: int, h: Hub)
    requires Inv(maxConns, h)
    ensures Inv(maxConns, Step(maxConns, h, StopAll))
  {
    var h' := Step(maxConns, h, StopAll);
    forall k | k in h'.conns ensures ClientOk(h', k, h'.conns[k]) {
      assert ClientOk(h, k, h.conns[k]);
    }
  }

  lemma {:induction false} RunKeepsInv(maxConns: int, ms: seq<Move>)
    requires Possible(maxConns, ms)
    ensures Inv(maxConns, Run(maxConns, ms)) && StopOk(Run(maxConns, ms))
  {
    if ms != [] {
      RunKeepsInv(maxConns, ms[..|ms| - 1]);
      StepKeepsInv(maxConns, Run(maxConns, ms[..|ms| - 1]), ms[|ms| - 1]);
    }
  }

  /******* The laws *******/

  // The numbers after `a` up to `b`.
  function Between(a: nat, b: nat): seq<nat> {
    seq(if a <= b then b - a else 0, i requires i >= 0 => a + 1 + i)
  }

  lemma ContiguousIs(c: Client)
    requires Contiguous(c)
    ensures EventsOf(c.accepted) == Between(c.joined, c.joined + Count(c))
  {
  }

  // The events a client has accepted are a contiguous, ordered run that starts with the first one after it
  // joined; what went out on the wire and what is still queued are all it accepted.
  ghost predicate GapFree(c: Client) {
    && EventsOf(c.accepted) == Between(c.joined, c.joined + Count(c))
    && c.drained + c.channel.queue == c.accepted
  }

  // A client registered between deliveries has accepted every event since it joined.
  ghost predicate UpToNow(h: Hub, c: Client) {
    EventsOf(c.accepted) == Between(c.joined, h.begun)
  }

  // Registered connections are open, and within a positive limit.
  ghost predicate RegisteredOpen(maxConns: int, h: Hub) {
    && (forall id :: id in h.clients ==> id in h.conns && !h.conns[id].channel.closed)
    && (maxConns > 0 ==> |h.clients| <= maxConns)
  }

  ghost predicate Lawful(maxConns: int, h: Hub) {
    && (forall id :: id in h.conns ==> GapFree(h.conns[id]))
    && (h.delivery.Idle? ==> forall id :: id in h.conns && id in h.clients ==> UpToNow(h, h.conns[id]))
    && RegisteredOpen(maxConns, h)
  }

  lemma InvIsLawful(maxConns: int, h: Hub)
    requires Inv(maxConns, h)
    ensures Lawful(maxConns, h)
  {
    forall id | id in h.conns
      ensures GapFree(h.conns[id]) && (h.delivery.Idle? && id in h.clients ==> UpToNow(h, h.conns[id]))
    {
      assert ClientOk(h, id, h.conns[id]);
      ContiguousIs(h.conns[id]);
    }
  }

  // The laws hold at every moment of every run, whatever is interleaved.
  lemma RunsAreLawful(maxConns: int, ms: seq<Move>)
    requires Possible(maxConns, ms)
    ensures Lawful(maxConns, Run(maxConns, ms))
  {
    RunKeepsInv(maxConns, ms);
    InvIsLawful(maxConns, Run(maxConns, ms));
  }

  lemma ClosedIsFinal(maxConns: int, h: Hub, m: Move, id: ID)
    requires id in h.conns && h.conns[id].channel.closed && Enabled(h, m)
    ensures var h' := Step(maxConns, h, m);
            id in h'.conns && h'.conns[id].channel.closed && h'.conns[id].accepted == h.conns[id].accepted
  {
  }

  // Nothing is put into the queue of a closed connection, however the run goes on.
  lemma {:induction false} NothingAfterClose(maxConns: int, ms: seq<Move>, more: seq<Move>, id: ID)
    requires Possible(maxConns, ms + more)
    requires id in Run(maxConns, ms).conns && Run(maxConns, ms).conns[id].channel.closed
    ensures var h, h' := Run(maxConns, ms), Run(maxConns, ms + more);
            id in h'.conns && h'.conns[id].channel.closed && h'.conns[id].accepted == h.conns[id].accepted
  {
    if more == [] {
      assert ms + more == ms;
    } else {
      var n := |more| - 1;
      assert (ms + more)[..|ms + more| - 1] == ms + more[..n];
      NothingAfterClose(maxConns, ms, more[..n], id);
      ClosedIsFinal(maxConns, Run(maxConns, ms + more[..n]), more[n], id);
    }
  }

  /******* Who is evicted *******/

  // A step makes a client one to be evicted only by sending to it while it is closed or its queue is full.
  lemma EvictingMeansFull(maxConns: int, h: Hub, m: Move, id: ID)
    requires Inv(maxConns, h) && Enabled(h, m)
    requires IsEvicting(Step(maxConns, h, m), id) && !IsEvicting(h, id)
    ensures m == SendNext && h.delivery.pending[0] == id && id in h.conns
    ensures var ch := h.conns[id].channel; ch.closed || |ch.queue| == ch.cap
  {
    if m == SendNext {
      assert ClientOk(h, h.delivery.pending[0], h.conns[h.delivery.pending[0]]);
    }
  }

  // A client is deregistered only by its disconnect, by a stop, or by being evicted.
  lemma LeavesOnlySo(maxConns: int, h: Hub, m: Move, id: ID)
    requires id in h.clients && id !in Step(maxConns, h, m).clients
    ensures m == Disconnect(id) || m == StopAll || (m == Evict && IsEvicting(h, id))
  {
  }

  // From the k-th step on the client is neither disconnected nor stopped, and never full when it is sent to.
  ghost predicate KeepsUp(maxConns: int, ms: seq<Move>, k: nat, id: ID) {
    k < |ms| ==>
      var n := |ms| - 1;
      var h := Run(maxConns, ms[..n]);
      && KeepsUp(maxConns, ms[..n], k, id)
      && ms[n] != Disconnect(id) && ms[n] != StopAll
      && (ms[n] == SendNext && h.delivery.Sending? && h.delivery.pending != [] && h.delivery.pending[0] == id ==>
            id in h.conns && |h.conns[id].channel.queue| < h.conns[id].channel.cap)
  }

  // A registered client that keeps up stays registered, whatever is interleaved, and between deliveries has accepted
  // every event since it joined.
  lemma {:induction false} WhoKeepsUpStays(maxConns: int, ms: seq<Move>, k: nat, id: ID)
    requires Possible(maxConns, ms) && k <= |ms| && KeepsUp(maxConns, ms, k, id)
    requires id in Run(maxConns, ms[..k]).clients && !IsEvicting(Run(maxConns, ms[..k]), id)
    ensures var h := Run(maxConns, ms);
            && id in h.clients && id in h.conns && !h.conns[id].channel.closed && !IsEvicting(h, id)
            && (h.delivery.Idle? ==> EventsOf(h.conns[id].accepted) == Between(h.conns[id].joined, h.begun))
    decreases |ms|
  {
    RunsAreLawful(maxConns, ms);
    if k == |ms| {
      assert ms[..k] == ms;
    } else {
      var n := |ms| - 1;
      assert ms[..n][..k] == ms[..k];
      WhoKeepsUpStays(maxConns, ms[..n], k, id);
      RunKeepsInv(maxConns, ms[..n]);
      StepKeepsUp(maxConns, Run(maxConns, ms[..n]), ms[n], id);
    }
  }

  lemma StepKeepsUp(maxConns: int, h: Hub, m: Move, id: ID)
    requires Inv(maxConns, h) && Enabled(h, m) && id in h.clients && id in h.conns && !IsEvicting(h, id)
    requires m != Disconnect(id) && m != StopAll
    requires m == SendNext && h.delivery.pending[0] == id ==> |h.conns[id].channel.queue| < h.conns[id].channel.cap
    ensures var h' := Step(maxConns, h, m); id in h'.clients && !IsEvicting(h', id)
  {
    assert ClientOk(h, id, h.conns[id]);
    if id !in Step(maxConns, h, m).clients {
      LeavesOnlySo(maxConns, h, m, id);
    }
    if IsEvicting(Step(maxConns, h, m), id) {
      EvictingMeansFull(maxConns, h, m, id);
    }
  }

  predicate EvictingKnown(h: Hub) {
    h.delivery.Sending? && h.delivery.evicting.Some? ==> h.delivery.evicting.value in h.conns
  }

  lemma {:induction false} EvictingIsKnown(maxConns: int, ms: seq<Move>)
    requires Possible(maxConns, ms)
    ensures EvictingKnown(Run(maxConns, ms))
  {
    if ms != [] {
      var n := |ms| - 1;
      EvictingIsKnown(maxConns, ms[..n]);
      RunKeepsInv(maxConns, ms[..n]);
      StepKeepsEvictingKnown(maxConns, Run(maxConns, ms[..n]), ms[n]);
    }
  }

  lemma StepKeepsEvictingKnown(maxConns: int, h: Hub, m: Move)
    requires Inv(maxConns, h) && Enabled(h, m) && EvictingKnown(h)
    ensures EvictingKnown(Step(maxConns, h, m))
  {
  }

  // Who joins below the limit is registered, with an empty queue, and not being evicted.
  lemma JoinRegisters(maxConns: int, ms: seq<Move>, id: ID, bufSize: nat)
    requires Possible(maxConns, ms) && Enabled(Run(maxConns, ms), Join(id, bufSize))
    ensures var h, h' := Run(maxConns, ms), Step(maxConns, Run(maxConns, ms), Join(id, bufSize));
            && (id in h'.clients <==> !(maxConns > 0 && |h.clients| >= maxConns))
            && !IsEvicting(h', id) && id in h'.conns && h'.conns[id].joined == h.begun
            && h'.conns[id].channel == Channel([], bufSize, false)
  {
    RunKeepsInv(maxConns, ms);
    EvictingIsKnown(maxConns, ms);
  }

  /******* A delivery with nothing in between *******/

  // Sends to the pending clients one after the other, evicting on the way.
  function SendAll(h: Hub): Hub
    requires h.delivery.Sending? && h.delivery.evicting.None? && Here(h, h.delivery.pending)
    decreases if h.delivery.Sending? then |h.delivery.pending| else 0
  {
    if h.delivery.pending == [] then h.(delivery := Idle) else
      var sent := StepSend(h);
      SendAll(if sent.delivery.evicting.Some? then StepEvict(sent) else sent)
  }

  predicate Here(h: Hub, ids: seq<ID>) {
    forall i :: 0 <= i < |ids| ==> ids[i] in h.conns
  }

  // What the broadcaster's HandleEvent promises of one client.
  ghost predicate Handled(h: Hub, h': Hub, id: ID)
    requires id in h.conns
  {
    && id in h'.conns
    && var c, c' := h.conns[id].channel, h'.conns[id].channel;
       && c'.cap == c.cap
       && if |c.queue| < c.cap
          then id in h'.clients && c'.queue == c.queue + [EventMsg(h.begun)] && !c'.closed
          else id !in h'.clients && c'.queue == c.queue && c'.closed
  }

  lemma SendOne(h: Hub, id: ID, rest: seq<ID>)
    requires h.delivery == Sending([id] + rest, None) && Here(h, [id] + rest) && id in h.conns && id in h.clients
    requires !h.conns[id].channel.closed
    ensures var sent := StepSend(h);
            var h' := if sent.delivery.Sending? && sent.delivery.evicting.Some? then StepEvict(sent) else sent;
            && h'.delivery == Sending(rest, None) && Here(h', rest) && h'.begun == h.begun && Handled(h, h', id)
            && forall k :: k in h.conns && k != id ==>
                 k in h'.conns && h'.conns[k] == h.conns[k] && (k in h'.clients <==> k in h.clients)
  {
    assert ([id] + rest)[1..] == rest;
    assert forall i :: 0 <= i < |rest| ==> rest[i] == ([id] + rest)[i + 1];
  }

  lemma {:induction false} SendAllHandles(h: Hub, pending: seq<ID>, k: ID)
    requires h.delivery == Sending(pending, None) && Here(h, pending) && Distinct(pending) && k in h.conns
    requires forall i :: 0 <= i < |pending| ==> pending[i] in h.clients && !h.conns[pending[i]].channel.closed
    ensures var h' := SendAll(h);
            && h'.delivery.Idle?
            && (if k in pending then Handled(h, h', k)
                else k in h'.conns && h'.conns[k] == h.conns[k] && (k in h'.clients <==> k in h.clients))
    decreases pending
  {
    if pending != [] {
      var id, rest := pending[0], pending[1..];
      assert pending == [id] + rest && id in h.conns;
      SendOne(h, id, rest);
      var sent := StepSend(h);
      var next := if sent.delivery.evicting.Some? then StepEvict(sent) else sent;
      assert id !in rest;
      SendAllHandles(next, rest, k);
    }
  }

  // Without interleaving the steps of a delivery do to every registered client what HandleEvent promises.
  lemma DeliveryIsHandleEvent(maxConns: int, h: Hub, order: seq<ID>, id: ID)
    requires Inv(maxConns, h) && Enabled(h, Begin(order)) && id in h.conns
    ensures var begun := Step(maxConns, h, Begin(order));
            && Here(begun, order)
            && var h' := SendAll(begun);
               if id in h.clients then Handled(begun, h', id) else id in h'.conns && h'.conns[id] == h.conns[id]
  {
    SendAllHandles(Step(maxConns, h, Begin(order)), order, id);
  }
}

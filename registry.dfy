/**
 * The pusher dispatch registry, run one step at a time.
 *
 * The registry owns a client directory (client ID to client handle) and an
 * event table (event name to Event).  Producers hand a payload to
 * DelegateEvent, which puts it on the Broadcast channel of the named event;
 * one worker per event takes payloads off that channel, looks the target
 * client up and sends it the data, writing `false` to the payload's Response
 * channel when the client is missing or the send fails.  A successful send
 * writes nothing.
 *
 * Channels are identified by a ChanId.  The payloads waiting on each
 * Broadcast channel are kept in `Broadcasts`, every write to a Response
 * channel is appended to the log `Responses`, and each started worker is
 * recorded in `Workers` with the table entry it was started for.  The
 * transport's Send is an oracle passed to the worker step.
 *
 * The class SocketRegistry holds this state in fields; its methods are
 * specified by the pure transitions on the value Dispatch below, and the
 * lemmas about several steps (per-event FIFO, bulk delegation, one worker per
 * event) are stated over those transitions.
 */
module Pusher {
  import opened Wrappers

  /** Identity of a Go channel. */
  type ChanId = nat
  type Bytes = seq<bv8>

  /** The push-transport client configuration; its network behaviour is not modelled. */
  class Transport {
    const AppId: string
    const Key: string
    const Secret: string
    const Cluster: string

    constructor (appId: string, key: string, secret: string, cluster: string)
      ensures AppId == appId && Key == key && Secret == secret && Cluster == cluster
    {
      AppId, Key, Secret, Cluster := appId, key, secret, cluster;
    }
  }

  /** A client handle: its ID and the transport it delivers through once registered. */
  class RegistryClient {
    const ID: string
    var PusherConn: Transport?

    constructor (id: string)
      ensures ID == id && PusherConn == null
    {
      ID := id;
      PusherConn := null;
    }
  }

  /** A submitted message: target client, data, and the channel its outcome is written to. */
  datatype Payload = Payload(ClientID: string, Data: Bytes, Response: ChanId)

  /** A dispatchable event: its name and the channel its payloads arrive on. */
  datatype Event = Event(Name: string, Broadcast: ChanId)

  /** One write of `Value` to the Response channel `Response`. */
  datatype Ack = Ack(Response: ChanId, Value: bool)

  /** A worker started for table entry `Key`, serving the Event value `Ev` it was given. */
  datatype Worker = Worker(Key: string, Ev: Event)

  /** The transport's send of a client, as an oracle: did delivering `data` under `eventName` succeed? */
  type Sender = (RegistryClient, Bytes, string) -> bool

  /** The registry's state at one moment. */
  datatype Dispatch = Dispatch(
    Clients: map<string, RegistryClient>,
    Events: map<string, Event>,
    Broadcasts: map<ChanId, seq<Payload>>,
    Responses: seq<Ack>,
    Workers: multiset<Worker>)

  /** The payloads waiting on channel `c`, oldest first. */
  function Pending(s: Dispatch, c: ChanId): seq<Payload>
  {
    if c in s.Broadcasts then s.Broadcasts[c] else []
  }

  // ---------------------------------------------------------------------
  // Client directory

  /** Stores `c` under its ID, replacing whatever was there. */
  function Register(s: Dispatch, c: RegistryClient): (r: Dispatch)
    ensures c.ID in r.Clients && r.Clients[c.ID] == c
    ensures forall id :: id != c.ID ==>
      (id in r.Clients <==> id in s.Clients) && (id in s.Clients ==> r.Clients[id] == s.Clients[id])
    ensures r.Events == s.Events && r.Broadcasts == s.Broadcasts
    ensures r.Responses == s.Responses && r.Workers == s.Workers
  {
    s.(Clients := s.Clients[c.ID := c])
  }

  /** Deletes whatever handle is stored under `id`; nothing happens when there is none. */
  function Unregister(s: Dispatch, id: string): (r: Dispatch)
    ensures id !in r.Clients
    ensures forall k :: k != id ==>
      (k in r.Clients <==> k in s.Clients) && (k in s.Clients ==> r.Clients[k] == s.Clients[k])
    ensures id !in s.Clients ==> r == s
    ensures r.Events == s.Events && r.Broadcasts == s.Broadcasts
    ensures r.Responses == s.Responses && r.Workers == s.Workers
  {
    s.(Clients := s.Clients - {id})
  }

  /** Re-registering an ID keeps only the last handle. */
  lemma LastWriteWins(s: Dispatch, c1: RegistryClient, c2: RegistryClient)
    requires c1.ID == c2.ID
    ensures Register(Register(s, c1), c2) == Register(s, c2)
  {
  }

  /** Unregistering removes the ID even when a different handle was registered under it. */
  lemma UnregisterAfterRegister(s: Dispatch, c: RegistryClient, other: RegistryClient)
    requires other.ID == c.ID
    ensures Unregister(Register(s, other), c.ID) == Unregister(s, c.ID)
  {
  }

  // ---------------------------------------------------------------------
  // Event table

  /** Installs every entry of `events`, overwriting entries under the same name. */
  function InstallEvents(s: Dispatch, events: map<string, Event>): (r: Dispatch)
    ensures forall k :: k in events ==> k in r.Events && r.Events[k] == events[k]
    ensures forall k :: k !in events ==>
      (k in r.Events <==> k in s.Events) && (k in s.Events ==> r.Events[k] == s.Events[k])
    ensures r.Clients == s.Clients && r.Broadcasts == s.Broadcasts
    ensures r.Responses == s.Responses && r.Workers == s.Workers
  {
    s.(Events := s.Events + events)
  }

  /** The state NewPusherRegistry builds: no clients, the supplied events, no pending payloads, no workers. */
  function Initial(events: map<string, Event>): (r: Dispatch)
    ensures r.Clients == map[] && r.Events == events
    ensures r.Responses == [] && r.Workers == multiset{}
    ensures forall c :: Pending(r, c) == []
  {
    InstallEvents(Dispatch(map[], map[], map[], [], multiset{}), events)
  }

  // ---------------------------------------------------------------------
  // Producer entry point

  /** Submits `p` under event `name`: onto that event's channel, or a single `false` when the name is unknown. */
  function Delegate(s: Dispatch, name: string, p: Payload): (r: Dispatch)
    ensures name in s.Events ==>
      var c := s.Events[name].Broadcast;
      && Pending(r, c) == Pending(s, c) + [p]
      && (forall d :: d != c ==> Pending(r, d) == Pending(s, d))
      && r.Responses == s.Responses
    ensures name !in s.Events ==>
      r.Broadcasts == s.Broadcasts && r.Responses == s.Responses + [Ack(p.Response, false)]
    ensures r.Clients == s.Clients && r.Events == s.Events && r.Workers == s.Workers
  {
    if name in s.Events then
      var c := s.Events[name].Broadcast;
      s.(Broadcasts := s.Broadcasts[c := Pending(s, c) + [p]])
    else
      s.(Responses := s.Responses + [Ack(p.Response, false)])
  }

  // ---------------------------------------------------------------------
  // One worker iteration

  /** Delivering `p` for the event named `name` reports failure: the client is missing or its send fails. */
  predicate Fails(clients: map<string, RegistryClient>, p: Payload, name: string, send: Sender)
  {
    p.ClientID !in clients || !send(clients[p.ClientID], p.Data, name)
  }

  /**
   * One iteration of the worker serving `ev`: take the oldest payload off its
   * channel, and write `false` to the payload's Response channel when the
   * client is missing or Send (called with the Event's own Name) fails.
   * With nothing pending the receive waits and the state stays as it is.
   */
  function Deliver(s: Dispatch, ev: Event, send: Sender): (r: Dispatch)
    ensures Pending(s, ev.Broadcast) == [] ==> r == s
    ensures Pending(s, ev.Broadcast) != [] ==>
      var c := ev.Broadcast;
      var p := Pending(s, c)[0];
      && Pending(r, c) == Pending(s, c)[1..]
      && (forall d :: d != c ==> Pending(r, d) == Pending(s, d))
      && (p.ClientID !in s.Clients ==> r.Responses == s.Responses + [Ack(p.Response, false)])
      && (p.ClientID in s.Clients && !send(s.Clients[p.ClientID], p.Data, ev.Name) ==>
            r.Responses == s.Responses + [Ack(p.Response, false)])
      && (p.ClientID in s.Clients && send(s.Clients[p.ClientID], p.Data, ev.Name) ==>
            r.Responses == s.Responses)
    ensures r.Clients == s.Clients && r.Events == s.Events && r.Workers == s.Workers
  {
    var c := ev.Broadcast;
    var q := Pending(s, c);
    if q == [] then s
    else
      var p := q[0];
      var taken := s.(Broadcasts := s.Broadcasts[c := q[1..]]);
      if p.ClientID in s.Clients then
        if send(s.Clients[p.ClientID], p.Data, ev.Name) then taken
        else taken.(Responses := s.Responses + [Ack(p.Response, false)])
      else
        taken.(Responses := s.Responses + [Ack(p.Response, false)])
  }

  // ---------------------------------------------------------------------
  // Starting the workers

  /** One worker for every entry of the table, given that entry's Event. */
  function Spawned(events: map<string, Event>): (ws: set<Worker>)
    ensures forall k :: k in events ==> Worker(k, events[k]) in ws
    ensures forall w :: w in ws ==> w.Key in events && events[w.Key] == w.Ev
  {
    set k | k in events :: Worker(k, events[k])
  }

  /** Run: starts one more worker per current table entry. */
  function Launch(s: Dispatch): (r: Dispatch)
    ensures forall k :: k in s.Events ==>
      r.Workers[Worker(k, s.Events[k])] == s.Workers[Worker(k, s.Events[k])] + 1
    ensures forall w :: r.Workers[w] > s.Workers[w] ==> w.Key in s.Events && s.Events[w.Key] == w.Ev
    ensures forall w: Worker :: !(w.Key in s.Events && s.Events[w.Key] == w.Ev) ==> r.Workers[w] == s.Workers[w]
    ensures r.Clients == s.Clients && r.Events == s.Events
    ensures r.Broadcasts == s.Broadcasts && r.Responses == s.Responses
  {
    s.(Workers := s.Workers + multiset(Spawned(s.Events)))
  }

  /** Adding an entry to the table adds exactly its worker. */
  lemma SpawnedInsert(events: map<string, Event>, k: string, e: Event)
    requires k !in events
    ensures Spawned(events[k := e]) == Spawned(events) + {Worker(k, e)}
  {
    forall w | w in Spawned(events[k := e])
      ensures w in Spawned(events) + {Worker(k, e)}
    {
      if w.Key != k {
        assert w == Worker(w.Key, events[w.Key]);
      }
    }
    forall w | w in Spawned(events)
      ensures w in Spawned(events[k := e])
    {
      assert events[k := e][w.Key] == w.Ev;
    }
    var m := events[k := e];
    assert k in m && m[k] == e;
    assert Worker(k, m[k]) in Spawned(m);
    assert Spawned(events[k := e]) <= Spawned(events) + {Worker(k, e)};
    assert Spawned(events) + {Worker(k, e)} <= Spawned(events[k := e]);
  }

  /** Adding an entry to the table adds its worker once to the started ones. */
  lemma SpawnedGrows(events: map<string, Event>, k: string, e: Event)
    requires k !in events
    ensures multiset(Spawned(events[k := e])) == multiset(Spawned(events)) + multiset{Worker(k, e)}
  {
    SpawnedInsert(events, k, e);
    assert Worker(k, e) !in Spawned(events);
  }

  /** Visiting one more key of a table extends the visited part by that entry. */
  lemma VisitOneMore(events: map<string, Event>, todo: set<string>, k: string)
    requires k in todo && todo <= events.Keys
    ensures events - (todo - {k}) == (events - todo)[k := events[k]]
  {
  }

  /** Run starts exactly as many workers as the table has entries. */
  lemma {:induction false} SpawnedOnePerEvent(events: map<string, Event>)
    ensures |Spawned(events)| == |events|
    decreases |events|
  {
    if events != map[] {
      var k :| k in events;
      var rest := events - {k};
      SpawnedOnePerEvent(rest);
      assert events == rest[k := events[k]];
      SpawnedInsert(rest, k, events[k]);
      assert events.Keys == rest.Keys + {k};
    }
  }

  // ---------------------------------------------------------------------
  // Several steps

  /** Submits `ps` in order under event `name`. */
  function DelegateAll(s: Dispatch, name: string, ps: seq<Payload>): Dispatch
    decreases |ps|
  {
    if ps == [] then s else DelegateAll(Delegate(s, name, ps[0]), name, ps[1..])
  }

  /**
   * One iteration of the worker serving `ev` per element of `sends`, the
   * k-th iteration seeing the transport answer as `sends[k]` does, so a send
   * may fail at one step and succeed at the next on the same payload.
   */
  function Drain(s: Dispatch, ev: Event, sends: seq<Sender>): Dispatch
    decreases |sends|
  {
    if sends == [] then s else Drain(Deliver(s, ev, sends[0]), ev, sends[1..])
  }

  /** The `false` writes the worker makes for `ps`, in order: one per failing payload, payload k meeting `sends[k]`. */
  function FailureAcks(clients: map<string, RegistryClient>, ps: seq<Payload>, name: string, sends: seq<Sender>): seq<Ack>
    requires |sends| == |ps|
  {
    if ps == [] then []
    else
      (if Fails(clients, ps[0], name, sends[0]) then [Ack(ps[0].Response, false)] else [])
      + FailureAcks(clients, ps[1..], name, sends[1..])
  }

  /**
   * `idx` pairs each ack with the payload it answers: strictly increasing
   * positions of failing payloads, every failing payload among them, and
   * ack i is the `false` for payload idx[i].
   */
  ghost predicate OneAckPerFailure(clients: map<string, RegistryClient>, ps: seq<Payload>, name: string,
                                   sends: seq<Sender>, acks: seq<Ack>, idx: seq<int>)
    requires |sends| == |ps|
  {
    && |idx| == |acks|
    && Increasing(idx)
    && AnswersFailures(clients, ps, name, sends, acks, idx)
    && CoversFailures(clients, ps, name, sends, idx)
  }

  ghost predicate Increasing(idx: seq<int>)
  {
    forall i, j :: 0 <= i < j < |idx| ==> idx[i] < idx[j]
  }

  /** Ack i is the `false` for the failing payload at position idx[i]. */
  ghost predicate AnswersFailures(clients: map<string, RegistryClient>, ps: seq<Payload>, name: string,
                                  sends: seq<Sender>, acks: seq<Ack>, idx: seq<int>)
    requires |sends| == |ps| && |idx| == |acks|
  {
    forall i :: 0 <= i < |idx| ==>
      && 0 <= idx[i] < |ps|
      && acks[i] == Ack(ps[idx[i]].Response, false)
      && Fails(clients, ps[idx[i]], name, sends[idx[i]])
  }

  /** Every failing payload's position is among `idx`. */
  ghost predicate CoversFailures(clients: map<string, RegistryClient>, ps: seq<Payload>, name: string,
                                 sends: seq<Sender>, idx: seq<int>)
    requires |sends| == |ps|
  {
    forall k :: 0 <= k < |ps| && Fails(clients, ps[k], name, sends[k]) ==> k in idx
  }

  /** The `false` writes for payloads submitted under an unknown event name, in order. */
  function Rejections(ps: seq<Payload>): (acks: seq<Ack>)
    ensures |acks| == |ps|
    ensures forall i :: 0 <= i < |ps| ==> acks[i] == Ack(ps[i].Response, false)
  {
    if ps == [] then [] else [Ack(ps[0].Response, false)] + Rejections(ps[1..])
  }

  /** Submitting to a known event appends the payloads, in order, to its channel and writes no response. */
  lemma {:induction false} DelegateAllKnown(s: Dispatch, name: string, ps: seq<Payload>)
    requires name in s.Events
    ensures var r := DelegateAll(s, name, ps);
      var c := s.Events[name].Broadcast;
      && Pending(r, c) == Pending(s, c) + ps
      && (forall d :: d != c ==> Pending(r, d) == Pending(s, d))
      && r.Responses == s.Responses
      && r.Clients == s.Clients && r.Events == s.Events && r.Workers == s.Workers
    decreases |ps|
  {
    if ps != [] {
      var c := s.Events[name].Broadcast;
      var s1 := Delegate(s, name, ps[0]);
      DelegateAllKnown(s1, name, ps[1..]);
      assert Pending(s, c) + [ps[0]] + ps[1..] == Pending(s, c) + ps;
    }
  }

  /** Submitting to an unknown event writes one `false` per payload, in order, and queues nothing. */
  lemma {:induction false} DelegateAllUnknown(s: Dispatch, name: string, ps: seq<Payload>)
    requires name !in s.Events
    ensures var r := DelegateAll(s, name, ps);
      && r.Broadcasts == s.Broadcasts
      && r.Responses == s.Responses + Rejections(ps)
      && r.Clients == s.Clients && r.Events == s.Events && r.Workers == s.Workers
    decreases |ps|
  {
    if ps != [] {
      var s1 := Delegate(s, name, ps[0]);
      DelegateAllUnknown(s1, name, ps[1..]);
      assert s.Responses + [Ack(ps[0].Response, false)] + Rejections(ps[1..])
          == s.Responses + Rejections(ps);
    }
  }

  /** `|sends|` worker iterations handle the oldest payloads in the order they were queued. */
  lemma {:induction false} DrainInOrder(s: Dispatch, ev: Event, sends: seq<Sender>)
    requires |sends| <= |Pending(s, ev.Broadcast)|
    ensures var r := Drain(s, ev, sends);
      var q := Pending(s, ev.Broadcast);
      && Pending(r, ev.Broadcast) == q[|sends|..]
      && (forall d :: d != ev.Broadcast ==> Pending(r, d) == Pending(s, d))
      && r.Responses == s.Responses + FailureAcks(s.Clients, q[..|sends|], ev.Name, sends)
      && r.Clients == s.Clients && r.Events == s.Events && r.Workers == s.Workers
    decreases |sends|
  {
    var q := Pending(s, ev.Broadcast);
    var n := |sends|;
    if n > 0 {
      var s1 := Deliver(s, ev, sends[0]);
      DrainInOrder(s1, ev, sends[1..]);
      var p := q[0];
      var head := if Fails(s.Clients, p, ev.Name, sends[0]) then [Ack(p.Response, false)] else [];
      assert s1.Responses == s.Responses + head;
      assert q[..n][1..] == q[1..][..n - 1];
      assert q[1..][n - 1..] == q[n..];
      assert FailureAcks(s.Clients, q[..n], ev.Name, sends)
          == head + FailureAcks(s.Clients, q[1..][..n - 1], ev.Name, sends[1..]);
    }
  }

  /**
   * FIFO per event: payloads submitted in order to an idle event are
   * delivered in that order, and the producers hear back exactly the
   * failures, in submission order; no other channel is touched.
   */
  lemma {:induction false} FifoPerEvent(s: Dispatch, name: string, ev: Event, ps: seq<Payload>, sends: seq<Sender>)
    requires name in s.Events && s.Events[name] == ev
    requires Pending(s, ev.Broadcast) == [] && |sends| == |ps|
    ensures var r := Drain(DelegateAll(s, name, ps), ev, sends);
      && Pending(r, ev.Broadcast) == []
      && (forall d :: d != ev.Broadcast ==> Pending(r, d) == Pending(s, d))
      && r.Responses == s.Responses + FailureAcks(s.Clients, ps, ev.Name, sends)
  {
    var s1 := DelegateAll(s, name, ps);
    DelegateAllKnown(s, name, ps);
    assert Pending(s1, ev.Broadcast) == ps;
    DrainInOrder(s1, ev, sends);
    assert ps[..|ps|] == ps && ps[|ps|..] == [];
    assert s1.Clients == s.Clients;
  }

  /** A successful delivery is never acknowledged: when every send succeeds, producers hear nothing. */
  lemma {:induction false} SuccessIsSilent(clients: map<string, RegistryClient>, ps: seq<Payload>, name: string, sends: seq<Sender>)
    requires |sends| == |ps|
    requires forall i :: 0 <= i < |ps| ==> !Fails(clients, ps[i], name, sends[i])
    ensures FailureAcks(clients, ps, name, sends) == []
    decreases |ps|
  {
    if ps != [] {
      assert !Fails(clients, ps[0], name, sends[0]);
      SuccessIsSilent(clients, ps[1..], name, sends[1..]);
    }
  }

  /**
   * The worker writes exactly one `false` per failing payload and none for
   * the others: the acks match, in order, the failing payloads' Response channels.
   */
  lemma {:induction false} FailureAcksBounded(clients: map<string, RegistryClient>, ps: seq<Payload>, name: string, sends: seq<Sender>)
    requires |sends| == |ps|
    ensures |FailureAcks(clients, ps, name, sends)| <= |ps|
    ensures exists idx :: OneAckPerFailure(clients, ps, name, sends, FailureAcks(clients, ps, name, sends), idx)
    decreases |ps|
  {
    var acks := FailureAcks(clients, ps, name, sends);
    if ps == [] {
      assert OneAckPerFailure(clients, ps, name, sends, acks, []);
    } else {
      var rest := FailureAcks(clients, ps[1..], name, sends[1..]);
      FailureAcksBounded(clients, ps[1..], name, sends[1..]);
      var idx' :| OneAckPerFailure(clients, ps[1..], name, sends[1..], rest, idx');
      var idx := ConsAck(clients, ps, name, sends, rest, idx');
      assert acks == (if Fails(clients, ps[0], name, sends[0]) then [Ack(ps[0].Response, false)] else []) + rest;
    }
  }

  /** Extends the ack-to-payload pairing of `ps[1..]` by the head payload. */
  lemma ConsAck(clients: map<string, RegistryClient>, ps: seq<Payload>, name: string, sends: seq<Sender>,
                rest: seq<Ack>, idx': seq<int>) returns (idx: seq<int>)
    requires |sends| == |ps| > 0
    requires OneAckPerFailure(clients, ps[1..], name, sends[1..], rest, idx')
    ensures OneAckPerFailure(clients, ps, name, sends,
      (if Fails(clients, ps[0], name, sends[0]) then [Ack(ps[0].Response, false)] else []) + rest, idx)
  {
    var fails := Fails(clients, ps[0], name, sends[0]);
    var head := if fails then [Ack(ps[0].Response, false)] else [];
    idx := (if fails then [0] else []) + Shift(idx');
    ConsIncreasing(clients, ps, name, sends, rest, idx', fails);
    ConsAnswers(clients, ps, name, sends, rest, idx');
    ConsCovers(clients, ps, name, sends, rest, idx');
  }

  /** Every position one further on. */
  function Shift(idx: seq<int>): (r: seq<int>)
    ensures |r| == |idx| && forall i :: 0 <= i < |idx| ==> r[i] == idx[i] + 1
  {
    seq(|idx|, i requires 0 <= i < |idx| => idx[i] + 1)
  }

  lemma ConsIncreasing(clients: map<string, RegistryClient>, ps: seq<Payload>, name: string, sends: seq<Sender>,
                       rest: seq<Ack>, idx': seq<int>, fails: bool)
    requires |sends| == |ps| > 0
    requires OneAckPerFailure(clients, ps[1..], name, sends[1..], rest, idx')
    ensures Increasing((if fails then [0] else []) + Shift(idx'))
  {
    var idx := (if fails then [0] else []) + Shift(idx');
    forall i, j | 0 <= i < j < |idx| ensures idx[i] < idx[j] {
      if fails && i == 0 {
        assert idx[j] == idx'[j - 1] + 1;
        assert 0 <= idx'[j - 1];
      }
    }
  }

  lemma ConsAnswers(clients: map<string, RegistryClient>, ps: seq<Payload>, name: string, sends: seq<Sender>,
                    rest: seq<Ack>, idx': seq<int>)
    requires |sends| == |ps| > 0
    requires OneAckPerFailure(clients, ps[1..], name, sends[1..], rest, idx')
    ensures var fails := Fails(clients, ps[0], name, sends[0]);
      AnswersFailures(clients, ps, name, sends,
        (if fails then [Ack(ps[0].Response, false)] else []) + rest,
        (if fails then [0] else []) + Shift(idx'))
  {
    var ps', sends' := ps[1..], sends[1..];
    var fails := Fails(clients, ps[0], name, sends[0]);
    var acks := (if fails then [Ack(ps[0].Response, false)] else []) + rest;
    var idx := (if fails then [0] else []) + Shift(idx');
    forall i | 0 <= i < |idx|
      ensures 0 <= idx[i] < |ps|
      ensures acks[i] == Ack(ps[idx[i]].Response, false)
      ensures Fails(clients, ps[idx[i]], name, sends[idx[i]])
    {
      if !fails || i > 0 {
        var m := if fails then i - 1 else i;
        assert idx[i] == idx'[m] + 1 && acks[i] == rest[m];
        assert ps[idx[i]] == ps'[idx'[m]] && sends[idx[i]] == sends'[idx'[m]];
      }
    }
  }

  lemma ConsCovers(clients: map<string, RegistryClient>, ps: seq<Payload>, name: string, sends: seq<Sender>,
                   rest: seq<Ack>, idx': seq<int>)
    requires |sends| == |ps| > 0
    requires OneAckPerFailure(clients, ps[1..], name, sends[1..], rest, idx')
    ensures var fails := Fails(clients, ps[0], name, sends[0]);
      CoversFailures(clients, ps, name, sends, (if fails then [0] else []) + Shift(idx'))
  {
    var ps', sends' := ps[1..], sends[1..];
    var fails := Fails(clients, ps[0], name, sends[0]);
    var shifted := Shift(idx');
    var idx := (if fails then [0] else []) + shifted;
    forall k | 0 <= k < |ps| && Fails(clients, ps[k], name, sends[k])
      ensures k in idx
    {
      if k == 0 {
        assert idx[0] == 0;
      } else {
        assert ps'[k - 1] == ps[k] && sends'[k - 1] == sends[k];
        var m :| 0 <= m < |idx'| && idx'[m] == k - 1;
        assert idx[|idx| - |shifted| + m] == k;
      }
    }
  }

  // ---------------------------------------------------------------------
  // The registry object

  class SocketRegistry {
    const PusherConn: Transport
    var Clients: map<string, RegistryClient>
    var Events: map<string, Event>
    var Broadcasts: map<ChanId, seq<Payload>>
    var Responses: seq<Ack>
    var Workers: multiset<Worker>

    /** The registry's current state as a value. */
    function Snapshot(): Dispatch
      reads this
    {
      Dispatch(Clients, Events, Broadcasts, Responses, Workers)
    }

    /** NewPusherRegistry: a fresh transport, no clients, and the supplied events installed. */
    constructor (appId: string, key: string, secret: string, cluster: string, events: map<string, Event>)
      ensures fresh(PusherConn)
      ensures PusherConn.AppId == appId && PusherConn.Key == key
      ensures PusherConn.Secret == secret && PusherConn.Cluster == cluster
      ensures Snapshot() == Initial(events)
    {
      PusherConn := new Transport(appId, key, secret, cluster);
      Clients := map[];
      Events := map[];
      Broadcasts := map[];
      Responses := [];
      Workers := multiset{};
      new;
      RegisterEvents(events);
    }

    /** Stores each entry of `events` in the table, one at a time. */
    method RegisterEvents(events: map<string, Event>)
      modifies this
      ensures Snapshot() == InstallEvents(old(Snapshot()), events)
    {
      var todo := events.Keys;
      while todo != {}
        invariant todo <= events.Keys
        invariant Events == old(Events) + (events - todo)
        invariant Clients == old(Clients) && Broadcasts == old(Broadcasts)
        invariant Responses == old(Responses) && Workers == old(Workers)
        decreases todo
      {
        var k :| k in todo;
        Events := Events[k := events[k]];
        todo := todo - {k};
        assert Events == old(Events) + (events - todo);
      }
      assert events - todo == events;
    }

    /** Points the client at the registry's transport and stores it under its ID. */
    method RegisterClient(c: RegistryClient)
      modifies this, c
      ensures c.PusherConn == PusherConn
      ensures Snapshot() == Register(old(Snapshot()), c)
    {
      c.PusherConn := PusherConn;
      Clients := Clients[c.ID := c];
    }

    /** Deletes the entry under the client's ID, whichever handle it holds. */
    method UnRegisterClient(c: RegistryClient)
      modifies this
      ensures Snapshot() == Unregister(old(Snapshot()), c.ID)
    {
      Clients := Clients - {c.ID};
    }

    /** Looks a client up by ID: the stored handle and true, or null and false. */
    method GetClient(id: string) returns (c: RegistryClient?, ok: bool)
      ensures ok <==> id in Clients
      ensures ok ==> c == Clients[id]
      ensures !ok ==> c == null
    {
      if id in Clients {
        c, ok := Clients[id], true;
      } else {
        c, ok := null, false;
      }
    }

    /** Puts the payload on the named event's channel, or writes `false` to its Response when the name is unknown. */
    method DelegateEvent(eventName: string, payload: Payload)
      modifies this
      ensures Snapshot() == Delegate(old(Snapshot()), eventName, payload)
    {
      if eventName in Events {
        var ev := Events[eventName];
        var queue := if ev.Broadcast in Broadcasts then Broadcasts[ev.Broadcast] else [];
        Broadcasts := Broadcasts[ev.Broadcast := queue + [payload]];
      } else {
        Responses := Responses + [Ack(payload.Response, false)];
      }
    }

    /**
     * One iteration of NewWorker(event): receives the oldest payload on the
     * event's channel (`received` is false when none is waiting) and delivers it.
     */
    method WorkerStep(event: Event, send: Sender) returns (received: bool)
      modifies this
      ensures received <==> old(Pending(Snapshot(), event.Broadcast)) != []
      ensures Snapshot() == Deliver(old(Snapshot()), event, send)
    {
      var ch := event.Broadcast;
      var queue := if ch in Broadcasts then Broadcasts[ch] else [];
      if queue == [] {
        return false;
      }
      var payload := queue[0];
      Broadcasts := Broadcasts[ch := queue[1..]];
      received := true;
      var client, ok := GetClient(payload.ClientID);
      if ok {
        var sent := send(client, payload.Data, event.Name);
        if !sent {
          Responses := Responses + [Ack(payload.Response, false)];
        }
      } else {
        Responses := Responses + [Ack(payload.Response, false)];
      }
    }

    /** Starts one worker for each entry of the table, visiting the entries one at a time. */
    method Run()
      modifies this
      ensures Snapshot() == Launch(old(Snapshot()))
    {
      var todo := Events.Keys;
      ghost var done: map<string, Event> := map[];
      while todo != {}
        invariant todo <= Events.Keys
        invariant done == Events - todo
        invariant Workers == old(Workers) + multiset(Spawned(done))
        invariant Clients == old(Clients) && Events == old(Events)
        invariant Broadcasts == old(Broadcasts) && Responses == old(Responses)
        decreases todo
      {
        var k :| k in todo;
        var w := Worker(k, Events[k]);
        SpawnedGrows(done, k, Events[k]);
        VisitOneMore(Events, todo, k);
        Workers := Workers + multiset{w};
        todo := todo - {k};
        done := done[k := Events[k]];
      }
      assert done == Events;
    }
  }
}

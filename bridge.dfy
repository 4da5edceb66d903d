/**
 * The server side of the bridge: the WebSocket handler that relays envelopes between one
 * client connection (a session) and the Vert.x event bus.
 *
 * The handler is a class over the two process-wide maps of the source, the registry of bus
 * consumers per session and the reply correlator, plus two logs that record its effects on
 * the outside world: the envelopes it writes to sessions and the calls it makes on the bus.
 * Callbacks that the bus fires later (a registration confirmed, a message delivered to a
 * consumer, a request answered) are separate methods that the environment calls.
 */
module Bridge {

  import opened Wrappers
  import Envelopes

  type Body = Envelopes.Body
  type Envelope = Envelopes.Envelope
  type SessionId = string
  type Address = string

  /**
   * A bus consumer (`MessageConsumer`), together with what its two callbacks captured when
   * it was registered: the session to write to, the subscribed address and the client's
   * track id.
   */
  datatype Handle = Handle(id: nat, session: SessionId, address: Address, trackId: Option<string>)

  /** A message handed over by the bus (`Message<Object>`). */
  datatype BusMessage = BusMessage(id: nat, body: Option<Body>, replyAddress: Option<Address>)

  /** A request issued for a client, with what its result callback captured. */
  datatype Request = Request(id: nat, session: SessionId, address: Address, body: Option<Body>, replyAddress: Address)

  /** The result the bus hands to a request callback. */
  datatype RequestResult = Succeeded(reply: BusMessage) | Failed

  /** A call the bridge makes on the bus. */
  datatype BusAction =
    | Subscribe(handle: Handle)
    | Cancel(handle: Handle)
    | Publish(address: Address, body: Option<Body>)
    | PlainSend(address: Address, body: Option<Body>)
    | Ask(request: Request)
    | Answer(message: BusMessage, body: Option<Body>)

  /** An envelope written to a session. */
  datatype Outbound = Outbound(session: SessionId, envelope: Envelope)

  /**
   * How one inbound envelope ends: normally, with an error written to the log only, or with
   * an exception thrown out of the handler (a null type, or a null address passed on to a
   * map or to the bus, which both reject null).
   */
  datatype Outcome = Completed | LoggedError | Threw

  /** The branch of the type switch an envelope takes. */
  datatype Route = PingRoute | RegisterRoute | UnregisterRoute | SendRoute | PublishRoute | Unknown | NullType

  type Registry = map<SessionId, map<Address, Handle>>
  type Correlator = map<Address, BusMessage>

  const KnownTypes: set<string> := {"ping", "register", "unregister", "send", "publish"}

  /** The switch on the envelope's type; a null type makes the switch throw. */
  function RouteOf(kind: Option<string>): (r: Route)
    ensures r == NullType <==> kind.None?
    ensures r == Unknown <==> kind.Some? && kind.value !in KnownTypes
    ensures r == PingRoute <==> kind == Some("ping")
    ensures r == RegisterRoute <==> kind == Some("register")
    ensures r == UnregisterRoute <==> kind == Some("unregister")
    ensures r == SendRoute <==> kind == Some("send")
    ensures r == PublishRoute <==> kind == Some("publish")
  {
    match kind
    case None => NullType
    case Some(t) =>
      if t == "ping" then PingRoute
      else if t == "register" then RegisterRoute
      else if t == "unregister" then UnregisterRoute
      else if t == "send" then SendRoute
      else if t == "publish" then PublishRoute
      else Unknown
  }

  /** The consumer registered for session `s` under address `a`, if any. */
  function Lookup(reg: Registry, s: SessionId, a: Address): Option<Handle>
  {
    if s in reg && a in reg[s] then Some(reg[s][a]) else None
  }

  /** `computeIfAbsent(s, new map).put(a, h)`: the new consumer replaces any previous one. */
  function Put(reg: Registry, s: SessionId, a: Address, h: Handle): (r: Registry)
    ensures Lookup(r, s, a) == Some(h)
    ensures forall s', a' :: (s' != s || a' != a) ==> Lookup(r, s', a') == Lookup(reg, s', a')
    ensures r.Keys == reg.Keys + {s}
  {
    var inner := if s in reg then reg[s] else map[];
    reg[s := inner[a := h]]
  }

  /**
   * `sessionHolder.get(s).remove(a)`. The session keeps its inner map, even once it is
   * empty; an unknown session or address leaves the registry as it was.
   */
  function Unregistered(reg: Registry, s: SessionId, a: Address): (r: Registry)
    ensures Lookup(r, s, a) == None
    ensures forall s', a' :: (s' != s || a' != a) ==> Lookup(r, s', a') == Lookup(reg, s', a')
    ensures r.Keys == reg.Keys
    ensures Lookup(reg, s, a) == None ==> r == reg
  {
    if s in reg && a in reg[s] then reg[s := reg[s] - {a}] else reg
  }

  /** The cancellation `unregister` performs: the named consumer's, if there is one. */
  function UnregisterActions(reg: Registry, s: SessionId, a: Address): (acts: seq<BusAction>)
    ensures |acts| <= 1
    ensures forall i :: 0 <= i < |acts| ==> acts[i].Cancel? && Lookup(reg, s, a) == Some(acts[i].handle)
    ensures Lookup(reg, s, a).Some? ==> |acts| == 1
  {
    match Lookup(reg, s, a)
    case None => []
    case Some(h) => [Cancel(h)]
  }

  /** `sessionHolder.remove(s)`: the session's whole inner map goes, every other session stays. */
  function Closed(reg: Registry, s: SessionId): (r: Registry)
    ensures s !in r && r.Keys == reg.Keys - {s}
    ensures forall a :: Lookup(r, s, a) == None
    ensures forall s', a :: s' != s ==> Lookup(r, s', a) == Lookup(reg, s', a)
  {
    reg - {s}
  }

  /** `actions` cancels every consumer of `consumers`, once each, and does nothing else. */
  predicate CancelsOf(consumers: map<Address, Handle>, actions: seq<BusAction>)
  {
    && |actions| == |consumers|
    && (forall a :: a in consumers ==> Cancel(consumers[a]) in actions)
    && (forall i :: 0 <= i < |actions| ==> actions[i].Cancel? && actions[i].handle in consumers.Values)
  }

  /**
   * The teardown loop `consumers.values().forEach(c -> c.unregister())`. The map's iteration
   * order is unspecified, so the loop takes the addresses in an arbitrary order.
   */
  method CancelAll(consumers: map<Address, Handle>) returns (actions: seq<BusAction>)
    ensures CancelsOf(consumers, actions)
  {
    actions := [];
    var rest := consumers.Keys;
    while rest != {}
      invariant rest <= consumers.Keys
      invariant |actions| + |rest| == |consumers|
      invariant forall a :: a in consumers && a !in rest ==> Cancel(consumers[a]) in actions
      invariant forall i :: 0 <= i < |actions| ==> actions[i].Cancel? && actions[i].handle in consumers.Values
      decreases rest
    {
      var a :| a in rest;
      actions := actions + [Cancel(consumers[a])];
      rest := rest - {a};
    }
  }

  /**
   * What a `send` without a reply address does on the bus: answer the message the
   * correlator holds under the address, or else send to the address.
   */
  function SendAction(corr: Correlator, a: Address, body: Option<Body>): (act: BusAction)
    ensures act.Answer? <==> a in corr
    ensures act.Answer? ==> act.message == corr[a] && act.body == body
    ensures !act.Answer? ==> act == PlainSend(a, body)
  {
    if a in corr then Answer(corr[a], body) else PlainSend(a, body)
  }

  /** The bus calls of successive replyless sends of `bodies` to one address. */
  function SendsTo(corr: Correlator, a: Address, bodies: seq<Option<Body>>): (acts: seq<BusAction>)
    ensures |acts| == |bodies|
    decreases |bodies|
  {
    if bodies == [] then [] else [SendAction(corr, a, bodies[0])] + SendsTo(corr - {a}, a, bodies[1..])
  }

  /**
   * A held message is answered at most once: of any number of replyless sends to its
   * address, only the first answers it, and every later one is a plain bus send.
   */
  lemma {:induction false} HeldMessageAnsweredOnce(corr: Correlator, a: Address, bodies: seq<Option<Body>>)
    ensures |SendsTo(corr, a, bodies)| == |bodies|
    ensures |bodies| > 0 && a in corr ==> SendsTo(corr, a, bodies)[0] == Answer(corr[a], bodies[0])
    ensures |bodies| > 0 && a !in corr ==> SendsTo(corr, a, bodies)[0] == PlainSend(a, bodies[0])
    ensures forall i :: 0 < i < |bodies| ==> SendsTo(corr, a, bodies)[i] == PlainSend(a, bodies[i])
    decreases |bodies|
  {
    if bodies != [] {
      var tail := bodies[1..];
      HeldMessageAnsweredOnce(corr - {a}, a, tail);
      var acts := SendsTo(corr, a, bodies);
      assert acts == [SendAction(corr, a, bodies[0])] + SendsTo(corr - {a}, a, tail);
      forall i | 0 < i < |bodies|
        ensures acts[i] == PlainSend(a, bodies[i])
      {
        assert acts[i] == SendsTo(corr - {a}, a, tail)[i - 1];
        assert tail[i - 1] == bodies[i];
      }
    }
  }

  /** `localReplyHolderMap.put(replyAddress, m)` when the delivered message expects a reply. */
  function Remember(corr: Correlator, m: BusMessage): (r: Correlator)
    ensures m.replyAddress.None? ==> r == corr
    ensures m.replyAddress.Some? ==> r.Keys == corr.Keys + {m.replyAddress.value} && r[m.replyAddress.value] == m
    ensures forall k :: k in corr && Some(k) != m.replyAddress ==> k in r && r[k] == corr[k]
  {
    match m.replyAddress
    case None => corr
    case Some(ra) => corr[ra := m]
  }

  /** A message remembered by a delivery is what the next replyless send to its reply address answers. */
  lemma RememberedIsAnswered(corr: Correlator, m: BusMessage, bodies: seq<Option<Body>>)
    requires m.replyAddress.Some? && |bodies| > 0
    ensures |SendsTo(Remember(corr, m), m.replyAddress.value, bodies)| == |bodies|
    ensures SendsTo(Remember(corr, m), m.replyAddress.value, bodies)[0] == Answer(m, bodies[0])
    ensures forall i :: 0 < i < |bodies| ==> SendsTo(Remember(corr, m), m.replyAddress.value, bodies)[i] == PlainSend(m.replyAddress.value, bodies[i])
  {
    HeldMessageAnsweredOnce(Remember(corr, m), m.replyAddress.value, bodies);
  }

  /**
   * The envelope `deliverMessage` writes: a reply names the client's reply address, a
   * subscription delivery names the subscribed address and passes on the message's own
   * reply address.
   */
  function Delivery(address: Address, isReply: bool, m: BusMessage): (e: Envelope)
    ensures e.kind.None? && e.data.None? && e.trackId.None? && e.body == m.body
    ensures isReply ==> e.replyAddress == Some(address) && e.address.None?
    ensures !isReply ==> e.address == Some(address) && e.replyAddress == m.replyAddress
  {
    var msg := Envelopes.Blank();
    var msg := if isReply then msg.(replyAddress := Some(address))
               else msg.(address := Some(address), replyAddress := m.replyAddress);
    msg.(body := m.body)
  }

  /** The acknowledgment of a confirmed registration: no type, the track id and `{address}`. */
  function RegisterAck(trackId: Option<string>, address: Address): (e: Envelope)
    ensures e.trackId == trackId && e.body == Some(Envelopes.AddressObject(address))
    ensures e.kind.None? && e.data.None? && e.address.None? && e.replyAddress.None?
  {
    Envelopes.Blank().(trackId := trackId, body := Some(Envelopes.AddressObject(address)))
  }

  /**
   * Unregistering an address that `register` just added gives the registry back, except
   * that a session seen for the first time keeps an empty inner map.
   */
  lemma {:induction false} UnregisterUndoesRegister(reg: Registry, s: SessionId, a: Address, h: Handle)
    requires Lookup(reg, s, a).None?
    ensures s in reg ==> Unregistered(Put(reg, s, a, h), s, a) == reg
    ensures s !in reg ==> Unregistered(Put(reg, s, a, h), s, a) == reg[s := map[]]
  {
    var r := Unregistered(Put(reg, s, a, h), s, a);
    if s in reg {
      assert r[s] == reg[s];
    } else {
      assert r[s] == map[];
    }
  }

  /** The handler's state: the two process-wide maps and what it has done so far. */
  class Server {
    var sessions: Registry
    var correlator: Correlator
    var outbox: seq<Outbound>
    var busLog: seq<BusAction>
    /** Source of identities for the consumers and requests the bus creates. */
    var nextId: nat

    /** Every consumer is filed under its own session and address and was created by this handler. */
    ghost predicate Valid()
      reads this
    {
      forall s, a :: Lookup(sessions, s, a).Some? ==>
        var h := Lookup(sessions, s, a).value;
        h.session == s && h.address == a && h.id < nextId
    }

    constructor ()
      ensures Valid()
      ensures sessions == map[] && correlator == map[] && outbox == [] && busLog == [] && nextId == 0
    {
      sessions, correlator, outbox, busLog, nextId := map[], map[], [], [], 0;
    }

    twostate predicate Unchanged()
      reads this
    {
      sessions == old(sessions) && correlator == old(correlator) && outbox == old(outbox)
      && busLog == old(busLog) && nextId == old(nextId)
    }

    /** Only the outbox changed, by the one envelope `e` to session `s`. */
    twostate predicate Wrote(s: SessionId, e: Envelope)
      reads this
    {
      sessions == old(sessions) && correlator == old(correlator) && busLog == old(busLog)
      && nextId == old(nextId) && outbox == old(outbox) + [Outbound(s, e)]
    }

    twostate predicate RegisterEffect(s: SessionId, e: Envelope, out: Outcome)
      reads this
    {
      if e.address.None? then out == Threw && Unchanged()
      else
        var a := e.address.value;
        var h := Handle(old(nextId), s, a, e.trackId);
        && sessions == Put(old(sessions), s, a, h)
        && busLog == old(busLog) + [Subscribe(h)]
        && nextId == old(nextId) + 1
        && correlator == old(correlator) && outbox == old(outbox)
        && out == (if Lookup(old(sessions), s, a).Some? then LoggedError else Completed)
    }

    twostate predicate UnregisterEffect(s: SessionId, address: Option<Address>, out: Outcome)
      reads this
    {
      if s !in old(sessions) then out == LoggedError && Unchanged()
      else if address.None? then out == Threw && Unchanged()
      else
        var a := address.value;
        && sessions == Unregistered(old(sessions), s, a)
        && busLog == old(busLog) + UnregisterActions(old(sessions), s, a)
        && correlator == old(correlator) && outbox == old(outbox) && nextId == old(nextId)
        && out == (if Lookup(old(sessions), s, a).Some? then Completed else LoggedError)
    }

    twostate predicate SendEffect(s: SessionId, e: Envelope, out: Outcome)
      reads this
    {
      if e.address.None? then out == Threw && Unchanged()
      else if e.replyAddress.Some? then
        && busLog == old(busLog) + [Ask(Request(old(nextId), s, e.address.value, e.body, e.replyAddress.value))]
        && nextId == old(nextId) + 1
        && sessions == old(sessions) && correlator == old(correlator) && outbox == old(outbox)
        && out == Completed
      else
        var a := e.address.value;
        && correlator == old(correlator) - {a}
        && busLog == old(busLog) + [SendAction(old(correlator), a, e.body)]
        && sessions == old(sessions) && outbox == old(outbox) && nextId == old(nextId)
        && out == Completed
    }

    /** A connection opens: the handler writes exactly the `DONE` envelope to it. */
    method OnOpen(s: SessionId)
      requires Valid()
      modifies this
      ensures Valid() && Wrote(s, Envelopes.Done())
    {
      outbox := outbox + [Outbound(s, Envelopes.Done())];
    }

    /** One inbound envelope from session `s`, dispatched on its type. */
    method HandleText(s: SessionId, e: Envelope) returns (out: Outcome)
      requires Valid()
      modifies this
      ensures Valid()
      ensures RouteOf(e.kind) == NullType ==> out == Threw && Unchanged()
      ensures RouteOf(e.kind) == Unknown ==> out == LoggedError && Unchanged()
      ensures RouteOf(e.kind) == PingRoute ==> out == Completed && Wrote(s, Envelopes.Pong())
      ensures RouteOf(e.kind) == RegisterRoute ==> RegisterEffect(s, e, out)
      ensures RouteOf(e.kind) == UnregisterRoute ==> UnregisterEffect(s, e.address, out)
      ensures RouteOf(e.kind) == SendRoute ==> SendEffect(s, e, out)
      ensures RouteOf(e.kind) == PublishRoute && e.address.None? ==> out == Threw && Unchanged()
      ensures RouteOf(e.kind) == PublishRoute && e.address.Some? ==>
        && out == Completed && busLog == old(busLog) + [Publish(e.address.value, e.body)]
        && sessions == old(sessions) && correlator == old(correlator) && outbox == old(outbox)
        && nextId == old(nextId)
    {
      match RouteOf(e.kind)
      case NullType =>
        out := Threw;
      case PingRoute =>
        outbox := outbox + [Outbound(s, Envelopes.Pong())];
        out := Completed;
      case RegisterRoute =>
        out := OnRegister(s, e);
      case UnregisterRoute =>
        out := OnUnregister(s, e.address);
      case SendRoute =>
        out := OnSend(s, e);
      case PublishRoute =>
        if e.address.None? {
          out := Threw;
        } else {
          busLog := busLog + [Publish(e.address.value, e.body)];
          out := Completed;
        }
      case Unknown =>
        out := LoggedError;
    }

    /**
     * `register`: a new consumer is created and filed under (session, address). A consumer
     * already filed there is overwritten and never cancelled; only the error log notices.
     */
    method OnRegister(s: SessionId, e: Envelope) returns (out: Outcome)
      requires Valid()
      modifies this
      ensures Valid() && RegisterEffect(s, e, out)
      ensures e.address.Some? && Lookup(old(sessions), s, e.address.value).Some? ==>
        Lookup(old(sessions), s, e.address.value).value != Lookup(sessions, s, e.address.value).value
    {
      if e.address.None? {
        return Threw;
      }
      var a := e.address.value;
      var h := Handle(nextId, s, a, e.trackId);
      nextId := nextId + 1;
      busLog := busLog + [Subscribe(h)];
      out := if Lookup(sessions, s, a).Some? then LoggedError else Completed;
      sessions := Put(sessions, s, a, h);
    }

    /** `unregister`: the named consumer is removed and cancelled; nothing else is touched. */
    method OnUnregister(s: SessionId, address: Option<Address>) returns (out: Outcome)
      requires Valid()
      modifies this
      ensures Valid() && UnregisterEffect(s, address, out)
    {
      if s !in sessions {
        return LoggedError;
      }
      if address.None? {
        return Threw;
      }
      var a := address.value;
      if a in sessions[s] {
        var c := sessions[s][a];
        sessions := Unregistered(sessions, s, a);
        busLog := busLog + [Cancel(c)];
        out := Completed;
      } else {
        out := LoggedError;
      }
    }

    /**
     * `send`: with a reply address, a bus request whose result comes back later; without
     * one, the held message under the address is taken out and answered, or else the body
     * is sent to the address.
     */
    method OnSend(s: SessionId, e: Envelope) returns (out: Outcome)
      requires Valid()
      modifies this
      ensures Valid() && SendEffect(s, e, out)
    {
      if e.address.None? {
        return Threw;
      }
      var a := e.address.value;
      if e.replyAddress.Some? {
        busLog := busLog + [Ask(Request(nextId, s, a, e.body, e.replyAddress.value))];
        nextId := nextId + 1;
      } else {
        busLog := busLog + [SendAction(correlator, a, e.body)];
        correlator := correlator - {a};
      }
      out := Completed;
    }

    /**
     * The connection closes: its whole inner map is removed and each of its consumers is
     * cancelled once; other sessions and the correlator are untouched.
     */
    method OnClose(s: SessionId)
      requires Valid()
      modifies this
      ensures Valid()
      ensures sessions == Closed(old(sessions), s)
      ensures correlator == old(correlator) && outbox == old(outbox) && nextId == old(nextId)
      ensures |busLog| >= |old(busLog)| && busLog[..|old(busLog)|] == old(busLog)
      ensures s in old(sessions) ==> CancelsOf(old(sessions)[s], busLog[|old(busLog)|..])
      ensures s !in old(sessions) ==> busLog == old(busLog)
    {
      if s in sessions {
        var consumers := sessions[s];
        sessions := Closed(sessions, s);
        var cancels := CancelAll(consumers);
        assert (busLog + cancels)[|busLog|..] == cancels;
        busLog := busLog + cancels;
      }
    }

    /** The bus confirms a registration: the acknowledgment goes to the consumer's session. */
    method OnRegisterComplete(h: Handle)
      requires Valid()
      modifies this
      ensures Valid() && Wrote(h.session, RegisterAck(h.trackId, h.address))
    {
      outbox := outbox + [Outbound(h.session, RegisterAck(h.trackId, h.address))];
    }

    /**
     * The bus delivers `m` to consumer `h`: an envelope naming the subscribed address goes to
     * its session, and a message that expects a reply is held in the correlator under its
     * reply address, which the envelope also carries.
     */
    method OnDelivery(h: Handle, m: BusMessage)
      requires Valid()
      modifies this
      ensures Valid()
      ensures outbox == old(outbox) + [Outbound(h.session, Delivery(h.address, false, m))]
      ensures correlator == Remember(old(correlator), m)
      ensures sessions == old(sessions) && busLog == old(busLog) && nextId == old(nextId)
    {
      correlator := Remember(correlator, m);
      outbox := outbox + [Outbound(h.session, Delivery(h.address, false, m))];
    }

    /**
     * A request's result arrives: on success one envelope carrying the client's reply
     * address and the reply's body; on failure nothing at all (the error path is a stub).
     */
    method OnRequestResult(req: Request, result: RequestResult)
      requires Valid()
      modifies this
      ensures Valid()
      ensures result.Succeeded? ==> Wrote(req.session, Delivery(req.replyAddress, true, result.reply))
      ensures result.Failed? ==> Unchanged()
    {
      match result
      case Succeeded(m) =>
        outbox := outbox + [Outbound(req.session, Delivery(req.replyAddress, true, m))];
      case Failed =>
    }
  }
}

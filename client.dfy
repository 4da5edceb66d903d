/**
 * The browser side of the bridge (`EventBus` in eventbus-plus.js): the tables of handlers the
 * client keeps, the queue of subscriptions waiting for the connection, and what it sends.
 *
 * The socket is left out: what the client sends is appended to `outbox`, and the socket's
 * events (open, a message, close) are methods the environment calls. User callbacks are
 * identities; what a handler returns for a message is a function passed to the listener,
 * and the callbacks and promises the client settles are recorded in `invoked`.
 */
module EventBusClient {

  import opened Wrappers
  import Envelopes
  import Bridge
  import WsUrl

  type Body = Envelopes.Body
  type Envelope = Envelopes.Envelope

  /** `EventBus.CONNECTING`, `OPEN`, `CLOSING`, `CLOSED`. */
  datatype ReadyState = Connecting | Open | Closing | Closed

  /** A JavaScript function value, known by its identity only. */
  type Callback = nat

  /** The record `consumer` files and returns: `{address, callback, unregister}`. */
  datatype Record = Record(address: string, callback: Callback)

  /** What `request` files under its reply address: the caller's callback, or the promise it returns. */
  datatype ReplyHandler = CallbackHandler(callback: Callback) | PromiseHandler(replyAddress: string)

  /** A `consumer` call queued until the connection is ready. */
  datatype LazyEntry = LazyEntry(address: string, callback: Callback)

  /** A user callback the client calls, or a promise it settles. */
  datatype Invocation =
    | HandlerCalled(callback: Callback, message: Envelope)
    | ReplySettled(handler: ReplyHandler, body: Option<Body>)
    | TrackSettled(trackId: string, ret: Record)

  /** The promise `consumer` returns: queued, waiting for the server's acknowledgment, or resolved. */
  datatype Registration = Queued | AwaitingAck(trackId: string) | Resolved(ret: Record)

  /** A call that returns a value or throws `INVALID_STATE_ERR`. */
  datatype Outcome<T> = Returned(value: T) | InvalidState

  /** The branch of the message listener an inbound envelope takes. */
  datatype Branch = PongBranch | DoneBranch | AddressBranch(address: string) | ReplyBranch(replyAddress: string)
                  | TrackBranch(trackId: string) | Stray

  type Handlers = map<string, seq<Record>>

  /** A JavaScript string field tested for truth: present and not empty. */
  predicate Truthy(s: Option<string>)
  {
    s.Some? && s.value != ""
  }

  function SendEnvelope(address: string, body: Option<Body>): Envelope
  {
    Envelopes.Blank().(kind := Some("send"), address := Some(address), body := body)
  }

  function RequestEnvelope(address: string, body: Option<Body>, replyAddress: string): Envelope
  {
    SendEnvelope(address, body).(replyAddress := Some(replyAddress))
  }

  function PublishEnvelope(address: string, body: Option<Body>): Envelope
  {
    Envelopes.Blank().(kind := Some("publish"), address := Some(address), body := body)
  }

  function RegisterEnvelope(address: string, trackId: string): Envelope
  {
    Envelopes.Blank().(kind := Some("register"), address := Some(address), trackId := Some(trackId))
  }

  /** The envelope `unregisterHandler` sends; note the capital R. */
  function UnregisterEnvelope(address: string): Envelope
  {
    Envelopes.Blank().(kind := Some("unRegister"), address := Some(address))
  }

  /** The listener's tests, in order: pong, done, an address, a reply address, a track id. */
  function BranchOf(msg: Envelope): (b: Branch)
    ensures b == PongBranch <==> msg.kind == Some("pong")
    ensures b == DoneBranch <==> msg.kind == Some("done")
    ensures b.AddressBranch? <==> msg.kind != Some("pong") && msg.kind != Some("done") && Truthy(msg.address)
    ensures b.AddressBranch? ==> msg.address == Some(b.address)
    ensures b.ReplyBranch? ==> !Truthy(msg.address) && msg.replyAddress == Some(b.replyAddress) && b.replyAddress != ""
    ensures b.TrackBranch? ==> !Truthy(msg.address) && !Truthy(msg.replyAddress) && msg.trackId == Some(b.trackId) && b.trackId != ""
    ensures b == Stray <==>
      msg.kind != Some("pong") && msg.kind != Some("done") && !Truthy(msg.address) && !Truthy(msg.replyAddress) && !Truthy(msg.trackId)
  {
    if msg.kind == Some("pong") then PongBranch
    else if msg.kind == Some("done") then DoneBranch
    else if Truthy(msg.address) then AddressBranch(msg.address.value)
    else if Truthy(msg.replyAddress) then ReplyBranch(msg.replyAddress.value)
    else if Truthy(msg.trackId) then TrackBranch(msg.trackId.value)
    else Stray
  }

  /**
   * The client's `unRegister` is not a type the server's switch knows: it takes the default
   * branch, which only logs, so the server keeps the consumer.
   */
  lemma ServerIgnoresClientUnregister(address: string)
    ensures Bridge.RouteOf(UnregisterEnvelope(address).kind) == Bridge.Unknown
    ensures Bridge.RouteOf(UnregisterEnvelope(address).kind) != Bridge.UnregisterRoute
  {
  }

  /** Every other envelope the client sends reaches the server branch meant for it. */
  lemma ServerRoutesClientEnvelopes(address: string, body: Option<Body>, replyAddress: string, trackId: string)
    ensures Bridge.RouteOf(RegisterEnvelope(address, trackId).kind) == Bridge.RegisterRoute
    ensures Bridge.RouteOf(SendEnvelope(address, body).kind) == Bridge.SendRoute
    ensures Bridge.RouteOf(RequestEnvelope(address, body, replyAddress).kind) == Bridge.SendRoute
    ensures Bridge.RouteOf(PublishEnvelope(address, body).kind) == Bridge.PublishRoute
  {
  }

  /** Every envelope the server writes reaches the listener branch meant for it. */
  lemma ClientRoutesServerEnvelopes(address: string, trackId: string, m: Bridge.BusMessage)
    requires address != "" && trackId != ""
    ensures BranchOf(Envelopes.Pong()) == PongBranch
    ensures BranchOf(Envelopes.Done()) == DoneBranch
    ensures BranchOf(Bridge.RegisterAck(Some(trackId), address)) == TrackBranch(trackId)
    ensures BranchOf(Bridge.Delivery(address, true, m)) == ReplyBranch(address)
    ensures BranchOf(Bridge.Delivery(address, false, m)) == AddressBranch(address)
  {
  }

  /** Each address maps to a non-empty list of records filed under that address. */
  ghost predicate WellFiled(h: Handlers)
  {
    forall a :: a in h ==> |h[a]| > 0 && forall i :: 0 <= i < |h[a]| ==> h[a][i].address == a
  }

  /** `handlers.map(r => r.callback).indexOf(callback)`: the first record with the callback, or -1. */
  function IndexOf(rs: seq<Record>, callback: Callback): (i: int)
    ensures -1 <= i < |rs|
    ensures i == -1 <==> forall j :: 0 <= j < |rs| ==> rs[j].callback != callback
    ensures 0 <= i ==> rs[i].callback == callback && forall j :: 0 <= j < i ==> rs[j].callback != callback
  {
    if rs == [] then -1
    else if rs[0].callback == callback then 0
    else
      var k := IndexOf(rs[1..], callback);
      if k == -1 then -1 else k + 1
  }

  /** The records of `h` filed under `a`; none when the address has no entry. */
  function RecordsAt(h: Handlers, a: string): seq<Record>
  {
    if a in h then h[a] else []
  }

  /** `consumer` on an open connection: the record is appended to its address's list. */
  function AddRecord(h: Handlers, r: Record): (h': Handlers)
    requires WellFiled(h)
    ensures WellFiled(h')
    ensures h'.Keys == h.Keys + {r.address}
    ensures h'[r.address] == RecordsAt(h, r.address) + [r]
    ensures forall a :: a != r.address && a in h ==> h'[a] == h[a]
  {
    h[r.address := RecordsAt(h, r.address) + [r]]
  }

  /**
   * `unregisterHandler`'s edit: the first record with the callback is spliced out, and an
   * address left with no record is deleted.
   */
  function RemoveRecord(h: Handlers, a: string, callback: Callback): (h': Handlers)
    requires WellFiled(h)
    ensures WellFiled(h')
    ensures a !in h || IndexOf(h[a], callback) == -1 ==> h' == h
    ensures forall b :: b != a && b in h ==> b in h' && h'[b] == h[b]
    ensures h'.Keys <= h.Keys
    ensures a in h && IndexOf(h[a], callback) != -1 ==>
      var i := IndexOf(h[a], callback);
      var rest := h[a][..i] + h[a][i + 1..];
      (if rest == [] then a !in h' else a in h' && h'[a] == rest)
  {
    if a !in h then h
    else
      var i := IndexOf(h[a], callback);
      if i == -1 then h
      else
        var rest := h[a][..i] + h[a][i + 1..];
        assert forall j :: 0 <= j < |rest| ==> rest[j] in h[a];
        if rest == [] then h - {a} else h[a := rest]
  }

  /**
   * Unregistering a callback undoes the `consumer` call that filed it, when that callback
   * was not already filed under the address.
   */
  lemma {:induction false} RemoveUndoesAdd(h: Handlers, r: Record)
    requires WellFiled(h)
    requires IndexOf(RecordsAt(h, r.address), r.callback) == -1
    ensures RemoveRecord(AddRecord(h, r), r.address, r.callback) == h
  {
    var a := r.address;
    var before := RecordsAt(h, a);
    var h1 := AddRecord(h, r);
    assert h1 == h[a := before + [r]];
    IndexOfAfterMisses(before, r);
    assert (before + [r])[..|before|] == before;
    assert (before + [r])[|before| + 1..] == [];
    if a in h {
      var rest := h1[a][..|before|] + h1[a][|before| + 1..];
      assert rest == before != [];
      assert RemoveRecord(h1, a, r.callback) == h1[a := before];
      UpdateTwice(h, a, before + [r]);
    } else {
      AddThenDelete(h, a, [r]);
    }
  }

  lemma UpdateTwice(h: Handlers, a: string, v: seq<Record>)
    requires a in h
    ensures h[a := v][a := h[a]] == h
  {
  }

  lemma AddThenDelete(h: Handlers, a: string, v: seq<Record>)
    requires a !in h
    ensures h[a := v] - {a} == h
  {
  }

  /** A callback found nowhere in `s` is found at the record appended after it. */
  lemma IndexOfAfterMisses(s: seq<Record>, r: Record)
    requires IndexOf(s, r.callback) == -1
    ensures IndexOf(s + [r], r.callback) == |s|
  {
    var t := s + [r];
    assert t[|s|].callback == r.callback;
    assert forall j :: 0 <= j < |s| ==> t[j] == s[j];
  }

  /** The callbacks of `rs`, in order. */
  function CallbacksOf(rs: seq<Record>): (cs: seq<Callback>)
    ensures |cs| == |rs| && forall i :: 0 <= i < |rs| ==> cs[i] == rs[i].callback
  {
    seq(|rs|, i requires 0 <= i < |rs| => rs[i].callback)
  }

  /**
   * The loop over an address's handlers as written. When a reply is needed, the first
   * handler's result is sent; at the second handler the warning refers to `address`, a name
   * not declared in that scope, so the listener throws a ReferenceError and the remaining
   * handlers are never called. The warning after the loop for a reply never sent refers to
   * the same name, so a list with no handler throws too when a reply is needed. `canSend`
   * says whether `send` accepts (the state is OPEN).
   */
  method InvokeHandlersAsWritten(rs: seq<Record>, needReply: bool, canSend: bool, respond: Callback -> Option<Body>)
    returns (called: seq<Callback>, reply: Option<Option<Body>>, threw: bool)
    ensures !needReply ==> called == CallbacksOf(rs) && reply.None? && !threw
    ensures needReply && |rs| > 0 && !canSend ==> called == [rs[0].callback] && reply.None? && threw
    ensures needReply && |rs| > 0 && canSend ==> reply == Some(respond(rs[0].callback))
    ensures needReply && canSend && |rs| >= 2 ==> called == CallbacksOf(rs[..2]) && threw
    ensures |rs| == 1 && canSend ==> called == CallbacksOf(rs) && !threw
    ensures needReply && |rs| == 0 ==> called == [] && reply.None? && threw
  {
    called, reply, threw := [], None, false;
    var replySent := false;
    var i := 0;
    while i < |rs| && !threw
      invariant 0 <= i <= |rs|
      invariant called == CallbacksOf(rs[..i])
      invariant replySent <==> reply.Some?
      invariant reply.Some? ==> needReply && canSend && i > 0 && reply == Some(respond(rs[0].callback))
      invariant needReply && i > 0 && canSend ==> replySent
      invariant !needReply ==> !threw && reply.None?
      invariant threw ==> needReply && (if canSend then i == 2 else i == 1)
      invariant needReply && canSend ==> (i >= 2 <==> threw)
      invariant needReply && !canSend ==> (i >= 1 <==> threw)
      invariant i == 0 ==> reply.None? && !threw
    {
      var r := respond(rs[i].callback);
      called := called + [rs[i].callback];
      if needReply {
        if !replySent {
          if canSend {
            reply := Some(r);
            replySent := true;
          } else {
            threw := true;
          }
        } else {
          threw := true;
        }
      }
      assert rs[..i + 1] == rs[..i] + [rs[i]];
      i := i + 1;
    }
    if i == |rs| {
      assert rs[..i] == rs;
    }
    if needReply && !replySent {
      threw := true;
    }
  }

  /**
   * The loop as intended: every handler is called once, in order, and when a reply is
   * needed exactly the first handler's result is sent, however many handlers there are.
   */
  method InvokeHandlers(rs: seq<Record>, needReply: bool, canSend: bool, respond: Callback -> Option<Body>)
    returns (called: seq<Callback>, reply: Option<Option<Body>>, threw: bool)
    ensures !needReply || canSend ==> called == CallbacksOf(rs) && !threw
    ensures reply.Some? <==> needReply && canSend && |rs| > 0
    ensures reply.Some? ==> reply.value == respond(rs[0].callback)
    ensures needReply && !canSend && |rs| > 0 ==> called == [rs[0].callback] && threw
    ensures |rs| == 0 ==> called == [] && !threw
  {
    called, reply, threw := [], None, false;
    var replySent := false;
    var i := 0;
    while i < |rs| && !threw
      invariant 0 <= i <= |rs|
      invariant called == CallbacksOf(rs[..i])
      invariant replySent <==> reply.Some?
      invariant reply.Some? <==> needReply && canSend && i > 0
      invariant reply.Some? ==> reply.value == respond(rs[0].callback)
      invariant threw <==> needReply && !canSend && i > 0
      invariant threw ==> i == 1
    {
      var r := respond(rs[i].callback);
      called := called + [rs[i].callback];
      if needReply {
        if !replySent {
          if canSend {
            reply := Some(r);
            replySent := true;
          } else {
            threw := true;
          }
        }
      }
      assert rs[..i + 1] == rs[..i] + [rs[i]];
      i := i + 1;
    }
    if i == |rs| {
      assert rs[..i] == rs;
    }
  }

  /** One drained entry: an entry with an address is filed, one without is skipped. */
  function FileEntry(h: Handlers, e: LazyEntry): (h': Handlers)
    requires WellFiled(h)
    ensures WellFiled(h')
  {
    if e.address == "" then h else AddRecord(h, Record(e.address, e.callback))
  }

  /** The `register` one drained entry sends: one for an address that had no record. */
  function RegisterOf(h: Handlers, e: LazyEntry): seq<string>
  {
    if e.address != "" && e.address !in h then [e.address] else []
  }

  /** The handlers a drained queue leaves, entry by entry. */
  function DrainHandlers(h: Handlers, es: seq<LazyEntry>): (h': Handlers)
    requires WellFiled(h)
    ensures WellFiled(h')
    decreases |es|
  {
    if es == [] then h
    else FileEntry(DrainHandlers(h, es[..|es| - 1]), es[|es| - 1])
  }

  /** The addresses a drained queue sends `register` for, in order. */
  function NewAddresses(h: Handlers, es: seq<LazyEntry>): seq<string>
    requires WellFiled(h)
    decreases |es|
  {
    if es == [] then []
    else
      var prev := es[..|es| - 1];
      NewAddresses(h, prev) + RegisterOf(DrainHandlers(h, prev), es[|es| - 1])
  }

  /** The records of the entries for address `a`, in queue order. */
  function EntriesFor(es: seq<LazyEntry>, a: string): seq<Record>
    decreases |es|
  {
    if es == [] then []
    else EntriesFor(es[..|es| - 1], a) + (if es[|es| - 1].address == a then [Record(a, es[|es| - 1].callback)] else [])
  }

  /**
   * Draining is first-in first-out: each address ends with its earlier records followed by
   * the queued ones for it, in queue order.
   */
  lemma {:induction false} DrainIsFifo(h: Handlers, es: seq<LazyEntry>, a: string)
    requires WellFiled(h) && a != ""
    ensures RecordsAt(DrainHandlers(h, es), a) == RecordsAt(h, a) + EntriesFor(es, a)
    decreases |es|
  {
    if es != [] {
      var prev := es[..|es| - 1];
      var e := es[|es| - 1];
      DrainIsFifo(h, prev, a);
      var d := DrainHandlers(h, prev);
      assert DrainHandlers(h, es) == FileEntry(d, e);
      if e.address == a {
        var r := Record(a, e.callback);
        assert EntriesFor(es, a) == EntriesFor(prev, a) + [r];
        assert RecordsAt(FileEntry(d, e), a) == RecordsAt(d, a) + [r];
        AppendAssociates(RecordsAt(h, a), EntriesFor(prev, a), [r]);
      } else {
        assert EntriesFor(es, a) == EntriesFor(prev, a) + [];
        assert RecordsAt(FileEntry(d, e), a) == RecordsAt(d, a);
      }
    }
  }

  /**
   * `register` goes out once for each address that had no record, and never for one that
   * did: the addresses are pairwise distinct, none was filed before, and afterwards the
   * filed addresses are exactly the earlier ones and these.
   */
  lemma {:induction false} RegistersOncePerNewAddress(h: Handlers, es: seq<LazyEntry>)
    requires WellFiled(h)
    ensures forall x :: x in DrainHandlers(h, es) <==> x in h || x in NewAddresses(h, es)
    ensures forall x :: x in NewAddresses(h, es) ==> x !in h
    ensures forall i, j :: 0 <= i < j < |NewAddresses(h, es)| ==> NewAddresses(h, es)[i] != NewAddresses(h, es)[j]
    decreases |es|
  {
    if es != [] {
      var prev := es[..|es| - 1];
      RegistersOncePerNewAddress(h, prev);
      var e := es[|es| - 1];
      var d := DrainHandlers(h, prev);
      var n := NewAddresses(h, prev);
      if e.address != "" && e.address !in d {
        assert NewAddresses(h, es) == n + [e.address];
        assert DrainHandlers(h, es) == AddRecord(d, Record(e.address, e.callback));
      } else {
        assert NewAddresses(h, es) == n;
        assert DrainHandlers(h, es).Keys == d.Keys;
      }
    }
  }

  /** The pending registration one drained entry files: a record for an address that had none. */
  function PendingOf(h: Handlers, e: LazyEntry): (recs: seq<Record>)
    ensures |recs| == |RegisterOf(h, e)|
    ensures forall i :: 0 <= i < |recs| ==> recs[i].address == RegisterOf(h, e)[i]
  {
    if e.address != "" && e.address !in h then [Record(e.address, e.callback)] else []
  }

  /**
   * The records a drained queue files as pending registrations, in order: one per address
   * it sends `register` for, at the same index.
   */
  function NewRecords(h: Handlers, es: seq<LazyEntry>): (recs: seq<Record>)
    requires WellFiled(h)
    ensures |recs| == |NewAddresses(h, es)|
    ensures forall i :: 0 <= i < |recs| ==> recs[i].address == NewAddresses(h, es)[i]
    decreases |es|
  {
    if es == [] then []
    else
      var prev := es[..|es| - 1];
      NewRecords(h, prev) + PendingOf(DrainHandlers(h, prev), es[|es| - 1])
  }

  /** `t` with `recs[i]` filed under `ids[i]`, one after the other. */
  function Pending(t: map<string, Record>, ids: seq<string>, recs: seq<Record>): map<string, Record>
    requires |ids| == |recs|
    decreases |ids|
  {
    if ids == [] then t
    else
      var n := |ids| - 1;
      Pending(t, ids[..n], recs[..n])[ids[n] := recs[n]]
  }

  /** Track ids that are new to `t` and pairwise distinct, as `uuidv4` makes them. */
  ghost predicate FreshIds(t: map<string, Record>, ids: seq<string>)
  {
    && (forall i :: 0 <= i < |ids| ==> ids[i] !in t)
    && (forall i, j :: 0 <= i < j < |ids| ==> ids[i] != ids[j])
  }

  /** Filing adds exactly the ids as keys and keeps every other entry. */
  lemma {:induction false} PendingKeys(t: map<string, Record>, ids: seq<string>, recs: seq<Record>)
    requires |ids| == |recs|
    ensures forall k :: k in Pending(t, ids, recs) <==> k in t || k in ids
    ensures forall k :: k in t && k !in ids ==> Pending(t, ids, recs)[k] == t[k]
    decreases |ids|
  {
    if ids != [] {
      var n := |ids| - 1;
      PendingKeys(t, ids[..n], recs[..n]);
      assert forall k :: k in ids <==> k in ids[..n] || k == ids[n] by {
        assert ids == ids[..n] + [ids[n]];
      }
    }
  }

  /** With distinct ids, each id holds the record at its own index. */
  lemma {:induction false} PendingFilesEach(t: map<string, Record>, ids: seq<string>, recs: seq<Record>)
    requires |ids| == |recs|
    requires forall i, j :: 0 <= i < j < |ids| ==> ids[i] != ids[j]
    ensures forall i :: 0 <= i < |ids| ==> ids[i] in Pending(t, ids, recs) && Pending(t, ids, recs)[ids[i]] == recs[i]
    decreases |ids|
  {
    if ids != [] {
      var n := |ids| - 1;
      PendingFilesEach(t, ids[..n], recs[..n]);
      forall i | 0 <= i < |ids| ensures ids[i] in Pending(t, ids, recs) && Pending(t, ids, recs)[ids[i]] == recs[i] {
        if i < n {
          assert ids[..n][i] == ids[i] && recs[..n][i] == recs[i];
        }
      }
    }
  }

  /** Filing a run of ids followed by at most one more. */
  lemma PendingStep(t: map<string, Record>, ids: seq<string>, recs: seq<Record>, u: seq<string>, v: seq<Record>)
    requires |ids| == |recs| && |u| == |v| <= 1
    ensures Pending(t, ids + u, recs + v) == Pending(Pending(t, ids, recs), u, v)
  {
    if u == [] {
      assert ids + u == ids && recs + v == recs;
    } else {
      assert (ids + u)[..|ids|] == ids && (recs + v)[..|recs|] == recs;
      assert u[..0] == [] && v[..0] == [];
    }
  }

  /** The `register` envelopes for `addresses`, each with the track id at the same index. */
  function Registers(addresses: seq<string>, trackIds: seq<string>): (envs: seq<Envelope>)
    requires |addresses| == |trackIds|
    ensures |envs| == |addresses|
    decreases |addresses|
  {
    if addresses == [] then []
    else
      var n := |addresses| - 1;
      Registers(addresses[..n], trackIds[..n]) + [RegisterEnvelope(addresses[n], trackIds[n])]
  }

  /** Registers for a run of addresses followed by at most one more. */
  lemma RegistersStep(a: seq<string>, t: seq<string>, b: seq<string>, u: seq<string>)
    requires |a| == |t| && |b| == |u| <= 1
    ensures Registers(a + b, t + u) == Registers(a, t) + Registers(b, u)
  {
    if b == [] {
      assert a + b == a && t + u == t;
    } else {
      assert (a + b)[..|a|] == a && (t + u)[..|t|] == t;
    }
  }

  lemma AppendAssociates<T>(a: seq<T>, b: seq<T>, c: seq<T>)
    ensures (a + b) + c == a + (b + c)
  {
  }

  /** `b` keeps every entry of `a`. */
  ghost predicate Extends(a: map<string, Record>, b: map<string, Record>)
  {
    forall k :: k in a ==> k in b && b[k] == a[k]
  }

  /** What a queue left on a connection that is not open turns into once its drain stalls. */
  function Stalled(q: seq<LazyEntry>): (r: seq<LazyEntry>)
    ensures r == [] <==> forall i :: 0 <= i < |q| ==> q[i].address == ""
    ensures r != [] ==> |r| <= |q| && r[|r| - 1].address != "" && multiset(r) <= multiset(q)
    decreases |q|
  {
    if q == [] then []
    else
      assert q == [q[0]] + q[1..];
      if q[0].address == "" then Stalled(q[1..]) else q[1..] + [q[0]]
  }

  /** One more queue entry: what draining it adds to the handlers and to the `register`s sent. */
  lemma DrainStep(h: Handlers, q: seq<LazyEntry>, k: nat)
    requires WellFiled(h) && k < |q|
    ensures DrainHandlers(h, q[..k + 1]) == FileEntry(DrainHandlers(h, q[..k]), q[k])
    ensures NewAddresses(h, q[..k + 1]) == NewAddresses(h, q[..k]) + RegisterOf(DrainHandlers(h, q[..k]), q[k])
  {
    assert q[..k + 1][..k] == q[..k];
  }

  /** One drained entry extends the handlers and the sent `register`s by that entry's step. */
  lemma DrainOutboxStep(h: Handlers, q: seq<LazyEntry>, k: nat, before: seq<Envelope>, t: seq<string>, u: seq<string>)
    requires WellFiled(h) && k < |q|
    requires |t| == |NewAddresses(h, q[..k])|
    requires |u| == |RegisterOf(DrainHandlers(h, q[..k]), q[k])|
    ensures DrainHandlers(h, q[..k + 1]) == FileEntry(DrainHandlers(h, q[..k]), q[k])
    ensures |t + u| == |NewAddresses(h, q[..k + 1])|
    ensures before + Registers(NewAddresses(h, q[..k]), t) + Registers(RegisterOf(DrainHandlers(h, q[..k]), q[k]), u)
      == before + Registers(NewAddresses(h, q[..k + 1]), t + u)
  {
    DrainStep(h, q, k);
    var done := NewAddresses(h, q[..k]);
    var step := RegisterOf(DrainHandlers(h, q[..k]), q[k]);
    RegistersStep(done, t, step, u);
    AppendAssociates(before, Registers(done, t), Registers(step, u));
  }

  /** One drained entry extends the pending registrations by that entry's one. */
  lemma DrainPendingStep(t: map<string, Record>, h: Handlers, q: seq<LazyEntry>, k: nat, ids: seq<string>, u: seq<string>)
    requires WellFiled(h) && k < |q|
    requires |ids| == |NewAddresses(h, q[..k])| && FreshIds(t, ids)
    requires |u| == |RegisterOf(DrainHandlers(h, q[..k]), q[k])|
    requires |ids + u| == |NewAddresses(h, q[..k + 1])|
    requires FreshIds(Pending(t, ids, NewRecords(h, q[..k])), u)
    ensures FreshIds(t, ids + u)
    ensures Pending(Pending(t, ids, NewRecords(h, q[..k])), u, PendingOf(DrainHandlers(h, q[..k]), q[k]))
      == Pending(t, ids + u, NewRecords(h, q[..k + 1]))
  {
    assert q[..k + 1][..k] == q[..k];
    var recs := NewRecords(h, q[..k]);
    var v := PendingOf(DrainHandlers(h, q[..k]), q[k]);
    assert NewRecords(h, q[..k + 1]) == recs + v;
    PendingStep(t, ids, recs, u, v);
    FreshAfterPending(t, ids, recs, u);
  }

  /** Ids fresh for a table that already holds `ids` extend a fresh run `ids`. */
  lemma FreshAfterPending(t: map<string, Record>, ids: seq<string>, recs: seq<Record>, u: seq<string>)
    requires |ids| == |recs| && |u| <= 1
    requires FreshIds(t, ids) && FreshIds(Pending(t, ids, recs), u)
    ensures FreshIds(t, ids + u)
  {
    if u != [] {
      PendingKeys(t, ids, recs);
      assert u[0] !in t && u[0] !in ids;
      var w := ids + u;
      forall i | 0 <= i < |w| ensures w[i] !in t {
        if i < |ids| { assert w[i] == ids[i]; } else { assert w[i] == u[0]; }
      }
      forall i, j | 0 <= i < j < |w| ensures w[i] != w[j] {
        if j < |ids| {
          assert w[i] == ids[i] && w[j] == ids[j];
        } else {
          assert w[j] == u[0] && w[i] == ids[i] && ids[i] in ids;
        }
      }
    } else {
      assert ids + u == ids;
    }
  }

  /** Some string is longer than every key of a table, so a longer one is a fresh key. */
  lemma {:induction false} LongerThanAll(keys: set<string>) returns (n: nat)
    ensures forall k :: k in keys ==> |k| < n
    decreases keys
  {
    if keys == {} {
      n := 0;
    } else {
      var k :| k in keys;
      var m := LongerThanAll(keys - {k});
      n := if |k| < m then m else |k| + 1;
    }
  }

  /** The client's state: the fields of an `EventBus` object and what it has done so far. */
  class EventBus {
    var state: ReadyState
    var handlers: Handlers
    var replyHandlers: map<string, ReplyHandler>
    /** Each pending registration's `{resolve, reject, ret}`, by track id; only `ret` matters here. */
    var trackHandlers: map<string, Record>
    var lazyQueue: seq<LazyEntry>
    var openHandlers: set<Callback>
    var closeHandlers: set<Callback>
    /** `__close`: the user closed the bus, so a dropped connection is not reopened. */
    var closedByUser: bool
    const url: string
    /** `window.location.origin`. */
    const origin: string
    var socketUrl: string
    var outbox: seq<Envelope>
    var invoked: seq<Invocation>

    ghost predicate Valid()
      reads this
    {
      WellFiled(handlers)
    }

    /** `new EventBus(url)`: empty tables and queue, a connection being opened. */
    constructor (url: string, origin: string)
      ensures Valid()
      ensures this.url == url && this.origin == origin && socketUrl == WsUrl.ToWS(origin, url)
      ensures state == Connecting && handlers == map[] && replyHandlers == map[] && trackHandlers == map[]
      ensures lazyQueue == [] && openHandlers == {} && closeHandlers == {} && !closedByUser
      ensures outbox == [] && invoked == []
    {
      this.url, this.origin := url, origin;
      lazyQueue, openHandlers, closeHandlers, closedByUser := [], {}, {}, false;
      handlers, replyHandlers, trackHandlers := map[], map[], map[];
      state := Connecting;
      socketUrl := WsUrl.ToWS(origin, url);
      outbox, invoked := [], [];
    }

    /** The socket's `open` event. */
    method OnSocketOpen()
      requires Valid()
      modifies this
      ensures Valid() && state == Open
      ensures unchanged(this`handlers, this`replyHandlers, this`trackHandlers, this`lazyQueue, this`outbox, this`invoked)
      ensures unchanged(this`openHandlers, this`closeHandlers, this`closedByUser, this`socketUrl)
    {
      state := Open;
    }

    /** The socket's `close` event; `retry` says whether a reconnection is scheduled. */
    method OnSocketClose() returns (retry: bool)
      requires Valid()
      modifies this
      ensures Valid() && state == Closed && retry == !closedByUser
      ensures unchanged(this`handlers, this`replyHandlers, this`trackHandlers, this`lazyQueue, this`outbox, this`invoked)
      ensures unchanged(this`openHandlers, this`closeHandlers, this`closedByUser, this`socketUrl)
    {
      state := Closed;
      retry := !closedByUser;
    }

    /**
     * The scheduled reconnection, `_init(url)`: fresh tables and a new connection. The queue
     * and the open and close listeners survive; the handlers do not.
     */
    method Reconnect()
      requires Valid()
      modifies this
      ensures Valid() && state == Connecting && socketUrl == WsUrl.ToWS(origin, url)
      ensures handlers == map[] && replyHandlers == map[] && trackHandlers == map[]
      ensures unchanged(this`lazyQueue, this`outbox, this`invoked, this`openHandlers, this`closeHandlers, this`closedByUser)
    {
      handlers, replyHandlers, trackHandlers := map[], map[], map[];
      state := Connecting;
      socketUrl := WsUrl.ToWS(origin, url);
    }

    /** `addEventListener`: only the types "open" and "close" are kept. */
    method AddEventListener(kind: string, callback: Callback)
      requires Valid()
      modifies this`openHandlers, this`closeHandlers
      ensures Valid()
      ensures openHandlers == if kind == "open" then old(openHandlers) + {callback} else old(openHandlers)
      ensures closeHandlers == if kind == "close" then old(closeHandlers) + {callback} else old(closeHandlers)
    {
      if kind == "open" {
        openHandlers := openHandlers + {callback};
      } else if kind == "close" {
        closeHandlers := closeHandlers + {callback};
      }
    }

    /** `removeEventListener`: only the types "open" and "close" are kept. */
    method RemoveEventListener(kind: string, callback: Callback)
      requires Valid()
      modifies this`openHandlers, this`closeHandlers
      ensures Valid()
      ensures openHandlers == if kind == "open" then old(openHandlers) - {callback} else old(openHandlers)
      ensures closeHandlers == if kind == "close" then old(closeHandlers) - {callback} else old(closeHandlers)
    {
      if kind == "open" {
        openHandlers := openHandlers - {callback};
      } else if kind == "close" {
        closeHandlers := closeHandlers - {callback};
      }
    }

    /** `send`: one `send` envelope, or `INVALID_STATE_ERR` unless the connection is open. */
    method Send(address: string, body: Option<Body>) returns (result: Outcome<()>)
      requires Valid()
      modifies this`outbox
      ensures Valid()
      ensures old(state) != Open ==> result == InvalidState && outbox == old(outbox)
      ensures old(state) == Open ==> result == Returned(()) && outbox == old(outbox) + [SendEnvelope(address, body)]
    {
      if state != Open {
        return InvalidState;
      }
      outbox := outbox + [SendEnvelope(address, body)];
      result := Returned(());
    }

    /** `publish`: one `publish` envelope, or `INVALID_STATE_ERR` unless the connection is open. */
    method Publish(address: string, body: Option<Body>) returns (result: Outcome<()>)
      requires Valid()
      modifies this`outbox
      ensures Valid()
      ensures old(state) != Open ==> result == InvalidState && outbox == old(outbox)
      ensures old(state) == Open ==> result == Returned(()) && outbox == old(outbox) + [PublishEnvelope(address, body)]
    {
      if state != Open {
        return InvalidState;
      }
      outbox := outbox + [PublishEnvelope(address, body)];
      result := Returned(());
    }

    /**
     * `request`: a handler is filed under a fresh `reply-` address and one `send` envelope
     * carrying that reply address goes out. Without a callback the handler is the returned
     * promise; with one the call returns null.
     */
    method Request(address: string, body: Option<Body>, callback: Option<Callback>)
      returns (result: Outcome<Option<ReplyHandler>>, replyAddress: string)
      requires Valid()
      modifies this`replyHandlers, this`outbox
      ensures Valid()
      ensures old(state) != Open ==> result == InvalidState && unchanged(this`replyHandlers, this`outbox)
      ensures old(state) == Open ==>
        && replyAddress !in old(replyHandlers) && WsUrl.StartsWith(replyAddress, "reply-")
        && var handler := if callback.Some? then CallbackHandler(callback.value) else PromiseHandler(replyAddress);
        && replyHandlers == old(replyHandlers)[replyAddress := handler]
        && outbox == old(outbox) + [RequestEnvelope(address, body, replyAddress)]
        && result == Returned(if callback.Some? then None else Some(handler))
    {
      if state != Open {
        return InvalidState, "";
      }
      ghost var n := LongerThanAll(replyHandlers.Keys);
      assert "reply-" + seq(n, _ => '0') !in replyHandlers;
      var uuid: string :| "reply-" + uuid !in replyHandlers;
      replyAddress := "reply-" + uuid;
      assert replyAddress[..6] == "reply-";
      var handler := if callback.Some? then CallbackHandler(callback.value) else PromiseHandler(replyAddress);
      replyHandlers := replyHandlers[replyAddress := handler];
      outbox := outbox + [RequestEnvelope(address, body, replyAddress)];
      result := Returned(if callback.Some? then None else Some(handler));
    }

    /**
     * `consumer`. On a connection that is not open the call is queued and nothing is sent.
     * On an open one the record is filed; the first record for an address also files a
     * pending registration under a fresh `t-` track id and sends one `register`, while a
     * later one is resolved at once and sends nothing.
     */
    method Consumer(address: string, callback: Callback) returns (reg: Registration)
      requires Valid()
      modifies this`handlers, this`trackHandlers, this`lazyQueue, this`outbox
      ensures Valid()
      ensures old(state) != Open ==>
        && reg == Queued && lazyQueue == old(lazyQueue) + [LazyEntry(address, callback)]
        && unchanged(this`handlers, this`trackHandlers, this`outbox)
      ensures old(state) == Open ==>
        && lazyQueue == old(lazyQueue)
        && handlers == AddRecord(old(handlers), Record(address, callback))
      ensures old(state) == Open && address in old(handlers) ==>
        && reg == Resolved(Record(address, callback))
        && unchanged(this`trackHandlers, this`outbox)
      ensures old(state) == Open && address !in old(handlers) ==>
        && reg.AwaitingAck? && reg.trackId !in old(trackHandlers) && WsUrl.StartsWith(reg.trackId, "t-")
        && handlers[address] == [Record(address, callback)]
        && trackHandlers == old(trackHandlers)[reg.trackId := Record(address, callback)]
        && outbox == old(outbox) + [RegisterEnvelope(address, reg.trackId)]
    {
      if state != Open {
        lazyQueue := lazyQueue + [LazyEntry(address, callback)];
        return Queued;
      }
      var ret := Record(address, callback);
      if address !in handlers {
        ghost var n := LongerThanAll(trackHandlers.Keys);
        assert "t-" + seq(n, _ => '0') !in trackHandlers;
        var uuid: string :| "t-" + uuid !in trackHandlers;
        var trackId := "t-" + uuid;
        assert trackId[..2] == "t-";
        trackHandlers := trackHandlers[trackId := ret];
        outbox := outbox + [RegisterEnvelope(address, trackId)];
        handlers := AddRecord(handlers, ret);
        reg := AwaitingAck(trackId);
      } else {
        handlers := AddRecord(handlers, ret);
        reg := Resolved(ret);
      }
    }

    /**
     * `unregisterHandler`: the first record with the callback is removed. When it was the
     * last one the address is deleted, and an `unRegister` goes out if the connection is
     * open. An unknown address or callback changes nothing.
     */
    method UnregisterHandler(address: string, callback: Callback)
      requires Valid()
      modifies this`handlers, this`outbox
      ensures Valid()
      ensures handlers == RemoveRecord(old(handlers), address, callback)
      ensures outbox == old(outbox) +
        (if address in old(handlers) && address !in handlers && old(state) == Open then [UnregisterEnvelope(address)] else [])
    {
      if address in handlers {
        var idx := IndexOf(handlers[address], callback);
        if idx != -1 {
          var rest := handlers[address][..idx] + handlers[address][idx + 1..];
          if rest == [] && state == Open {
            outbox := outbox + [UnregisterEnvelope(address)];
          }
          handlers := RemoveRecord(handlers, address, callback);
        }
      }
    }

    /**
     * The `done` branch of the listener: the queue is drained first in, first out, each
     * entry with an address going through `consumer`. On an open connection the queue ends
     * empty, every queued record is filed and one `register` goes out per new address. On
     * one that is not open, `consumer` queues the first entry again and the drain waits
     * forever for it.
     */
    method OnDone() returns (trackIds: seq<string>)
      requires Valid()
      modifies this`handlers, this`trackHandlers, this`lazyQueue, this`outbox
      ensures Valid()
      ensures old(state) == Open ==>
        && lazyQueue == []
        && handlers == DrainHandlers(old(handlers), old(lazyQueue))
        && |trackIds| == |NewAddresses(old(handlers), old(lazyQueue))|
        && outbox == old(outbox) + Registers(NewAddresses(old(handlers), old(lazyQueue)), trackIds)
        && FreshIds(old(trackHandlers), trackIds)
        && trackHandlers == Pending(old(trackHandlers), trackIds, NewRecords(old(handlers), old(lazyQueue)))
        && Extends(old(trackHandlers), trackHandlers)
      ensures old(state) != Open ==>
        && trackIds == [] && lazyQueue == Stalled(old(lazyQueue))
        && unchanged(this`handlers, this`trackHandlers, this`outbox)
    {
      if state == Open {
        trackIds := DrainOpen();
        PendingKeys(old(trackHandlers), trackIds, NewRecords(old(handlers), old(lazyQueue)));
      } else {
        DrainStalled();
        trackIds := [];
      }
    }

    /**
     * The state after the first `k` entries of `q` are drained from handlers `h0`, pending
     * registrations `t0` and outbox `out0`, with `trackIds` the ids those entries were given.
     */
    ghost predicate DrainedUpTo(h0: Handlers, t0: map<string, Record>, out0: seq<Envelope>, q: seq<LazyEntry>, k: nat, trackIds: seq<string>)
      requires WellFiled(h0)
      reads this
    {
      && k <= |q| && lazyQueue == q[k..]
      && handlers == DrainHandlers(h0, q[..k])
      && |trackIds| == |NewAddresses(h0, q[..k])|
      && outbox == out0 + Registers(NewAddresses(h0, q[..k]), trackIds)
      && FreshIds(t0, trackIds)
      && trackHandlers == Pending(t0, trackIds, NewRecords(h0, q[..k]))
    }

    /** The drain on an open connection: every entry is taken off the queue, in order. */
    method DrainOpen() returns (trackIds: seq<string>)
      requires Valid() && state == Open
      modifies this`handlers, this`trackHandlers, this`lazyQueue, this`outbox
      ensures Valid()
      ensures lazyQueue == []
      ensures handlers == DrainHandlers(old(handlers), old(lazyQueue))
      ensures |trackIds| == |NewAddresses(old(handlers), old(lazyQueue))|
      ensures outbox == old(outbox) + Registers(NewAddresses(old(handlers), old(lazyQueue)), trackIds)
      ensures FreshIds(old(trackHandlers), trackIds)
      ensures trackHandlers == Pending(old(trackHandlers), trackIds, NewRecords(old(handlers), old(lazyQueue)))
    {
      ghost var h0, t0, out0, q := handlers, trackHandlers, outbox, lazyQueue;
      ghost var k := 0;
      trackIds := [];
      assert q[..0] == [];
      while |lazyQueue| > 0
        invariant Valid() && WellFiled(h0)
        invariant DrainedUpTo(h0, t0, out0, q, k, trackIds)
        decreases |q| - k
      {
        trackIds := DrainNext(h0, t0, out0, q, k, trackIds);
        k := k + 1;
      }
      assert q[..k] == q;
    }

    /**
     * The drain on a connection that is not open: entries without an address are dropped,
     * and the first one with an address goes through `consumer`, which queues it again; the
     * drain then waits for a registration that never completes.
     */
    method DrainStalled()
      requires Valid() && state != Open
      modifies this`handlers, this`trackHandlers, this`lazyQueue, this`outbox
      ensures Valid()
      ensures lazyQueue == Stalled(old(lazyQueue))
      ensures unchanged(this`handlers, this`trackHandlers, this`outbox)
    {
      var stalled := false;
      while |lazyQueue| > 0 && !stalled
        invariant Valid()
        invariant if stalled then lazyQueue == Stalled(old(lazyQueue)) else Stalled(lazyQueue) == Stalled(old(lazyQueue))
        invariant unchanged(this`handlers, this`trackHandlers, this`outbox)
        decreases |lazyQueue| + (if stalled then 0 else 1)
      {
        ghost var waiting := lazyQueue;
        var entry := lazyQueue[0];
        lazyQueue := lazyQueue[1..];
        var ids;
        stalled, ids := DrainEntry(entry);
        if entry.address == "" {
          assert lazyQueue == waiting[1..];
        }
      }
    }

    /** One step of the drain on an open connection: the next entry is taken off and drained. */
    method DrainNext(ghost h0: Handlers, ghost t0: map<string, Record>, ghost out0: seq<Envelope>,
                     ghost q: seq<LazyEntry>, ghost k: nat, trackIds: seq<string>) returns (trackIds': seq<string>)
      requires Valid() && state == Open && WellFiled(h0)
      requires DrainedUpTo(h0, t0, out0, q, k, trackIds) && k < |q|
      modifies this`handlers, this`trackHandlers, this`lazyQueue, this`outbox
      ensures Valid() && DrainedUpTo(h0, t0, out0, q, k + 1, trackIds')
    {
      var entry := lazyQueue[0];
      lazyQueue := lazyQueue[1..];
      assert lazyQueue == q[k + 1..];
      var _, ids := DrainEntry(entry);
      assert entry == q[k];
      DrainOutboxStep(h0, q, k, out0, trackIds, ids);
      DrainPendingStep(t0, h0, q, k, trackIds, ids);
      trackIds' := trackIds + ids;
    }

    /** One iteration of the drain: an entry with an address goes through `consumer`. */
    method DrainEntry(entry: LazyEntry) returns (stalled: bool, trackIds: seq<string>)
      requires Valid()
      modifies this`handlers, this`trackHandlers, this`lazyQueue, this`outbox
      ensures Valid()
      ensures old(state) == Open ==>
        && !stalled && lazyQueue == old(lazyQueue)
        && handlers == FileEntry(old(handlers), entry)
        && |trackIds| == |RegisterOf(old(handlers), entry)|
        && outbox == old(outbox) + Registers(RegisterOf(old(handlers), entry), trackIds)
        && FreshIds(old(trackHandlers), trackIds)
        && trackHandlers == Pending(old(trackHandlers), trackIds, PendingOf(old(handlers), entry))
      ensures old(state) != Open ==>
        && stalled == (entry.address != "")
        && lazyQueue == old(lazyQueue) + (if entry.address != "" then [entry] else [])
        && unchanged(this`handlers, this`trackHandlers, this`outbox)
    {
      stalled, trackIds := false, [];
      if entry.address != "" {
        var reg := Consumer(entry.address, entry.callback);
        stalled := reg == Queued;
        if reg.AwaitingAck? {
          trackIds := [reg.trackId];
          assert trackIds[..0] == [];
        }
      }
    }

    /**
     * The socket's `message` event. A reply or a track acknowledgment deletes its table entry
     * before settling it, so each settles at most once; an address-bearing message calls the
     * address's handlers and sends at most one reply.
     */
    method OnMessage(msg: Envelope, respond: Callback -> Option<Body>)
      requires Valid()
      modifies this`handlers, this`replyHandlers, this`trackHandlers, this`lazyQueue, this`outbox, this`invoked
      ensures Valid()
      ensures BranchOf(msg) == PongBranch || BranchOf(msg) == Stray ==>
        unchanged(this`handlers, this`replyHandlers, this`trackHandlers, this`lazyQueue, this`outbox, this`invoked)
      ensures BranchOf(msg).AddressBranch? ==>
        var a := BranchOf(msg).address;
        var rs := RecordsAt(old(handlers), a);
        var needReply := Truthy(msg.replyAddress);
        && unchanged(this`handlers, this`replyHandlers, this`trackHandlers, this`lazyQueue)
        && outbox == old(outbox) +
             (if needReply && old(state) == Open && |rs| > 0
              then [SendEnvelope(msg.replyAddress.value, respond(rs[0].callback))] else [])
        && invoked == old(invoked) +
             (if needReply && old(state) != Open && |rs| > 0 then [HandlerCalled(rs[0].callback, msg)]
              else seq(|rs|, i requires 0 <= i < |rs| => HandlerCalled(rs[i].callback, msg)))
      ensures BranchOf(msg) == DoneBranch ==>
        && unchanged(this`replyHandlers, this`invoked)
        && (old(state) == Open ==>
              && lazyQueue == [] && handlers == DrainHandlers(old(handlers), old(lazyQueue))
              && exists ids: seq<string> ::
                   && |ids| == |NewAddresses(old(handlers), old(lazyQueue))|
                   && FreshIds(old(trackHandlers), ids)
                   && outbox == old(outbox) + Registers(NewAddresses(old(handlers), old(lazyQueue)), ids)
                   && trackHandlers == Pending(old(trackHandlers), ids, NewRecords(old(handlers), old(lazyQueue))))
        && (old(state) != Open ==>
              lazyQueue == Stalled(old(lazyQueue)) && unchanged(this`handlers, this`trackHandlers, this`outbox))
      ensures BranchOf(msg).ReplyBranch? ==>
        var ra := BranchOf(msg).replyAddress;
        && replyHandlers == old(replyHandlers) - {ra}
        && invoked == old(invoked) + (if ra in old(replyHandlers) then [ReplySettled(old(replyHandlers)[ra], msg.body)] else [])
        && unchanged(this`handlers, this`trackHandlers, this`lazyQueue, this`outbox)
      ensures BranchOf(msg).TrackBranch? ==>
        var t := BranchOf(msg).trackId;
        && trackHandlers == old(trackHandlers) - {t}
        && invoked == old(invoked) + (if t in old(trackHandlers) then [TrackSettled(t, old(trackHandlers)[t])] else [])
        && unchanged(this`handlers, this`replyHandlers, this`lazyQueue, this`outbox)
    {
      match BranchOf(msg)
      case PongBranch =>
      case Stray =>
      case DoneBranch =>
        var trackIds := OnDone();
      case AddressBranch(a) =>
        if a in handlers {
          var rs := handlers[a];
          var needReply := Truthy(msg.replyAddress);
          var called, reply, threw := InvokeHandlers(rs, needReply, state == Open, respond);
          invoked := invoked + seq(|called|, i requires 0 <= i < |called| => HandlerCalled(called[i], msg));
          if reply.Some? {
            var sent := Send(msg.replyAddress.value, reply.value);
          }
        }
      case ReplyBranch(ra) =>
        if ra in replyHandlers {
          var handler := replyHandlers[ra];
          replyHandlers := replyHandlers - {ra};
          invoked := invoked + [ReplySettled(handler, msg.body)];
        }
      case TrackBranch(t) =>
        var tick := if t in trackHandlers then Some(trackHandlers[t]) else None;
        trackHandlers := trackHandlers - {t};
        if tick.Some? {
          invoked := invoked + [TrackSettled(t, tick.value)];
        }
    }

    /** `close`: the user closes the bus; every table is emptied and no reconnection follows. */
    method Close()
      requires Valid()
      modifies this
      ensures Valid() && state == Closing && closedByUser
      ensures handlers == map[] && replyHandlers == map[] && trackHandlers == map[]
      ensures openHandlers == {} && closeHandlers == {}
      ensures unchanged(this`lazyQueue, this`outbox, this`invoked, this`socketUrl)
    {
      state := Closing;
      closedByUser := true;
      handlers, replyHandlers := map[], map[];
      closeHandlers, openHandlers := {}, {};
      trackHandlers := map[];
    }
  }
}

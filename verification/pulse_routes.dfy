/**
 * The pulse routes of src/routes/pulse.js: the shared-secret gate, the
 * subscription stream (registration, greeting, heartbeat, close), the
 * webhook that fans a batch out item by item, and the single-alert emit.
 */
module PulseRoutes {
  import opened Wrappers
  import opened Js
  import opened Hub

  /** Interval of the heartbeat timer, in milliseconds. */
  const HeartbeatMs: nat := 25000

  /** The JSON text of the greeting `{ ok: true, hello: 'PulseScout SSE connected' }`. */
  const GreetingJson: string := "{\"ok\":true,\"hello\":\"PulseScout SSE connected\"}"

  /** The heartbeat, written in one piece. */
  const PingEvent: string := "event: ping\ndata: {}\n\n"

  /** The heartbeat is the `ping` event with an empty JSON object as data. */
  lemma PingEventReadsBack()
    ensures DecodeEvent(PingEvent) == Some(Frame("ping", "{}"))
  {
    assert PingEvent == Event("ping", "{}");
    DecodeEvent_Event("ping", "{}");
  }

  /**
   * `checkSecret`: the configured `PULSE_SECRET` (unset reads as empty) must be
   * non-empty and strictly equal to the path parameter, the query parameter or
   * the body's `secret` field.
   */
  predicate CheckSecret(env: Option<string>, paramSecret: Value, querySecret: Value, body: Value)
  {
    var secret := if env.Some? then env.value else "";
    secret != "" && (paramSecret == Str(secret) || querySecret == Str(secret) || Get(body, "secret") == Str(secret))
  }

  /** With no secret configured, or an empty one, nothing passes the gate. */
  lemma CheckSecretDisabled(env: Option<string>, paramSecret: Value, querySecret: Value, body: Value)
    requires env.None? || env == Some("")
    ensures !CheckSecret(env, paramSecret, querySecret, body)
  {
  }

  /** With a non-empty secret, the gate opens exactly when one of the three places carries that very string. */
  lemma CheckSecretExact(secret: string, paramSecret: Value, querySecret: Value, body: Value)
    requires secret != ""
    ensures CheckSecret(Some(secret), paramSecret, querySecret, body)
      <==> Str(secret) in [paramSecret, querySecret, Get(body, "secret")]
  {
  }

  /** The reply of the webhook and emit routes. */
  datatype Reply = Unauthorized | Received(count: nat) | Emitted
  {
    function Status(): nat { if Unauthorized? then 401 else 200 }
  }

  /** `Array.isArray(body) ? body : [body]`. */
  function Items(body: Value): (items: seq<Value>)
    ensures body.Arr? ==> items == body.elems
    ensures !body.Arr? ==> items == [body]
  {
    if body.Arr? then body.elems else [body]
  }

  /** The JSON texts of the alerts made from each item; `encode` is `JSON.stringify`. */
  function AlertJsons(items: seq<Value>, ts: string, strNum: string -> Number, tanh: real -> real,
                      encode: Alert -> string): (jsons: seq<string>)
    requires forall it :: it in items ==> InDomain(it)
    ensures |jsons| == |items|
    ensures forall i :: 0 <= i < |items| ==> jsons[i] == encode(ToAlert(items[i], ts, strNum, tanh))
  {
    seq(|items|, i requires 0 <= i < |items| => encode(ToAlert(items[i], ts, strNum, tanh)))
  }

  /** What a working stream receives from broadcasting the JSON texts one after the other. */
  function Frames(jsons: seq<string>): (chunks: seq<string>)
    ensures |chunks| == 2 * |jsons|
  {
    if |jsons| == 0 then [] else Frames(jsons[..|jsons| - 1]) + MessageFrame(jsons[|jsons| - 1])
  }

  /** The i-th event of a batch carries the i-th JSON text: one event per item, in item order. */
  lemma {:induction false} FramesInOrder(jsons: seq<string>, i: nat)
    requires i < |jsons|
    ensures Frames(jsons)[2 * i] + Frames(jsons)[2 * i + 1] == Event("message", jsons[i])
  {
    var n := |jsons|;
    var init := jsons[..n - 1];
    assert Frames(jsons) == Frames(init) + MessageFrame(jsons[n - 1]);
    if i < n - 1 {
      FramesInOrder(init, i);
    }
  }

  /**
   * `GET /stream`: registers the stream first, then sends the greeting; the
   * heartbeat timer starts only when the greeting went out (a throwing write
   * ends the handler). The stream is registered whether or not the greeting
   * could be written.
   */
  method Stream(hub: Hub, c: Channel)
    modifies hub, c
    ensures hub.clients == old(hub.clients) + {c}
    ensures c.written == old(c.written) + Delivered(c.broken, GreetingJson)
    ensures c.broken == old(c.broken)
    ensures c.heartbeat == (old(c.heartbeat) || !c.broken)
  {
    hub.AddClient(c);
    var ok := Send(c, GreetingJson);
    if ok {
      c.heartbeat := true;
    }
  }

  /** One tick of the heartbeat timer: writes the ping, ignoring a throwing write. */
  method HeartbeatTick(c: Channel)
    requires c.heartbeat
    modifies c
    ensures c.written == old(c.written) + (if c.broken then [] else [PingEvent])
    ensures c.broken == old(c.broken) && c.heartbeat
  {
    var _ := Write(c, PingEvent);
  }

  /** The stream's `close` event: the hub's listener unregisters it and the route's listener stops its timer. */
  method Disconnect(hub: Hub, c: Channel)
    modifies hub, c
    ensures hub.clients == old(hub.clients) - {c}
    ensures c.written == old(c.written) && c.broken == old(c.broken) && !c.heartbeat
  {
    hub.OnClose(c);
    c.heartbeat := false;
  }

  /** Broadcasts the JSON texts one after the other, as the webhook's loop over its items does. */
  method BroadcastAll(hub: Hub, jsons: seq<string>)
    modifies hub.clients
    ensures hub.clients == old(hub.clients)
    ensures forall c :: c in hub.clients ==> c.broken == old(c.broken) && c.heartbeat == old(c.heartbeat)
    ensures forall c :: c in hub.clients ==> c.written == old(c.written) + (if c.broken then [] else Frames(jsons))
  {
    var i := 0;
    while i < |jsons|
      invariant 0 <= i <= |jsons|
      invariant hub.clients == old(hub.clients)
      invariant forall c :: c in hub.clients ==> c.broken == old(c.broken) && c.heartbeat == old(c.heartbeat)
      invariant forall c :: c in hub.clients ==>
        c.written == old(c.written) + (if c.broken then [] else Frames(jsons[..i]))
    {
      hub.Broadcast(jsons[i]);
      assert jsons[..i + 1][..i] == jsons[..i];
      i := i + 1;
    }
    assert jsons[..i] == jsons;
  }

  /**
   * `POST /webhook/:secret`: 401 without a broadcast when the gate is shut;
   * otherwise every item (the array's elements, or the body alone) is turned
   * into an alert and broadcast, in order, and the reply counts the items.
   */
  method Webhook(hub: Hub, env: Option<string>, paramSecret: Value, querySecret: Value, body: Value,
                 ts: string, strNum: string -> Number, tanh: real -> real, encode: Alert -> string)
    returns (r: Reply)
    requires CheckSecret(env, paramSecret, querySecret, body) ==> forall it :: it in Items(body) ==> InDomain(it)
    modifies hub.clients
    ensures hub.clients == old(hub.clients)
    ensures forall c :: c in hub.clients ==> c.broken == old(c.broken) && c.heartbeat == old(c.heartbeat)
    ensures !CheckSecret(env, paramSecret, querySecret, body) ==>
      r == Unauthorized && forall c :: c in hub.clients ==> c.written == old(c.written)
    ensures CheckSecret(env, paramSecret, querySecret, body) ==>
      && r == Received(|Items(body)|)
      && (forall c :: c in hub.clients ==>
            c.written == old(c.written) + (if c.broken then [] else Frames(AlertJsons(Items(body), ts, strNum, tanh, encode))))
  {
    if !CheckSecret(env, paramSecret, querySecret, body) {
      return Unauthorized;
    }
    var items := Items(body);
    var jsons := AlertJsons(items, ts, strNum, tanh, encode);
    BroadcastAll(hub, jsons);
    r := Received(|items|);
  }

  /** `req.body?.payload || {}`. */
  function EmitPayload(body: Value): Value {
    if Truthy(Get(body, "payload")) then Get(body, "payload") else Obj(map[])
  }

  /**
   * `POST /emit`: 401 without a broadcast when the gate is shut (the route
   * has no path secret); otherwise exactly one broadcast, of the alert made
   * from the body's payload.
   */
  method Emit(hub: Hub, env: Option<string>, querySecret: Value, body: Value,
              ts: string, strNum: string -> Number, tanh: real -> real, encode: Alert -> string)
    returns (r: Reply)
    requires CheckSecret(env, Undefined, querySecret, body) ==> InDomain(EmitPayload(body))
    modifies hub.clients
    ensures hub.clients == old(hub.clients)
    ensures forall c :: c in hub.clients ==> c.broken == old(c.broken) && c.heartbeat == old(c.heartbeat)
    ensures !CheckSecret(env, Undefined, querySecret, body) ==>
      r == Unauthorized && forall c :: c in hub.clients ==> c.written == old(c.written)
    ensures CheckSecret(env, Undefined, querySecret, body) ==>
      && r == Emitted
      && (forall c :: c in hub.clients ==>
            c.written == old(c.written) + Delivered(c.broken, encode(ToAlert(EmitPayload(body), ts, strNum, tanh))))
  {
    if !CheckSecret(env, Undefined, querySecret, body) {
      return Unauthorized;
    }
    var alert := ToAlert(EmitPayload(body), ts, strNum, tanh);
    hub.Broadcast(encode(alert));
    r := Emitted;
  }
}

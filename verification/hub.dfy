/**
 * The in-memory server-sent-events hub of src/pulse/hub.js: a registry of
 * subscriber streams, the frame that `send` writes, a best-effort
 * `broadcast`, and `toAlert`, which turns a loosely shaped feed payload into
 * the canonical seven-field alert.
 */
module Hub {
  import opened Wrappers
  import opened Text
  import opened Js

  /** One subscriber's response stream (`res`). */
  class Channel {
    /** Everything written to the stream so far, write by write. */
    var written: seq<string>
    /** Whether writes to this stream throw (the remote end has gone away). */
    var broken: bool
    /** Whether the stream's 25-second ping timer is running. */
    var heartbeat: bool

    constructor (broken: bool)
      ensures written == [] && this.broken == broken && !heartbeat
    {
      written := [];
      this.broken := broken;
      heartbeat := false;
    }
  }

  // ---------------------------------------------------------------- wire format

  /** One server-sent event: an `event:` line, a `data:` line, then a blank line. */
  function Event(name: string, data: string): string {
    "event: " + (name + ("\n" + ("data: " + (data + ("\n" + "\n")))))
  }

  /** The two writes `send` makes for the JSON text of an object. */
  function MessageFrame(json: string): (chunks: seq<string>)
    ensures |chunks| == 2 && chunks[0] + chunks[1] == Event("message", json)
  {
    ["event: message\n", "data: " + json + "\n\n"]
  }

  /** What a stream receives from one `send`: the frame, or nothing when its writes throw. */
  function Delivered(broken: bool, json: string): seq<string> {
    if broken then [] else MessageFrame(json)
  }

  /** An event as a subscriber reads it back. */
  datatype Frame = Frame(name: string, data: string)

  /** The rest of `s` after the prefix `p`, if `s` starts with it. */
  function AfterPrefix(s: string, p: string): Option<string> {
    if StartsWith(s, p) then Some(s[|p|..]) else None
  }

  /** The first line of `s` and what follows its line break, if `s` has one. */
  function SplitLine(s: string): Option<(string, string)> {
    if '\n' in s then var i := IndexOf(s, '\n'); Some((s[..i], s[i + 1..])) else None
  }

  lemma AfterPrefixOf(p: string, s: string)
    ensures AfterPrefix(p + s, p) == Some(s)
  {
    assert (p + s)[..|p|] == p;
  }

  lemma SplitLineOf(line: string, rest: string)
    requires '\n' !in line
    ensures SplitLine(line + ("\n" + rest)) == Some((line, rest))
  {
    assert line + ("\n" + rest) == line + ['\n'] + rest;
    IndexOfJoined(line, '\n', rest);
    assert (line + ['\n'] + rest)[..|line|] == line;
    assert (line + ['\n'] + rest)[|line| + 1..] == rest;
  }

  /** Reads one event back: `event: <name>\ndata: <data>\n\n`, nothing more. */
  function DecodeEvent(s: string): Option<Frame> {
    match AfterPrefix(s, "event: ")
    case None => None
    case Some(a) =>
      match SplitLine(a)
      case None => None
      case Some((name, b)) =>
        match AfterPrefix(b, "data: ")
        case None => None
        case Some(c) =>
          match SplitLine(c)
          case None => None
          case Some((data, d)) => if d == "\n" then Some(Frame(name, data)) else None
  }

  /** Every event whose name and data are single lines reads back as itself. */
  lemma DecodeEvent_Event(name: string, data: string)
    requires '\n' !in name && '\n' !in data
    ensures DecodeEvent(Event(name, data)) == Some(Frame(name, data))
  {
    var c := data + ("\n" + "\n");
    var b := "data: " + c;
    var a := name + ("\n" + b);
    var s := Event(name, data);
    assert s == "event: " + a;
    AfterPrefixOf("event: ", a);
    assert AfterPrefix(s, "event: ") == Some(a);
    SplitLineOf(name, b);
    assert SplitLine(a) == Some((name, b));
    AfterPrefixOf("data: ", c);
    assert AfterPrefix(b, "data: ") == Some(c);
    SplitLineOf(data, "\n");
    assert SplitLine(c) == Some((data, "\n"));
  }

  /** Whatever reads back as an event is exactly that event's text. */
  lemma Event_DecodeEvent(s: string, f: Frame)
    requires DecodeEvent(s) == Some(f)
    ensures s == Event(f.name, f.data)
  {
    var a := AfterPrefix(s, "event: ").value;
    PrefixRestored(s, "event: ");
    var (name, b) := SplitLine(a).value;
    LineRestored(a);
    var c := AfterPrefix(b, "data: ").value;
    PrefixRestored(b, "data: ");
    var (data, d) := SplitLine(c).value;
    LineRestored(c);
    assert name == f.name && data == f.data && d == "\n";
    assert c == data + ("\n" + "\n");
    assert b == "data: " + (data + ("\n" + "\n"));
    assert a == name + ("\n" + ("data: " + (data + ("\n" + "\n"))));
  }

  lemma PrefixRestored(s: string, p: string)
    requires AfterPrefix(s, p).Some?
    ensures s == p + AfterPrefix(s, p).value
  {
    assert s == s[..|p|] + s[|p|..];
  }

  lemma LineRestored(s: string)
    requires SplitLine(s).Some?
    ensures s == SplitLine(s).value.0 + ("\n" + SplitLine(s).value.1)
  {
    var i := IndexOf(s, '\n');
    assert s == s[..i] + [s[i]] + s[i + 1..];
  }

  /** The message frame a subscriber receives carries the JSON text unchanged. */
  lemma MessageFrameReadsBack(json: string)
    requires '\n' !in json
    ensures var chunks := MessageFrame(json); DecodeEvent(chunks[0] + chunks[1]) == Some(Frame("message", json))
  {
    DecodeEvent_Event("message", json);
  }

  // ---------------------------------------------------------------- writes

  /** `res.write(chunk)`: appends the chunk, or throws (reported as `false`) on a broken stream. */
  method Write(c: Channel, chunk: string) returns (ok: bool)
    modifies c
    ensures ok == !c.broken
    ensures c.written == old(c.written) + (if ok then [chunk] else [])
    ensures c.broken == old(c.broken) && c.heartbeat == old(c.heartbeat)
  {
    ok := !c.broken;
    if ok {
      c.written := c.written + [chunk];
    }
  }

  /** `send`: the `event: message` line, then the `data:` line; `false` when a write threw. */
  method Send(c: Channel, json: string) returns (ok: bool)
    modifies c
    ensures ok == !c.broken
    ensures c.written == old(c.written) + Delivered(c.broken, json)
    ensures c.broken == old(c.broken) && c.heartbeat == old(c.heartbeat)
  {
    ok := Write(c, "event: message\n");
    if ok {
      ok := Write(c, "data: " + json + "\n\n");
    }
  }

  // ---------------------------------------------------------------- registry

  /** The module-level registry of subscriber streams. */
  class Hub {
    var clients: set<Channel>

    constructor ()
      ensures clients == {}
    {
      clients := {};
    }

    /** `addClient`: registers the stream. */
    method AddClient(c: Channel)
      modifies this
      ensures clients == old(clients) + {c}
    {
      clients := clients + {c};
    }

    /** The `close` listener that `addClient` installs: unregisters the stream; a no-op when it is not registered. */
    method OnClose(c: Channel)
      modifies this
      ensures clients == old(clients) - {c}
    {
      clients := clients - {c};
    }

    /**
     * `broadcast`: sends the JSON text to every registered stream. A stream
     * whose writes throw gets nothing, the others still get the frame, nothing
     * is reported to the caller, and the registry is left as it was.
     */
    method Broadcast(json: string)
      modifies clients
      ensures clients == old(clients)
      ensures forall c :: c in clients ==> c.written == old(c.written) + Delivered(old(c.broken), json)
      ensures forall c :: c in clients ==> c.broken == old(c.broken) && c.heartbeat == old(c.heartbeat)
    {
      var todo := clients;
      while todo != {}
        invariant todo <= clients
        invariant forall c :: c in clients && c !in todo ==> c.written == old(c.written) + Delivered(old(c.broken), json)
        invariant forall c :: c in todo ==> c.written == old(c.written)
        invariant forall c :: c in clients ==> c.broken == old(c.broken) && c.heartbeat == old(c.heartbeat)
        decreases todo
      {
        var c :| c in todo;
        var _ := Send(c, json);
        todo := todo - {c};
      }
    }
  }

  // ---------------------------------------------------------------- toAlert

  const SourceKeys: seq<string> := ["source", "feed", "_source"]
  const SymbolKeys: seq<string> := ["symbol", "ticker", "pair", "token"]
  const SignalKeys: seq<string> := ["signal", "event", "reason"]
  const SideKeys: seq<string> := ["side", "bias"]
  const NotesKeys: seq<string> := ["notes", "message", "desc", "description"]
  const ScoreKeys: seq<string> := ["volume_z", "z", "score"]

  /** The validity given to an alert that carries neither a validity nor a score. */
  const DefaultValidity: real := 0.86

  /** The canonical alert. */
  datatype Alert = Alert(
    ts: string,
    source: Value,
    symbol: Value,
    signal: Value,
    validity: Number,
    side: string,
    notes: Value)

  /** `payload.side || payload.bias || 'neutral'`, before lower-casing. */
  function SideValue(payload: Value): Value {
    Pick(payload, SideKeys, Str("neutral"))
  }

  /**
   * The payloads `toAlert` accepts without throwing: not `null`, and with a
   * side that is a string (`toLowerCase` is called on it).
   */
  predicate InDomain(payload: Value) {
    !payload.Null? && SideValue(payload).Str?
  }

  /** `Number(payload.volume_z || payload.z || payload.score)`. */
  function Score(payload: Value, strNum: string -> Number): Number {
    ToNumber(OrChain(Fields(payload, ScoreKeys)), strNum)
  }

  function Min(x: real, y: real): real { if x <= y then x else y }

  function Max(x: real, y: real): real { if x >= y then x else y }

  /** `Math.max(0, Math.min(0.99, x))`. */
  function Clamp(x: real): (r: real)
    ensures 0.0 <= r <= 0.99
    ensures 0.0 <= x <= 0.99 ==> r == x
  {
    Max(0.0, Min(0.99, x))
  }

  /** `Math.tanh(z / 4)` for a score that is not NaN; `tanh` is the host's hyperbolic tangent on finite reals. */
  function TanhQuarter(z: Number, tanh: real -> real): real
    requires !z.NaN?
  {
    match z
    case Finite(r) => tanh(r / 4.0)
    case PosInf => 1.0
    case NegInf => -1.0
  }

  /** The validity derived from a score: `Math.max(0, Math.min(0.99, 0.5 + Math.tanh(z/4)*0.4))`. */
  function Squash(z: Number, tanh: real -> real): real
    requires !z.NaN?
  {
    Clamp(0.5 + TanhQuarter(z, tanh) * 0.4)
  }

  /**
   * The alert's validity: an explicit number is taken as it is (not clamped,
   * and NaN included); otherwise a score that is not NaN is squashed into
   * [0, 0.99]; otherwise the default 0.86.
   */
  function Validity(payload: Value, strNum: string -> Number, tanh: real -> real): (r: Number)
    ensures Get(payload, "validity").Num? ==> r == Get(payload, "validity").n
    ensures !Get(payload, "validity").Num? && !Score(payload, strNum).NaN? ==> r.Finite? && 0.0 <= r.r <= 0.99
    ensures !Get(payload, "validity").Num? && Score(payload, strNum).NaN? ==> r == Finite(DefaultValidity)
  {
    match Get(payload, "validity")
    case Num(n) => n
    case _ =>
      var z := Score(payload, strNum);
      if z.NaN? then Finite(DefaultValidity) else Finite(Squash(z, tanh))
  }

  /**
   * `toAlert`: each text field is the first truthy field of its key list, or
   * its default (so source, symbol and signal are never falsy); the side is
   * lower-cased; `now` is the time stamp the host clock gives.
   */
  function ToAlert(payload: Value, now: string, strNum: string -> Number, tanh: real -> real): (a: Alert)
    requires InDomain(payload)
    ensures a.ts == now
    ensures Truthy(a.source) && a.source in Fields(payload, SourceKeys) + [Str("unknown")]
    ensures Truthy(a.symbol) && a.symbol in Fields(payload, SymbolKeys) + [Str("-")]
    ensures Truthy(a.signal) && a.signal in Fields(payload, SignalKeys) + [Str("anomaly")]
    ensures a.notes in Fields(payload, NotesKeys) + [Str("")]
    ensures |a.side| == |SideValue(payload).s| && forall i :: 0 <= i < |a.side| ==> !IsUpperAscii(a.side[i])
    ensures a.validity == Validity(payload, strNum, tanh)
  {
    Alert(
      now,
      Pick(payload, SourceKeys, Str("unknown")),
      Pick(payload, SymbolKeys, Str("-")),
      Pick(payload, SignalKeys, Str("anomaly")),
      Validity(payload, strNum, tanh),
      Lower(SideValue(payload).s),
      Pick(payload, NotesKeys, Str("")))
  }

  /** No field of the key list is truthy. */
  predicate NoneTruthy(payload: Value, keys: seq<string>) {
    forall j :: 0 <= j < |keys| ==> !Truthy(Get(payload, keys[j]))
  }

  /** Which field each text field of the alert comes from: the first truthy key of its list wins, else the default. */
  lemma ToAlertResolves(payload: Value, now: string, strNum: string -> Number, tanh: real -> real)
    requires InDomain(payload)
    ensures var a := ToAlert(payload, now, strNum, tanh);
      && (forall i :: FirstTruthyAt(payload, SourceKeys, i) ==> a.source == Get(payload, SourceKeys[i]))
      && (NoneTruthy(payload, SourceKeys) ==> a.source == Str("unknown"))
      && (forall i :: FirstTruthyAt(payload, SymbolKeys, i) ==> a.symbol == Get(payload, SymbolKeys[i]))
      && (NoneTruthy(payload, SymbolKeys) ==> a.symbol == Str("-"))
      && (forall i :: FirstTruthyAt(payload, SignalKeys, i) ==> a.signal == Get(payload, SignalKeys[i]))
      && (NoneTruthy(payload, SignalKeys) ==> a.signal == Str("anomaly"))
      && (forall i :: FirstTruthyAt(payload, NotesKeys, i) ==> a.notes == Get(payload, NotesKeys[i]))
      && (NoneTruthy(payload, NotesKeys) ==> a.notes == Str(""))
  {
    var a := ToAlert(payload, now, strNum, tanh);
    assert a.source == Pick(payload, SourceKeys, Str("unknown"));
    assert a.symbol == Pick(payload, SymbolKeys, Str("-"));
    assert a.signal == Pick(payload, SignalKeys, Str("anomaly"));
    assert a.notes == Pick(payload, NotesKeys, Str(""));
    PickResolves(payload, SourceKeys, Str("unknown"));
    PickResolves(payload, SymbolKeys, Str("-"));
    PickResolves(payload, SignalKeys, Str("anomaly"));
    PickResolves(payload, NotesKeys, Str(""));
  }

  /** The side read from a payload: the first truthy of `side`/`bias` lower-cased, else `neutral`. */
  lemma SideResolves(payload: Value)
    requires InDomain(payload)
    ensures forall i :: FirstTruthyAt(payload, SideKeys, i) ==>
      Get(payload, SideKeys[i]).Str? && Lower(SideValue(payload).s) == Lower(Get(payload, SideKeys[i]).s)
    ensures NoneTruthy(payload, SideKeys) ==> Lower(SideValue(payload).s) == "neutral"
  {
    PickResolves(payload, SideKeys, Str("neutral"));
    if NoneTruthy(payload, SideKeys) {
      LowerOfLowerCase("neutral");
    }
  }

  /** The alert's side is the lower-cased first truthy of `side`/`bias`, else `neutral`. */
  lemma ToAlertSide(payload: Value, now: string, strNum: string -> Number, tanh: real -> real)
    requires InDomain(payload)
    ensures var a := ToAlert(payload, now, strNum, tanh);
      && (forall i :: FirstTruthyAt(payload, SideKeys, i) ==>
            Get(payload, SideKeys[i]).Str? && a.side == Lower(Get(payload, SideKeys[i]).s))
      && (NoneTruthy(payload, SideKeys) ==> a.side == "neutral")
  {
    assert ToAlert(payload, now, strNum, tanh).side == Lower(SideValue(payload).s);
    SideResolves(payload);
  }

  /**
   * With a hyperbolic tangent that stays in [-1, 1], the clamp never bites:
   * a derived validity is exactly `0.5 + tanh(z/4) * 0.4`, within [0.1, 0.9].
   */
  lemma DerivedValidityUnclamped(payload: Value, strNum: string -> Number, tanh: real -> real)
    requires forall x :: -1.0 <= tanh(x) <= 1.0
    requires !Get(payload, "validity").Num? && !Score(payload, strNum).NaN?
    ensures var t := TanhQuarter(Score(payload, strNum), tanh);
      Validity(payload, strNum, tanh) == Finite(0.5 + t * 0.4) && 0.1 <= 0.5 + t * 0.4 <= 0.9
  {
    var t := TanhQuarter(Score(payload, strNum), tanh);
    assert -1.0 <= t <= 1.0;
  }

  /** The derived validity never decreases as the score grows, when `tanh` is monotonic. */
  lemma SquashMonotonic(z1: real, z2: real, tanh: real -> real)
    requires forall x, y :: x <= y ==> tanh(x) <= tanh(y)
    requires z1 <= z2
    ensures Squash(Finite(z1), tanh) <= Squash(Finite(z2), tanh)
  {
    assert tanh(z1 / 4.0) <= tanh(z2 / 4.0);
  }

  /** `{volume_z: 4}` with no validity gets `0.5 + tanh(1) * 0.4`. */
  lemma VolumeZFourValidity(strNum: string -> Number, tanh: real -> real)
    requires forall x :: -1.0 <= tanh(x) <= 1.0
    ensures Validity(Obj(map["volume_z" := Num(Finite(4.0))]), strNum, tanh) == Finite(0.5 + tanh(1.0) * 0.4)
  {
    var p := Obj(map["volume_z" := Num(Finite(4.0))]);
    assert Fields(p, ScoreKeys)[0] == Num(Finite(4.0));
    assert Score(p, strNum) == Finite(4.0);
    DerivedValidityUnclamped(p, strNum, tanh);
  }

  /** A payload with no validity and no score fields gets exactly the default validity. */
  lemma NoScoreDefaultValidity(payload: Value, strNum: string -> Number, tanh: real -> real)
    requires payload.Obj?
    requires forall k :: k in ["validity"] + ScoreKeys ==> k !in payload.fields
    ensures Validity(payload, strNum, tanh) == Finite(DefaultValidity)
  {
    assert "score" in ["validity"] + ScoreKeys;
    assert Fields(payload, ScoreKeys)[2] == Undefined;
    OrChainAllFalsy(Fields(payload, ScoreKeys));
  }
}

/**
 * The `Redis` connector element: one client connection, the callback registry in
 * `callbacks`, and publish / subscribe / unsubscribe / remove-callback on top of them.
 * The broker is an append-only log of the commands the client sends, and the client's
 * event wiring is the list of listeners attached to it. Each method is specified by a
 * transition function on a snapshot `State` of the connector; the properties of the
 * connector are proved about those functions.
 */
module RedisConnector {
  import opened Wrappers
  import opened Strings
  import opened Json
  import opened CallbackRegistry

  /** A value handed to `pub` as `data`. */
  datatype Payload =
    | Undefined
    | Null
    | Str(s: string)
    /** A Buffer, given by the text its bytes decode to. */
    | Buf(text: string)
    /** A number or a boolean, given by its `toString()` text. */
    | Scalar(text: string)
    /** Any other object (plain object or array): serialised with `JSON.stringify`. */
    | Obj(value: Json)

  /**
   * The text `pub` sends: `undefined` and `null` become the empty string, a non-Buffer
   * object its JSON text, anything else its own text.
   */
  function WireText(data: Payload, stringify: Json -> string): (s: string)
    ensures data.Undefined? || data.Null? ==> s == ""
    ensures data.Obj? ==> s == stringify(data.value)
    ensures data.Str? ==> s == data.s
    ensures data.Buf? || data.Scalar? ==> s == data.text
  {
    match data
    case Undefined => ""
    case Null => ""
    case Str(s) => s
    case Buf(t) => t
    case Scalar(t) => t
    case Obj(v) => stringify(v)
  }

  /** What the client sends the broker. */
  datatype Command =
    | Subscribe(channels: seq<string>)
    | PSubscribe(patterns: seq<string>)
    | Unsubscribe(channels: seq<string>)
    | Publish(channel: string, message: string)
    | Disconnect

  function SubscribeCommand(kind: SubKind, channels: seq<string>): Command {
    match kind
    case Sub => Subscribe(channels)
    case PSub => PSubscribe(channels)
  }

  /** One PUBLISH of the same text per channel, in channel order. */
  function PublishAll(channels: seq<string>, message: string): (r: seq<Command>)
    ensures |r| == |channels|
    ensures forall i | 0 <= i < |r| :: r[i] == Publish(channels[i], message)
  {
    seq(|channels|, i requires 0 <= i < |channels| => Publish(channels[i], message))
  }

  /** The `promSubscribe` promise: not created, created and pending, or resolved by `stop`. */
  datatype Waiter = NoWaiter | Pending | Released

  /** What `_sub` returns: the first id for a string argument, every id for a list. */
  datatype SubReturn = FirstId(id: Option<string>) | AllIds(ids: seq<string>)

  /**
   * A snapshot of a connector: whether `_client` is set, the listeners attached to it,
   * every command sent so far, the registry and the waiter.
   */
  datatype State = State(
    hasClient: bool,
    listeners: seq<Listener>,
    log: seq<Command>,
    callbacks: Option<Callbacks>,
    waiter: Waiter)

  /** Listeners live on the client: without a client there are none. */
  predicate Wired(s: State) {
    !s.hasClient ==> s.listeners == []
  }

  /** A connector as its constructor leaves it. */
  function Initial(): State {
    State(false, [], [], None, NoWaiter)
  }

  /** `exec`: the `client` getter creates the client; nothing is sent or registered. */
  function AfterConnect(s: State): (r: State)
    ensures Wired(r) && r.hasClient
  {
    s.(hasClient := true)
  }

  /** `pub` refuses a non-empty channel list while a registry exists. */
  predicate PubRefused(s: State, channels: seq<string>) {
    channels != [] && s.callbacks.Some?
  }

  /** `pub` sends the text once per channel unless the list is empty or it refuses. */
  function AfterPub(s: State, channels: seq<string>, message: string): (r: State)
    ensures Wired(s) ==> Wired(r)
  {
    if channels == [] || PubRefused(s, channels) then s
    else s.(hasClient := true, log := s.log + PublishAll(channels, message))
  }

  /**
   * `_sub`: a non-empty list is sent as one (P)SUBSCRIBE. With a callback, the registry
   * and the mode's table are created where missing (attaching a listener when the table
   * is new), `cb` is registered for every channel, and a waiter is created if there was none.
   */
  function AfterSubscribe(s: State, kind: SubKind, channels: seq<string>, cb: Callback?, m: Mode, rd: string): (r: State)
    ensures Wired(s) ==> Wired(r)
  {
    if channels == [] then s
    else
      var sent := s.(hasClient := true, log := s.log + [SubscribeCommand(kind, channels)]);
      if cb == null then sent
      else sent.(
        listeners := s.listeners + NewListeners(s.callbacks, kind, m),
        callbacks := Some(Register(s.callbacks, m, channels, cb, rd)),
        waiter := if s.waiter == NoWaiter then Pending else s.waiter)
  }

  /** The ids `_sub` returns: none without a callback or channels. */
  function SubIds(channels: OneOrMany, cb: Callback?, m: Mode, rd: string): (r: SubReturn)
    ensures channels.One? <==> r.FirstId?
    ensures r.FirstId? ==> (r.id.Some? <==> cb != null)
    ensures r.FirstId? && cb != null ==> r.id.value == SubId(m, channels.item, 0, rd)
    ensures r.AllIds? ==> r.ids == if cb == null then [] else IdList(m, channels.items, rd)
  {
    var chs := ToList(channels);
    var ids := if chs != [] && cb != null then IdList(m, chs, rd) else [];
    if channels.One? then FirstId(if ids != [] then Some(ids[0]) else None) else AllIds(ids)
  }

  /**
   * `unsub`: a non-empty list is sent as one UNSUBSCRIBE (also for patterns); with
   * `isRemoveCallback` the listed channels are purged and the registry goes through the
   * emptiness test (`Teardown`).
   */
  function AfterUnsub(s: State, channels: seq<string>, isRemoveCallback: bool): (r: State)
    ensures Wired(s) ==> Wired(r)
  {
    if channels == [] then s
    else s.(hasClient := true, log := s.log + [Unsubscribe(channels)],
            callbacks := if isRemoveCallback then Teardown(s.callbacks, channels) else s.callbacks)
  }

  /**
   * `removeCb`: the registry, if any, loses the listed ids. Nothing is sent, the client
   * and its listeners are untouched, and the registry is never created nor dropped.
   */
  function AfterRemoveCb(s: State, uuids: seq<string>): (r: State)
    ensures r.hasClient == s.hasClient && r.listeners == s.listeners && r.log == s.log && r.waiter == s.waiter
    ensures r.callbacks.Some? == s.callbacks.Some?
    ensures r.callbacks.Some? ==> r.callbacks.value.id.Keys <= s.callbacks.value.id.Keys
  {
    s.(callbacks := if s.callbacks.None? then None else Some(RemoveIds(s.callbacks.value, uuids)))
  }

  /**
   * `stop`: the client is disconnected and forgotten with its listeners, and a pending
   * waiter is released; the registry is kept.
   */
  function AfterStop(s: State): (r: State)
    ensures Wired(r) && !r.hasClient
  {
    s.(hasClient := false, listeners := [], log := s.log + [Disconnect],
       waiter := if s.waiter == Pending then Released else s.waiter)
  }

  /** The callback calls made when the broker delivers `ev` to a connector. */
  function Deliver(s: State, ev: Event): (r: multiset<Invocation>)
    ensures forall inv | inv in r :: inv.args == Args(ev) && inv.cb in Targets(s.callbacks, inv.mode, Key(ev))
  {
    Dispatch(s.listeners, s.callbacks, ev)
  }

  class Redis {
    const uri: string
    /** `_client` is set; the `client` getter sets it on first use and `stop` clears it. */
    var hasClient: bool
    /** The listeners attached to the current client, in attachment order. */
    var listeners: seq<Listener>
    /** Every command sent to the broker, on any client of this connector. */
    var log: seq<Command>
    var callbacks: Option<Callbacks>
    var waiter: Waiter

    function Snapshot(): State
      reads this
    {
      State(hasClient, listeners, log, callbacks, waiter)
    }

    constructor (uri: string)
      ensures this.uri == uri && Snapshot() == Initial()
    {
      this.uri := uri;
      hasClient := false;
      listeners := [];
      log := [];
      callbacks := None;
      waiter := NoWaiter;
    }

    /** `exec`, as far as this model goes: the client is created. */
    method Connect()
      modifies this
      ensures Snapshot() == AfterConnect(old(Snapshot()))
    {
      hasClient := true;
    }

    /** `waitToDone` settles at once unless a subscription's waiter is still pending. */
    method WaitToDone() returns (settled: bool)
      ensures settled <==> waiter != Pending
    {
      settled := waiter != Pending;
    }

    /** `pub`: refuses while a registry exists, otherwise publishes to each channel in order. */
    method Pub(channels: OneOrMany, data: Payload, codec: Codec) returns (r: Result<(), Error>)
      modifies this
      ensures r == if PubRefused(old(Snapshot()), ToList(channels)) then Err(SubscribeMode) else Ok(())
      ensures Snapshot() == AfterPub(old(Snapshot()), ToList(channels), WireText(data, codec.stringify))
    {
      var chs := ToList(channels);
      if |chs| == 0 {
        return Ok(());
      }
      if callbacks.Some? {
        return Err(SubscribeMode);
      }
      var msg := WireText(data, codec.stringify);
      hasClient := true;
      var i := 0;
      while i < |chs|
        invariant 0 <= i <= |chs|
        invariant hasClient && listeners == old(listeners) && callbacks == old(callbacks) && waiter == old(waiter)
        invariant log == old(log) + PublishAll(chs[..i], msg)
      {
        assert PublishAll(chs[..i + 1], msg) == PublishAll(chs[..i], msg) + [Publish(chs[i], msg)];
        log := log + [Publish(chs[i], msg)];
        i := i + 1;
      }
      assert chs[..i] == chs;
      return Ok(());
    }

    /** `_sub`; `sub` is kind `Sub` and `psub` kind `PSub`. */
    method Subscribe(kind: SubKind, channels: OneOrMany, cb: Callback?, m: Mode, rd: string) returns (r: SubReturn)
      modifies this
      ensures Snapshot() == AfterSubscribe(old(Snapshot()), kind, ToList(channels), cb, m, rd)
      ensures r == SubIds(channels, cb, m, rd)
    {
      var chs := ToList(channels);
      var ids: seq<string> := [];
      if |chs| > 0 {
        log := log + [SubscribeCommand(kind, chs)];
        hasClient := true;
        if cb != null {
          listeners := listeners + NewListeners(callbacks, kind, m);
          var registered;
          registered, ids := RegisterEach(callbacks, m, chs, cb, rd);
          callbacks := Some(registered);
          if waiter == NoWaiter {
            waiter := Pending;
          }
        }
      }
      r := if channels.One? then FirstId(if |ids| > 0 then Some(ids[0]) else None) else AllIds(ids);
    }

    /** `unsub`. */
    method Unsub(channels: OneOrMany, isRemoveCallback: bool)
      modifies this
      ensures Snapshot() == AfterUnsub(old(Snapshot()), ToList(channels), isRemoveCallback)
    {
      var chs := ToList(channels);
      if |chs| == 0 {
        return;
      }
      log := log + [Unsubscribe(chs)];
      hasClient := true;
      if isRemoveCallback {
        for i := 0 to |chs|
          invariant log == old(log) + [Unsubscribe(chs)] && hasClient
          invariant listeners == old(listeners) && waiter == old(waiter)
          invariant PurgeAll(callbacks, chs[i..]) == PurgeAll(old(callbacks), chs)
        {
          assert chs[i..][1..] == chs[i + 1..];
          callbacks := PurgeChannel(callbacks, chs[i]);
        }
        if !LengthKept(callbacks) {
          callbacks := None;
        }
      }
    }

    /** `removeCb`. */
    method RemoveCb(uuids: OneOrMany)
      modifies this
      ensures Snapshot() == AfterRemoveCb(old(Snapshot()), ToList(uuids))
    {
      var us := ToList(uuids);
      if callbacks.None? {
        return;
      }
      var i := 0;
      while i < |us|
        invariant 0 <= i <= |us|
        invariant callbacks.Some?
        invariant RemoveIds(callbacks.value, us[i..]) == RemoveIds(old(callbacks).value, us)
        invariant log == old(log) && listeners == old(listeners) && hasClient == old(hasClient) && waiter == old(waiter)
      {
        assert us[i..][1..] == us[i + 1..];
        callbacks := Some(RemoveOne(callbacks.value, us[i]));
        i := i + 1;
      }
    }

    /** `stop` (and `dispose`, which only calls it). */
    method Stop()
      modifies this
      ensures Snapshot() == AfterStop(old(Snapshot()))
    {
      log := log + [Disconnect];
      if waiter == Pending {
        waiter := Released;
      }
      hasClient := false;
      listeners := [];
    }
  }

  // ---------------------------------------------------------------------------
  // Properties of the connector
  // ---------------------------------------------------------------------------

  /**
   * Publishing is blocked by any subscription with a callback and stays blocked through
   * `stop` and `removeCb`. Only an `unsub` that removes callbacks releases it, and only
   * when no table is left with a channel named `"length"`.
   */
  lemma PublishBlockedUntilUnsub(s: State, kind: SubKind, channels: seq<string>, cb: Callback, m: Mode, rd: string,
                                  uuids: seq<string>, targets: seq<string>)
    requires channels != [] && targets != []
    ensures PubRefused(AfterSubscribe(s, kind, channels, cb, m, rd), targets)
    ensures PubRefused(AfterStop(s), targets) == PubRefused(s, targets)
    ensures PubRefused(AfterRemoveCb(s, uuids), targets) == PubRefused(s, targets)
    ensures PubRefused(AfterUnsub(s, channels, true), targets) <==> LengthKept(s.callbacks) && "length" !in channels
    ensures PubRefused(AfterUnsub(s, channels, false), targets) == PubRefused(s, targets)
  {
    TeardownKeeps(s.callbacks, channels);
  }

  /** A refused `pub` sends nothing; an accepted one sends exactly one PUBLISH per channel. */
  lemma PubSends(s: State, channels: seq<string>, message: string)
    ensures PubRefused(s, channels) ==> AfterPub(s, channels, message) == s
    ensures !PubRefused(s, channels) ==>
      AfterPub(s, channels, message).log[|s.log|..] == PublishAll(channels, message)
  {
  }

  /** After `stop` no event reaches any callback, and `waitToDone` no longer blocks. */
  lemma StopSilences(s: State, ev: Event)
    ensures Deliver(AfterStop(s), ev) == multiset{}
    ensures AfterStop(s).waiter != Pending
  {
  }

  /**
   * A text subscription with a callback on a fresh connector calls that callback once
   * per message on its channel, with `(channel, message)`.
   */
  lemma {:induction false} SubscriberReceives(ch: string, msg: string, cb: Callback, rd: string)
    ensures var s := AfterSubscribe(AfterConnect(Initial()), Sub, [ch], cb, Text, rd);
      Deliver(s, Message(ch, msg))[Invocation(cb, Text, [ch, msg])] == 1
  {
    var s := AfterSubscribe(AfterConnect(Initial()), Sub, [ch], cb, Text, rd);
    RegisterTargets(None, Text, [ch], cb, rd, Text, ch);
    assert s.listeners == [Listener(Sub, Text)];
    DispatchCount(s.listeners, s.callbacks, Message(ch, msg), Invocation(cb, Text, [ch, msg]));
  }

  /**
   * `unsub` drops a registry without a `"length"` channel but keeps the client and its
   * listeners, so the next
   * `sub` creates a fresh table and attaches a second `message` listener: the new
   * callback is called twice for every message.
   */
  lemma {:induction false} ResubscribeFiresTwice(ch: string, msg: string, cb0: Callback, cb: Callback, rd0: string, rd: string)
    ensures var s1 := AfterSubscribe(AfterConnect(Initial()), Sub, [ch], cb0, Text, rd0);
      var s2 := AfterUnsub(s1, [ch], true);
      var s3 := AfterSubscribe(s2, Sub, [ch], cb, Text, rd);
      Deliver(s3, Message(ch, msg))[Invocation(cb, Text, [ch, msg])] == 2
  {
    var s1 := AfterSubscribe(AfterConnect(Initial()), Sub, [ch], cb0, Text, rd0);
    var s2 := AfterUnsub(s1, [ch], true);
    RegisterFreshKeys(Text, [ch], cb0, rd0);
    TeardownKeeps(s1.callbacks, [ch]);
    assert s2.callbacks == None;
    var s3 := AfterSubscribe(s2, Sub, [ch], cb, Text, rd);
    RegisterTargets(None, Text, [ch], cb, rd, Text, ch);
    assert s3.listeners == [Listener(Sub, Text), Listener(Sub, Text)];
    assert multiset(s3.listeners)[Listener(Sub, Text)] == 2;
    DispatchCount(s3.listeners, s3.callbacks, Message(ch, msg), Invocation(cb, Text, [ch, msg]));
  }

  /**
   * A pattern text subscription made after a literal one on the same connector finds
   * the text table already there and attaches no `pmessage` listener, so its callback
   * is registered yet never called.
   */
  lemma {:induction false} PatternAfterLiteralNeverFires(
    ch: string, pattern: string, cb1: Callback, cb2: Callback, rd1: string, rd2: string,
    channel: string, msg: string)
    ensures var s1 := AfterSubscribe(AfterConnect(Initial()), Sub, [ch], cb1, Text, rd1);
      var s2 := AfterSubscribe(s1, PSub, [pattern], cb2, Text, rd2);
      && cb2 in Targets(s2.callbacks, Text, pattern)
      && Deliver(s2, PMessage(pattern, channel, msg))[Invocation(cb2, Text, [pattern, channel, msg])] == 0
  {
    var s1 := AfterSubscribe(AfterConnect(Initial()), Sub, [ch], cb1, Text, rd1);
    assert s1.listeners == [Listener(Sub, Text)];
    assert s1.callbacks == Some(Register(None, Text, [ch], cb1, rd1));
    var s2 := AfterSubscribe(s1, PSub, [pattern], cb2, Text, rd2);
    assert NewListeners(s1.callbacks, PSub, Text) == [];
    RegisterTargets(s1.callbacks, Text, [pattern], cb2, rd2, Text, pattern);
    assert s2.listeners == [Listener(Sub, Text)];
    DispatchCount(s2.listeners, s2.callbacks, PMessage(pattern, channel, msg), Invocation(cb2, Text, [pattern, channel, msg]));
  }

  /**
   * A channel named `"length"` defeats `unsub`'s emptiness test: after subscribing it
   * and another channel and unsubscribing the other one, the registry survives, so
   * `pub` is still refused and the `"length"` callback still fires.
   */
  lemma {:induction false} LengthChannelOutlivesUnsub(other: string, cb1: Callback, cb2: Callback, rd1: string, rd2: string,
                                                      msg: string, targets: seq<string>)
    requires other != "length" && targets != []
    ensures var s1 := AfterSubscribe(AfterConnect(Initial()), Sub, ["length"], cb1, Text, rd1);
      var s2 := AfterSubscribe(s1, Sub, [other], cb2, Text, rd2);
      var s3 := AfterUnsub(s2, [other], true);
      && PubRefused(s3, targets)
      && Deliver(s3, Message("length", msg))[Invocation(cb1, Text, ["length", msg])] == 1
  {
    var s1 := AfterSubscribe(AfterConnect(Initial()), Sub, ["length"], cb1, Text, rd1);
    var s2 := AfterSubscribe(s1, Sub, [other], cb2, Text, rd2);
    var s3 := AfterUnsub(s2, [other], true);
    RegisterFreshKeys(Text, ["length"], cb1, rd1);
    RegisterTargets(None, Text, ["length"], cb1, rd1, Text, "length");
    assert s1.listeners == [Listener(Sub, Text)];
    assert NewListeners(s1.callbacks, Sub, Text) == [];
    AddFromKey(Prepare(s1.callbacks, Text), Text, [other], 0, cb2, rd2, "length");
    RegisterTargets(s1.callbacks, Text, [other], cb2, rd2, Text, "length");
    assert LengthKept(s2.callbacks);
    TeardownKeeps(s2.callbacks, [other]);
    assert s3.listeners == [Listener(Sub, Text)];
    DispatchCount(s3.listeners, s3.callbacks, Message("length", msg), Invocation(cb1, Text, ["length", msg]));
  }
}

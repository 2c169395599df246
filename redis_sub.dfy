/**
 * The `ymlr-redis'sub` element: subscribes its channels on a connector (its own, a
 * new one built from `uri`, or the enclosing `ymlr-redis`) and runs its children for
 * every message with the message in the parent state. Named subscribers are kept in
 * the process-wide `SubNames` map so that later elements can find them again.
 */
module RedisSubscriber {
  import opened Wrappers
  import opened Strings
  import opened Json
  import opened ElementProps
  import opened CallbackRegistry
  import opened RedisConnector

  /** `start` subscribes with `psub` when some channel contains `*`, with `sub` otherwise. */
  function KindFor(channels: seq<string>): (k: SubKind)
    ensures k == PSub <==> exists i | 0 <= i < |channels| :: '*' in channels[i]
  {
    if channels == [] then Sub
    else if '*' in channels[0] then PSub
    else
      assert forall i | 1 <= i < |channels| :: channels[i] == channels[1..][i - 1];
      KindFor(channels[1..])
  }

  /** What a handler run receives as `channelData`. */
  datatype Data = Parsed(value: Json) | Raw(text: string)

  /** `tryToParseData`: the parsed value, or the text itself when `JSON.parse` throws. */
  function TryToParseData(msg: string, parse: string -> Option<Json>): (d: Data)
    ensures d.Raw? <==> parse(msg).None?
    ensures d.Raw? ==> d.text == msg
    ensures d.Parsed? ==> parse(msg) == Some(d.value)
  {
    match parse(msg)
    case Some(v) => Parsed(v)
    case None => Raw(msg)
  }

  /**
   * An object published by `pub` reaches a subscriber as the same value, for any value
   * `JSON.parse` can produce.
   */
  lemma PublishedObjectParses(codec: Codec, v: Json)
    requires RoundTrips(codec) && Representable(v)
    ensures TryToParseData(WireText(Obj(v), codec.stringify), codec.parse) == Parsed(v)
  {
  }

  /** The fields a handler run adds to the parent state. */
  datatype Context = Context(channelPattern: Option<string>, channelName: string, channelMsg: string, channelData: Data)

  /**
   * The closure `start` registers, applied to what a connector handler passes it. The
   * literal closure reads `(channel, message)` and the pattern closure `(pattern,
   * channel, message)` positionally, so a literal closure called by a `pmessage`
   * handler takes the pattern for the channel and the channel for the message, and a
   * pattern closure called by a `message` handler has no message and throws (`None`).
   */
  function ClosureContext(kind: SubKind, ev: Event, parse: string -> Option<Json>): (r: Option<Context>)
    ensures kind == Sub && ev.Message? ==>
      r == Some(Context(None, ev.channel, ev.message, TryToParseData(ev.message, parse)))
    ensures kind == PSub && ev.PMessage? ==>
      r == Some(Context(Some(ev.pattern), ev.channel, ev.message, TryToParseData(ev.message, parse)))
    ensures kind == Sub && ev.PMessage? ==>
      r == Some(Context(None, ev.pattern, ev.channel, TryToParseData(ev.channel, parse)))
    ensures kind == PSub && ev.Message? ==> r == None
  {
    var args := Args(ev);
    match kind
    case Sub => Some(Context(None, args[0], args[1], TryToParseData(args[1], parse)))
    case PSub =>
      if |args| < 3 then None
      else Some(Context(Some(args[0]), args[1], args[2], TryToParseData(args[2], parse)))
  }

  /**
   * End to end on a fresh connector: an object published to a literal channel runs the
   * subscriber's closure exactly once, with the channel as `channelName`, the wire text
   * as `channelMsg` and the object itself as `channelData`.
   */
  lemma {:induction false} SubscriberSeesPublishedObject(codec: Codec, v: Json, ch: string, cb: Callback, rd: string)
    requires RoundTrips(codec) && Representable(v)
    requires '*' !in ch
    ensures var kind := KindFor([ch]);
      var msg := WireText(Obj(v), codec.stringify);
      var s := AfterSubscribe(AfterConnect(Initial()), kind, [ch], cb, Text, rd);
      && kind == Sub
      && Deliver(s, Message(ch, msg))[Invocation(cb, Text, [ch, msg])] == 1
      && ClosureContext(kind, Message(ch, msg), codec.parse) == Some(Context(None, ch, msg, Parsed(v)))
  {
    assert KindFor([ch]) == Sub;
    SubscriberReceives(ch, WireText(Obj(v), codec.stringify), cb, rd);
    PublishedObjectParses(codec, v);
  }

  /** The process-wide `SubNames` map, shared by every subscriber element. */
  class SubNames {
    var entries: map<string, RedisSub>

    /** Every subscriber is filed under its own (non-empty) name. */
    ghost predicate Valid()
      reads this
    {
      forall k | k in entries :: Truthy(entries[k].name) && entries[k].name.value == k
    }

    constructor ()
      ensures entries == map[] && Valid()
    {
      entries := map[];
    }
  }

  /** `SubNames.delete(name)` when the name is truthy. */
  function Forget(entries: map<string, RedisSub>, name: Option<string>): (r: map<string, RedisSub>)
    ensures Truthy(name) ==> name.value !in r
    ensures forall k | k in r :: k in entries && r[k] == entries[k]
    ensures forall k | k in entries && (!Truthy(name) || k != name.value) :: k in r
  {
    if Truthy(name) then entries - {name.value} else entries
  }

  class RedisSub {
    const uri: Option<string>
    const mode: Mode
    const channels: seq<string>
    const name: Option<string>
    /** The nearest enclosing `ymlr-redis` element, if any. */
    const parent: Redis?
    /** The connector given as `redis`, or the one `getRedis` built from `uri`. */
    var redis: Redis?
    /** `t` is set: the subscription is live and `start` waits on it. */
    var running: bool

    /** The constructor: `channel` is appended to `channels`; `type` defaults to text. */
    constructor (uri: Option<string>, mode: Option<Mode>, channels: seq<string>, channel: Option<string>,
                 redis: Redis?, name: Option<string>, parent: Redis?)
      ensures this.uri == uri && this.mode == mode.GetOr(Text) && this.channels == MergeChannels(channels, channel)
      ensures this.redis == redis && this.name == name && this.parent == parent && !running
    {
      this.uri := uri;
      this.mode := mode.GetOr(Text);
      this.channels := MergeChannels(channels, channel);
      this.redis := redis;
      this.name := name;
      this.parent := parent;
      running := false;
    }

    /** `getRedis` finds a connector: its own, a new one from `uri`, or the enclosing one. */
    predicate CanConnect()
      reads this
    {
      redis != null || Truthy(uri) || parent != null
    }

    /**
     * `getRedis`: the element's own connector; else a new connected one built from
     * `uri` and kept; else the enclosing connector; else it fails.
     */
    method GetRedis() returns (r: Result<Redis, Error>)
      modifies this
      ensures running == old(running)
      ensures r.Err? ==> unchanged(this)
      ensures old(redis) != null ==> r == Ok(old(redis)) && redis == old(redis)
      ensures old(redis) == null && Truthy(uri) ==>
        r.Ok? && fresh(r.value) && redis == r.value && r.value.uri == uri.value
        && r.value.Snapshot() == AfterConnect(Initial())
      ensures old(redis) == null && !Truthy(uri) ==>
        redis == null && r == if parent != null then Ok(parent) else Err(NoConnection)
    {
      if redis != null {
        return Ok(redis);
      }
      if Truthy(uri) {
        var created := new Redis(uri.value);
        created.Connect();
        redis := created;
        return Ok(created);
      }
      if parent != null {
        return Ok(parent);
      }
      return Err(NoConnection);
    }

    /**
     * `start`: a live subscriber only waits; otherwise a new closure `cb` is subscribed
     * for all channels in the element's mode on the connector `getRedis` finds, with
     * `psub` when a channel has a wildcard, and the subscriber becomes live.
     */
    method Start(rd: string) returns (r: Result<(), Error>, cb: Callback?)
      modifies this, redis, parent
      ensures old(running) ==>
        r == Ok(()) && cb == null && unchanged(this)
        && (old(redis) != null ==> unchanged(old(redis))) && (parent != null ==> unchanged(parent))
      ensures !old(running) && !old(CanConnect()) ==>
        r == Err(NoConnection) && cb == null && unchanged(this)
      ensures !old(running) && old(CanConnect()) ==> r == Ok(()) && running && cb != null && fresh(cb)
      ensures !old(running) && old(redis) != null ==>
        redis == old(redis)
        && redis.Snapshot() == AfterSubscribe(old(redis.Snapshot()), KindFor(channels), channels, cb, mode, rd)
        && (parent != null && parent != redis ==> unchanged(parent))
      ensures !old(running) && old(redis) == null && Truthy(uri) ==>
        fresh(redis) && redis.uri == uri.value
        && redis.Snapshot() == AfterSubscribe(AfterConnect(Initial()), KindFor(channels), channels, cb, mode, rd)
        && (parent != null ==> unchanged(parent))
      ensures !old(running) && old(redis) == null && !Truthy(uri) && parent != null ==>
        redis == null
        && parent.Snapshot() == AfterSubscribe(old(parent.Snapshot()), KindFor(channels), channels, cb, mode, rd)
    {
      if running {
        return Ok(()), null;
      }
      var got := GetRedis();
      if got.Err? {
        return Err(got.error), null;
      }
      var target := got.value;
      cb := new Callback();
      var _ := target.Subscribe(KindFor(channels), Many(channels), cb, mode, rd);
      running := true;
      r := Ok(());
    }

    /**
     * `stop`: a subscriber that is not live answers false and changes nothing.
     * Otherwise its channels are unsubscribed with their callbacks on the connector
     * `getRedis` finds, the element's own connector (even one it was given) is stopped
     * and dropped, its name is deleted from `SubNames`, and it answers true.
     */
    method Stop(names: SubNames) returns (r: Result<bool, Error>)
      requires names.Valid()
      modifies this, redis, parent, names
      ensures names.Valid()
      ensures !old(running) ==>
        r == Ok(false) && unchanged(this, names)
        && (old(redis) != null ==> unchanged(old(redis))) && (parent != null ==> unchanged(parent))
      ensures old(running) && !old(CanConnect()) ==> r == Err(NoConnection) && unchanged(this, names)
      ensures old(running) && old(CanConnect()) ==>
        r == Ok(true) && !running && redis == null && names.entries == Forget(old(names.entries), name)
      ensures old(running) && old(redis) != null ==>
        old(redis).Snapshot() == AfterStop(AfterUnsub(old(redis.Snapshot()), channels, true))
        && (parent != null && parent != old(redis) ==> unchanged(parent))
      ensures old(running) && old(redis) == null && Truthy(uri) ==> (parent != null ==> unchanged(parent))
      ensures old(running) && old(redis) == null && !Truthy(uri) && parent != null ==>
        parent.Snapshot() == AfterUnsub(old(parent.Snapshot()), channels, true)
    {
      if !running {
        return Ok(false);
      }
      var got := GetRedis();
      if got.Err? {
        return Err(got.error);
      }
      got.value.Unsub(Many(channels), true);
      if redis != null {
        redis.Stop();
      }
      if Truthy(name) {
        names.entries := names.entries - {name.value};
      }
      redis := null;
      running := false;
      return Ok(true);
    }

    /** The subscriber `exec` starts: the one filed under this element's name, else this one. */
    ghost function Handler(names: SubNames): RedisSub
      reads this, names
    {
      if Truthy(name) && name.value in names.entries then names.entries[name.value] else this
    }

    /**
     * `exec`: a named element is filed under its name unless the name is taken, in which
     * case the subscriber already filed there is started instead of this one.
     */
    method Exec(names: SubNames, rd: string) returns (r: Result<(), Error>, handler: RedisSub, cb: Callback?)
      requires names.Valid()
      modifies this, names, Handler(names), Handler(names).redis, Handler(names).parent
      ensures names.Valid()
      ensures handler == old(Handler(names))
      ensures names.entries ==
        if Truthy(name) && name.value !in old(names.entries) then old(names.entries)[name.value := this]
        else old(names.entries)
      ensures r.Ok? <==> handler.running
      ensures r.Err? ==> r.error == NoConnection
      ensures cb != null <==> r.Ok? && !old(Handler(names).running)
    {
      handler := this;
      if Truthy(name) {
        if name.value !in names.entries {
          names.entries := names.entries[name.value := this];
        } else {
          handler := names.entries[name.value];
        }
      }
      r, cb := handler.Start(rd);
    }
  }
}

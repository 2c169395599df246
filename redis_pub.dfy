/**
 * The `ymlr-redis'pub` element: publishes its `data` to its channels through its own
 * connector, a new one built from `uri`, or the enclosing `ymlr-redis`.
 */
module RedisPublisher {
  import opened Wrappers
  import opened Strings
  import opened Json
  import opened ElementProps
  import opened RedisConnector

  class RedisPub {
    const uri: Option<string>
    const channels: seq<string>
    const data: Payload
    /** The nearest enclosing `ymlr-redis` element, if any. */
    const parent: Redis?
    /** The connector given as `redis`, or the one `exec` built from `uri`. */
    var redis: Redis?

    /** The constructor: `channel` is appended to `channels`. */
    constructor (uri: Option<string>, channels: seq<string>, channel: Option<string>, data: Payload,
                 redis: Redis?, parent: Redis?)
      ensures this.uri == uri && this.channels == MergeChannels(channels, channel) && this.data == data
      ensures this.redis == redis && this.parent == parent
    {
      this.uri := uri;
      this.channels := MergeChannels(channels, channel);
      this.data := data;
      this.redis := redis;
      this.parent := parent;
    }

    /**
     * `exec`: fails on an empty channel list. Otherwise the data is published through
     * the element's own connector, else through a new connected one built from `uri`
     * (kept for `stop`), else through the enclosing one, else it fails. A connector in
     * subscribe mode refuses; otherwise `exec` answers the data.
     */
    method Exec(codec: Codec) returns (r: Result<Payload, Error>)
      modifies this, redis, parent
      ensures channels == [] ==>
        r == Err(ChannelsRequired) && unchanged(this)
        && (old(redis) != null ==> unchanged(old(redis))) && (parent != null ==> unchanged(parent))
      ensures channels != [] && old(redis) == null && !Truthy(uri) && parent == null ==>
        r == Err(NoConnection) && unchanged(this)
      ensures channels != [] && old(redis) != null ==>
        && redis == old(redis)
        && redis.Snapshot() == AfterPub(old(redis.Snapshot()), channels, WireText(data, codec.stringify))
        && r == (if PubRefused(old(redis.Snapshot()), channels) then Err(SubscribeMode) else Ok(data))
        && (parent != null && parent != redis ==> unchanged(parent))
      ensures channels != [] && old(redis) == null && Truthy(uri) ==>
        && fresh(redis) && redis.uri == uri.value
        && redis.Snapshot() == AfterPub(AfterConnect(Initial()), channels, WireText(data, codec.stringify))
        && r == Ok(data)
        && (parent != null ==> unchanged(parent))
      ensures channels != [] && old(redis) == null && !Truthy(uri) && parent != null ==>
        && redis == null
        && parent.Snapshot() == AfterPub(old(parent.Snapshot()), channels, WireText(data, codec.stringify))
        && r == (if PubRefused(old(parent.Snapshot()), channels) then Err(SubscribeMode) else Ok(data))
    {
      if |channels| == 0 {
        return Err(ChannelsRequired);
      }
      var target := redis;
      if target == null {
        if Truthy(uri) {
          target := new Redis(uri.value);
          redis := target;
          target.Connect();
        } else {
          target := parent;
        }
      }
      if target == null {
        return Err(NoConnection);
      }
      var published := target.Pub(Many(channels), data, codec);
      if published.Err? {
        return Err(published.error);
      }
      return Ok(data);
    }

    /** `stop` (and `dispose`): only an element with a `uri` stops and drops its connector. */
    method Stop()
      modifies this, redis
      ensures Truthy(uri) ==> redis == null
      ensures Truthy(uri) && old(redis) != null ==> old(redis).Snapshot() == AfterStop(old(redis.Snapshot()))
      ensures !Truthy(uri) ==> unchanged(this) && (old(redis) != null ==> unchanged(old(redis)))
    {
      if Truthy(uri) {
        if redis != null {
          redis.Stop();
        }
        redis := null;
      }
    }
  }
}

/**
 * The `ymlr-redis'unsub` element: stops the subscribers filed under the given names.
 */
module RedisUnsubscriber {
  import opened Wrappers
  import opened ElementProps
  import opened RedisConnector
  import opened RedisSubscriber

  /**
   * The subscribers filed when a stopping loop began, each with its `running` flag and
   * its connector at that moment.
   */
  datatype Before = Before(subs: map<string, RedisSub>, running: map<string, bool>, redis: map<string, Redis?>)
  {
    ghost predicate Complete() {
      && subs.Keys == running.Keys && subs.Keys == redis.Keys
      && forall k | k in subs :: subs[k].name == Some(k)
    }

    /** The subscribers and the connectors they could reach. */
    ghost function Objects(): set<object> {
      subs.Values
        + (set k | k in redis && redis[k] != null :: redis[k] as object)
        + (set k | k in subs && subs[k].parent != null :: subs[k].parent as object)
    }

    /** The subscriber filed under `k` was live and could reach a connector. */
    ghost predicate Live(k: string)
      requires Complete() && k in subs
    {
      running[k] && (redis[k] != null || Truthy(subs[k].uri) || subs[k].parent != null)
    }

    /** The subscriber filed under `k` was live but could reach no connector. */
    ghost predicate WasStuck(k: string)
      requires Complete() && k in subs
    {
      running[k] && !(redis[k] != null || Truthy(subs[k].uri) || subs[k].parent != null)
    }
  }

  /** `SubNames` as it is when the loop began. */
  ghost function Take(registry: SubNames): (b: Before)
    reads registry, registry.entries.Values
    requires registry.Valid()
    ensures b.Complete() && b.subs == registry.entries
    ensures Filed(registry, b, [])
  {
    Before(registry.entries,
           map k | k in registry.entries :: registry.entries[k].running,
           map k | k in registry.entries :: registry.entries[k].redis)
  }

  /**
   * What a loop over the names in `done` leaves of the snapshot `at`: every filed
   * subscriber was filed under the same name in `at` and keeps the state it had then,
   * and every subscriber whose name is not in `done` is still filed.
   */
  ghost predicate Filed(registry: SubNames, at: Before, done: seq<string>)
    reads registry, at.subs.Values
  {
    && at.Complete()
    && registry.Valid()
    && (forall k | k in registry.entries :: k in at.subs && registry.entries[k] == at.subs[k])
    && (forall k | k in registry.entries ::
          at.subs[k].running == at.running[k] && at.subs[k].redis == at.redis[k])
    && (forall k | k in at.subs && k !in done :: k in registry.entries)
  }

  /**
   * What `exec` has done once every name in `done` is handled: a handled subscriber
   * that was live with a connector is unfiled and no longer live, one that was not
   * live stays filed and keeps its state, and a stuck one stays filed and live.
   */
  ghost predicate Handled(registry: SubNames, at: Before, done: seq<string>)
    reads registry, at.subs.Values
  {
    && Filed(registry, at, done)
    && (forall k | k in at.subs && k in done ::
          (k in registry.entries <==> !at.Live(k)) && (!at.WasStuck(k) ==> !at.subs[k].running))
  }

  /**
   * `stop` on the subscriber filed under `n`, against the snapshot `at` it still
   * matches: `failed` says it threw; a live subscriber with a connector is unfiled and
   * no longer live; otherwise nothing changes. No other subscriber of `at` is touched.
   */
  method Halt(registry: SubNames, n: string, ghost at: Before) returns (failed: bool)
    requires registry.Valid() && n in registry.entries
    requires at.Complete() && n in at.subs && registry.entries[n] == at.subs[n]
    requires at.subs[n].running == at.running[n] && at.subs[n].redis == at.redis[n]
    modifies registry, at.subs[n], at.subs[n].redis, at.subs[n].parent
    ensures registry.Valid()
    ensures failed == at.WasStuck(n)
    ensures registry.entries == if at.Live(n) then old(registry.entries) - {n} else old(registry.entries)
    ensures !at.WasStuck(n) ==> !at.subs[n].running
    ensures !at.Live(n) ==> at.subs[n].running == at.running[n] && at.subs[n].redis == at.redis[n]
    ensures forall k | k in at.subs && k != n ::
      at.subs[k].running == old(at.subs[k].running) && at.subs[k].redis == old(at.subs[k].redis)
  {
    var stopped := registry.entries[n].Stop(registry);
    failed := stopped.Err?;
  }

  class RedisUnsub {
    /** The names to stop: a string becomes a one-element list, anything else leaves none. */
    const names: Option<seq<string>>

    constructor (arg: NameArg)
      ensures names == NormaliseNames(arg)
    {
      names := NormaliseNames(arg);
    }

    /**
     * `exec`: fails without names. Otherwise every listed subscriber found in
     * `SubNames` is stopped: a live one that can reach a connector is unsubscribed and
     * unfiled by its own `stop`; one that is not live is left filed and untouched; a
     * live one without a connector makes `exec` fail, while the others are still stopped.
     * Subscribers that are not listed are left alone.
     */
    method Exec(registry: SubNames) returns (r: Result<(), Error>)
      requires registry.Valid()
      modifies registry, Take(registry).Objects()
      ensures registry.Valid()
      ensures names.None? || names.value == [] ==> r == Err(NameRequired) && unchanged(registry)
      ensures names.Some? && names.value != [] ==> Handled(registry, old(Take(registry)), names.value)
      ensures names.Some? && names.value != [] ==>
        (r.Err? <==> exists k | k in names.value :: k in old(registry.entries) && old(Take(registry)).WasStuck(k))
      ensures r.Err? ==> r.error == NameRequired || r.error == NoConnection
    {
      if names.None? || |names.value| == 0 {
        return Err(NameRequired);
      }
      var ns := names.value;
      ghost var at := Take(registry);
      r := Ok(());
      var i := 0;
      while i < |ns|
        invariant 0 <= i <= |ns|
        invariant Handled(registry, at, ns[..i])
        invariant r.Ok? || r == Err(NoConnection)
        invariant r.Err? <==> exists k | k in ns[..i] :: k in at.subs && at.WasStuck(k)
      {
        assert ns[..i + 1] == ns[..i] + [ns[i]];
        var failed := StopName(registry, ns[i], at, ns[..i]);
        if failed {
          r := Err(NoConnection);
        }
        i := i + 1;
      }
      assert ns[..i] == ns;
    }

    /**
     * What `exec` does for one name: a filed subscriber is stopped; `failed` says the
     * stop threw.
     */
    method StopName(registry: SubNames, n: string, ghost at: Before, ghost done: seq<string>) returns (failed: bool)
      requires Handled(registry, at, done)
      modifies registry, at.Objects()
      ensures Handled(registry, at, done + [n])
      ensures failed <==> n in at.subs && at.WasStuck(n)
    {
      failed := false;
      if n in registry.entries {
        failed := Halt(registry, n, at);
        assert Filed(registry, at, done + [n]);
      }
    }

    /** `dispose`: every listed name is deleted from `SubNames`, nothing is stopped. */
    method Dispose(registry: SubNames)
      requires registry.Valid()
      modifies registry
      ensures registry.Valid()
      ensures names.None? ==> registry.entries == old(registry.entries)
      ensures names.Some? ==> registry.entries == old(registry.entries) - (set n | n in names.value)
    {
      if names.None? {
        return;
      }
      var ns := names.value;
      var i := 0;
      while i < |ns|
        invariant 0 <= i <= |ns|
        invariant registry.Valid()
        invariant registry.entries == old(registry.entries) - (set n | n in ns[..i])
      {
        assert ns[..i + 1] == ns[..i] + [ns[i]];
        registry.entries := registry.entries - {ns[i]};
        i := i + 1;
      }
      assert ns[..i] == ns;
    }
  }
}

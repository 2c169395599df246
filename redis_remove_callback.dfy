/**
 * The `ymlr-redis'remove` element: stops the subscribers filed under the given names
 * and unfiles them.
 */
module RedisCallbackRemover {
  import opened Wrappers
  import opened ElementProps
  import opened RedisConnector
  import opened RedisSubscriber
  import opened RedisUnsubscriber

  /**
   * What `exec` has done once every name in `done` is handled: a handled subscriber is
   * unfiled and no longer live, unless it was stuck, in which case it stays filed and
   * live.
   */
  ghost predicate Removed(registry: SubNames, at: Before, done: seq<string>)
    reads registry, at.subs.Values
  {
    && Filed(registry, at, done)
    && (forall k | k in at.subs && k in done ::
          (k in registry.entries <==> at.WasStuck(k)) && (!at.WasStuck(k) ==> !at.subs[k].running))
  }

  /**
   * `stop` on the subscriber filed under `n`, then its removal from `SubNames` unless
   * the stop threw: `failed` says it threw, in which case nothing changes.
   */
  method Unfile(registry: SubNames, n: string, ghost at: Before) returns (failed: bool)
    requires registry.Valid() && n in registry.entries
    requires at.Complete() && n in at.subs && registry.entries[n] == at.subs[n]
    requires at.subs[n].running == at.running[n] && at.subs[n].redis == at.redis[n]
    modifies registry, at.subs[n], at.subs[n].redis, at.subs[n].parent
    ensures registry.Valid()
    ensures failed == at.WasStuck(n)
    ensures n in registry.entries <==> at.WasStuck(n)
    ensures forall k | k != n :: k in registry.entries <==> k in old(registry.entries)
    ensures forall k | k in registry.entries :: registry.entries[k] == old(registry.entries[k])
    ensures !at.WasStuck(n) ==> !at.subs[n].running
    ensures at.WasStuck(n) ==> at.subs[n].running == at.running[n] && at.subs[n].redis == at.redis[n]
    ensures forall k | k in at.subs && k != n ::
      at.subs[k].running == old(at.subs[k].running) && at.subs[k].redis == old(at.subs[k].redis)
  {
    failed := Halt(registry, n, at);
    if !failed {
      registry.entries := registry.entries - {n};
    }
  }

  class RedisRemoveCallback {
    /** The names to remove: a string becomes a one-element list, anything else leaves none. */
    const names: Option<seq<string>>

    constructor (arg: NameArg)
      ensures names == NormaliseNames(arg)
    {
      names := NormaliseNames(arg);
    }

    /**
     * `exec`: fails without names. Otherwise every listed subscriber found in
     * `SubNames` is stopped (a full `stop`: its channels are unsubscribed, not only its
     * callback removed) and then unfiled, also when it was not live; a live one without
     * a connector makes `exec` fail and stays filed, while the others are still removed.
     * Subscribers that are not listed are left alone.
     */
    method Exec(registry: SubNames) returns (r: Result<(), Error>)
      requires registry.Valid()
      modifies registry, Take(registry).Objects()
      ensures registry.Valid()
      ensures names.None? || names.value == [] ==> r == Err(NameRequired) && unchanged(registry)
      ensures names.Some? && names.value != [] ==> Removed(registry, old(Take(registry)), names.value)
      ensures names.Some? && names.value != [] ==>
        (r.Err? <==> exists k | k in names.value :: k in old(registry.entries) && old(Take(registry)).WasStuck(k))
      ensures r.Err? ==> r.error == NameRequired || r.error == NoConnection
    {
      if names.None? || |names.value| == 0 {
        return Err(NameRequired);
      }
      var ns := names.value;
      ghost var at := Take(registry);
      r := Ok(());
      var i := 0;
      while i < |ns|
        invariant 0 <= i <= |ns|
        invariant Removed(registry, at, ns[..i])
        invariant r.Ok? || r == Err(NoConnection)
        invariant r.Err? <==> exists k | k in ns[..i] :: k in at.subs && at.WasStuck(k)
      {
        assert ns[..i + 1] == ns[..i] + [ns[i]];
        var failed := RemoveName(registry, ns[i], at, ns[..i]);
        if failed {
          r := Err(NoConnection);
        }
        i := i + 1;
      }
      assert ns[..i] == ns;
    }

    /**
     * What `exec` does for one name: a filed subscriber is stopped and, unless its stop
     * throws, unfiled; `failed` says the stop threw.
     */
    method RemoveName(registry: SubNames, n: string, ghost at: Before, ghost done: seq<string>) returns (failed: bool)
      requires Removed(registry, at, done)
      modifies registry, at.Objects()
      ensures Removed(registry, at, done + [n])
      ensures failed <==> n in at.subs && at.WasStuck(n)
    {
      failed := false;
      if n in registry.entries {
        failed := Unfile(registry, n, at);
        assert Filed(registry, at, done + [n]);
      } else {
        assert n in at.subs ==> n in done && !at.WasStuck(n);
      }
    }
  }
}

# ymlr-redis subscription multiplexer, modelled in Dafny

This project models the Redis plugin of the ymlr workflow runner. The modelled core has five parts:

- **The `Redis` connector element** (`RedisConnector.Redis`). It owns one client and the callback registry in `callbacks`. It publishes (`pub`), subscribes (`_sub`, with `sub` and `psub` on top), unsubscribes (`unsub`), removes callbacks by id (`removeCb`) and stops. Four handlers (`onMessage`, `onPMessage`, `onMessageBuffer`, `onPMessageBuffer`) dispatch broker events to the registered callbacks.
- **The `ymlr-redis'sub` element** (`RedisSubscriber.RedisSub`). It subscribes its channels on a connector: its own, a new one built from `uri`, or the enclosing `ymlr-redis`. It uses `psub` when a channel contains `*`. It files itself in the process-wide `SubNames` map under its name.
- **The `ymlr-redis'unsub` element** (`RedisUnsubscriber.RedisUnsub`). It stops named subscribers.
- **The `ymlr-redis'remove` element** (`RedisCallbackRemover.RedisRemoveCallback`). It also stops named subscribers, then unfiles them.
- **The `ymlr-redis'pub` element** (`RedisPublisher.RedisPub`). It publishes its data.

How the model is built:

- **Registry.** The registry is a value (`CallbackRegistry.Callbacks`). `_sub`, `removeCb`, `unsub` and the handlers become functions on it (`Register`, `RemoveIds`, `PurgeAll` and `Teardown`, `Dispatch`). Callbacks are objects (`Callback`), so a set holds each one once, as a JavaScript `Set` holds a function by identity.
- **Connector state.** The connector's state is summarised by `RedisConnector.State`:
  - whether a client exists;
  - the listeners attached to the client, in order, duplicates included;
  - an append-only log of the commands sent to the broker;
  - the registry;
  - the `promSubscribe` waiter.
- **Connector methods.** Every method of the `Redis` class is proved to move its `Snapshot()` by one transition function (`AfterPub`, `AfterSubscribe`, `AfterUnsub`, `AfterRemoveCb`, `AfterStop`). The connector's properties are lemmas about those functions.
- **Elements.** The elements are classes whose methods are proved against those transitions on whichever connector they reach.
- **Subscription names.** The static `SubNames` map is an explicit `SubNames` object, passed to the methods that use it.

The model follows the code as written, including these behaviours:

- `unsub` with callback removal decides whether to drop the registry by reading `.length` of the two tables. They are plain objects, so `.length` is the entry under a channel named `"length"`. The registry is therefore dropped unless a table still has a channel called `"length"`; then it survives, `pub` stays refused and that channel's callbacks keep firing (`TeardownKeeps`, `LengthChannelOutlivesUnsub`).
- `removeCb` never drops the registry, and it leaves an emptied channel's set in its table. So a connector that ever had a callback refuses `pub` until an `unsub` (`RemoveIds`, `PublishBlockedUntilUnsub`).
- `stop` on the connector keeps the registry.
- `unsub` keeps the client's listeners. A later `sub` therefore attaches a second listener, and the new callback fires twice per message.
- A pattern subscription made after a literal one in the same mode attaches no `pmessage` listener and never fires.
- `removeCb` finds the channel by splitting the id on `:`. A channel containing `:` therefore keeps its callback.
- `unsub` deletes ids by a substring test, so it also hits ids whose position field equals the channel name.
- Patterns are torn down with UNSUBSCRIBE, never PUNSUBSCRIBE.
- A subscriber's `stop` stops any connector it holds, including one it was given.
- `ymlr-redis'remove` performs a full `stop`, which unsubscribes the subscriber's channels, and unfiles the name even when nothing was live. Its own usage comment (src/redis-remove-callback.ts:23) describes it as keeping the channels subscribed and removing only the handler.
- Literal channels and patterns share the per-mode table.
- Every `sub` or `psub` call sends SUBSCRIBE or PSUBSCRIBE, also for channels already subscribed.
- A subscriber's `stop` can fail: a live subscriber with no reachable connector fails in `getRedis` (`NoConnection`).

## Model

| member | source | states |
|---|---|---|
| Strings.NatToString | src/redis.ts:137 | the decimal text of a position index is non-empty and all digits |
| Strings.Split | src/redis.ts:189 | `split(':')` yields at least one field and no field contains the separator |
| Strings.JoinSplit | src/redis.ts:189 | splitting loses nothing: joining the fields with the separator gives the id back |
| Strings.SplitAfter | src/redis.ts:189 | a leading separator-free piece is split off as the first field and the rest is split independently |
| Strings.ContainsInfix | src/redis.ts:171 | `includes` finds every infix occurrence |
| ElementProps.MergeChannels | src/redis-sub.ts:93-96 | `channel` is appended after `channels` exactly when it is truthy; the list is otherwise kept in order; membership is the union |
| CallbackRegistry.ModeName | src/redis.ts:137 | the type field of an id is at least four characters and has no `:`, so it is always the first split field |
| CallbackRegistry.ModeNamed | src/redis.ts:193 | `callbacks[type]` finds a mode exactly when the field is that mode's name |
| CallbackRegistry.Prepare | src/redis.ts:103-121 | after the setup step the registry and the call mode's table exist |
| CallbackRegistry.AddOne | src/redis.ts:135-140 | one `forEach` step keeps the mode's table defined |
| CallbackRegistry.AddFrom | src/redis.ts:134-141 | the remaining `forEach` steps keep the mode's table defined |
| CallbackRegistry.Register | src/redis.ts:103-141 | after `_sub` with a callback the call mode's table exists |
| CallbackRegistry.RegisterEach | src/redis.ts:134-141 | the `forEach` leaves the registry `Register` describes and collects exactly the call's ids in channel order |
| CallbackRegistry.AddFromIdKeys | src/redis.ts:134-141 | the loop adds exactly the ids of the remaining positions |
| CallbackRegistry.AddFromIdValues | src/redis.ts:134-141 | the loop maps every id of the remaining positions to `cb` and keeps every other id's callback |
| CallbackRegistry.AddFromKey | src/redis.ts:134-141 | under each key the loop adds `cb` exactly when the key is one of the remaining channels and keeps the set otherwise |
| CallbackRegistry.AddFromOther | src/redis.ts:130-141 | the loop leaves the other mode's table unchanged |
| CallbackRegistry.RegisterIds | src/redis.ts:132-141 | after `_sub` every id of the call maps to `cb`, every earlier id keeps its callback, and no id disappears |
| CallbackRegistry.RegisterTargets | src/redis.ts:130-141 | after `_sub` the callbacks under (mode, key) are the earlier ones plus `cb` exactly when the mode is the call's and the key one of its channels |
| CallbackRegistry.Dispatch | src/redis.ts:217-247 | every call a handler makes passes the event's positional arguments to a callback registered under the event's key in the handler's mode |
| CallbackRegistry.DispatchCount | src/redis.ts:217-247 | each registered callback is called once per attached listener of the event's kind and its mode, and no other call is made |
| CallbackRegistry.SubIdTarget | src/redis.ts:189 | an id made from a channel without `:` splits back into its type and that channel |
| CallbackRegistry.SubIdTargetColon | src/redis.ts:189 | an id made from a channel `a:b` splits into its type and `a` |
| CallbackRegistry.RemoveOne | src/redis.ts:188-195 | one removal step deletes that id and takes its callback out of the set its id names, and keeps every table and table key |
| CallbackRegistry.RemoveIds | src/redis.ts:182-196 | `removeCb` only deletes ids, and keeps every table and every table key, emptied sets included |
| CallbackRegistry.RemoveIdsSpec | src/redis.ts:182-196 | `removeCb` deletes exactly the listed existing ids and removes from each set exactly the callbacks of removed ids naming it, whatever the order of the ids |
| CallbackRegistry.RemoveIdsKeepsSibling | src/redis.ts:193 | a sibling callback on the same channel whose ids are not removed keeps firing |
| CallbackRegistry.RemoveIdsStopsOwner | src/redis.ts:189-194 | removing the id of a callback on a channel without `:` deletes the id and stops that callback firing there |
| CallbackRegistry.ColonChannelKeepsFiring | src/redis.ts:189-194 | on a channel containing `:` the id is deleted but the callback stays under the channel and keeps firing |
| CallbackRegistry.PurgeChannel | src/redis.ts:169-175 | per channel, `unsub` keeps exactly the ids not containing `:channel:`, with their callbacks, and removes the channel from both tables |
| CallbackRegistry.PurgeAllTables | src/redis.ts:169-175 | after the loop over the channels, each table has lost exactly the listed channels' entries |
| CallbackRegistry.PurgeAllIds | src/redis.ts:169-172 | after the loop, exactly the ids containing none of the `:channel:` infixes are left, with their callbacks |
| CallbackRegistry.TeardownKeeps | src/redis.ts:168-178 | the registry survives `unsub` exactly when a table has a channel named `"length"` that was not unsubscribed; it then keeps every other channel's callbacks |
| CallbackRegistry.RegisterFreshKeys | src/redis.ts:104-141 | the registry a first `_sub` creates has one table, holding exactly the call's channels |
| CallbackRegistry.PurgeRemovesChannelIds | src/redis.ts:171-172 | every id registered for the channel is deleted |
| CallbackRegistry.PurgeHitsIndexField | src/redis.ts:171 | unsubscribing a channel named like a position index also deletes other channels' ids at that position |
| RedisConnector.AfterConnect | src/redis.ts:38-40 | creating the client leaves a connector with a client whose listeners live on it |
| RedisConnector.AfterPub | src/redis.ts:70-85 | `pub` keeps the listener invariant |
| RedisConnector.AfterSubscribe | src/redis.ts:87-149 | `_sub` keeps the listener invariant |
| RedisConnector.SubIds | src/redis.ts:88-92 | a string argument returns a single id (present exactly with a callback), a list returns the call's ids in order (none without a callback) |
| RedisConnector.AfterUnsub | src/redis.ts:161-180 | `unsub` keeps the listener invariant |
| RedisConnector.AfterRemoveCb | src/redis.ts:182-196 | `removeCb` sends nothing, leaves the client, listeners and waiter alone, never creates or drops the registry, and only deletes ids |
| RedisConnector.AfterStop | src/redis.ts:207-211 | after `stop` there is no client and no listener |
| RedisConnector.Deliver | src/redis.ts:217-247 | a connector only ever calls callbacks registered under the event's key, with the event's arguments |
| RedisConnector.Redis.constructor | src/redis.ts:53-58 | a new connector has no client, no listeners, no commands sent, no registry and no waiter |
| RedisConnector.Redis.Connect | src/redis.ts:198-205 | `exec` creates the client and changes nothing else |
| RedisConnector.Redis.WaitToDone | src/redis.ts:65-68 | `waitToDone` settles at once exactly when no waiter is pending |
| RedisConnector.Redis.Pub | src/redis.ts:70-85 | refuses with the subscribe-mode error exactly when the list is non-empty and a registry exists; otherwise publishes the text once per channel in order |
| RedisConnector.Redis.Subscribe | src/redis.ts:87-159 | sends one (P)SUBSCRIBE for a non-empty list; with a callback registers it under every channel, attaches a listener only for a new table, creates the waiter once; returns the ids |
| RedisConnector.Redis.Unsub | src/redis.ts:161-180 | sends one UNSUBSCRIBE for a non-empty list; with callback removal it purges each channel in turn and then drops the registry unless a table holds a `"length"` channel; listeners are kept |
| RedisConnector.Redis.RemoveCb | src/redis.ts:182-196 | the registry loses the listed ids and their callbacks; nothing is sent and the client is untouched |
| RedisConnector.Redis.Stop | src/redis.ts:207-215 | disconnects, forgets the client and its listeners, releases a pending waiter, keeps the registry |
| RedisConnector.PublishBlockedUntilUnsub | src/redis.ts:73-177 | a subscription with a callback blocks `pub`; `stop` and `removeCb` keep it blocked; `unsub` with removal unblocks it exactly when no table keeps a channel named `"length"` |
| RedisConnector.PubSends | src/redis.ts:70-85 | a refused `pub` changes nothing; an accepted one appends exactly one PUBLISH per channel |
| RedisConnector.StopSilences | src/redis.ts:207-211 | after `stop` no event reaches any callback and `waitToDone` no longer blocks |
| RedisConnector.SubscriberReceives | src/redis.ts:241-247 | a text subscription on a fresh connector calls its callback exactly once per message on its channel |
| RedisConnector.ResubscribeFiresTwice | src/redis.ts:111-177 | after `sub`, `unsub` and `sub` again on one channel, the new callback is called twice per message |
| RedisConnector.LengthChannelOutlivesUnsub | src/redis.ts:161-180 | after `sub(['length'])`, `sub([other])` and `unsub([other])`, `pub` is still refused and the `"length"` callback still fires once per message |
| RedisConnector.PatternAfterLiteralNeverFires | src/redis.ts:111-119 | a pattern callback registered after a literal text subscription is filed under its pattern yet never called |
| RedisSubscriber.KindFor | src/redis-sub.ts:127 | `psub` is used exactly when some channel contains `*` |
| RedisSubscriber.PublishedObjectParses | src/redis-sub.ts:100-106 | for a JSON codec that round-trips every value `JSON.parse` can return, an object published by `pub` reaches the subscriber as that value; otherwise `tryToParseData` passes the text on unparsed |
| RedisSubscriber.ClosureContext | src/redis-sub.ts:129-147 | the context each closure builds from each event kind, including the shifted arguments of a literal closure on `pmessage` and the throw of a pattern closure on `message` |
| RedisSubscriber.SubscriberSeesPublishedObject | src/redis-sub.ts:138-147 | on a fresh connector, an object `JSON.parse` can return, published to a literal channel, runs the closure exactly once with that channel, the wire text and the object |
| RedisSubscriber.SubNames.constructor | src/redis-sub.ts:82 | the name map starts empty |
| RedisSubscriber.Forget | src/redis-sub.ts:163-165 | a truthy name is deleted and every other entry kept |
| RedisSubscriber.RedisSub.constructor | src/redis-sub.ts:93-98 | `channel` is appended to `channels`; `type` defaults to text |
| RedisSubscriber.RedisSub.GetRedis | src/redis-sub.ts:178-194 | the own connector, else a new connected one from `uri` (kept), else the enclosing one, else failure |
| RedisSubscriber.RedisSub.Start | src/redis-sub.ts:123-153 | a live subscriber changes nothing; otherwise a new closure is subscribed on the connector found, with `psub` exactly for wildcard channels, and the subscriber becomes live |
| RedisSubscriber.RedisSub.Stop | src/redis-sub.ts:155-171 | not live: false and no change; otherwise unsubscribes with removal, stops a held connector, unfiles the name, answers true |
| RedisSubscriber.RedisSub.Exec | src/redis-sub.ts:108-121 | files a named element under a free name; a taken name starts the subscriber already filed there instead |
| RedisUnsubscriber.RedisUnsub.constructor | src/redis-unsub.ts:30-36 | the names are normalised from the argument |
| RedisUnsubscriber.Halt | src/redis-sub.ts:155-171 | `stop` on a filed subscriber, against the state it had: it throws exactly when it was live with no connector; a live one with a connector is unfiled and no longer live; otherwise nothing changes; no other filed subscriber is touched |
| RedisUnsubscriber.RedisUnsub.Exec | src/redis-unsub.ts:38-49 | fails without names; otherwise, against `SubNames` as it was: a listed subscriber that was live with a connector is stopped and unfiled, a listed idle one stays filed with its state, a listed stuck one stays filed and live, unlisted ones stay filed with their state; fails exactly when a listed subscriber was live with no connector |
| RedisUnsubscriber.RedisUnsub.StopName | src/redis-unsub.ts:42-47 | one name: the subscriber filed under it is handled as `exec` promises for every name, and the step fails exactly when it was live with no connector |
| RedisUnsubscriber.RedisUnsub.Dispose | src/redis-unsub.ts:51-53 | exactly the listed names are deleted from the name map |
| RedisCallbackRemover.RedisRemoveCallback.constructor | src/redis-remove-callback.ts:34-40 | the names are normalised from the argument |
| RedisCallbackRemover.Unfile | src/redis-remove-callback.ts:48-51 | `stop` on a filed subscriber, then its removal from `SubNames` unless the stop threw; a removed one is no longer live, a kept one keeps its state; no other filed subscriber is touched |
| RedisCallbackRemover.RedisRemoveCallback.Exec | src/redis-remove-callback.ts:42-55 | fails without names; otherwise, against `SubNames` as it was: every listed subscriber is stopped and unfiled, idle ones too, except a stuck one, which stays filed and live; unlisted ones stay filed with their state; fails exactly when a listed subscriber was live with no connector |
| RedisCallbackRemover.RedisRemoveCallback.RemoveName | src/redis-remove-callback.ts:46-52 | one name: the subscriber filed under it is handled as `exec` promises for every name, and the step fails exactly when its stop threw |
| RedisPublisher.RedisPub.constructor | src/redis-pub.ts:67-70 | `channel` is appended to `channels` |
| RedisPublisher.RedisPub.Exec | src/redis-pub.ts:72-90 | fails on no channels; publishes through the own connector, else a new one from `uri`, else the enclosing one, else fails; answers the data unless the connector refuses |
| RedisPublisher.RedisPub.Stop | src/redis-pub.ts:92-101 | only an element with a `uri` stops and drops its connector |

## Left out

- The network and the client library are not modelled. Connecting, the `connect`/`error` events, replies and disconnect internals are out. The broker is a log of the commands sent to it, and the events it delivers are inputs (`Event`).
- Broker-side pattern matching is out. A `PMessage` event names the pattern that matched.
- Concurrency is not modelled. Each `await` is one atomic step, and `Promise.all` over names or channels runs its steps one after another.
- `start` waiting on `t` until `stop` is left out: `Start` returns once the subscriber is live (`running`).
- `Math.random()` becomes the parameter `rd`.
- Logging (`logger.debug`) and `opts` (the client options) are left out.
- Running the child elements is left out. This covers `runEachOfElements`, the children a `ymlr-redis` element runs in `exec`, and the spread of the parent state. A closure run is modelled by the context it builds (`ClosureContext`).
- Buffers are modelled by their text. The buffer mode differs from the text mode only in which table and listener it uses.
- A `type` other than `text` or `buffer` is left out.
- `JSON.stringify` and `JSON.parse` are abstract (`Codec`). Only the round-trip law `RoundTrips` is required where a property needs it, and only for values `JSON.parse` can return (`Representable`: distinct keys in JavaScript's key order, safe integers). Fractional numbers are not modelled.
- `newOne`, the `quit` element, the job elements and the props files are not part of this model.
- `dispose` of the connector, the publisher and the subscriber is not modelled as a separate member; it only calls `stop` (and the framework's group dispose). `ymlr-redis'remove` has an empty `dispose`.
- `sub` and `psub` are `Redis.Subscribe` with kind `Sub` or `PSub`. The four message handlers are `Dispatch` over listeners of the four (kind, mode) pairs.
- CallbackRegistry.Register: a channel named like a member every plain object inherits (`toString`, `constructor`, `__proto__`, `hasOwnProperty`, ...) is registered like any other. In the code, the lookup at src/redis.ts:135 finds the inherited member, so no set is created and the `.add` at line 140 throws, after the SUBSCRIBE was sent and the id filed; a later `removeCb` of that id throws the same way (line 193). The model covers only channel names that are not inherited members.
- RedisConnector.Redis.RemoveCb: walks the listed ids rather than the registry's keys. `RemoveIdsSpec` shows the result depends only on which ids are listed, so the two orders agree.
- RedisSubscriber.RedisSub.Exec: states which subscriber is started and how the name map changes. The connector effect is not restated; it is the one `RedisSub.Start` states for that subscriber.
- RedisUnsubscriber.RedisUnsub.Exec: states how the name map and each listed subscriber change. The connector effects are those of `RedisSub.Stop` and are not restated.
- RedisCallbackRemover.RedisRemoveCallback.Exec: as for `RedisUnsub.Exec`, the connector effects are those of `RedisSub.Stop` and are not restated.

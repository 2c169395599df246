/**
 * The callback registry a `Redis` connector keeps in its `callbacks` field, as a value:
 * `id` maps subscription ids to callbacks, and `text` / `buffer` map a channel (or a
 * pattern: both share these maps) to the set of callbacks watching it. The functions
 * here are what `_sub`, `removeCb` and `unsub` do to that value, and what the four
 * message handlers read from it.
 */
module CallbackRegistry {
  import opened Wrappers
  import opened Strings

  /** Decoding mode of a subscription: `'text'` or `'buffer'`. */
  datatype Mode = Text | Buffer

  function ModeName(m: Mode): (s: string)
    ensures ':' !in s && |s| >= 4
  {
    match m
    case Text => "text"
    case Buffer => "buffer"
  }

  /** The mode a type field names, as `callbacks[type]` looks it up. */
  function ModeNamed(name: string): (r: Option<Mode>)
    ensures r.Some? ==> ModeName(r.value) == name
    ensures forall m: Mode :: ModeName(m) == name ==> r == Some(m)
  {
    if name == "text" then Some(Text) else if name == "buffer" then Some(Buffer) else None
  }

  /** Which client command a subscription goes through: `sub` (SUBSCRIBE) or `psub` (PSUBSCRIBE). */
  datatype SubKind = Sub | PSub

  /** A callback function; JavaScript sets hold functions by identity, so each is an object. */
  class Callback {
    constructor () {}
  }

  /** Channel (or pattern) to the set of callbacks watching it. */
  type Table = map<string, set<Callback>>

  /** The value of `Redis.callbacks` while it is defined. */
  datatype Callbacks = Callbacks(id: map<string, Callback>, text: Option<Table>, buffer: Option<Table>)

  function TableOf(c: Callbacks, m: Mode): Option<Table> {
    match m
    case Text => c.text
    case Buffer => c.buffer
  }

  function SetTable(c: Callbacks, m: Mode, t: Option<Table>): (r: Callbacks)
    ensures TableOf(r, m) == t
    ensures forall m' | m' != m :: TableOf(r, m') == TableOf(c, m')
    ensures r.id == c.id
  {
    match m
    case Text => c.(text := t)
    case Buffer => c.(buffer := t)
  }

  // ---------------------------------------------------------------------------
  // Registration (`_sub` with a callback)
  // ---------------------------------------------------------------------------

  /** The id `_sub` gives the channel at position `i` of one call: `type:channel:i:rd`. */
  function SubId(m: Mode, channel: string, i: nat, rd: string): string {
    ModeName(m) + ":" + channel + ":" + NatToString(i) + ":" + rd
  }

  /** The ids of one call, in channel order. */
  function IdList(m: Mode, channels: seq<string>, rd: string): (r: seq<string>)
    ensures |r| == |channels|
    ensures forall i | 0 <= i < |r| :: r[i] == SubId(m, channels[i], i, rd)
  {
    seq(|channels|, i requires 0 <= i < |channels| => SubId(m, channels[i], i, rd))
  }

  function IdsFrom(m: Mode, channels: seq<string>, i: nat, rd: string): set<string> {
    set j | i <= j < |channels| :: SubId(m, channels[j], j, rd)
  }

  function ChannelsFrom(channels: seq<string>, i: nat): set<string> {
    set j | i <= j < |channels| :: channels[j]
  }

  /** Peeling position `i` off the ids of positions `i..`. */
  lemma IdsFromStep(m: Mode, channels: seq<string>, i: nat, rd: string)
    requires i < |channels|
    ensures IdsFrom(m, channels, i, rd) == {SubId(m, channels[i], i, rd)} + IdsFrom(m, channels, i + 1, rd)
  {
  }

  /** Peeling position `i` off the channels of positions `i..`. */
  lemma ChannelsFromStep(channels: seq<string>, i: nat)
    requires i < |channels|
    ensures ChannelsFrom(channels, i) == {channels[i]} + ChannelsFrom(channels, i + 1)
  {
  }

  /** `_sub` first creates the registry and the mode's table where they are missing. */
  function Prepare(c: Option<Callbacks>, m: Mode): (r: Callbacks)
    ensures TableOf(r, m).Some?
  {
    var base := c.GetOr(Callbacks(map[], None, None));
    if TableOf(base, m).Some? then base else SetTable(base, m, Some(map[]))
  }

  /** One step of the `forEach`: register `cb` for `channels[i]` under its id. */
  function AddOne(c: Callbacks, m: Mode, channels: seq<string>, i: nat, cb: Callback, rd: string): (r: Callbacks)
    requires TableOf(c, m).Some? && i < |channels|
    ensures TableOf(r, m).Some?
  {
    var t := TableOf(c, m).value;
    var ch := channels[i];
    var t' := t[ch := (if ch in t then t[ch] else {}) + {cb}];
    SetTable(c, m, Some(t')).(id := c.id[SubId(m, ch, i, rd) := cb])
  }

  function AddFrom(c: Callbacks, m: Mode, channels: seq<string>, i: nat, cb: Callback, rd: string): (r: Callbacks)
    requires TableOf(c, m).Some? && i <= |channels|
    ensures TableOf(r, m).Some?
    decreases |channels| - i
  {
    if i == |channels| then c else AddFrom(AddOne(c, m, channels, i, cb, rd), m, channels, i + 1, cb, rd)
  }

  /** The registry after `_sub` registers `cb` for every channel of one call. */
  function Register(c: Option<Callbacks>, m: Mode, channels: seq<string>, cb: Callback, rd: string): (r: Callbacks)
    ensures TableOf(r, m).Some?
  {
    AddFrom(Prepare(c, m), m, channels, 0, cb, rd)
  }

  /**
   * The `forEach` of `_sub`, step by step: registers `cb` for every channel of one
   * call and collects the ids in channel order.
   */
  method RegisterEach(c: Option<Callbacks>, m: Mode, channels: seq<string>, cb: Callback, rd: string)
    returns (r: Callbacks, ids: seq<string>)
    ensures r == Register(c, m, channels, cb, rd)
    ensures ids == IdList(m, channels, rd)
  {
    r := Prepare(c, m);
    ids := [];
    var i := 0;
    while i < |channels|
      invariant 0 <= i <= |channels|
      invariant TableOf(r, m).Some?
      invariant AddFrom(r, m, channels, i, cb, rd) == Register(c, m, channels, cb, rd)
      invariant ids == IdList(m, channels[..i], rd)
    {
      ids := ids + [SubId(m, channels[i], i, rd)];
      r := AddOne(r, m, channels, i, cb, rd);
      i := i + 1;
    }
    assert channels[..i] == channels;
  }

  /** The loop adds exactly the ids of the remaining positions. */
  lemma {:induction false} AddFromIdKeys(c: Callbacks, m: Mode, channels: seq<string>, i: nat, cb: Callback, rd: string)
    requires TableOf(c, m).Some? && i <= |channels|
    ensures AddFrom(c, m, channels, i, cb, rd).id.Keys == c.id.Keys + IdsFrom(m, channels, i, rd)
    decreases |channels| - i
  {
    if i < |channels| {
      var c1 := AddOne(c, m, channels, i, cb, rd);
      assert c1.id.Keys == c.id.Keys + {SubId(m, channels[i], i, rd)};
      AddFromIdKeys(c1, m, channels, i + 1, cb, rd);
      IdsFromStep(m, channels, i, rd);
    } else {
      assert IdsFrom(m, channels, i, rd) == {};
    }
  }

  /** The loop maps every id of the remaining positions to `cb` and keeps every other id's callback. */
  lemma {:induction false} AddFromIdValues(c: Callbacks, m: Mode, channels: seq<string>, i: nat, cb: Callback, rd: string)
    requires TableOf(c, m).Some? && i <= |channels|
    ensures var r := AddFrom(c, m, channels, i, cb, rd);
      forall k | k in r.id ::
        if k in IdsFrom(m, channels, i, rd) then r.id[k] == cb else k in c.id && r.id[k] == c.id[k]
    decreases |channels| - i
  {
    if i < |channels| {
      var c1 := AddOne(c, m, channels, i, cb, rd);
      assert c1.id == c.id[SubId(m, channels[i], i, rd) := cb];
      AddFromIdValues(c1, m, channels, i + 1, cb, rd);
      IdsFromStep(m, channels, i, rd);
    } else {
      assert IdsFrom(m, channels, i, rd) == {};
    }
  }

  /** The set `AddFrom` leaves under one key of the call's table. */
  lemma {:induction false} AddFromKey(c: Callbacks, m: Mode, channels: seq<string>, i: nat, cb: Callback, rd: string, key: string)
    requires TableOf(c, m).Some? && i <= |channels|
    ensures var t := TableOf(c, m).value;
      var tr := TableOf(AddFrom(c, m, channels, i, cb, rd), m);
      && tr.Some?
      && (key in tr.value <==> key in t || key in ChannelsFrom(channels, i))
      && (key in tr.value ==>
            tr.value[key] == (if key in t then t[key] else {}) + (if key in ChannelsFrom(channels, i) then {cb} else {}))
    decreases |channels| - i
  {
    if i < |channels| {
      var c1 := AddOne(c, m, channels, i, cb, rd);
      AddFromKey(c1, m, channels, i + 1, cb, rd, key);
      ChannelsFromStep(channels, i);
    } else {
      assert ChannelsFrom(channels, i) == {};
    }
  }

  /** `AddFrom` leaves the other mode's table alone. */
  lemma {:induction false} AddFromOther(c: Callbacks, m: Mode, channels: seq<string>, i: nat, cb: Callback, rd: string, m': Mode)
    requires TableOf(c, m).Some? && i <= |channels| && m' != m
    ensures TableOf(AddFrom(c, m, channels, i, cb, rd), m') == TableOf(c, m')
    decreases |channels| - i
  {
    if i < |channels| {
      AddFromOther(AddOne(c, m, channels, i, cb, rd), m, channels, i + 1, cb, rd, m');
    }
  }

  /**
   * After `_sub` with a callback: every channel's id `type:channel:i:rd` maps to `cb`,
   * all other ids keep their callbacks, and no id disappears.
   */
  lemma RegisterIds(c: Option<Callbacks>, m: Mode, channels: seq<string>, cb: Callback, rd: string)
    ensures var r := Register(c, m, channels, cb, rd);
      var before := if c.Some? then c.value.id else map[];
      && r.id.Keys == before.Keys + (set k | k in IdList(m, channels, rd))
      && forall k | k in r.id :: r.id[k] == if k in IdList(m, channels, rd) then cb else before[k]
  {
    var p := Prepare(c, m);
    assert p.id == if c.Some? then c.value.id else map[];
    AddFromIdKeys(p, m, channels, 0, cb, rd);
    AddFromIdValues(p, m, channels, 0, cb, rd);
    var ids := IdList(m, channels, rd);
    forall k ensures k in IdsFrom(m, channels, 0, rd) <==> k in ids {
      if k in ids {
        var j :| 0 <= j < |ids| && ids[j] == k;
        assert k == SubId(m, channels[j], j, rd);
      }
    }
  }

  /**
   * What the message handlers see after `_sub` with a callback: `cb` is added to the set
   * of every listed channel in the call's mode, and every other set is as it was.
   */
  lemma RegisterTargets(c: Option<Callbacks>, m: Mode, channels: seq<string>, cb: Callback, rd: string, m': Mode, key: string)
    ensures Targets(Some(Register(c, m, channels, cb, rd)), m', key)
         == Targets(c, m', key) + (if m' == m && key in channels then {cb} else {})
  {
    var p := Prepare(c, m);
    if m' == m {
      AddFromKey(p, m, channels, 0, cb, rd, key);
    } else {
      AddFromOther(p, m, channels, 0, cb, rd, m');
    }
    assert key in ChannelsFrom(channels, 0) <==> key in channels by {
      if key in channels {
        var j :| 0 <= j < |channels| && channels[j] == key;
      }
    }
  }

  // ---------------------------------------------------------------------------
  // Dispatch (`onMessage`, `onPMessage`, `onMessageBuffer`, `onPMessageBuffer`)
  // ---------------------------------------------------------------------------

  /**
   * The callbacks a handler invokes for a key (the channel of a `message` event, the
   * pattern of a `pmessage` event): none while the registry, the mode's table or the
   * key's set is missing or empty.
   */
  function Targets(c: Option<Callbacks>, m: Mode, key: string): set<Callback> {
    if c.None? then {}
    else
      match TableOf(c.value, m)
      case None => {}
      case Some(t) => if key in t then t[key] else {}
  }

  /**
   * A listener attached on the client: `message` is `Listener(Sub, Text)`, `pmessage`
   * `Listener(PSub, Text)`, `messageBuffer` `Listener(Sub, Buffer)` and
   * `pmessageBuffer` `Listener(PSub, Buffer)`.
   */
  datatype Listener = Listener(kind: SubKind, mode: Mode)

  /**
   * The listener `_sub` attaches: one only when it creates the mode's table, and its
   * kind follows the call that created the table, whatever later calls use.
   */
  function NewListeners(c: Option<Callbacks>, kind: SubKind, m: Mode): (r: seq<Listener>)
    ensures r == [] || r == [Listener(kind, m)]
    ensures r != [] <==> c.None? || TableOf(c.value, m).None?
  {
    if c.None? || TableOf(c.value, m).None? then [Listener(kind, m)] else []
  }

  /** What the broker delivers to a subscribed client. */
  datatype Event =
    | Message(channel: string, message: string)
    | PMessage(pattern: string, channel: string, message: string)

  function EventKind(ev: Event): SubKind {
    if ev.Message? then Sub else PSub
  }

  /** The registry key a handler looks up: the channel, or the pattern that matched. */
  function Key(ev: Event): string {
    match ev
    case Message(ch, _) => ch
    case PMessage(p, _, _) => p
  }

  /** The arguments a handler passes on: `(channel, message)` or `(pattern, channel, message)`. */
  function Args(ev: Event): seq<string> {
    match ev
    case Message(ch, msg) => [ch, msg]
    case PMessage(p, ch, msg) => [p, ch, msg]
  }

  /** One call of a callback by a handler, with the handler's mode and positional arguments. */
  datatype Invocation = Invocation(cb: Callback, mode: Mode, args: seq<string>)

  /** The calls one listener makes for one event. */
  function Handle(l: Listener, c: Option<Callbacks>, ev: Event): set<Invocation> {
    if l.kind != EventKind(ev) then {}
    else set cb | cb in Targets(c, l.mode, Key(ev)) :: Invocation(cb, l.mode, Args(ev))
  }

  /** The calls all attached listeners make for one event, counted with multiplicity. */
  function Dispatch(ls: seq<Listener>, c: Option<Callbacks>, ev: Event): (r: multiset<Invocation>)
    ensures forall inv | inv in r :: inv.args == Args(ev) && inv.cb in Targets(c, inv.mode, Key(ev))
  {
    if ls == [] then multiset{} else multiset(Handle(ls[0], c, ev)) + Dispatch(ls[1..], c, ev)
  }

  /**
   * Each registered callback is called once per attached listener of the event's kind
   * and its own mode, and nothing else is called.
   */
  lemma {:induction false} DispatchCount(ls: seq<Listener>, c: Option<Callbacks>, ev: Event, inv: Invocation)
    ensures Dispatch(ls, c, ev)[inv] ==
      if inv.args == Args(ev) && inv.cb in Targets(c, inv.mode, Key(ev))
      then multiset(ls)[Listener(EventKind(ev), inv.mode)] else 0
  {
    if ls != [] {
      DispatchCount(ls[1..], c, ev, inv);
      assert ls == [ls[0]] + ls[1..];
      assert multiset(ls) == multiset{ls[0]} + multiset(ls[1..]);
      var h := Handle(ls[0], c, ev);
      assert inv in h <==> ls[0] == Listener(EventKind(ev), inv.mode) && inv.args == Args(ev) && inv.cb in Targets(c, inv.mode, Key(ev));
      assert multiset(h)[inv] == if inv in h then 1 else 0;
    }
  }

  // ---------------------------------------------------------------------------
  // Removal by id (`removeCb`)
  // ---------------------------------------------------------------------------

  /**
   * Where `removeCb` looks an id's callback up: the first two `:`-separated fields of
   * the id; a missing second field reads as the key `"undefined"`.
   */
  function Target(uuid: string): (string, string) {
    var f := Split(uuid, ':');
    (f[0], if |f| > 1 then f[1] else "undefined")
  }

  /** An id made from a channel without `:` leads back to that channel. */
  lemma SubIdTarget(m: Mode, ch: string, i: nat, rd: string)
    requires ':' !in ch
    ensures Target(SubId(m, ch, i, rd)) == (ModeName(m), ch)
  {
    var rest := NatToString(i) + ":" + rd;
    assert SubId(m, ch, i, rd) == ModeName(m) + [':'] + (ch + [':'] + rest);
    SplitAfter(ModeName(m), ':', ch + [':'] + rest);
    SplitAfter(ch, ':', rest);
  }

  /** An id made from a channel `a:b` leads to the channel `a` instead. */
  lemma SubIdTargetColon(m: Mode, a: string, b: string, i: nat, rd: string)
    requires ':' !in a
    ensures Target(SubId(m, a + ":" + b, i, rd)) == (ModeName(m), a)
  {
    var rest := b + ":" + NatToString(i) + ":" + rd;
    assert SubId(m, a + ":" + b, i, rd) == ModeName(m) + [':'] + (a + [':'] + rest);
    SplitAfter(ModeName(m), ':', a + [':'] + rest);
    SplitAfter(a, ':', rest);
  }

  function DeleteFrom(t: Option<Table>, ch: string, cb: Callback): Option<Table> {
    if t.Some? && ch in t.value then Some(t.value[ch := t.value[ch] - {cb}]) else t
  }

  /**
   * One step of `removeCb`: a known id is deleted and its callback taken out of the set
   * its id names; every table and every table key is kept.
   */
  function RemoveOne(c: Callbacks, uuid: string): (r: Callbacks)
    ensures r.id == c.id - {uuid}
    ensures forall m: Mode :: TableOf(r, m).Some? == TableOf(c, m).Some?
    ensures forall m: Mode | TableOf(c, m).Some? :: TableOf(r, m).value.Keys == TableOf(c, m).value.Keys
    ensures forall m: Mode, key: string ::
              Targets(Some(r), m, key) == Targets(Some(c), m, key) - (if uuid in c.id && Target(uuid) == (ModeName(m), key) then {c.id[uuid]} else {})
  {
    if uuid !in c.id then c
    else
      var target := Target(uuid);
      var c1 := match ModeNamed(target.0)
        case None => c
        case Some(m) => SetTable(c, m, DeleteFrom(TableOf(c, m), target.1, c.id[uuid]));
      c1.(id := c1.id - {uuid})
  }

  /**
   * The registry after `removeCb(uuids)`: ids only disappear, and no table and no
   * table key does, so an emptied channel keeps its (empty) set.
   */
  function RemoveIds(c: Callbacks, uuids: seq<string>): (r: Callbacks)
    ensures r.id.Keys <= c.id.Keys
    ensures forall m: Mode :: TableOf(r, m).Some? == TableOf(c, m).Some?
    ensures forall m: Mode | TableOf(c, m).Some? :: TableOf(r, m).value.Keys == TableOf(c, m).value.Keys
    decreases |uuids|
  {
    if uuids == [] then c else RemoveIds(RemoveOne(c, uuids[0]), uuids[1..])
  }

  /** The callbacks `removeCb(uuids)` takes out of the set under `key` in mode `m`. */
  function RemovedCallbacks(c: Callbacks, uuids: seq<string>, m: Mode, key: string): set<Callback> {
    set u | u in uuids && u in c.id && Target(u) == (ModeName(m), key) :: c.id[u]
  }

  /**
   * `removeCb(uuids)` deletes exactly the listed ids that exist and takes out of each
   * set exactly the callbacks of the removed ids that name it. The result depends only
   * on which ids are listed, not on their order.
   */
  lemma {:induction false} RemoveIdsSpec(c: Callbacks, uuids: seq<string>)
    ensures var r := RemoveIds(c, uuids);
      && r.id == (map k | k in c.id && k !in uuids :: c.id[k])
      && forall m: Mode, key: string :: Targets(Some(r), m, key) == Targets(Some(c), m, key) - RemovedCallbacks(c, uuids, m, key)
    decreases |uuids|
  {
    if uuids == [] {
      assert (map k | k in c.id && k !in uuids :: c.id[k]) == c.id;
      forall m: Mode, key: string ensures RemovedCallbacks(c, uuids, m, key) == {} {}
    } else {
      var u, rest := uuids[0], uuids[1..];
      var c1 := RemoveOne(c, u);
      RemoveIdsSpec(c1, rest);
      assert forall k :: k in uuids <==> k == u || k in rest;
      forall m: Mode, key: string
        ensures RemovedCallbacks(c, uuids, m, key)
             == RemovedCallbacks(c1, rest, m, key) + (if u in c.id && Target(u) == (ModeName(m), key) then {c.id[u]} else {})
      {
        var here := if u in c.id && Target(u) == (ModeName(m), key) then {c.id[u]} else {};
        forall x | x in RemovedCallbacks(c, uuids, m, key)
          ensures x in RemovedCallbacks(c1, rest, m, key) + here
        {
          var v :| v in uuids && v in c.id && Target(v) == (ModeName(m), key) && c.id[v] == x;
          if v != u {
            assert v in rest && v in c1.id;
          }
        }
        forall x | x in RemovedCallbacks(c1, rest, m, key)
          ensures x in RemovedCallbacks(c, uuids, m, key)
        {
          var v :| v in rest && v in c1.id && Target(v) == (ModeName(m), key) && c1.id[v] == x;
          assert v in uuids && v in c.id;
        }
      }
    }
  }

  /**
   * Removing ids leaves a sibling callback on the same channel in place as long as none
   * of the removed ids belongs to it.
   */
  lemma RemoveIdsKeepsSibling(c: Callbacks, uuids: seq<string>, m: Mode, key: string, sibling: Callback)
    requires sibling in Targets(Some(c), m, key)
    requires forall u | u in uuids && u in c.id :: c.id[u] != sibling
    ensures sibling in Targets(Some(RemoveIds(c, uuids)), m, key)
  {
    RemoveIdsSpec(c, uuids);
  }

  /** Removing the id of a callback on a channel without `:` stops that callback firing there. */
  lemma RemoveIdsStopsOwner(c: Callbacks, uuids: seq<string>, m: Mode, ch: string, i: nat, rd: string)
    requires ':' !in ch
    requires SubId(m, ch, i, rd) in c.id && SubId(m, ch, i, rd) in uuids
    ensures c.id[SubId(m, ch, i, rd)] !in Targets(Some(RemoveIds(c, uuids)), m, ch)
    ensures SubId(m, ch, i, rd) !in RemoveIds(c, uuids).id
  {
    RemoveIdsSpec(c, uuids);
    SubIdTarget(m, ch, i, rd);
    assert c.id[SubId(m, ch, i, rd)] in RemovedCallbacks(c, uuids, m, ch);
  }

  /**
   * For a channel that contains `:`, `removeCb` parses the wrong channel out of the id:
   * the id is deleted but the callback stays in the channel's set and keeps firing.
   */
  lemma ColonChannelKeepsFiring(m: Mode, a: string, b: string, cb: Callback, rd: string)
    requires ':' !in a
    ensures var ch := a + ":" + b;
      var id := SubId(m, ch, 0, rd);
      var reg := Register(None, m, [ch], cb, rd);
      var after := RemoveIds(reg, [id]);
      && id in reg.id
      && id !in after.id
      && cb in Targets(Some(after), m, ch)
  {
    var ch := a + ":" + b;
    var id := SubId(m, ch, 0, rd);
    var reg := Register(None, m, [ch], cb, rd);
    RegisterIds(None, m, [ch], cb, rd);
    assert id == IdList(m, [ch], rd)[0];
    RegisterTargets(None, m, [ch], cb, rd, m, ch);
    SubIdTargetColon(m, a, b, 0, rd);
    assert a != ch by { assert |a| < |ch|; }
    RemoveIdsSpec(reg, [id]);
    assert RemovedCallbacks(reg, [id], m, ch) == {};
  }

  // ---------------------------------------------------------------------------
  // Channel teardown (`unsub` with `isRemoveCallback`)
  // ---------------------------------------------------------------------------

  function DropKey(t: Option<Table>, ch: string): Option<Table> {
    if t.Some? then Some(t.value - {ch}) else t
  }

  /**
   * What `unsub` deletes for one channel: every id containing `:channel:` (a substring
   * test, not a parse) and the channel's entries in both tables.
   */
  function PurgeChannel(c: Option<Callbacks>, channel: string): (r: Option<Callbacks>)
    ensures r.Some? == c.Some?
    ensures r.Some? ==> forall k :: k in r.value.id <==> k in c.value.id && !Contains(k, ":" + channel + ":")
    ensures r.Some? ==> forall k | k in r.value.id :: r.value.id[k] == c.value.id[k]
    ensures r.Some? ==> forall m: Mode :: TableOf(r.value, m) == DropKey(TableOf(c.value, m), channel)
  {
    if c.None? then c
    else
      var v := c.value;
      var pat := ":" + channel + ":";
      Some(Callbacks(map k | k in v.id && !Contains(k, pat) :: v.id[k], DropKey(v.text, channel), DropKey(v.buffer, channel)))
  }

  /** Purging a channel deletes every id registered for it. */
  lemma PurgeRemovesChannelIds(c: Callbacks, m: Mode, ch: string, i: nat, rd: string)
    ensures SubId(m, ch, i, rd) !in PurgeChannel(Some(c), ch).value.id
  {
    assert SubId(m, ch, i, rd) == ModeName(m) + (":" + ch + ":") + (NatToString(i) + ":" + rd);
    ContainsInfix(ModeName(m), ":" + ch + ":", NatToString(i) + ":" + rd);
  }

  /**
   * The substring test also hits other channels' ids: purging the channel named like a
   * position index (`"0"`, `"1"`, ...) deletes the id at that position of every call.
   */
  lemma PurgeHitsIndexField(c: Callbacks, m: Mode, other: string, i: nat, rd: string)
    ensures SubId(m, other, i, rd) !in PurgeChannel(Some(c), NatToString(i)).value.id
  {
    var n := NatToString(i);
    assert SubId(m, other, i, rd) == (ModeName(m) + ":" + other) + (":" + n + ":") + rd;
    ContainsInfix(ModeName(m) + ":" + other, ":" + n + ":", rd);
  }

  /** The loop of `unsub`: every listed channel purged in turn. */
  function PurgeAll(c: Option<Callbacks>, channels: seq<string>): Option<Callbacks>
    decreases |channels|
  {
    if channels == [] then c else PurgeAll(PurgeChannel(c, channels[0]), channels[1..])
  }

  /** A table without the entries of any of `channels`. */
  function DropKeys(t: Option<Table>, channels: seq<string>): Option<Table> {
    if t.Some? then Some(t.value - (set ch | ch in channels)) else t
  }

  /** After the loop both tables have lost exactly the listed channels' entries. */
  lemma {:induction false} PurgeAllTables(c: Option<Callbacks>, channels: seq<string>)
    ensures PurgeAll(c, channels).Some? == c.Some?
    ensures c.Some? ==> forall m: Mode :: TableOf(PurgeAll(c, channels).value, m) == DropKeys(TableOf(c.value, m), channels)
    decreases |channels|
  {
    if channels != [] {
      var c1 := PurgeChannel(c, channels[0]);
      PurgeAllTables(c1, channels[1..]);
      var all, rest := set ch | ch in channels, set ch | ch in channels[1..];
      assert all == {channels[0]} + rest by {
        assert forall ch :: ch in channels <==> ch == channels[0] || ch in channels[1..];
      }
      if c.Some? {
        forall m: Mode ensures TableOf(PurgeAll(c, channels).value, m) == DropKeys(TableOf(c.value, m), channels) {
          if TableOf(c.value, m).Some? {
            var t := TableOf(c.value, m).value;
            assert (t - {channels[0]}) - rest == t - all;
          }
        }
      }
    } else if c.Some? {
      forall m: Mode ensures TableOf(c.value, m) == DropKeys(TableOf(c.value, m), channels) {
        if TableOf(c.value, m).Some? {
          assert TableOf(c.value, m).value - (set ch | ch in channels) == TableOf(c.value, m).value;
        }
      }
    }
  }

  /** After the loop exactly the ids mentioning none of the channels are left, with their callbacks. */
  lemma {:induction false} PurgeAllIds(c: Option<Callbacks>, channels: seq<string>)
    requires c.Some?
    ensures var r := PurgeAll(c, channels);
      && r.Some?
      && (forall k :: k in r.value.id <==> k in c.value.id && forall ch | ch in channels :: !Contains(k, ":" + ch + ":"))
      && forall k | k in r.value.id :: r.value.id[k] == c.value.id[k]
    decreases |channels|
  {
    if channels != [] {
      var c1 := PurgeChannel(c, channels[0]);
      PurgeAllIds(c1, channels[1..]);
      assert forall ch :: ch in channels <==> ch == channels[0] || ch in channels[1..];
    }
  }

  /**
   * `unsub`'s emptiness test reads `.length` of the two tables. They are plain objects,
   * so `.length` is the set filed under the key `"length"`, which is truthy even when
   * empty: the test keeps the registry exactly when a table has that key.
   */
  predicate LengthKept(c: Option<Callbacks>) {
    c.Some? && exists m: Mode :: TableOf(c.value, m).Some? && "length" in TableOf(c.value, m).value
  }

  /** The registry `unsub` leaves when it removes callbacks: the purged one, or none. */
  function Teardown(c: Option<Callbacks>, channels: seq<string>): Option<Callbacks> {
    var p := PurgeAll(c, channels);
    if LengthKept(p) then p else None
  }

  /**
   * The registry survives `unsub` exactly when a table has a channel named `"length"`
   * that was not unsubscribed; it then keeps the callbacks of every channel not
   * unsubscribed, `"length"` included.
   */
  lemma TeardownKeeps(c: Option<Callbacks>, channels: seq<string>)
    ensures Teardown(c, channels).Some? <==> LengthKept(c) && "length" !in channels
    ensures Teardown(c, channels).Some? ==>
      forall m: Mode, key: string | key !in channels :: Targets(Teardown(c, channels), m, key) == Targets(c, m, key)
  {
    PurgeAllTables(c, channels);
  }

  /** The one table of a registry created by a single `_sub` holds exactly that call's channels. */
  lemma RegisterFreshKeys(m: Mode, channels: seq<string>, cb: Callback, rd: string)
    ensures var r := Register(None, m, channels, cb, rd);
      && (forall key :: key in TableOf(r, m).value <==> key in channels)
      && forall m': Mode | m' != m :: TableOf(r, m').None?
  {
    var p := Prepare(None, m);
    forall key ensures key in TableOf(Register(None, m, channels, cb, rd), m).value <==> key in channels {
      AddFromKey(p, m, channels, 0, cb, rd, key);
      if key in channels {
        var j :| 0 <= j < |channels| && channels[j] == key;
      }
    }
    forall m': Mode | m' != m ensures TableOf(Register(None, m, channels, cb, rd), m').None? {
      AddFromOther(p, m, channels, 0, cb, rd, m');
    }
  }
}

/** How the element constructors normalise their arguments. */
module ElementProps {
  import opened Wrappers
  import opened Strings

  /** JavaScript truthiness of an optional string: defined and not empty. */
  predicate Truthy(s: Option<string>) {
    s.Some? && s.value != ""
  }

  /**
   * `channel && channels.push(channel)`: the single `channel` is appended after the
   * `channels` list when it is truthy; otherwise the list is kept as given.
   */
  function MergeChannels(channels: seq<string>, channel: Option<string>): (r: seq<string>)
    ensures |r| == |channels| + (if Truthy(channel) then 1 else 0)
    ensures r[..|channels|] == channels
    ensures Truthy(channel) ==> r[|channels|] == channel.value
    ensures forall c :: c in r <==> c in channels || (Truthy(channel) && c == channel.value)
  {
    if Truthy(channel) then channels + [channel.value] else channels
  }

  /** What the name argument of a teardown-by-name element was: a string, a list, or anything else. */
  datatype NameArg = NameString(s: string) | NameList(names: seq<string>) | NameOther

  /** A string becomes a one-element list, a list is kept, anything else leaves the names undefined. */
  function NormaliseNames(arg: NameArg): (r: Option<seq<string>>)
    ensures arg.NameString? ==> r == Some([arg.s])
    ensures arg.NameList? ==> r == Some(arg.names)
    ensures arg.NameOther? <==> r.None?
  {
    match arg
    case NameString(s) => Some([s])
    case NameList(ns) => Some(ns)
    case NameOther => None
  }
}

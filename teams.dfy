/**
 * The team description that the outline parser builds from a note and that the Teams
 * script generator consumes (the MsTeamsTeam, MsTeamsChannel and MsTeamsOptions types of
 * src/types.d.ts and main.ts).
 */
module Teams {
  import opened Js

  /** An option value: a string, or a boolean that the script prints as `$true`/`$false`. */
  datatype OptionValue = Text(s: string) | Flag(b: bool)

  /** An options object, as its entries in insertion order; a key occurs at most once. */
  type Options = seq<(string, OptionValue)>

  /** `options[key]`: the value stored under `key`, if any. */
  function GetOption(opts: Options, key: string): (r: Option<OptionValue>)
    ensures r.None? <==> key !in Keys(opts)
    ensures r.Some? ==> (key, r.value) in opts
  {
    if opts == [] then None
    else if opts[0].0 == key then Some(opts[0].1)
    else GetOption(opts[1..], key)
  }

  /** `delete options[key]`: the other entries, in their order. */
  function DeleteOption(opts: Options, key: string): (r: Options)
    ensures key !in Keys(r)
    ensures forall e :: e in r <==> e in opts && e.0 != key
  {
    if opts == [] then []
    else if opts[0].0 == key then DeleteOption(opts[1..], key)
    else [opts[0]] + DeleteOption(opts[1..], key)
  }

  /** A channel object as plain data. */
  datatype ChannelValue = ChannelValue(displayName: string, description: string,
                                       membershipType: string, options: Options,
                                       owners: seq<string>, members: seq<string>)

  /** A channel object. Its `members` list is the one field the script generator
      overwrites in place. */
  class Channel {
    const displayName: string
    const description: string
    const membershipType: string
    const options: Options
    const owners: seq<string>
    var members: seq<string>

    constructor (v: ChannelValue)
      ensures Value() == v
    {
      displayName := v.displayName;
      description := v.description;
      membershipType := v.membershipType;
      options := v.options;
      owners := v.owners;
      members := v.members;
    }

    function Value(): ChannelValue
      reads this
    {
      ChannelValue(displayName, description, membershipType, options, owners, members)
    }
  }

  /** A team object; `id` is `None` where the source holds `undefined` or `null`. */
  datatype Team = Team(id: Option<string>, displayName: string, description: string,
                       options: Options, owners: seq<string>, members: seq<string>,
                       channels: seq<Channel>)

  /** A team object as plain data, its channels included. */
  datatype TeamValue = TeamValue(id: Option<string>, displayName: string, description: string,
                                 options: Options, owners: seq<string>, members: seq<string>,
                                 channels: seq<ChannelValue>)

  function ChannelValues(cs: seq<Channel>): (r: seq<ChannelValue>)
    reads set c | c in cs
    ensures |r| == |cs| && forall i :: 0 <= i < |cs| ==> r[i] == cs[i].Value()
  {
    if cs == [] then [] else [cs[0].Value()] + ChannelValues(cs[1..])
  }

  function TeamValueOf(t: Team): (r: TeamValue)
    reads set c | c in t.channels
    ensures r.channels == ChannelValues(t.channels)
  {
    TeamValue(t.id, t.displayName, t.description, t.options, t.owners, t.members,
              ChannelValues(t.channels))
  }
}

/**
 * The Microsoft Teams script generator (src/msteams.ts, and its older copy in main.ts): the
 * PowerShell script that creates or updates a team, its options, its members and owners and
 * its channels, and the reading of the script's output.
 *
 * The two copies differ only in how an argument is quoted (`pssavpar`): src/powershell.ts
 * embeds the Base64 of the UTF-8 bytes, main.ts doubles the double quotes. Both are a
 * `quote` parameter here.
 */
module MsTeams {
  import opened Js
  import opened Teams
  import opened PowerShell

  /** The line the script prints last but one; its presence in the output means success. */
  const SuccessMessage: string := "DONE with creating/updating team:"

  /** Quoting never brings in a line break the value did not have. */
  ghost predicate LineSafe(quote: string -> string) {
    forall value :: Lacks(value, '\n') ==> Lacks(quote(value), '\n')
  }

  /** Every quoted value is a single word: no space and no line break in it. */
  ghost predicate WordSafe(quote: string -> string) {
    forall value :: Lacks(quote(value), ' ') && Lacks(quote(value), '\n')
  }

  /** The Base64 quoting of src/powershell.ts gives single words. */
  lemma PssavparSafe()
    ensures WordSafe(Pssavpar) && LineSafe(Pssavpar)
  {
    forall value ensures Lacks(Pssavpar(value), ' ') && Lacks(Pssavpar(value), '\n') {
      PssavparSeparatorFree(value);
    }
  }

  /** The quote doubling of main.ts keeps line breaks out. */
  lemma QuotedPssavparSafe()
    ensures LineSafe(QuotedPssavpar)
  {
    forall value | Lacks(value, '\n') ensures Lacks(QuotedPssavpar(value), '\n') {
      QuotedPssavparLacks(value, '\n');
    }
  }

  /** A `string | null` argument used in a condition: `null` and `""` are falsy. */
  predicate Truthy(channel: Option<string>) {
    channel.Some? && channel.value != ""
  }

  /** How a template literal prints a `string | null`. */
  function Shown(channel: Option<string>): string {
    match channel case None => "null" case Some(s) => s
  }

  // ---------------------------------------------------------------- updateOptions

  /** The printed form of an option value. */
  function OptionArgument(quote: string -> string, v: OptionValue): string {
    match v
    case Text(s) => quote(s)
    case Flag(b) => if b then "$true" else "$false"
  }

  /** `Object.entries(options).map(([k, v]) => `-${k} ${…}`)`. */
  function OptionArguments(quote: string -> string, opts: Options): (r: seq<string>)
    ensures |r| == |opts|
    ensures forall i :: 0 <= i < |opts| ==> r[i] == "-" + opts[i].0 + " " + OptionArgument(quote, opts[i].1)
  {
    if opts == [] then [] else ["-" + opts[0].0 + " " + OptionArgument(quote, opts[0].1)] + OptionArguments(quote, opts[1..])
  }

  /** The words before the entries: the command, `-GroupId $id` and, for a channel,
      `-CurrentDisplayName` with the quoted channel name. */
  function OptionHead(quote: string -> string, channel: Option<string>): (r: seq<string>)
    ensures |r| == if Truthy(channel) then 5 else 3
  {
    if Truthy(channel) then ["Set-Team" + "Channel", "-GroupId", "$id", "-CurrentDisplayName", quote(channel.value)]
    else ["Set-Team", "-GroupId", "$id"]
  }

  /** The `Set-Team` (or, for a channel, `Set-TeamChannel`) line, its words separated by
      single spaces; empty without options. */
  function UpdateOptions(quote: string -> string, opts: Options, channel: Option<string>): (r: string)
    ensures r == "" <==> opts == []
  {
    if opts == [] then ""
    else Join(OptionHead(quote, channel) + [Join(OptionArguments(quote, opts), " ")], " ")
  }

  /** The words of the entries: the `-key` and the value of every entry, in order. */
  function OptionWords(quote: string -> string, opts: Options): (r: seq<string>)
    ensures |r| == 2 * |opts|
    ensures forall i :: 0 <= i < |opts| ==>
              r[2 * i] == "-" + opts[i].0 && r[2 * i + 1] == OptionArgument(quote, opts[i].1)
  {
    if opts == [] then [] else ["-" + opts[0].0, OptionArgument(quote, opts[0].1)] + OptionWords(quote, opts[1..])
  }

  lemma {:induction false} JoinOptionArguments(quote: string -> string, opts: Options)
    requires opts != []
    ensures Join(OptionArguments(quote, opts), " ") == Join(OptionWords(quote, opts), " ")
  {
    var k, v := "-" + opts[0].0, OptionArgument(quote, opts[0].1);
    var rest := opts[1..];
    if |opts| == 1 {
      assert OptionArguments(quote, opts) == [k + " " + v];
      assert OptionWords(quote, opts) == [k, v];
      JoinPair(k, v, " ");
    } else {
      JoinOptionArguments(quote, rest);
      assert OptionArguments(quote, opts) == [k + " " + v] + OptionArguments(quote, rest);
      JoinCons(k + " " + v, OptionArguments(quote, rest), " ");
      assert OptionWords(quote, opts) == [k, v] + OptionWords(quote, rest);
      JoinAppend([k, v], OptionWords(quote, rest), " ");
      JoinPair(k, v, " ");
    }
  }

  lemma JoinPair(a: string, b: string, sep: string)
    ensures Join([a, b], sep) == a + sep + b
  {
    assert [a, b][1..] == [b];
  }

  lemma {:induction false} OptionWordsSpaceFree(quote: string -> string, opts: Options)
    requires WordSafe(quote)
    requires forall i :: 0 <= i < |opts| ==> Lacks(opts[i].0, ' ')
    ensures forall i :: 0 <= i < |OptionWords(quote, opts)| ==> Lacks(OptionWords(quote, opts)[i], ' ')
  {
    var w := OptionWords(quote, opts);
    forall i | 0 <= i < |w| ensures Lacks(w[i], ' ') {
      var j := i / 2;
      assert 0 <= j < |opts|;
      if i % 2 == 0 {
        assert i == 2 * j;
        assert w[2 * j] == "-" + opts[j].0;
        LacksConcat("-", opts[j].0, ' ');
      } else {
        assert i == 2 * j + 1;
        assert w[2 * j + 1] == OptionArgument(quote, opts[j].1);
      }
    }
  }

  lemma OptionHeadSpaceFree(quote: string -> string, channel: Option<string>)
    requires WordSafe(quote)
    ensures forall i :: 0 <= i < |OptionHead(quote, channel)| ==> Lacks(OptionHead(quote, channel)[i], ' ')
  {
    if Truthy(channel) {
      LacksConcat("Set-Team", "Channel", ' ');
    }
  }

  /** With a quoting that gives single words (the Base64 one, see `PssavparSafe`) and keys
      without spaces, the option line splits on spaces into the command, `-GroupId $id`, the
      channel's `-CurrentDisplayName` and then `-key value` for every entry in order: the
      entries can be read back from the line. */
  lemma OptionLineWords(quote: string -> string, opts: Options, channel: Option<string>)
    requires WordSafe(quote)
    requires opts != []
    requires forall i :: 0 <= i < |opts| ==> Lacks(opts[i].0, ' ')
    ensures Split(UpdateOptions(quote, opts, channel), " ")
            == OptionHead(quote, channel) + OptionWords(quote, opts)
  {
    var head := OptionHead(quote, channel);
    var words := OptionWords(quote, opts);
    calc {
      Split(UpdateOptions(quote, opts, channel), " ");
      Split(Join(head + [Join(OptionArguments(quote, opts), " ")], " "), " ");
      { JoinOptionArguments(quote, opts); }
      Split(Join(head + [Join(words, " ")], " "), " ");
      { SplitAroundLast(head, words, ' '); }
      SplitAll(head, " ") + SplitAll(words, " ");
      { OptionWordsWhole(quote, opts, channel); }
      head + words;
    }
  }

  /** The words of the option line contain no space, so splitting leaves each whole. */
  lemma OptionWordsWhole(quote: string -> string, opts: Options, channel: Option<string>)
    requires WordSafe(quote)
    requires forall i :: 0 <= i < |opts| ==> Lacks(opts[i].0, ' ')
    ensures SplitAll(OptionHead(quote, channel), " ") == OptionHead(quote, channel)
    ensures SplitAll(OptionWords(quote, opts), " ") == OptionWords(quote, opts)
  {
    OptionWordsSpaceFree(quote, opts);
    OptionHeadSpaceFree(quote, channel);
    SplitAllLacking(OptionHead(quote, channel), ' ');
    SplitAllLacking(OptionWords(quote, opts), ' ');
  }

  // ---------------------------------------------------------------- updateUsers

  /** The ` -Role 'Owner'` argument, given only for the role "Owner". */
  function RoleArgument(role: string): (r: string)
    ensures r != "" <==> role == "Owner"
    ensures r != "" ==> r == " -Role 'Owner'"
  {
    if role == "Owner" then " -Role '" + role + "'" else ""
  }

  /** "Channel" in the cmdlet names when a channel is given. */
  function CmdSuffix(channel: Option<string>): string {
    if Truthy(channel) then "Channel" else ""
  }

  /** The ` -DisplayName` argument naming the channel, when one is given. */
  function ChannelArgument(quote: string -> string, channel: Option<string>): string {
    if Truthy(channel) then " -DisplayName " + quote(channel.value) else ""
  }

  function UsersHeader(role: string, channel: Option<string>): string {
    "\"--- Update " + CmdSuffix(channel) + " users (" + role + ") for " + Shown(channel) + " ---\""
  }

  function OldsLine(quote: string -> string, role: string, channel: Option<string>): string {
    "$olds = (Get-Team" + CmdSuffix(channel) + "User -GroupID $id" + ChannelArgument(quote, channel)
      + " " + RoleArgument(role) + ").User"
  }

  const NewsInit: string := "$news = [System.Collections.ArrayList]@()"

  /** The loop that adds everyone in the new list who is not yet in the old one. */
  function AddLoop(quote: string -> string, role: string, channel: Option<string>): string {
    "foreach ($it in $news) { " + "if ($olds -notcontains $it) { Add-Team" + CmdSuffix(channel)
      + "User -GroupID $id" + ChannelArgument(quote, channel) + " -User $it" + RoleArgument(role) + " } }"
  }

  /** The loop that removes everyone in the old list who is no longer in the new one. */
  function RemoveLoop(quote: string -> string, role: string, channel: Option<string>): string {
    "foreach ($it in $olds) { " + "if ($news -notcontains $it) { Remove-Team" + CmdSuffix(channel)
      + "User -GroupID $id" + ChannelArgument(quote, channel) + " -User $it" + RoleArgument(role) + " } }"
  }

  /** `users.map(user => `$news.Add('${user}')`)`. */
  function UserAdds(users: seq<string>): (r: seq<string>)
    ensures |r| == |users| && forall i :: 0 <= i < |users| ==> r[i] == "$news.Add('" + users[i] + "')"
  {
    if users == [] then [] else ["$news.Add('" + users[0] + "')"] + UserAdds(users[1..])
  }

  /** The script block that makes the members (or owners) of the team, or of a channel, be
      exactly `users`: six template lines, the fourth holding the `$news.Add` lines. */
  function UpdateUsers(quote: string -> string, users: seq<string>, role: string, channel: Option<string>): (r: string)
  {
    Join([UsersHeader(role, channel), OldsLine(quote, role, channel), NewsInit,
          Join(UserAdds(users), "\n"), AddLoop(quote, role, channel), RemoveLoop(quote, role, channel)], "\n")
  }

  /** The `$news.Add` lines, or the one empty line an empty user list leaves. */
  function AddLines(users: seq<string>): (r: seq<string>)
    ensures |r| == if users == [] then 1 else |users|
    ensures users == [] ==> r == [""]
    ensures forall i :: 0 <= i < |users| ==> r[i] == "$news.Add('" + users[i] + "')"
  {
    if users == [] then [""] else UserAdds(users)
  }

  /** The block read line by line: the header, the old list, the new list's creation, one
      `$news.Add('user')` line per user in order (an empty line for no users), and the add
      and remove loops, whose role argument is ` -Role 'Owner'` for owners and nothing
      otherwise. */
  lemma UpdateUsersLines(quote: string -> string, users: seq<string>, role: string, channel: Option<string>)
    requires LineSafe(quote)
    requires Lacks(role, '\n')
    requires channel.Some? ==> Lacks(channel.value, '\n')
    requires forall i :: 0 <= i < |users| ==> Lacks(users[i], '\n')
    ensures Split(UpdateUsers(quote, users, role, channel), "\n")
            == [UsersHeader(role, channel), OldsLine(quote, role, channel), NewsInit]
               + AddLines(users) + [AddLoop(quote, role, channel), RemoveLoop(quote, role, channel)]
  {
    var h, o, n := UsersHeader(role, channel), OldsLine(quote, role, channel), NewsInit;
    var a, r := AddLoop(quote, role, channel), RemoveLoop(quote, role, channel);
    var adds := AddLines(users);
    UsersBlockLinesFree(quote, role, channel);
    AddLinesFree(users);
    calc {
      Split(UpdateUsers(quote, users, role, channel), "\n");
      { assert Join(UserAdds(users), "\n") == Join(adds, "\n"); }
      Split(Join([h, o, n, Join(adds, "\n"), a, r], "\n"), "\n");
      { SplitNested([h, o, n], adds, [a, r], '\n'); }
      SplitAll([h, o, n], "\n") + SplitAll(adds, "\n") + SplitAll([a, r], "\n");
      { SplitAllLacking([h, o, n], '\n'); SplitAllLacking(adds, '\n'); SplitAllLacking([a, r], '\n'); }
      [h, o, n] + adds + [a, r];
    }
  }

  lemma AddLinesFree(users: seq<string>)
    requires forall i :: 0 <= i < |users| ==> Lacks(users[i], '\n')
    ensures forall i :: 0 <= i < |AddLines(users)| ==> Lacks(AddLines(users)[i], '\n')
  {
    forall i | 0 <= i < |users| ensures Lacks(AddLines(users)[i], '\n') {
      LacksConcat("$news.Add('", users[i], '\n');
      LacksConcat("$news.Add('" + users[i], "')", '\n');
    }
  }

  lemma UsersBlockLinesFree(quote: string -> string, role: string, channel: Option<string>)
    requires LineSafe(quote)
    requires Lacks(role, '\n')
    requires channel.Some? ==> Lacks(channel.value, '\n')
    ensures Lacks(UsersHeader(role, channel), '\n') && Lacks(OldsLine(quote, role, channel), '\n')
    ensures Lacks(NewsInit, '\n')
    ensures Lacks(AddLoop(quote, role, channel), '\n') && Lacks(RemoveLoop(quote, role, channel), '\n')
  {
    ArgumentsFree(quote, role, channel);
    HeaderFree(role, channel);
    OldsFree(quote, role, channel);
    NewsInitFree();
    AddLoopFree(CmdSuffix(channel), ChannelArgument(quote, channel), RoleArgument(role));
    RemoveLoopFree(CmdSuffix(channel), ChannelArgument(quote, channel), RoleArgument(role));
  }

  lemma ArgumentsFree(quote: string -> string, role: string, channel: Option<string>)
    requires LineSafe(quote)
    requires channel.Some? ==> Lacks(channel.value, '\n')
    ensures Lacks(CmdSuffix(channel), '\n') && Lacks(RoleArgument(role), '\n')
    ensures Lacks(ChannelArgument(quote, channel), '\n') && Lacks(Shown(channel), '\n')
  {
    ChannelArgumentFree(quote, channel);
  }

  lemma ChannelArgumentFree(quote: string -> string, channel: Option<string>)
    requires LineSafe(quote)
    requires channel.Some? ==> Lacks(channel.value, '\n')
    ensures Lacks(ChannelArgument(quote, channel), '\n')
  {
    if Truthy(channel) {
      var quoted := quote(channel.value);
      LacksConcat(" -DisplayName ", quoted, '\n');
    }
  }

  lemma HeaderFree(role: string, channel: Option<string>)
    requires Lacks(role, '\n') && Lacks(CmdSuffix(channel), '\n') && Lacks(Shown(channel), '\n')
    ensures Lacks(UsersHeader(role, channel), '\n')
  {
    var c := CmdSuffix(channel);
    LacksConcat5("\"--- Update ", c, " users (", role, ") for ", '\n');
    LacksConcat3("\"--- Update " + c + " users (" + role + ") for ", Shown(channel), " ---\"", '\n');
  }

  lemma OldsFree(quote: string -> string, role: string, channel: Option<string>)
    requires Lacks(CmdSuffix(channel), '\n') && Lacks(RoleArgument(role), '\n')
    requires Lacks(ChannelArgument(quote, channel), '\n')
    ensures Lacks(OldsLine(quote, role, channel), '\n')
  {
    var c, g, ra := CmdSuffix(channel), ChannelArgument(quote, channel), RoleArgument(role);
    LacksConcat5("$olds = (Get-Team", c, "User -GroupID $id", g, " ", '\n');
    LacksConcat3("$olds = (Get-Team" + c + "User -GroupID $id" + g + " ", ra, ").User", '\n');
  }

  lemma NewsInitFree()
    ensures Lacks(NewsInit, '\n')
  {
  }

  lemma AddLoopFree(c: string, g: string, ra: string)
    requires Lacks(c, '\n') && Lacks(g, '\n') && Lacks(ra, '\n')
    ensures Lacks("foreach ($it in $news) { " + "if ($olds -notcontains $it) { Add-Team" + c
                  + "User -GroupID $id" + g + " -User $it" + ra + " } }", '\n')
  {
    var a, b := "foreach ($it in $news) { ", "if ($olds -notcontains $it) { Add-Team";
    assert Lacks(a, '\n');
    assert Lacks(b, '\n');
    LacksConcat5(a, b, c, "User -GroupID $id", g, '\n');
    LacksConcat3(a + b + c + "User -GroupID $id" + g, " -User $it", ra, '\n');
    LacksConcat(a + b + c + "User -GroupID $id" + g + " -User $it" + ra, " } }", '\n');
  }

  lemma RemoveLoopFree(c: string, g: string, ra: string)
    requires Lacks(c, '\n') && Lacks(g, '\n') && Lacks(ra, '\n')
    ensures Lacks("foreach ($it in $olds) { " + "if ($news -notcontains $it) { Remove-Team" + c
                  + "User -GroupID $id" + g + " -User $it" + ra + " } }", '\n')
  {
    var a, b := "foreach ($it in $olds) { ", "if ($news -notcontains $it) { Remove-Team";
    assert Lacks(a, '\n');
    assert Lacks(b, '\n');
    LacksConcat5(a, b, c, "User -GroupID $id", g, '\n');
    LacksConcat3(a + b + c + "User -GroupID $id" + g, " -User $it", ra, '\n');
    LacksConcat(a + b + c + "User -GroupID $id" + g + " -User $it" + ra, " } }", '\n');
  }

  lemma LacksConcat3(a: string, b: string, c: string, ch: char)
    requires Lacks(a, ch) && Lacks(b, ch) && Lacks(c, ch)
    ensures Lacks(a + b + c, ch)
  {
    LacksConcat(a, b, ch);
    LacksConcat(a + b, c, ch);
  }

  lemma LacksConcat5(a: string, b: string, c: string, d: string, e: string, ch: char)
    requires Lacks(a, ch) && Lacks(b, ch) && Lacks(c, ch) && Lacks(d, ch) && Lacks(e, ch)
    ensures Lacks(a + b + c + d + e, ch)
  {
    LacksConcat3(a, b, c, ch);
    LacksConcat3(a + b + c, d, e, ch);
  }

  /** Splitting lines `xs`, a block of lines `ys` joined into one, and lines `zs`. */
  lemma SplitNested(xs: seq<string>, ys: seq<string>, zs: seq<string>, ch: char)
    requires |xs| == 3 && |ys| > 0 && |zs| == 2
    ensures Split(Join([xs[0], xs[1], xs[2], Join(ys, [ch]), zs[0], zs[1]], [ch]), [ch])
            == SplitAll(xs, [ch]) + SplitAll(ys, [ch]) + SplitAll(zs, [ch])
  {
    var j := Join(ys, [ch]);
    var all := [xs[0], xs[1], xs[2], j, zs[0], zs[1]];
    calc {
      Split(Join(all, [ch]), [ch]);
      { SplitJoinAll(all, ch); }
      SplitAll(all, [ch]);
      { assert all == xs + [j] + zs; }
      SplitAll(xs + [j] + zs, [ch]);
      { SplitAllAppend(xs + [j], zs, [ch]); }
      SplitAll(xs + [j], [ch]) + SplitAll(zs, [ch]);
      { SplitAllAppend(xs, [j], [ch]); SplitAllOne(j, [ch]); }
      SplitAll(xs, [ch]) + Split(j, [ch]) + SplitAll(zs, [ch]);
      { SplitJoinAll(ys, ch); }
      SplitAll(xs, [ch]) + SplitAll(ys, [ch]) + SplitAll(zs, [ch]);
    }
  }

  lemma SplitAllOne(x: string, sep: string)
    requires |sep| > 0
    ensures SplitAll([x], sep) == Split(x, sep)
  {
    assert SplitAll([x], sep) == Split(x, sep) + SplitAll([], sep);
  }

  // ---------------------------------------------------------------- updateChannels

  /** A channel after `ch.members = [...new Set([...ch.members, ...ch.owners])]`. */
  function Refreshed(v: ChannelValue): (r: ChannelValue)
    ensures r.(members := v.members) == v
    ensures forall u :: u in r.members <==> u in v.members || u in v.owners
    ensures NoDuplicates(r.members)
  {
    v.(members := Dedupe(v.members + v.owners))
  }

  /** Refreshing twice is refreshing once, so a channel listed twice ends up the same. */
  lemma RefreshedIdempotent(v: ChannelValue)
    ensures Refreshed(Refreshed(v)) == Refreshed(v)
  {
    DedupeAbsorbs(Dedupe(v.members + v.owners), v.owners);
  }

  function RefreshedAll(vs: seq<ChannelValue>): (r: seq<ChannelValue>)
    ensures |r| == |vs| && forall i :: 0 <= i < |vs| ==> r[i] == Refreshed(vs[i])
  {
    if vs == [] then [] else [Refreshed(vs[0])] + RefreshedAll(vs[1..])
  }

  /** The six script fragments the source builds for one channel: creation, type,
      description, options, and the member and owner blocks. */
  datatype ChannelParts = ChannelParts(create: string, kind: string, description: string,
                                       options: string, members: string, owners: string)

  /** The fragments of one (refreshed) channel; only private (non-"Standard") channels get
      member and owner blocks. */
  function ChannelFragments(quote: string -> string, v: ChannelValue): (r: ChannelParts)
    ensures r.members == "" <==> v.membershipType == "Standard"
    ensures r.owners == "" <==> v.membershipType == "Standard"
    ensures r.options == "" <==> v.options == []
  {
    var name := quote(v.displayName);
    var private := v.membershipType != "Standard";
    ChannelParts("$news.Add(" + name + ")",
                 "$types.Add(" + name + ", '" + v.membershipType + "')",
                 "$descriptions.Add(" + name + ", " + quote(v.description) + ")",
                 UpdateOptions(quote, v.options, Some(v.displayName)),
                 if private then UpdateUsers(quote, v.members, "Member", Some(v.displayName)) else "",
                 if private then UpdateUsers(quote, v.owners, "Owner", Some(v.displayName)) else "")
  }

  /** The `k`-th fragment. */
  function Part(p: ChannelParts, k: nat): string
    requires k < 6
  {
    match k
    case 0 => p.create
    case 1 => p.kind
    case 2 => p.description
    case 3 => p.options
    case 4 => p.members
    case _ => p.owners
  }

  /** `data.map(d => d[k])`. */
  function Column(data: seq<ChannelParts>, k: nat): (r: seq<string>)
    requires k < 6
    ensures |r| == |data| && forall i :: 0 <= i < |data| ==> r[i] == Part(data[i], k)
  {
    if data == [] then [] else [Part(data[0], k)] + Column(data[1..], k)
  }

  const ChannelsHeader: string := "\"--- Update channels ---\""
  const ChannelsOlds: string := "$olds = (Get-TeamChannel " + "-GroupID $Id).DisplayName"
  const CreateLoop: string :=
    "foreach ($it in $news) { " + "if ($olds -notcontains $it) { " + "New-TeamChannel -GroupID $id "
    + "-DisplayName $it -MembershipType $types[$it] " + "-Description $descriptions[$it] ; } }"

  /** The channel block: twelve template lines, six of them the fragment columns; the
      fourth line holds the `$news.Add` fragments. */
  function ChannelsBlock(data: seq<ChannelParts>): string {
    Join([ChannelsHeader, ChannelsOlds, NewsInit] + [Join(Column(data, 0), "\n")] + ChannelsBlockRest(data), "\n")
  }

  /** The last eight template lines of the channel block. */
  function ChannelsBlockRest(data: seq<ChannelParts>): seq<string> {
    ["$types = @{}", Join(Column(data, 1), "\n"), "$descriptions = @{}",
     Join(Column(data, 2), "\n"), CreateLoop,
     Join(Column(data, 3), "\n"), Join(Column(data, 4), "\n"), Join(Column(data, 5), "\n")]
  }

  /** The callback given to `channels.map`. */
  function Fragmenter(quote: string -> string): ChannelValue -> ChannelParts {
    v => ChannelFragments(quote, v)
  }

  /** `channels.map(...)` building each channel's fragments. */
  function FragmentsOf(quote: string -> string, vs: seq<ChannelValue>): (r: seq<ChannelParts>)
    ensures |r| == |vs|
  {
    MapSeq(Fragmenter(quote), vs)
  }

  /** The `i`-th fragments are those of the `i`-th channel. */
  lemma FragmentsOfAt(quote: string -> string, vs: seq<ChannelValue>, i: nat)
    requires i < |vs|
    ensures FragmentsOf(quote, vs)[i] == ChannelFragments(quote, vs[i])
  {
    MapSeqAt(Fragmenter(quote), vs, i);
  }

  /** What `updateChannels` returns for channels whose values (after the refresh) are `vs`:
      nothing without channels. */
  function ChannelsScript(quote: string -> string, vs: seq<ChannelValue>): (r: string)
    ensures r == "" <==> vs == []
  {
    if vs == [] then "" else ChannelsBlock(FragmentsOf(quote, vs))
  }

  /** The block starts with three fixed lines and then one `$news.Add(name)` line per
      channel, in the order of the channels: the channels are created in that order. */
  lemma ChannelsScriptCreationLines(quote: string -> string, vs: seq<ChannelValue>)
    requires LineSafe(quote)
    requires vs != []
    requires forall i :: 0 <= i < |vs| ==> Lacks(vs[i].displayName, '\n')
    ensures var lines := Split(ChannelsScript(quote, vs), "\n");
            && |lines| > 3 + |vs|
            && lines[..3] == [ChannelsHeader, ChannelsOlds, NewsInit]
            && forall i :: 0 <= i < |vs| ==> lines[3 + i] == "$news.Add(" + quote(vs[i].displayName) + ")"
  {
    var data := FragmentsOf(quote, vs);
    var fixed := [ChannelsHeader, ChannelsOlds, NewsInit];
    var creates := Column(data, 0);
    var rest := ChannelsBlockRest(data);
    ChannelsFixedFree();
    CreateColumn(quote, vs);
    CreatesFree(quote, vs, creates);
    var lines := Split(ChannelsScript(quote, vs), "\n");
    calc {
      lines;
      Split(Join(fixed + [Join(creates, "\n")] + rest, "\n"), "\n");
      { SplitAround3(fixed, creates, rest, '\n'); }
      SplitAll(fixed, "\n") + SplitAll(creates, "\n") + SplitAll(rest, "\n");
      { SplitAllLacking(fixed, '\n'); SplitAllLacking(creates, '\n'); }
      fixed + creates + SplitAll(rest, "\n");
    }
    LinesShape(lines, fixed, creates, SplitAll(rest, "\n"));
  }

  /** Reading back lines made of a prefix, a block and a non-empty rest. */
  lemma LinesShape(lines: seq<string>, fixed: seq<string>, block: seq<string>, rest: seq<string>)
    requires lines == fixed + block + rest && |rest| > 0
    ensures |lines| > |fixed| + |block|
    ensures lines[..|fixed|] == fixed
    ensures forall i :: 0 <= i < |block| ==> lines[|fixed| + i] == block[i]
  {
  }

  lemma ChannelsFixedFree()
    ensures forall i :: 0 <= i < 3 ==> Lacks([ChannelsHeader, ChannelsOlds, NewsInit][i], '\n')
  {
    NewsInitFree();
    assert Lacks("$olds = (Get-TeamChannel ", '\n');
    assert Lacks("-GroupID $Id).DisplayName", '\n');
    LacksConcat("$olds = (Get-TeamChannel ", "-GroupID $Id).DisplayName", '\n');
  }

  /** The creation column holds `$news.Add(name)` for every channel. */
  lemma CreateColumn(quote: string -> string, vs: seq<ChannelValue>)
    ensures |Column(FragmentsOf(quote, vs), 0)| == |vs|
    ensures forall i :: 0 <= i < |vs| ==>
              Column(FragmentsOf(quote, vs), 0)[i] == "$news.Add(" + quote(vs[i].displayName) + ")"
  {
    forall i | 0 <= i < |vs|
      ensures Column(FragmentsOf(quote, vs), 0)[i] == "$news.Add(" + quote(vs[i].displayName) + ")"
    {
      FragmentsOfAt(quote, vs, i);
    }
  }

  lemma CreatesFree(quote: string -> string, vs: seq<ChannelValue>, creates: seq<string>)
    requires LineSafe(quote)
    requires forall i :: 0 <= i < |vs| ==> Lacks(vs[i].displayName, '\n')
    requires |creates| == |vs|
    requires forall i :: 0 <= i < |vs| ==> creates[i] == "$news.Add(" + quote(vs[i].displayName) + ")"
    ensures forall i :: 0 <= i < |creates| ==> Lacks(creates[i], '\n')
  {
    forall i | 0 <= i < |vs| ensures Lacks(creates[i], '\n') {
      var name := quote(vs[i].displayName);
      LacksConcat3("$news.Add(", name, ")", '\n');
    }
  }

  /** Splitting words `xs` followed by a block of words `ys` joined into one. */
  lemma SplitAroundLast(xs: seq<string>, ys: seq<string>, ch: char)
    requires |ys| > 0
    ensures Split(Join(xs + [Join(ys, [ch])], [ch]), [ch]) == SplitAll(xs, [ch]) + SplitAll(ys, [ch])
  {
    SplitAround3(xs, ys, [], ch);
    assert xs + [Join(ys, [ch])] + [] == xs + [Join(ys, [ch])];
  }

  /** Splitting lines `xs`, a block of lines `ys` joined into one, and lines `zs`. */
  lemma SplitAround3(xs: seq<string>, ys: seq<string>, zs: seq<string>, ch: char)
    requires |ys| > 0
    ensures Split(Join(xs + [Join(ys, [ch])] + zs, [ch]), [ch])
            == SplitAll(xs, [ch]) + SplitAll(ys, [ch]) + SplitAll(zs, [ch])
  {
    var j := Join(ys, [ch]);
    calc {
      Split(Join(xs + [j] + zs, [ch]), [ch]);
      { SplitJoinAll(xs + [j] + zs, ch); }
      SplitAll(xs + [j] + zs, [ch]);
      { SplitAllAppend(xs + [j], zs, [ch]); }
      SplitAll(xs + [j], [ch]) + SplitAll(zs, [ch]);
      { SplitAllAppend(xs, [j], [ch]); SplitAllOne(j, [ch]); }
      SplitAll(xs, [ch]) + Split(j, [ch]) + SplitAll(zs, [ch]);
      { SplitJoinAll(ys, ch); }
      SplitAll(xs, [ch]) + SplitAll(ys, [ch]) + SplitAll(zs, [ch]);
    }
  }

  /** `updateChannels`: refreshes every channel's member list in place and returns the
      channel block built from the refreshed channels. A channel listed twice is refreshed
      twice, which leaves it as refreshed once. */
  method UpdateChannels(quote: string -> string, channels: seq<Channel>) returns (script: string)
    modifies set c | c in channels
    ensures forall i :: 0 <= i < |channels| ==> channels[i].Value() == Refreshed(old(channels[i].Value()))
    ensures script == ChannelsScript(quote, RefreshedAll(old(ChannelValues(channels))))
  {
    if |channels| == 0 {
      return "";
    }
    var data := RefreshEach(channels, Fragmenter(quote));
    script := ChannelsBlock(data);
  }

  /** The `channels.map` of `updateChannels`: each channel in turn gets its owners merged
      into its members, in place, and is then turned into a result by `f`. */
  method RefreshEach<R>(channels: seq<Channel>, f: ChannelValue -> R) returns (data: seq<R>)
    modifies set c | c in channels
    ensures forall i :: 0 <= i < |channels| ==> channels[i].Value() == Refreshed(old(channels[i].Value()))
    ensures data == MapSeq(f, RefreshedAll(old(ChannelValues(channels))))
  {
    ghost var before := ChannelValues(channels);
    data := [];
    var i := 0;
    while i < |channels|
      invariant 0 <= i <= |channels|
      invariant forall j, k :: 0 <= j < |channels| && 0 <= k < |channels| && channels[j] == channels[k] ==> before[j] == before[k]
      invariant forall j :: 0 <= j < i ==> channels[j].Value() == Refreshed(before[j])
      invariant forall j :: i <= j < |channels| ==>
                  channels[j].Value() == before[j] || channels[j].Value() == Refreshed(before[j])
      invariant data == MapSeq(f, RefreshedAll(before[..i]))
    {
      MergeOwners(channels, i, before);
      var r := f(channels[i].Value());
      MapStep(f, before, i, data, r);
      data := data + [r];
      i := i + 1;
    }
    assert before[..i] == before;
  }

  /** The first statement of the callback, on the `i`-th channel: its members become the
      distinct members and owners. Every entry of `channels` holding the same object sees
      the change; the channels before `i` stay refreshed and the later ones stay either
      untouched or refreshed. */
  method MergeOwners(channels: seq<Channel>, i: nat, ghost before: seq<ChannelValue>)
    requires i < |channels| == |before|
    requires forall j, k :: 0 <= j < |channels| && 0 <= k < |channels| && channels[j] == channels[k] ==> before[j] == before[k]
    requires forall j :: 0 <= j < i ==> channels[j].Value() == Refreshed(before[j])
    requires forall j :: i <= j < |channels| ==>
               channels[j].Value() == before[j] || channels[j].Value() == Refreshed(before[j])
    modifies channels[i]
    ensures forall j :: 0 <= j <= i ==> channels[j].Value() == Refreshed(before[j])
    ensures forall j :: i < j < |channels| ==>
              channels[j].Value() == before[j] || channels[j].Value() == Refreshed(before[j])
  {
    var ch := channels[i];
    RefreshedStable(before[i], ch.Value());
    ch.members := Dedupe(ch.members + ch.owners);
    forall j | 0 <= j < |channels| && channels[j] != ch
      ensures channels[j].Value() == old(channels[j].Value())
    {
    }
  }

  /** A value refreshed zero or one times refreshes to the same value. */
  lemma RefreshedStable(v: ChannelValue, w: ChannelValue)
    requires w == v || w == Refreshed(v)
    ensures Refreshed(w) == Refreshed(v)
  {
    RefreshedIdempotent(v);
  }

  /** One step of the map: the result for the refreshed `before[i]` extends those for the
      first `i` channels. */
  lemma MapStep<R>(f: ChannelValue -> R, before: seq<ChannelValue>, i: nat, data: seq<R>, r: R)
    requires i < |before|
    requires data == MapSeq(f, RefreshedAll(before[..i]))
    requires r == f(Refreshed(before[i]))
    ensures data + [r] == MapSeq(f, RefreshedAll(before[..i + 1]))
  {
    TakeSnoc(before, i);
    RefreshedAllSnoc(before[..i], before[i]);
    MapSeqAppend(f, RefreshedAll(before[..i]), [Refreshed(before[i])]);
    MapSeqAt(f, [Refreshed(before[i])], 0);
  }

  lemma RefreshedAllSnoc(vs: seq<ChannelValue>, v: ChannelValue)
    ensures RefreshedAll(vs + [v]) == RefreshedAll(vs) + [Refreshed(v)]
  {
  }

  // ---------------------------------------------------------------- msteamsSetupTeam

  /** The team's member list: members then owners, each person once, at the first place
      they appear. */
  function TeamMembers(t: TeamValue): (r: seq<string>)
    ensures forall u :: u in r <==> u in t.members || u in t.owners
    ensures NoDuplicates(r)
  {
    Dedupe(t.members + t.owners)
  }

  /** People keep the order of their first appearance in members-then-owners. */
  lemma TeamMembersOrder(t: TeamValue, i: nat, j: nat)
    requires i < j < |TeamMembers(t)|
    ensures FirstIndex(t.members + t.owners, TeamMembers(t)[i]) < FirstIndex(t.members + t.owners, TeamMembers(t)[j])
  {
    DedupeFirstOccurrenceOrder(t.members + t.owners, i, j);
  }

  /** The line that finds the team by id, or creates it when there is none. */
  function GroupLine(id: Option<string>, displayName: string): string {
    if Truthy(id) then "$group = Get-Team -GroupID " + id.value
    else "$group = New-Team -DisplayName \"" + displayName + "\""
  }

  /** The first five lines: load the module, connect, find or create the team, keep its id
      and print it. */
  function SetupHead(id: Option<string>, displayName: string): seq<string> {
    ["Import-Module MicrosoftTeams", "Connect-MicrosoftTeams", GroupLine(id, displayName),
     "$id = $group.GroupId", "\"TeamID: $id\""]
  }

  /** The last two lines: the success message and the id. */
  const SetupTail: seq<string> := ["\"" + SuccessMessage + "\"", "\"$id\""]

  /** The script from its head, the four generated blocks and its tail, with the empty
      fragments dropped and the rest joined by line breaks. */
  function SetupCode(id: Option<string>, displayName: string, optionsCmd: string, membersCmd: string,
                     ownersCmd: string, channelsCmd: string): string {
    Join(NonEmpty(SetupHead(id, displayName) + [optionsCmd, membersCmd, ownersCmd, channelsCmd] + SetupTail), "\n")
  }

  /** The whole setup script for a team whose channels hold the values `t.channels` before
      their refresh. */
  function SetupScript(quote: string -> string, t: TeamValue): string {
    SetupCode(t.id, t.displayName,
              UpdateOptions(quote, t.options, None),
              UpdateUsers(quote, TeamMembers(t), "Member", None),
              UpdateUsers(quote, t.owners, "Owner", None),
              ChannelsScript(quote, RefreshedAll(t.channels)))
  }

  /** Whatever the generated blocks are, the script's first five lines are the head (the
      team found by its id when it has one, created by its display name otherwise), and its
      last two lines print the success message and the id. */
  lemma SetupCodeLines(id: Option<string>, displayName: string, optionsCmd: string, membersCmd: string,
                       ownersCmd: string, channelsCmd: string)
    requires id.Some? ==> Lacks(id.value, '\n')
    requires Lacks(displayName, '\n')
    ensures var lines := Split(SetupCode(id, displayName, optionsCmd, membersCmd, ownersCmd, channelsCmd), "\n");
            && |lines| >= 7
            && lines[..5] == SetupHead(id, displayName)
            && lines[|lines| - 2..] == SetupTail
            && lines[2] == GroupLine(id, displayName)
  {
    var head := SetupHead(id, displayName);
    var generated := SplitAll(NonEmpty([optionsCmd, membersCmd, ownersCmd, channelsCmd]), "\n");
    SetupFramedLines(id, displayName, optionsCmd, membersCmd, ownersCmd, channelsCmd);
    var lines := head + generated + SetupTail;
    FramedEnds(head, generated, SetupTail);
    assert lines[2] == head[2] == GroupLine(id, displayName);
  }

  lemma SetupFramedLines(id: Option<string>, displayName: string, optionsCmd: string, membersCmd: string,
                         ownersCmd: string, channelsCmd: string)
    requires id.Some? ==> Lacks(id.value, '\n')
    requires Lacks(displayName, '\n')
    ensures Split(SetupCode(id, displayName, optionsCmd, membersCmd, ownersCmd, channelsCmd), "\n")
            == SetupHead(id, displayName) + SplitAll(NonEmpty([optionsCmd, membersCmd, ownersCmd, channelsCmd]), "\n")
               + SetupTail
  {
    SetupHeadFree(id, displayName);
    SetupTailFree();
    FramedLines(SetupHead(id, displayName), [optionsCmd, membersCmd, ownersCmd, channelsCmd], SetupTail);
  }

  lemma FramedEnds<T>(head: seq<T>, middle: seq<T>, tail: seq<T>)
    ensures (head + middle + tail)[..|head|] == head
    ensures (head + middle + tail)[|head| + |middle|..] == tail
  {
  }

  /** Fixed lines around the generated blocks come back unchanged when the script is split
      at its line breaks: filter(Boolean) keeps them, and they hold no line break. */
  lemma FramedLines(head: seq<string>, middle: seq<string>, tail: seq<string>)
    requires |head| > 0
    requires forall i :: 0 <= i < |head| ==> Lacks(head[i], '\n') && head[i] != ""
    requires forall i :: 0 <= i < |tail| ==> Lacks(tail[i], '\n') && tail[i] != ""
    ensures Split(Join(NonEmpty(head + middle + tail), "\n"), "\n") == head + SplitAll(NonEmpty(middle), "\n") + tail
  {
    FramedKept(head, middle, tail);
    FramedSplit(head, NonEmpty(middle), tail);
  }

  lemma FramedKept(head: seq<string>, middle: seq<string>, tail: seq<string>)
    requires forall i :: 0 <= i < |head| ==> head[i] != ""
    requires forall i :: 0 <= i < |tail| ==> tail[i] != ""
    ensures NonEmpty(head + middle + tail) == head + NonEmpty(middle) + tail
  {
    NonEmptyAppend(head + middle, tail);
    NonEmptyAppend(head, middle);
    NonEmptyKeeps(head);
    NonEmptyKeeps(tail);
  }

  lemma FramedSplit(head: seq<string>, kept: seq<string>, tail: seq<string>)
    requires |head| > 0
    requires forall i :: 0 <= i < |head| ==> Lacks(head[i], '\n')
    requires forall i :: 0 <= i < |tail| ==> Lacks(tail[i], '\n')
    ensures Split(Join(head + kept + tail, "\n"), "\n") == head + SplitAll(kept, "\n") + tail
  {
    SplitJoinAll(head + kept + tail, '\n');
    SplitAllAppend(head + kept, tail, "\n");
    SplitAllAppend(head, kept, "\n");
    SplitAllLacking(head, '\n');
    SplitAllLacking(tail, '\n');
  }

  lemma SetupHeadFree(id: Option<string>, displayName: string)
    requires id.Some? ==> Lacks(id.value, '\n')
    requires Lacks(displayName, '\n')
    ensures forall i :: 0 <= i < 5 ==> Lacks(SetupHead(id, displayName)[i], '\n') && SetupHead(id, displayName)[i] != ""
  {
    GroupLineFree(id, displayName);
    SetupHeadLiteralsFree();
  }

  lemma SetupHeadLiteralsFree()
    ensures Lacks("Import-Module MicrosoftTeams", '\n') && Lacks("Connect-MicrosoftTeams", '\n')
    ensures Lacks("$id = $group.GroupId", '\n') && Lacks("\"TeamID: $id\"", '\n')
  {
  }

  lemma GroupLineFree(id: Option<string>, displayName: string)
    requires id.Some? ==> Lacks(id.value, '\n')
    requires Lacks(displayName, '\n')
    ensures Lacks(GroupLine(id, displayName), '\n') && GroupLine(id, displayName) != ""
  {
    if Truthy(id) {
      LacksConcat("$group = Get-Team -GroupID ", id.value, '\n');
    } else {
      LacksConcat3("$group = New-Team -DisplayName \"", displayName, "\"", '\n');
    }
  }

  lemma SetupTailFree()
    ensures forall i :: 0 <= i < 2 ==> Lacks(SetupTail[i], '\n') && SetupTail[i] != ""
  {
    assert Lacks(SuccessMessage, '\n');
    LacksConcat3("\"", SuccessMessage, "\"", '\n');
  }

  // ---------------------------------------------------------------- reading the output

  /** A character of `[0-9a-f\-]` under the `i` flag. */
  predicate IsIdChar(c: char) {
    '0' <= c <= '9' || 'a' <= c <= 'f' || 'A' <= c <= 'F' || c == '-'
  }

  /** The length of the run of id characters starting at `p`. */
  function IdRun(s: string, p: nat): (n: nat)
    requires p <= |s|
    ensures p + n <= |s|
    ensures forall i :: p <= i < p + n ==> IsIdChar(s[i])
    ensures p + n == |s| || !IsIdChar(s[p + n])
    decreases |s| - p
  {
    if p < |s| && IsIdChar(s[p]) then 1 + IdRun(s, p + 1) else 0
  }

  /** `TeamID: ` at position `k`, letters in either case. */
  predicate LabelAt(s: string, k: nat)
    requires k + 8 <= |s|
  {
    && LowerChar(s[k]) == 't' && LowerChar(s[k + 1]) == 'e' && LowerChar(s[k + 2]) == 'a'
    && LowerChar(s[k + 3]) == 'm' && LowerChar(s[k + 4]) == 'i' && LowerChar(s[k + 5]) == 'd'
    && s[k + 6] == ':' && s[k + 7] == ' '
  }

  /** `/TeamID: ([0-9a-f\-]+)/i` matches at position `k`. */
  predicate IdMatchAt(s: string, k: nat) {
    k + 9 <= |s| && LabelAt(s, k) && IsIdChar(s[k + 8])
  }

  /** The search for a match from position `k` on. */
  function IdSearch(s: string, k: nat): Option<string>
    decreases |s| - k
  {
    if k + 9 > |s| then None
    else if IdMatchAt(s, k) then Some(s[k + 8..k + 8 + IdRun(s, k + 8)])
    else IdSearch(s, k + 1)
  }

  /** The search finds nothing exactly when there is no match from `k` on, and what it finds
      is a non-empty run of id characters. */
  lemma {:induction false} IdSearchSound(s: string, k: nat)
    ensures IdSearch(s, k).None? <==> forall j: nat :: k <= j ==> !IdMatchAt(s, j)
    ensures IdSearch(s, k).Some? ==>
              var id := IdSearch(s, k).value;
              |id| > 0 && forall i :: 0 <= i < |id| ==> IsIdChar(id[i])
    decreases |s| - k
  {
    if k + 9 <= |s| && !IdMatchAt(s, k) {
      IdSearchSound(s, k + 1);
    }
  }

  /** The id the script printed: the whole id-character run after the leftmost `TeamID: `
      (in any letter case) that is followed by one; None when there is no such place. */
  function TeamIdOf(output: string): (r: Option<string>)
    ensures r.None? <==> forall j: nat :: !IdMatchAt(output, j)
    ensures r.Some? ==> |r.value| > 0 && forall i :: 0 <= i < |r.value| ==> IsIdChar(r.value[i])
  {
    IdSearchSound(output, 0);
    IdSearch(output, 0)
  }

  /** The leftmost match wins, and its whole run is taken: with a match at `n`, no earlier
      one, the id is the run of id characters after the label. */
  lemma {:induction false} TeamIdOfLeftmost(output: string, n: nat)
    requires IdMatchAt(output, n)
    requires forall j: nat :: j < n ==> !IdMatchAt(output, j)
    ensures TeamIdOf(output) == Some(output[n + 8..n + 8 + IdRun(output, n + 8)])
  {
    IdSearchFinds(output, 0, n);
  }

  lemma {:induction false} IdSearchFinds(s: string, k: nat, n: nat)
    requires k <= n && IdMatchAt(s, n)
    requires forall j: nat :: k <= j < n ==> !IdMatchAt(s, j)
    ensures IdSearch(s, k) == Some(s[n + 8..n + 8 + IdRun(s, n + 8)])
    decreases n - k
  {
    if k < n {
      IdSearchSkips(s, k);
      IdSearchFinds(s, k + 1, n);
    } else {
      IdSearchHere(s, n);
    }
  }

  lemma IdSearchSkips(s: string, k: nat)
    requires k + 9 <= |s| && !IdMatchAt(s, k)
    ensures IdSearch(s, k) == IdSearch(s, k + 1)
  {
  }

  lemma IdSearchHere(s: string, n: nat)
    requires IdMatchAt(s, n)
    ensures IdSearch(s, n) == Some(s[n + 8..n + 8 + IdRun(s, n + 8)])
  {
  }

  /** Reading back the line the script echoes: an output that starts with `TeamID: `, then
      the id, then a line break gives exactly that id. */
  lemma TeamIdOfEcho(id: string, rest: string)
    requires |id| > 0 && forall i :: 0 <= i < |id| ==> IsIdChar(id[i])
    ensures TeamIdOf("TeamID: " + id + "\n" + rest) == Some(id)
  {
    var s := "TeamID: " + id + "\n" + rest;
    assert s[8] == id[0] && s[8 + |id|] == '\n';
    assert IdMatchAt(s, 0);
    IdRunIs(s, 8, |id|);
    assert s[8..8 + |id|] == id;
    TeamIdOfLeftmost(s, 0);
  }

  lemma {:induction false} IdRunIs(s: string, p: nat, len: nat)
    requires p + len <= |s|
    requires forall i :: p <= i < p + len ==> IsIdChar(s[i])
    requires p + len == |s| || !IsIdChar(s[p + len])
    ensures IdRun(s, p) == len
    decreases len
  {
    if len > 0 { IdRunIs(s, p + 1, len - 1); }
  }

  /** `msteamsSetupTeam`: builds the script (refreshing the channels' member lists), runs it
      through `execute` (the shell), and reports success, the id read from the output, and
      the output. Success needs both the shell's success and the success message. */
  method SetupTeam(quote: string -> string, team: Team, execute: string -> (bool, string))
    returns (success: bool, id: Option<string>, output: string)
    modifies set c | c in team.channels
    ensures forall i :: 0 <= i < |team.channels| ==>
              team.channels[i].Value() == Refreshed(old(team.channels[i].Value()))
    ensures var (ok, out) := execute(SetupScript(quote, old(TeamValueOf(team))));
            && output == out
            && (success <==> ok && Contains(out, SuccessMessage))
            && id == TeamIdOf(out)
  {
    ghost var before := TeamValueOf(team);
    var members := Dedupe(team.members + team.owners);
    var optionsCmd := UpdateOptions(quote, team.options, None);
    var membersCmd := UpdateUsers(quote, members, "Member", None);
    var ownersCmd := UpdateUsers(quote, team.owners, "Owner", None);
    var channelsCmd := UpdateChannels(quote, team.channels);
    var code := SetupCode(team.id, team.displayName, optionsCmd, membersCmd, ownersCmd, channelsCmd);
    var ok: bool;
    ok, output := execute(code).0, execute(code).1;
    id := TeamIdOf(output);
    success := ok && Contains(output, SuccessMessage);
  }
}

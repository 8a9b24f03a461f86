/**
 * The plugin object's own helpers (class CoolTool of src/cooltool.ts): the per-path cache of
 * parsing buffers with its invalidation on edits, the table helpers `headers`, `asArray`,
 * `filterColumns` and `addColumns` over row objects, `stakeholders`/`team`, and the link
 * capture of `pathFromLink`.
 */
module CoolTool {
  import opened Js
  import opened MarkdownTable
  import opened Outline

  // ---------------------------------------------------------------- pathFromLink

  /** A file of the vault: its name without extension, and its path. */
  datatype VaultFile = VaultFile(basename: string, path: string)

  predicate FreeOfTerminators(s: string) {
    forall i :: 0 <= i < |s| ==> !IsLineTerminator(s[i])
  }

  /** The first group of `^\s*\[\[(.+)(\|.*)?\]\]\s*$`. Leading and trailing `\s*` take exactly
      the whitespace `trim` removes; the greedy `(.+)` then runs up to the final `]]`, so the
      optional alias group never takes part and the capture keeps any `|Alias`. */
  function LinkCapture(link: string): (r: Option<string>) {
    var t := Trim(link);
    if |t| >= 5 && t[..2] == "[[" && t[|t| - 2..] == "]]" && FreeOfTerminators(t[2..|t| - 2])
    then Some(t[2..|t| - 2])
    else None
  }

  /** The regular expression matches exactly a trimmed `[[…]]` around a non-empty capture
      without line terminators, and the capture is everything between the brackets. */
  lemma LinkCaptureSound(link: string, g: string)
    ensures LinkCapture(link) == Some(g) <==> Trim(link) == "[[" + g + "]]" && g != [] && FreeOfTerminators(g)
  {
    var t := Trim(link);
    if t == "[[" + g + "]]" {
      assert t[..2] == "[[" && t[|t| - 2..] == "]]" && t[2..|t| - 2] == g;
    }
    if LinkCapture(link) == Some(g) {
      assert t == t[..2] + t[2..|t| - 2] + t[|t| - 2..];
    }
  }

  /** Where a lazy `(.+?)` stops: at the first `|` after the first character, or at the end. */
  function LazyEnd(g: string, p: nat): (e: nat)
    requires 1 <= p <= |g|
    ensures p <= e <= |g| && (e == |g| || g[e] == '|')
    ensures forall i :: p <= i < e ==> g[i] != '|'
    decreases |g| - p
  {
    if p == |g| || g[p] == '|' then p else LazyEnd(g, p + 1)
  }

  /** The link's target as evidently intended: the capture up to the alias. */
  function LinkTarget(link: string): (r: Option<string>) {
    match LinkCapture(link)
    case None => None
    case Some(g) => Some(g[..LazyEnd(g, 1)])
  }

  /** The intended target is a non-empty start of the capture that holds no `|` after its first
      character, and is either the whole capture or followed by the alias's `|`. */
  lemma LinkTargetSound(link: string)
    ensures LinkTarget(link).Some? <==> LinkCapture(link).Some?
    ensures LinkTarget(link).Some? ==>
              var g := LinkCapture(link).value;
              var n := LinkTarget(link).value;
              n != [] && n <= g && (n == g || g[|n|] == '|')
              && forall i :: 1 <= i < |n| ==> n[i] != '|'
  {
  }

  lemma TrimBracketed(s: string)
    requires |s| >= 2 && s[0] == '[' && s[|s| - 1] == ']'
    ensures Trim(s) == s
  {
  }

  /** `[[Name|Alias]]`: as written the capture is `Name|Alias`; as intended it is `Name`. */
  lemma AliasedLink(name: string, alias: string)
    requires name != [] && '|' !in name && FreeOfTerminators(name + "|" + alias)
    ensures LinkCapture("[[" + name + "|" + alias + "]]") == Some(name + "|" + alias)
    ensures LinkTarget("[[" + name + "|" + alias + "]]") == Some(name)
  {
    var g := name + "|" + alias;
    var link := "[[" + g + "]]";
    assert link == "[[" + name + "|" + alias + "]]";
    TrimBracketed(link);
    LinkCaptureSound(link, g);
    assert g[|name|] == '|';
    assert forall i :: 1 <= i < |name| ==> g[i] == name[i];
    assert g[..|name|] == name;
  }

  /** `getFiles().find(file => file.basename === link)`. */
  function FindFile(files: seq<VaultFile>, name: string): (r: Option<VaultFile>)
    ensures r.Some? <==> exists i :: 0 <= i < |files| && files[i].basename == name
    ensures r.Some? ==> r.value in files && r.value.basename == name
  {
    if files == [] then None
    else if files[0].basename == name then Some(files[0])
    else
      var r := FindFile(files[1..], name);
      assert forall i :: 1 <= i < |files| ==> files[i] == files[1..][i - 1];
      r
  }

  /** A link resolves to the path of the file with that name (reading `.path` of `undefined`
      when there is none); anything else is normalised (`normalizePath`, a parameter). */
  function Resolve(target: Option<string>, link: string, files: seq<VaultFile>, normalize: string -> string): Result<string> {
    match target
    case None => Ok(normalize(link))
    case Some(n) =>
      match FindFile(files, n)
      case None => Fail(TypeError("Cannot read properties of undefined (reading 'path')"))
      case Some(f) => Ok(f.path)
  }

  /** pathFromLink as written. */
  function PathFromLinkAsWritten(link: string, files: seq<VaultFile>, normalize: string -> string): Result<string> {
    Resolve(LinkCapture(link), link, files, normalize)
  }

  /** pathFromLink as intended: the alias is not part of the name looked up. */
  function PathFromLink(link: string, files: seq<VaultFile>, normalize: string -> string): Result<string> {
    Resolve(LinkTarget(link), link, files, normalize)
  }

  predicate NoBarInNames(files: seq<VaultFile>) {
    forall i :: 0 <= i < |files| ==> '|' !in files[i].basename
  }

  /** As written, an aliased link fails whenever no file name holds a `|` (the vault does not
      allow one); as intended, it resolves to the file called `name`. */
  lemma AliasedLinkResolves(name: string, alias: string, files: seq<VaultFile>, normalize: string -> string)
    requires name != [] && '|' !in name && FreeOfTerminators(name + "|" + alias)
    ensures NoBarInNames(files) ==> PathFromLinkAsWritten("[[" + name + "|" + alias + "]]", files, normalize).Fail?
    ensures PathFromLink("[[" + name + "|" + alias + "]]", files, normalize)
         == if FindFile(files, name).Some? then Ok(FindFile(files, name).value.path)
            else Fail(TypeError("Cannot read properties of undefined (reading 'path')"))
  {
    AliasedLink(name, alias);
    var g := name + "|" + alias;
    assert g[|name|] == '|';
  }

  /** A plain link `[[Name]]` resolves the same way as written and as intended. */
  lemma PlainLinkResolves(name: string, files: seq<VaultFile>, normalize: string -> string)
    requires name != [] && '|' !in name && FreeOfTerminators(name)
    ensures PathFromLinkAsWritten("[[" + name + "]]", files, normalize)
         == PathFromLink("[[" + name + "]]", files, normalize)
         == if FindFile(files, name).Some? then Ok(FindFile(files, name).value.path)
            else Fail(TypeError("Cannot read properties of undefined (reading 'path')"))
  {
    var link := "[[" + name + "]]";
    TrimBracketed(link);
    LinkCaptureSound(link, name);
    LinkTargetSound(link);
    assert name[..|name|] == name;
  }

  // ---------------------------------------------------------------- the parsing-buffer cache

  /** What a buffer's `init(path)` reads: the note's text, metadata and line starts. Loading is
      outside the model, so the snapshot of each path is given by a parameter. */
  datatype Note = Note(text: string, headings: seq<Heading>, sections: seq<Section>, lineStarts: seq<nat>)

  /** The path getParsingBuffer works on: the argument when it is a non-empty string, else the
      active file's path. */
  function PathArg(path: Option<string>, active: string): string {
    if path.Some? && path.value != "" then path.value else active
  }

  /** The `parsingBuffers` record of the plugin object. */
  class BufferCache {
    var buffers: map<string, ParsingBuffer>

    /** The constructor starts with an empty record. */
    constructor ()
      ensures buffers == map[]
    {
      buffers := map[];
    }

    /** The editor-change listener: the edited file's buffer, if any, is dropped. */
    method EditorChange(path: string)
      modifies this
      ensures buffers == old(buffers) - {path}
      ensures forall p :: p != path && p in old(buffers) ==> p in buffers && buffers[p] == old(buffers)[p]
    {
      if path in buffers {
        buffers := buffers - {path};
      } else {
        assert buffers - {path} == buffers;
      }
    }

    /** getParsingBuffer: the cached buffer of the resolved path, or a new one that is stored. */
    method GetParsingBuffer(path: Option<string>, active: string, files: seq<VaultFile>,
                            normalize: string -> string, load: string -> Note) returns (r: Result<ParsingBuffer>)
      modifies this
      ensures var resolved := PathFromLink(PathArg(path, active), files, normalize);
              (r.Fail? <==> resolved.Fail?)
              && (r.Fail? ==> r.error == resolved.error && buffers == old(buffers))
              && (resolved.Ok? && resolved.value in old(buffers) ==>
                    r == Ok(old(buffers)[resolved.value]) && buffers == old(buffers))
      ensures r.Ok? ==> var p := PathFromLink(PathArg(path, active), files, normalize).value;
              p !in old(buffers) ==>
                fresh(r.value) && buffers == old(buffers)[p := r.value]
                && r.value.text == load(p).text && r.value.headings == load(p).headings
                && r.value.sections == load(p).sections && r.value.lineStarts == load(p).lineStarts
    {
      var resolved := PathFromLink(PathArg(path, active), files, normalize);
      if resolved.Fail? {
        return Fail(resolved.error);
      }
      var p := resolved.value;
      if p in buffers {
        return Ok(buffers[p]);
      }
      var note := load(p);
      var buf := new ParsingBuffer(note.text, note.headings, note.sections, note.lineStarts);
      buffers := buffers[p := buf];
      return Ok(buf);
    }

    /** Two lookups of the same path without an edit in between give the same buffer object. */
    method GetTwice(path: Option<string>, active: string, files: seq<VaultFile>,
                    normalize: string -> string, load: string -> Note) returns (r1: Result<ParsingBuffer>, r2: Result<ParsingBuffer>)
      modifies this
      ensures r1 == r2
    {
      r1 := GetParsingBuffer(path, active, files, normalize, load);
      r2 := GetParsingBuffer(path, active, files, normalize, load);
    }

    /** stakeholders: the argument path, when given, is resolved first; the buffer's path is
        then resolved again inside getParsingBuffer. The method fails with the first failing
        resolution; otherwise the buffer cached under the resolved path answers every heading. */
    method Stakeholders(arg: HeadingArg, path: Option<string>, active: string, files: seq<VaultFile>,
                        normalize: string -> string, load: string -> Note) returns (r: Result<seq<Fields>>)
      modifies this
      ensures var target := StakeholdersPath(path, active, files, normalize);
              (target.Fail? ==> r == Fail(target.error) && buffers == old(buffers))
              && (target.Ok? ==> target.value in buffers
                                 && r == Collect(TableOf(buffers[target.value]), HeadingsOf(arg)))
      ensures var target := StakeholdersPath(path, active, files, normalize);
              target.Ok? ==>
                var p := target.value;
                (p in old(buffers) ==> buffers == old(buffers))
                && (p !in old(buffers) ==>
                      fresh(buffers[p]) && buffers == old(buffers)[p := buffers[p]]
                      && buffers[p].text == load(p).text && buffers[p].headings == load(p).headings
                      && buffers[p].sections == load(p).sections && buffers[p].lineStarts == load(p).lineStarts)
    {
      var p := path;
      if path.Some? && path.value != "" {
        var resolved := PathFromLink(path.value, files, normalize);
        if resolved.Fail? {
          return Fail(resolved.error);
        }
        p := Some(resolved.value);
      }
      var buf := GetParsingBuffer(p, active, files, normalize, load);
      if buf.Fail? {
        return Fail(buf.error);
      }
      r := Gather(buf.value, HeadingsOf(arg));
    }
  }

  // ---------------------------------------------------------------- stakeholders and team

  /** The path whose buffer stakeholders reads: a given non-empty path is resolved, and the
      result is resolved once more by getParsingBuffer (an empty result falls back to the
      active file). */
  function StakeholdersPath(path: Option<string>, active: string, files: seq<VaultFile>,
                            normalize: string -> string): Result<string>
  {
    if path.Some? && path.value != "" then
      match PathFromLink(path.value, files, normalize)
      case Fail(e) => Fail(e)
      case Ok(p) => PathFromLink(PathArg(Some(p), active), files, normalize)
    else PathFromLink(PathArg(path, active), files, normalize)
  }

  /** The heading argument of stakeholders: omitted, one string, or a list. */
  datatype HeadingArg = Omitted | One(heading: string) | Many(headings: seq<string>)

  /** `["Stakeholders"]` by default; a string becomes a one-element list. */
  function HeadingsOf(arg: HeadingArg): seq<string> {
    match arg
    case Omitted => ["Stakeholders"]
    case One(h) => [h]
    case Many(hs) => hs
  }

  /** getStakeholders of a buffer, as a function of the heading. */
  function TableOf(buf: ParsingBuffer): string -> Result<seq<Fields>> {
    (h: string) => buf.Stakeholders(h)
  }

  /** `all = getStakeholders(heading[0])`, then `all.concat(getStakeholders(h))` for the rest;
      an empty list passes `undefined`, so getStakeholders's default "Team" is used. */
  function Collect<T>(get: string -> Result<seq<T>>, hs: seq<string>): Result<seq<T>> {
    if hs == [] then get("Team")
    else if |hs| == 1 then get(hs[0])
    else
      match Collect(get, hs[..|hs| - 1])
      case Fail(e) => Fail(e)
      case Ok(all) => Prepend(all, get(hs[|hs| - 1]))
  }

  /** team(heading): stakeholders of that one heading. */
  function Team<T>(get: string -> Result<seq<T>>, heading: string): Result<seq<T>> {
    Collect(get, HeadingsOf(One(heading)))
  }

  /** The rows of every heading's table, in order. */
  function AllRows<T>(get: string -> Result<seq<T>>, hs: seq<string>): seq<T> {
    if hs == [] then []
    else
      var r := get(hs[|hs| - 1]);
      AllRows(get, hs[..|hs| - 1]) + (if r.Ok? then r.value else [])
  }

  /** The concatenation succeeds exactly when every heading's table does, and then holds all
      their rows in order; otherwise it fails with the first heading's failure. */
  lemma {:induction false} CollectSound<T>(get: string -> Result<seq<T>>, hs: seq<string>)
    requires hs != []
    ensures Collect(get, hs).Ok? <==> forall i :: 0 <= i < |hs| ==> get(hs[i]).Ok?
    ensures Collect(get, hs).Ok? ==> Collect(get, hs).value == AllRows(get, hs)
    ensures forall j :: 0 <= j < |hs| && get(hs[j]).Fail? && (forall k :: 0 <= k < j ==> get(hs[k]).Ok?)
                        ==> Collect(get, hs) == Fail(get(hs[j]).error)
  {
    var init := hs[..|hs| - 1];
    if |hs| == 1 {
      assert init == [];
    } else {
      CollectSound(get, init);
      assert forall i :: 0 <= i < |init| ==> init[i] == hs[i];
    }
  }

  /** `team(h)` is getStakeholders of `h`, and so is stakeholders of the string `h`. */
  lemma TeamIsStakeholders<T>(get: string -> Result<seq<T>>, heading: string)
    ensures Team(get, heading) == Collect(get, HeadingsOf(Many([heading]))) == get(heading)
  {
    CollectSound(get, [heading]);
  }

  /** One call of getStakeholders. */
  method Fetch(buf: ParsingBuffer, h: string) returns (r: Result<seq<Fields>>)
    ensures r == TableOf(buf)(h)
  {
    r := buf.GetStakeholders(h);
  }

  /** stakeholders' calls of getStakeholders: the first heading, then the loop over the rest. */
  method Gather(buf: ParsingBuffer, hs: seq<string>) returns (r: Result<seq<Fields>>)
    ensures r == Collect(TableOf(buf), hs)
  {
    r := Fetch(buf, if hs == [] then "Team" else hs[0]);
    if |hs| > 1 {
      CollectFirst(TableOf(buf), hs);
      if r.Fail? {
        CollectPrefixFails(TableOf(buf), hs, 1);
      } else {
        r := GatherRest(buf, hs, r.value);
      }
    }
  }

  /** The first heading alone is collected as its own table. */
  lemma CollectFirst<T>(get: string -> Result<seq<T>>, hs: seq<string>)
    requires |hs| > 0
    ensures Collect(get, hs[..1]) == get(hs[0])
  {
    assert hs[..1] == [hs[0]];
  }

  /** The forEach over the headings after the first, appending each table's rows. */
  method GatherRest(buf: ParsingBuffer, hs: seq<string>, first: seq<Fields>) returns (r: Result<seq<Fields>>)
    requires |hs| > 1 && Collect(TableOf(buf), hs[..1]) == Ok(first)
    ensures r == Collect(TableOf(buf), hs)
  {
    var all := first;
    for i := 1 to |hs|
      invariant Collect(TableOf(buf), hs[..i]) == Ok(all)
    {
      var next := Fetch(buf, hs[i]);
      CollectStep(TableOf(buf), hs, i, all);
      if next.Fail? {
        return Fail(next.error);
      }
      all := all + next.value;
    }
    assert hs[..|hs|] == hs;
    return Ok(all);
  }

  /** One more heading: its failure is the whole list's failure, its rows are appended. */
  lemma CollectStep<T>(get: string -> Result<seq<T>>, hs: seq<string>, i: nat, all: seq<T>)
    requires 1 <= i < |hs| && Collect(get, hs[..i]) == Ok(all)
    ensures get(hs[i]).Fail? ==> Collect(get, hs) == Fail(get(hs[i]).error)
    ensures get(hs[i]).Ok? ==> Collect(get, hs[..i + 1]) == Ok(all + get(hs[i]).value)
  {
    assert hs[..i + 1][..i] == hs[..i];
    if get(hs[i]).Fail? {
      CollectPrefixFails(get, hs, i + 1);
    }
  }

  /** Once a prefix of the headings fails, the whole list fails the same way. */
  lemma {:induction false} CollectPrefixFails<T>(get: string -> Result<seq<T>>, hs: seq<string>, n: nat)
    requires 1 <= n <= |hs| && Collect(get, hs[..n]).Fail?
    ensures Collect(get, hs) == Collect(get, hs[..n])
    decreases |hs| - n
  {
    if n == |hs| {
      assert hs[..n] == hs;
    } else {
      assert hs[..n + 1][..n] == hs[..n];
      CollectPrefixFails(get, hs, n + 1);
    }
  }

  // ---------------------------------------------------------------- headers and asArray

  /** headers: none for an empty table, else the first row's property names. */
  function Headers(table: seq<Fields>): seq<string> {
    if table == [] then [] else Keys(table[0])
  }

  function FieldValue(f: (string, Cell)): Cell {
    f.1
  }

  /** `Object.entries(r).map(([k, v]) => v)`. */
  function Values(row: Fields): seq<Cell> {
    MapSeq(FieldValue, row)
  }

  /** asArray's `[headers, rows]`. */
  datatype Arrayed = Arrayed(head: seq<string>, body: seq<seq<Cell>>)

  function AsArray(table: seq<Fields>): Arrayed {
    Arrayed(Headers(table), MapSeq(Values, table))
  }

  lemma {:induction false} LookupAt(row: Fields, k: nat)
    requires k < |row| && NoDuplicates(Keys(row))
    ensures Lookup(row, row[k].0) == Some(row[k].1)
  {
    if k > 0 {
      assert Keys(row)[0] != Keys(row)[k];
      assert Keys(row[1..]) == Keys(row)[1..];
      LookupAt(row[1..], k - 1);
    }
  }

  /** asArray gives a body row per row; every row with the first row's property names lines
      up with the head: its i-th value is its property named by the i-th header. */
  lemma AsArrayAligned(table: seq<Fields>)
    ensures var a := AsArray(table);
            |a.body| == |table|
            && (table == [] ==> a.head == [])
            && forall i :: 0 <= i < |table| && Keys(table[i]) == a.head && NoDuplicates(a.head) ==>
                 |a.body[i]| == |a.head| && forall k :: 0 <= k < |a.head| ==> Lookup(table[i], a.head[k]) == Some(a.body[i][k])
  {
    var a := AsArray(table);
    forall i | 0 <= i < |table| && Keys(table[i]) == a.head && NoDuplicates(a.head)
      ensures |a.body[i]| == |a.head| && forall k :: 0 <= k < |a.head| ==> Lookup(table[i], a.head[k]) == Some(a.body[i][k])
    {
      MapSeqAt(Values, table, i);
      forall k | 0 <= k < |a.head| ensures Lookup(table[i], a.head[k]) == Some(a.body[i][k]) {
        LookupAt(table[i], k);
        MapSeqAt(FieldValue, table[i], k);
      }
    }
  }

  // ---------------------------------------------------------------- filterColumns

  /** The filter: a list of column names, or a test on the name. */
  datatype ColumnFilter = Names(names: seq<string>) | Test(keep: string -> bool)

  predicate Keeps(filter: ColumnFilter, key: string) {
    match filter
    case Names(ns) => key in ns
    case Test(keep) => keep(key)
  }

  function KeepsKey(filter: ColumnFilter): string -> bool {
    (key: string) => Keeps(filter, key)
  }

  /** `row[k]`: undefined for a missing property. */
  function CellOf(row: Fields, k: string): Cell {
    match Lookup(row, k)
    case Some(c) => c
    case None => None
  }

  /** `keys.reduce((obj, k) => { obj[k] = row[k]; return obj }, {})`. */
  function Pick(row: Fields, keys: seq<string>): Fields {
    if keys == [] then []
    else SetField(Pick(row, keys[..|keys| - 1]), keys[|keys| - 1], CellOf(row, keys[|keys| - 1]))
  }

  /** The new object has the picked names once each, in order of first occurrence. */
  lemma {:induction false} PickKeys(row: Fields, keys: seq<string>)
    ensures Keys(Pick(row, keys)) == Dedupe(keys)
  {
    if keys != [] {
      PickKeys(row, keys[..|keys| - 1]);
    }
  }

  /** ... and the row's values under them, and nothing else. */
  lemma {:induction false} PickLookup(row: Fields, keys: seq<string>, k: string)
    ensures Lookup(Pick(row, keys), k) == if k in keys then Some(CellOf(row, k)) else None
  {
    if keys != [] {
      var init := keys[..|keys| - 1];
      var last := keys[|keys| - 1];
      assert keys == init + [last];
      PickLookup(row, init, k);
      PickSnoc(row, init, last, k);
    }
  }

  /** One more name: its property is the row's, every other property is as before. */
  lemma PickSnoc(row: Fields, init: seq<string>, last: string, k: string)
    ensures Lookup(Pick(row, init + [last]), k) == if k == last then Some(CellOf(row, last)) else Lookup(Pick(row, init), k)
  {
    assert (init + [last])[..|init|] == init;
    if k != last {
      SetFieldOther(Pick(row, init), last, CellOf(row, last), k);
    }
  }

  /** filterColumns: each row becomes a new object with the row's kept properties. */
  function FilterColumns(table: seq<Fields>, filter: ColumnFilter): seq<Fields> {
    MapSeq((row: Fields) => Pick(row, Filter(Keys(row), KeepsKey(filter))), table)
  }

  /** Each new row holds exactly the kept properties, in their original order, with unchanged
      values. */
  lemma FilterColumnsSound(table: seq<Fields>, filter: ColumnFilter)
    ensures var r := FilterColumns(table, filter);
            |r| == |table|
            && forall i :: 0 <= i < |table| ==>
                 Keys(r[i]) == Dedupe(Filter(Keys(table[i]), KeepsKey(filter)))
                 && forall k :: Lookup(r[i], k) == if k in Keys(table[i]) && Keeps(filter, k) then Lookup(table[i], k) else None
  {
    var r := FilterColumns(table, filter);
    forall i | 0 <= i < |table|
      ensures Keys(r[i]) == Dedupe(Filter(Keys(table[i]), KeepsKey(filter)))
      ensures forall k :: Lookup(r[i], k) == if k in Keys(table[i]) && Keeps(filter, k) then Lookup(table[i], k) else None
    {
      MapSeqAt((row: Fields) => Pick(row, Filter(Keys(row), KeepsKey(filter))), table, i);
      PickKeys(table[i], Filter(Keys(table[i]), KeepsKey(filter)));
      forall k ensures Lookup(r[i], k) == if k in Keys(table[i]) && Keeps(filter, k) then Lookup(table[i], k) else None {
        PickLookup(table[i], Filter(Keys(table[i]), KeepsKey(filter)), k);
        LookupFindsKeys(table[i], k);
      }
    }
  }

  // ---------------------------------------------------------------- addColumns

  /** A column to add: its name and its value, undefined when none is given. */
  datatype Column = Column(name: string, value: Cell)

  /** `columns.forEach(c => row[c.name] = c.value)` on the properties of one row. */
  function SetColumns(row: Fields, cs: seq<Column>): Fields {
    if cs == [] then row
    else
      var c := cs[|cs| - 1];
      SetField(SetColumns(row, cs[..|cs| - 1]), c.name, c.value)
  }

  /** The value the last column of that name gives, if any. */
  function LastValue(cs: seq<Column>, name: string): Option<Cell> {
    if cs == [] then None
    else if cs[|cs| - 1].name == name then Some(cs[|cs| - 1].value)
    else LastValue(cs[..|cs| - 1], name)
  }

  function NameOf(c: Column): string {
    c.name
  }

  /** Every listed column is set, the last of equal names winning; other properties keep
      their values; the row's names keep their places and new ones come after them. */
  lemma SetColumnsSound(row: Fields, cs: seq<Column>)
    ensures forall k :: Lookup(SetColumns(row, cs), k) == if LastValue(cs, k).Some? then LastValue(cs, k) else Lookup(row, k)
    ensures Keys(row) <= Keys(SetColumns(row, cs))
    ensures forall k :: k in Keys(SetColumns(row, cs)) <==> k in Keys(row) || k in MapSeq(NameOf, cs)
  {
    SetColumnsLookup(row, cs);
    SetColumnsNames(row, cs);
  }

  lemma {:induction false} SetColumnsLookup(row: Fields, cs: seq<Column>)
    ensures forall k :: Lookup(SetColumns(row, cs), k) == if LastValue(cs, k).Some? then LastValue(cs, k) else Lookup(row, k)
  {
    if cs != [] {
      var init := cs[..|cs| - 1];
      var c := cs[|cs| - 1];
      var before := SetColumns(row, init);
      SetColumnsLookup(row, init);
      assert SetColumns(row, cs) == SetField(before, c.name, c.value);
      forall k ensures Lookup(SetColumns(row, cs), k) == if LastValue(cs, k).Some? then LastValue(cs, k) else Lookup(row, k) {
        if k != c.name {
          SetFieldOther(before, c.name, c.value, k);
          assert LastValue(cs, k) == LastValue(init, k);
        }
      }
    }
  }

  lemma SetColumnsNames(row: Fields, cs: seq<Column>)
    ensures Keys(row) <= Keys(SetColumns(row, cs))
    ensures forall k :: k in Keys(SetColumns(row, cs)) <==> k in Keys(row) || k in MapSeq(NameOf, cs)
  {
    SetColumnsPrefix(row, cs);
    SetColumnsNameSet(row, cs);
  }

  lemma {:induction false} SetColumnsPrefix(row: Fields, cs: seq<Column>)
    ensures Keys(row) <= Keys(SetColumns(row, cs))
  {
    if cs != [] {
      var init := cs[..|cs| - 1];
      var c := cs[|cs| - 1];
      var before := Keys(SetColumns(row, init));
      SetColumnsPrefix(row, init);
      assert Keys(SetColumns(row, cs)) == if c.name in before then before else before + [c.name];
      assert before <= Keys(SetColumns(row, cs));
    }
  }

  lemma {:induction false} SetColumnsNameSet(row: Fields, cs: seq<Column>)
    ensures forall k :: k in Keys(SetColumns(row, cs)) <==> k in Keys(row) || k in MapSeq(NameOf, cs)
  {
    if cs != [] {
      var init := cs[..|cs| - 1];
      var c := cs[|cs| - 1];
      var before := Keys(SetColumns(row, init));
      SetColumnsNameSet(row, init);
      assert Keys(SetColumns(row, cs)) == if c.name in before then before else before + [c.name];
      MapSeqSnoc(NameOf, cs);
    }
  }

  /** Two rows with the same names, without repeats, and the same values are the same row. */
  lemma {:induction false} FieldsExt(a: Fields, b: Fields)
    requires NoDuplicates(Keys(a)) && Keys(a) == Keys(b)
    requires forall k :: Lookup(a, k) == Lookup(b, k)
    ensures a == b
  {
    if a != [] {
      assert Lookup(a, a[0].0) == Some(a[0].1);
      assert Keys(a[1..]) == Keys(a)[1..] && Keys(b[1..]) == Keys(b)[1..];
      assert b[0].0 == Keys(b)[0] == a[0].0;
      assert Lookup(b, a[0].0) == Some(b[0].1);
      forall k ensures Lookup(a[1..], k) == Lookup(b[1..], k) {
        if k != a[0].0 {
          assert Lookup(a, k) == Lookup(a[1..], k);
          assert Lookup(b, k) == Lookup(b[1..], k);
        } else {
          assert k !in Keys(a)[1..] by {
            forall j | 1 <= j < |Keys(a)| ensures Keys(a)[j] != k {
              assert Keys(a)[0] == k;
            }
          }
          LookupFindsKeys(a[1..], k);
          LookupFindsKeys(b[1..], k);
        }
      }
      FieldsExt(a[1..], b[1..]);
    }
  }

  lemma {:induction false} SetFieldDistinct(row: Fields, k: string, v: Cell)
    requires NoDuplicates(Keys(row))
    ensures NoDuplicates(Keys(SetField(row, k, v)))
  {
  }

  lemma {:induction false} SetColumnsDistinct(row: Fields, cs: seq<Column>)
    requires NoDuplicates(Keys(row))
    ensures NoDuplicates(Keys(SetColumns(row, cs)))
  {
    if cs != [] {
      SetColumnsDistinct(row, cs[..|cs| - 1]);
      SetFieldDistinct(SetColumns(row, cs[..|cs| - 1]), cs[|cs| - 1].name, cs[|cs| - 1].value);
    }
  }

  /** Setting the same columns twice gives what setting them once gives, so a row that occurs
      twice in the table ends up the same. */
  lemma SetColumnsIdempotent(row: Fields, cs: seq<Column>)
    requires NoDuplicates(Keys(row))
    ensures SetColumns(SetColumns(row, cs), cs) == SetColumns(row, cs)
  {
    var once := SetColumns(row, cs);
    var twice := SetColumns(once, cs);
    SetColumnsSound(row, cs);
    SetColumnsSound(once, cs);
    SetColumnsDistinct(row, cs);
    SetColumnsDistinct(once, cs);
    forall j | 0 <= j < |cs| ensures cs[j].name in Keys(once) {
      MapSeqAt(NameOf, cs, j);
    }
    SetColumnsKeepsKeys(once, cs);
    forall k ensures Lookup(twice, k) == Lookup(once, k) {
    }
    FieldsExt(twice, once);
  }

  /** Setting columns that the row already has keeps its names as they are. */
  lemma {:induction false} SetColumnsKeepsKeys(row: Fields, cs: seq<Column>)
    requires forall j :: 0 <= j < |cs| ==> cs[j].name in Keys(row)
    ensures Keys(SetColumns(row, cs)) == Keys(row)
  {
    if cs != [] {
      SetColumnsKeepsKeys(row, cs[..|cs| - 1]);
    }
  }

  /** A row object of a table, whose properties addColumns sets in place. */
  class RowObject {
    var fields: Fields

    constructor (fields: Fields)
      ensures this.fields == fields
    {
      this.fields := fields;
    }
  }

  /** The inner forEach: the columns are set on one row object. */
  method SetAll(row: RowObject, cs: seq<Column>)
    modifies row
    ensures row.fields == SetColumns(old(row.fields), cs)
  {
    for j := 0 to |cs|
      invariant row.fields == SetColumns(old(row.fields), cs[..j])
    {
      assert cs[..j + 1][..j] == cs[..j];
      row.fields := SetField(row.fields, cs[j].name, cs[j].value);
    }
    assert cs[..|cs|] == cs;
  }

  /** The fields of every row object of a table, in order. */
  ghost function FieldsOf(table: seq<RowObject>): (r: seq<Fields>)
    reads set i | 0 <= i < |table| :: table[i]
    ensures |r| == |table| && forall i :: 0 <= i < |table| ==> r[i] == table[i].fields
  {
    if table == [] then [] else [table[0].fields] + FieldsOf(table[1..])
  }

  /** The fields of the `j`-th row object once the first `i` entries have been visited: set
      when that object is among them, otherwise as before. */
  ghost function Expected(table: seq<RowObject>, before: seq<Fields>, cs: seq<Column>, i: nat, j: nat): Fields
    requires i <= |table| == |before| && j < |table|
  {
    if table[j] in table[..i] then SetColumns(before[j], cs) else before[j]
  }

  /** Visiting entry `i` sets the columns on that object, whichever entries hold it, and leaves
      every other object as it was. */
  lemma ExpectedStep(table: seq<RowObject>, before: seq<Fields>, cs: seq<Column>, i: nat, j: nat)
    requires i < |table| == |before| && j < |table|
    requires forall k :: 0 <= k < |table| && table[k] == table[i] ==> before[k] == before[i]
    requires NoDuplicates(Keys(before[i]))
    ensures table[j] == table[i] ==> Expected(table, before, cs, i + 1, j) == SetColumns(Expected(table, before, cs, i, i), cs)
    ensures table[j] != table[i] ==> Expected(table, before, cs, i + 1, j) == Expected(table, before, cs, i, j)
  {
    assert table[..i + 1] == table[..i] + [table[i]];
    if table[i] in table[..i] {
      SetColumnsIdempotent(before[i], cs);
    }
  }

  /** addColumns: every row object gets the columns, and the same objects are returned. */
  method AddColumns(table: seq<RowObject>, cs: seq<Column>) returns (r: seq<RowObject>)
    requires forall i :: 0 <= i < |table| ==> NoDuplicates(Keys(table[i].fields))
    modifies set i | 0 <= i < |table| :: table[i]
    ensures r == table
    ensures forall i :: 0 <= i < |table| ==> table[i].fields == SetColumns(old(table[i].fields), cs)
  {
    ghost var before := FieldsOf(table);
    for i := 0 to |table|
      invariant forall j :: 0 <= j < |table| ==> table[j].fields == Expected(table, before, cs, i, j)
    {
      var row := table[i];
      SetAll(row, cs);
      forall j | 0 <= j < |table|
        ensures table[j].fields == Expected(table, before, cs, i + 1, j)
      {
        ExpectedStep(table, before, cs, i, j);
      }
    }
    forall j | 0 <= j < |table|
      ensures table[j].fields == SetColumns(before[j], cs)
    {
      assert table[..|table|] == table;
    }
    r := table;
  }
}

/**
 * The heading-convention parser of a note (class ParsingBuffer of src/parsing-buffer.ts;
 * main.ts holds a copy that is the same line for line). A buffer is a snapshot of one note:
 * its text, the headings and sections of the editor's metadata cache, and the offsets at
 * which the note's lines start. The parser finds the stakeholder table under a heading, and
 * reads a team description (team, owners, members, channels) laid out as headings.
 */
module Outline {
  import opened Js
  import opened MarkdownTable
  import opened Teams

  /** A heading of the metadata cache: its text, its level (1 for `#`), the line it starts
      on and the character offset at which it starts. */
  datatype Heading = Heading(text: string, level: int, line: nat, offset: nat)

  /** A block of the note: its type ("heading", "table", "code", "paragraph", ...), the
      character offsets where it starts and ends, and the line it starts on. */
  datatype Section = Section(kind: string, start: nat, end: nat, line: nat)

  // ---------------------------------------------------------------- getStakeholders

  /** `headings.find(h => h.heading === name)`. */
  function FindHeading(headings: seq<Heading>, name: string): (r: Option<Heading>)
    ensures r.None? <==> forall k :: 0 <= k < |headings| ==> headings[k].text != name
    ensures r.Some? ==> r.value in headings && r.value.text == name
  {
    if headings == [] then None
    else if headings[0].text == name then Some(headings[0])
    else FindHeading(headings[1..], name)
  }

  /** The scan of getStakeholders from section `i` on: a heading section at `offset` sends the
      scan to the section after it, which is the answer when it is a table and is skipped
      over otherwise. */
  function TableAfter(sections: seq<Section>, offset: nat, i: nat): (r: Option<nat>)
    ensures r.Some? ==> i < r.value < |sections|
    decreases |sections| - i
  {
    if i >= |sections| then None
    else if sections[i].kind == "heading" && sections[i].start == offset then
      if i + 1 < |sections| && sections[i + 1].kind == "table" then Some(i + 1)
      else TableAfter(sections, offset, i + 2)
    else TableAfter(sections, offset, i + 1)
  }

  predicate HeadingAt(sections: seq<Section>, offset: nat, j: nat)
    requires j < |sections|
  {
    sections[j].kind == "heading" && sections[j].start == offset
  }

  /** What the scan finds is a table right after a heading section at `offset`. */
  lemma {:induction false} TableAfterSound(sections: seq<Section>, offset: nat, i: nat)
    requires TableAfter(sections, offset, i).Some?
    ensures var t := TableAfter(sections, offset, i).value;
            i < t < |sections| && HeadingAt(sections, offset, t - 1) && sections[t].kind == "table"
    decreases |sections| - i
  {
    if !(sections[i].kind == "heading" && sections[i].start == offset) {
      TableAfterSound(sections, offset, i + 1);
    } else if !(i + 1 < |sections| && sections[i + 1].kind == "table") {
      TableAfterSound(sections, offset, i + 2);
    }
  }

  /** With a single heading section at `offset`, the scan answers exactly whether the
      section right after it is a table. */
  lemma {:induction false} TableAfterComplete(sections: seq<Section>, offset: nat, i: nat, j: nat)
    requires i <= j < |sections| && HeadingAt(sections, offset, j)
    requires forall k :: i <= k < |sections| && k != j ==> !HeadingAt(sections, offset, k)
    ensures TableAfter(sections, offset, i) ==
              if j + 1 < |sections| && sections[j + 1].kind == "table" then Some(j + 1) else None
    decreases |sections| - i
  {
    if i < j {
      assert !HeadingAt(sections, offset, i);
      TableAfterComplete(sections, offset, i + 1, j);
    } else if !(j + 1 < |sections| && sections[j + 1].kind == "table") {
      TableAfterNone(sections, offset, j + 2);
    }
  }

  lemma {:induction false} TableAfterNone(sections: seq<Section>, offset: nat, i: nat)
    requires forall k :: i <= k < |sections| ==> !HeadingAt(sections, offset, k)
    ensures TableAfter(sections, offset, i) == None
    decreases |sections| - i
  {
    if i < |sections| {
      assert !HeadingAt(sections, offset, i);
      TableAfterNone(sections, offset, i + 1);
    }
  }

  // ---------------------------------------------------------------- parseOptionsSection

  /** The character classes of the option and fence regular expressions. */
  datatype CharClass =
    | Blank        // ` `
    | WordChar     // `\w`: A-Z, a-z, 0-9 and _
    | NonBlank     // `[^ \n]`
    | AnyInLine    // `(.|[\r\n])`: every character except U+2028 and U+2029

  predicate InClass(c: char, k: CharClass) {
    match k
    case Blank => c == ' '
    case WordChar => ('A' <= c <= 'Z') || ('a' <= c <= 'z') || ('0' <= c <= '9') || c == '_'
    case NonBlank => c != ' ' && c != '\n'
    case AnyInLine => c != '\U{2028}' && c != '\U{2029}'
  }

  /** Length of the longest run of class-`k` characters starting at `p` (a greedy `k*`). */
  function RunLength(s: string, p: nat, k: CharClass): (n: nat)
    requires p <= |s|
    ensures p + n <= |s|
    decreases |s| - p
  {
    if p < |s| && InClass(s[p], k) then 1 + RunLength(s, p + 1, k) else 0
  }

  /** The run is all of class `k`, and what follows it is not. */
  lemma {:induction false} RunLengthSpec(s: string, p: nat, k: CharClass)
    requires p <= |s|
    ensures forall i :: p <= i < p + RunLength(s, p, k) ==> InClass(s[i], k)
    ensures p + RunLength(s, p, k) == |s| || !InClass(s[p + RunLength(s, p, k)], k)
    decreases |s| - p
  {
    if p < |s| && InClass(s[p], k) {
      RunLengthSpec(s, p + 1, k);
    }
  }

  /** A ``` starts at position `k`. */
  predicate FenceAt(s: string, k: int) {
    0 <= k && k + 3 <= |s| && s[k] == '`' && s[k + 1] == '`' && s[k + 2] == '`'
  }

  /** The last position in [lo, hi] where a ``` starts. */
  function LastFence(s: string, lo: nat, hi: int): (r: Option<nat>)
    ensures r.Some? ==> lo <= r.value <= hi && FenceAt(s, r.value)
    decreases hi - lo
  {
    if hi < lo then None
    else if FenceAt(s, hi) then Some(hi)
    else LastFence(s, lo, hi - 1)
  }

  /** No ``` starts in [lo, hi] after the one found, and none at all when none is found. */
  lemma {:induction false} LastFenceSpec(s: string, lo: nat, hi: int)
    ensures LastFence(s, lo, hi).Some? ==> forall e :: LastFence(s, lo, hi).value < e <= hi ==> !FenceAt(s, e)
    ensures LastFence(s, lo, hi).None? ==> forall e :: lo <= e <= hi ==> !FenceAt(s, e)
    decreases hi - lo
  {
    if lo <= hi && !FenceAt(s, hi) {
      LastFenceSpec(s, lo, hi - 1);
    }
  }

  /** Where a match of the fence pattern (blanks, ```, `(.|[\r\n])+`, ```, blanks) that
      starts at `p` ends, if one does: blanks,
      an opening ```, then the greedy body, which backs off to the last ``` it can reach,
      then blanks. */
  function FenceMatch(s: string, p: nat): (r: Option<nat>)
    requires p <= |s|
    ensures r.Some? ==> p + 7 <= r.value <= |s|
  {
    var q := p + RunLength(s, p, Blank);
    if !FenceAt(s, q) then None
    else
      var limit := q + 3 + RunLength(s, q + 3, AnyInLine);
      match LastFence(s, q + 4, limit)
      case None => None
      case Some(e) => Some(e + 3 + RunLength(s, e + 3, Blank))
  }

  /** The global replacement of the fence pattern by "", from position `p` on. */
  function StripFencesFrom(s: string, p: nat): string
    requires p <= |s|
    decreases |s| - p
  {
    if p == |s| then ""
    else match FenceMatch(s, p)
      case Some(end) => StripFencesFrom(s, end)
      case None => [s[p]] + StripFencesFrom(s, p + 1)
  }

  function StripFences(s: string): string {
    StripFencesFrom(s, 0)
  }

  /** A match of /^ *:(\w+): *([^ \n]+) *\n/ (no `m` flag, so only at the very start):
      the key, the value and where the match ends. */
  function OptionLine(s: string): (r: Option<(string, string, nat)>)
    ensures r.Some? ==> r.value.2 <= |s|
  {
    OptionAt(s, RunLength(s, 0, Blank))
  }

  /** The option match once the leading blanks, up to position `a`, are skipped: a colon,
      the key, a colon, blanks, then the value. */
  function OptionAt(s: string, a: nat): (r: Option<(string, string, nat)>)
    requires a <= |s|
    ensures r.Some? ==> r.value.2 <= |s|
  {
    if !(a < |s| && s[a] == ':') then None
    else
      var k := RunLength(s, a + 1, WordChar);
      if k == 0 || a + 1 + k == |s| || s[a + 1 + k] != ':' then None
      else
        var r := OptionValueAt(s, a + 1 + k, a + 2 + k + RunLength(s, a + 2 + k, Blank));
        if r.None? then None else Some((s[a + 1..a + 1 + k], r.value.0, r.value.1))
  }

  /** The rest of the option match, from the value at `c` on: the value, blanks and the
      newline; the value and where the match ends. */
  function OptionValueAt(s: string, keyEnd: nat, c: nat): (r: Option<(string, nat)>)
    requires keyEnd < c <= |s|
    ensures r.Some? ==> c < r.value.1 <= |s|
  {
    var v := RunLength(s, c, NonBlank);
    if v == 0 then None
    else
      var d := c + v + RunLength(s, c + v, Blank);
      if d < |s| && s[d] == '\n' then Some((s[c..c + v], d + 1))
      else None
  }

  /** What the option regular expression matches: a key of word characters and a value
      without blanks or newlines, on the first line, which the match ends with. */
  lemma OptionLineSound(s: string, key: string, value: string, end: nat)
    requires OptionLine(s) == Some((key, value, end))
    ensures |key| > 0 && (forall i :: 0 <= i < |key| ==> InClass(key[i], WordChar))
    ensures |value| > 0 && (forall i :: 0 <= i < |value| ==> InClass(value[i], NonBlank))
    ensures 0 < end <= |s| && s[end - 1] == '\n' && forall i :: 0 <= i < end - 1 ==> s[i] != '\n'
  {
    var a := RunLength(s, 0, Blank);
    assert forall i :: 0 <= i < a ==> s[i] != '\n' by {
      RunLengthSpec(s, 0, Blank);
    }
    OptionAtSound(s, a, key, value, end);
  }

  lemma OptionAtSound(s: string, a: nat, key: string, value: string, end: nat)
    requires a <= |s| && OptionAt(s, a) == Some((key, value, end))
    requires forall i :: 0 <= i < a ==> s[i] != '\n'
    ensures |key| > 0 && (forall i :: 0 <= i < |key| ==> InClass(key[i], WordChar))
    ensures |value| > 0 && (forall i :: 0 <= i < |value| ==> InClass(value[i], NonBlank))
    ensures 0 < end <= |s| && s[end - 1] == '\n' && forall i :: 0 <= i < end - 1 ==> s[i] != '\n'
  {
    OptionAtParts(s, a, key, value, end);
    OptionPartsSound(s, a, RunLength(s, a + 1, WordChar), key, value, end);
  }

  /** A match is a colon, a non-empty key run, a colon, then a value match after the blanks. */
  lemma OptionAtParts(s: string, a: nat, key: string, value: string, end: nat)
    requires a <= |s| && OptionAt(s, a) == Some((key, value, end))
    ensures var k := RunLength(s, a + 1, WordChar);
            && k > 0 && a + 1 + k < |s| && s[a] == ':' && s[a + 1 + k] == ':'
            && key == s[a + 1..a + 1 + k]
            && a + 2 + k + RunLength(s, a + 2 + k, Blank) <= |s|
            && OptionValueAt(s, a + 1 + k, a + 2 + k + RunLength(s, a + 2 + k, Blank)) == Some((value, end))
  {
  }

  lemma OptionPartsSound(s: string, a: nat, k: nat, key: string, value: string, end: nat)
    requires a < |s| && k == RunLength(s, a + 1, WordChar) && k > 0 && a + 1 + k < |s| && s[a] == ':' && s[a + 1 + k] == ':'
    requires key == s[a + 1..a + 1 + k]
    requires a + 2 + k + RunLength(s, a + 2 + k, Blank) <= |s|
    requires OptionValueAt(s, a + 1 + k, a + 2 + k + RunLength(s, a + 2 + k, Blank)) == Some((value, end))
    requires forall i :: 0 <= i < a ==> s[i] != '\n'
    ensures |key| > 0 && (forall i :: 0 <= i < |key| ==> InClass(key[i], WordChar))
    ensures |value| > 0 && (forall i :: 0 <= i < |value| ==> InClass(value[i], NonBlank))
    ensures 0 < end <= |s| && s[end - 1] == '\n' && forall i :: 0 <= i < end - 1 ==> s[i] != '\n'
  {
    var c := a + 2 + k + RunLength(s, a + 2 + k, Blank);
    RunOfClass(s, a + 1, WordChar, key);
    NoNewlineBeforeValue(s, a, k);
    OptionValueSound(s, a + 1 + k, c, value, end);
  }

  /** The greedy run, cut out of the text, is all of class `k`. */
  lemma RunOfClass(s: string, p: nat, k: CharClass, run: string)
    requires p <= |s| && run == s[p..p + RunLength(s, p, k)]
    ensures forall i :: 0 <= i < |run| ==> InClass(run[i], k)
  {
    RunLengthSpec(s, p, k);
    assert forall i :: 0 <= i < |run| ==> run[i] == s[p + i];
  }

  /** Blanks, a colon, word characters, a colon and blanks hold no newline. */
  lemma NoNewlineBeforeValue(s: string, a: nat, k: nat)
    requires a + 1 + k < |s| && s[a] == ':' && s[a + 1 + k] == ':'
    requires k == RunLength(s, a + 1, WordChar)
    requires forall i :: 0 <= i < a ==> s[i] != '\n'
    ensures forall i :: 0 <= i < a + 2 + k + RunLength(s, a + 2 + k, Blank) ==> s[i] != '\n'
  {
    var c := a + 2 + k + RunLength(s, a + 2 + k, Blank);
    forall i | a < i < c
      ensures s[i] != '\n'
    {
      if i <= a + k {
        RunLengthSpec(s, a + 1, WordChar);
        assert InClass(s[i], WordChar);
      } else if a + 1 + k < i {
        RunLengthSpec(s, a + 2 + k, Blank);
        assert InClass(s[i], Blank);
      }
    }
  }

  lemma OptionValueSound(s: string, keyEnd: nat, c: nat, value: string, end: nat)
    requires keyEnd < c <= |s| && OptionValueAt(s, keyEnd, c) == Some((value, end))
    requires forall i :: 0 <= i < c ==> s[i] != '\n'
    ensures |value| > 0 && (forall i :: 0 <= i < |value| ==> InClass(value[i], NonBlank))
    ensures c < end <= |s| && s[end - 1] == '\n' && forall i :: 0 <= i < end - 1 ==> s[i] != '\n'
  {
    var v := RunLength(s, c, NonBlank);
    RunLengthSpec(s, c, NonBlank);
    RunLengthSpec(s, c + v, Blank);
    assert forall i :: 0 <= i < v ==> value[i] == s[c + i];
  }

  /** parseOptionsSection: code fences removed, then at most one leading `:key: value` line
      taken as an option, then the first newline turned into a blank, then trimmed. */
  function ParseOptionsSection(description: string): (string, Options) {
    var s := StripFences(description);
    match OptionLine(s)
    case Some((key, value, end)) => (Trim(ReplaceFirst(s[end..], "\n", " ")), [(key, Text(value))])
    case None => (Trim(ReplaceFirst(s, "\n", " ")), [])
  }


  /** A run of class-`k` characters of length `n` at `p`, ended by the text's end or by a
      character outside the class, is the greedy run. */
  lemma RunLengthIs(s: string, p: nat, n: nat, k: CharClass)
    requires p + n <= |s|
    requires forall i :: p <= i < p + n ==> InClass(s[i], k)
    requires p + n == |s| || !InClass(s[p + n], k)
    ensures RunLength(s, p, k) == n
  {
    RunLengthSpec(s, p, k);
  }

  /** No ``` starts anywhere in [p, q). */
  predicate NoFenceIn(s: string, p: int, q: int)
    decreases q - p
  {
    p >= q || (!FenceAt(s, p) && NoFenceIn(s, p + 1, q))
  }

  lemma {:induction false} NoFenceInAt(s: string, p: int, q: int, f: int)
    requires NoFenceIn(s, p, q) && p <= f < q
    ensures !FenceAt(s, f)
    decreases q - p
  {
    if p < f {
      NoFenceInAt(s, p + 1, q, f);
    }
  }

  /** The recursive statement says the same as the quantified one. */
  lemma {:induction false} NoFenceInAll(s: string, p: int, q: int)
    ensures NoFenceIn(s, p, q) <==> forall f :: p <= f < q ==> !FenceAt(s, f)
    decreases q - p
  {
    if p < q {
      NoFenceInAll(s, p + 1, q);
      if NoFenceIn(s, p, q) {
        forall f | p <= f < q ensures !FenceAt(s, f) {
          NoFenceInAt(s, p, q, f);
        }
      }
    }
  }

  /** No line or paragraph separator from `p` on. */
  predicate InLineFrom(s: string, p: nat)
    decreases |s| - p
  {
    p >= |s| || (InClass(s[p], AnyInLine) && InLineFrom(s, p + 1))
  }

  lemma {:induction false} InLineFromAll(s: string, p: nat)
    ensures InLineFrom(s, p) <==> forall i :: p <= i < |s| ==> InClass(s[i], AnyInLine)
    decreases |s| - p
  {
    if p < |s| {
      InLineFromAll(s, p + 1);
    }
  }

  /** With no ``` at or after `p`, the fence pattern matches nowhere from `p` on. */
  lemma {:induction false} NoFenceKeepsText(s: string, p: nat)
    requires p <= |s| && NoFenceIn(s, p, |s|)
    ensures StripFencesFrom(s, p) == s[p..]
    decreases |s| - p
  {
    if p < |s| {
      assert FenceMatch(s, p).None? by {
        var r := RunLength(s, p, Blank);
        if p + r < |s| {
          NoFenceInAt(s, p, |s|, p + r);
        }
      }
      StripStep(s, p);
      NoFenceKeepsText(s, p + 1);
      assert s[p..] == [s[p]] + s[p + 1..];
    }
  }

  lemma StripStep(s: string, p: nat)
    requires p < |s| && FenceMatch(s, p).None?
    ensures StripFencesFrom(s, p) == [s[p]] + StripFencesFrom(s, p + 1)
  {
  }

  lemma FenceMatchAt(s: string, q: nat, e: nat)
    requires FenceAt(s, q) && RunLength(s, q, Blank) == 0
    requires LastFence(s, q + 4, q + 3 + RunLength(s, q + 3, AnyInLine)) == Some(e)
    ensures FenceMatch(s, q) == Some(e + 3 + RunLength(s, e + 3, Blank))
  {
  }

  lemma StripMatch(s: string, p: nat, end: nat)
    requires p < |s| && FenceMatch(s, p) == Some(end)
    ensures StripFencesFrom(s, p) == StripFencesFrom(s, end)
  {
  }

  lemma ConsPrefix(s: string, p: nat, q: nat, t: string)
    requires p < q <= |s|
    ensures [s[p]] + (s[p + 1..q] + t) == s[p..q] + t
  {
    assert s[p..q] == [s[p]] + s[p + 1..q];
  }

  /** Up to the first ```, when no blank comes right before it, the text is kept as it is. */
  lemma {:induction false} KeptBeforeFirstFence(s: string, p: nat, q: nat)
    requires p <= q && FenceAt(s, q) && NoFenceIn(s, p, q)
    requires 0 < q ==> s[q - 1] != ' '
    ensures StripFencesFrom(s, p) == s[p..q] + StripFencesFrom(s, q)
    decreases q - p
  {
    if p < q {
      var r := RunLength(s, p, Blank);
      assert FenceMatch(s, p).None? by {
        RunLengthSpec(s, p, Blank);
        assert p + r < q by {
          assert !InClass(s[q], Blank);
          assert !InClass(s[q - 1], Blank);
        }
        NoFenceInAt(s, p, q, p + r);
      }
      StripStep(s, p);
      KeptBeforeFirstFence(s, p + 1, q);
      ConsPrefix(s, p, q, StripFencesFrom(s, q));
    } else {
      assert s[p..q] + StripFencesFrom(s, q) == StripFencesFrom(s, q);
    }
  }

  /** The last ``` in [lo, hi] is the one after which no other starts. */
  lemma {:induction false} LastFenceIs(s: string, lo: nat, hi: int, e: nat)
    requires lo <= e <= hi && FenceAt(s, e) && NoFenceIn(s, e + 1, hi + 1)
    ensures LastFence(s, lo, hi) == Some(e)
    decreases hi - e
  {
    if e < hi {
      NoFenceInAt(s, e + 1, hi + 1, hi);
      NoFenceInShrink(s, e + 1, hi + 1);
      LastFenceIs(s, lo, hi - 1, e);
    }
  }

  lemma {:induction false} NoFenceInShrink(s: string, p: int, q: int)
    requires p < q && NoFenceIn(s, p, q)
    ensures NoFenceIn(s, p, q - 1)
    decreases q - p
  {
    if p + 1 < q {
      NoFenceInShrink(s, p + 1, q);
    }
  }

  /** In a text free of line and paragraph separators from `q` on, the body of a fence
      match that opens at `q` can reach the end of the text. */
  lemma {:induction false} InLineToEnd(s: string, q: nat)
    requires q <= |s| && InLineFrom(s, q)
    ensures q + RunLength(s, q, AnyInLine) == |s|
    decreases |s| - q
  {
    if q < |s| {
      InLineToEnd(s, q + 1);
    }
  }

  /** A fence match at `q` whose body backs off to the ``` at `e` removes everything up to
      the end of that ``` and the blanks after it. */
  lemma StripAtFence(s: string, q: nat, limit: nat, e: nat)
    requires FenceAt(s, q) && limit == q + 3 + RunLength(s, q + 3, AnyInLine)
    requires LastFence(s, q + 4, limit) == Some(e)
    ensures StripFencesFrom(s, q) == StripFencesFrom(s, e + 3 + RunLength(s, e + 3, Blank))
  {
    RunLengthIs(s, q, 0, Blank);
    FenceMatchAt(s, q, e);
    StripMatch(s, q, e + 3 + RunLength(s, e + 3, Blank));
  }

  lemma {:induction false} InLineLater(s: string, p: nat, q: nat)
    requires p <= q && InLineFrom(s, p)
    ensures InLineFrom(s, q)
    decreases q - p
  {
    if p < q && p < |s| {
      InLineLater(s, p + 1, q);
    }
  }

  /** A fence match that opens at `q`, in a text free of line and paragraph separators
      from there on, runs to the end of the last ``` and the blanks after it. */
  lemma MatchToLastFence(s: string, q: nat, e: nat)
    requires FenceAt(s, q) && InLineFrom(s, q)
    requires q + 4 <= e && FenceAt(s, e) && NoFenceIn(s, e + 1, |s|)
    ensures StripFencesFrom(s, q) == StripFencesFrom(s, e + 3 + RunLength(s, e + 3, Blank))
  {
    InLineLater(s, q, q + 3);
    InLineToEnd(s, q + 3);
    NoFenceInGrow(s, e + 1, |s|);
    LastFenceIs(s, q + 4, |s|, e);
    StripAtFence(s, q, |s|, e);
  }

  /** From a ``` that opens a match on, everything up to the end of the last ``` and the
      blanks after it goes. */
  lemma StripFromFirstFence(s: string, q: nat, e: nat, end: nat)
    requires FenceAt(s, q) && InLineFrom(s, q)
    requires q + 4 <= e && FenceAt(s, e) && NoFenceIn(s, e + 1, |s|)
    requires end == e + 3 + RunLength(s, e + 3, Blank)
    ensures StripFencesFrom(s, q) == s[end..]
  {
    MatchToLastFence(s, q, e);
    NoFenceInLater(s, e + 1, end, |s|);
    NoFenceKeepsText(s, end);
  }

  /** No ``` can start in the last two positions. */
  lemma NoFenceInGrow(s: string, p: int, q: int)
    requires p <= q == |s| && NoFenceIn(s, p, q)
    ensures NoFenceIn(s, p, q + 1)
  {
    NoFenceInAll(s, p, q);
    NoFenceInAll(s, p, q + 1);
  }

  lemma {:induction false} NoFenceInLater(s: string, p: int, r: int, q: int)
    requires p <= r && NoFenceIn(s, p, q)
    ensures NoFenceIn(s, r, q)
    decreases r - p
  {
    if p < r && p < q {
      NoFenceInLater(s, p + 1, r, q);
    }
  }

  /** The fence pattern is greedy: within a text free of line and paragraph separators, the
      replacement removes everything from the first ``` to the end of the last one, and the
      blanks after it. */
  lemma FencesRemovedGreedily(s: string, q: nat, e: nat)
    requires FenceAt(s, q) && NoFenceIn(s, 0, q) && (0 < q ==> s[q - 1] != ' ')
    requires q + 4 <= e && FenceAt(s, e) && NoFenceIn(s, e + 1, |s|)
    requires InLineFrom(s, q)
    ensures StripFences(s) == s[..q] + s[e + 3 + RunLength(s, e + 3, Blank)..]
  {
    var end := e + 3 + RunLength(s, e + 3, Blank);
    calc {
      StripFences(s);
      StripFencesFrom(s, 0);
      { KeptBeforeFirstFence(s, 0, q); }
      s[0..q] + StripFencesFrom(s, q);
      { StripFromFirstFence(s, q, e, end); assert s[0..q] == s[..q]; }
      s[..q] + s[end..];
    }
  }

  /** An option line is only recognised at the very start: text that starts with anything
      but a blank or a colon has none. */
  lemma OptionOnlyAtStart(s: string)
    requires |s| > 0 && s[0] != ' ' && s[0] != ':'
    ensures OptionLine(s).None?
  {
    RunLengthIs(s, 0, 0, Blank);
  }

  /** The option line `:key: value` followed by a newline is read back as that key and
      value, and the match ends right after the newline. */
  lemma OptionLineReadsBack(key: string, value: string, rest: string)
    requires |key| > 0 && forall i :: 0 <= i < |key| ==> InClass(key[i], WordChar)
    requires |value| > 0 && forall i :: 0 <= i < |value| ==> InClass(value[i], NonBlank)
    ensures OptionLine(":" + key + ": " + value + "\n" + rest) == Some((key, value, |key| + |value| + 4))
  {
    var s := ":" + key + ": " + value + "\n" + rest;
    OptionLinePieces(key, value, rest);
    RunLengthIs(s, 0, 0, Blank);
    assert OptionLine(s) == OptionAt(s, 0);
    RunOfSlice(s, 1, key, WordChar);
    RunLengthIs(s, |key| + 2, 1, Blank);
    ValueReadsBack(s, |key| + 1, |key| + 3, value);
  }

  lemma OptionLinePieces(key: string, value: string, rest: string)
    requires |value| > 0
    ensures var s := ":" + key + ": " + value + "\n" + rest;
            |s| == |key| + |value| + 4 + |rest| && s[0] == ':' && s[1..1 + |key|] == key
            && s[|key| + 1] == ':' && s[|key| + 2] == ' ' && s[|key| + 3] == value[0]
            && s[|key| + 3..|key| + 3 + |value|] == value && s[|key| + 3 + |value|] == '\n'
  {
  }

  /** A run of class-`k` characters that is a known text `t`, ended by the text's end or a
      character outside the class, is the greedy run. */
  lemma RunOfSlice(s: string, p: nat, t: string, k: CharClass)
    requires p + |t| <= |s| && s[p..p + |t|] == t
    requires forall i :: 0 <= i < |t| ==> InClass(t[i], k)
    requires p + |t| == |s| || !InClass(s[p + |t|], k)
    ensures RunLength(s, p, k) == |t|
  {
    assert forall i :: p <= i < p + |t| ==> s[i] == t[i - p];
    RunLengthIs(s, p, |t|, k);
  }

  lemma ValueReadsBack(s: string, keyEnd: nat, c: nat, value: string)
    requires keyEnd < c && c + |value| < |s| && s[c..c + |value|] == value && s[c + |value|] == '\n'
    requires |value| > 0 && forall i :: 0 <= i < |value| ==> InClass(value[i], NonBlank)
    ensures OptionValueAt(s, keyEnd, c) == Some((value, c + |value| + 1))
  {
    RunOfSlice(s, c, value, NonBlank);
    RunLengthIs(s, c + |value|, 0, Blank);
  }

  /** parseOptionsSection of a fence-free text that starts with an option line: that one
      option, and the rest with its first newline turned into a blank, trimmed. */
  lemma OptionsSectionWithOption(key: string, value: string, rest: string)
    requires |key| > 0 && forall i :: 0 <= i < |key| ==> InClass(key[i], WordChar)
    requires |value| > 0 && forall i :: 0 <= i < |value| ==> InClass(value[i], NonBlank)
    requires var s := ":" + key + ": " + value + "\n" + rest; NoFenceIn(s, 0, |s|)
    ensures ParseOptionsSection(":" + key + ": " + value + "\n" + rest)
            == (Trim(ReplaceFirst(rest, "\n", " ")), [(key, Text(value))])
  {
    var s := ":" + key + ": " + value + "\n" + rest;
    NoFenceKeepsText(s, 0);
    OptionLineReadsBack(key, value, rest);
    assert s[|key| + |value| + 4..] == rest;
  }

  /** parseOptionsSection of a fence-free text without a leading option line: no options,
      and the text with its first newline turned into a blank, trimmed. */
  lemma OptionsSectionWithoutOption(s: string)
    requires |s| > 0 && s[0] != ' ' && s[0] != ':' && NoFenceIn(s, 0, |s|)
    ensures ParseOptionsSection(s) == (Trim(ReplaceFirst(s, "\n", " ")), [])
  {
    NoFenceKeepsText(s, 0);
    OptionOnlyAtStart(s);
  }

  // ---------------------------------------------------------------- parseUserSection

  /** parseUserSection: the e-mail addresses the regular expression finds in the lower-cased
      text, duplicates removed. The regular expression's global match is the parameter
      `emails`, from the text to its matches in order. */
  function ParseUserSection(text: string, emails: string -> seq<string>): seq<string> {
    Dedupe(emails(ToLower(text)))
  }

  /** No upper-case letter. */
  predicate IsLower(s: string) {
    forall i :: 0 <= i < |s| ==> !('A' <= s[i] <= 'Z')
  }

  /** A piece of a lower-cased text is lower case. */
  lemma PieceOfLower(text: string, m: string)
    requires Contains(ToLower(text), m)
    ensures IsLower(m)
  {
    var t := ToLower(text);
    var k := IndexOf(t, m).value;
    assert t[k..k + |m|] == m;
    forall i | 0 <= i < |m| ensures !('A' <= m[i] <= 'Z') {
      assert m[i] == t[k + i] == LowerChar(text[k + i]);
    }
  }

  /** What parseUserSection promises, for any matcher that returns pieces of its input:
      lower-case addresses, each once, exactly the matches, in the order of their first
      match; no match gives the empty list. */
  lemma UserSectionShape(text: string, emails: string -> seq<string>)
    requires forall m :: m in emails(ToLower(text)) ==> Contains(ToLower(text), m)
    ensures var r, ms := ParseUserSection(text, emails), emails(ToLower(text));
            && (forall u :: u in r ==> IsLower(u))
            && NoDuplicates(r)
            && (forall u :: u in r <==> u in ms)
            && (forall i, j :: 0 <= i < j < |r| ==> FirstIndex(ms, r[i]) < FirstIndex(ms, r[j]))
            && (ms == [] ==> r == [])
  {
    var r, ms := ParseUserSection(text, emails), emails(ToLower(text));
    forall u | u in r ensures IsLower(u) {
      PieceOfLower(text, u);
    }
    forall i, j | 0 <= i < j < |r| ensures FirstIndex(ms, r[i]) < FirstIndex(ms, r[j]) {
      DedupeFirstOccurrenceOrder(ms, i, j);
    }
  }

  // ---------------------------------------------------------------- team heading selection

  /** `Number.MAX_SAFE_INTEGER`. */
  const MaxSafeInteger: int := 9007199254740991

  /** `l <= cursor + 1 ? l - cursor : Number.MAX_SAFE_INTEGER` for each button line. */
  function LineDiffs(lines: seq<nat>, cursor: nat): (r: seq<int>)
    ensures |r| == |lines|
    ensures forall i :: 0 <= i < |lines| ==>
              r[i] == if lines[i] <= cursor + 1 then lines[i] - cursor else MaxSafeInteger
  {
    if lines == [] then [] else
      [if lines[0] <= cursor + 1 then lines[0] - cursor else MaxSafeInteger] + LineDiffs(lines[1..], cursor)
  }

  /** `Math.min(...xs)` of a non-empty list. */
  function Min(xs: seq<int>): (m: int)
    requires |xs| > 0
    ensures m in xs && forall i :: 0 <= i < |xs| ==> m <= xs[i]
  {
    if |xs| == 1 then xs[0]
    else var m := Min(xs[1..]); if xs[0] <= m then xs[0] else m
  }

  /** `buttonLines[lineDiffs.indexOf(Math.min(...lineDiffs))]`; `None` is the `undefined`
      that an empty list gives. */
  function ChosenButton(lines: seq<nat>, cursor: nat): (r: Option<nat>)
    ensures r.Some? <==> |lines| > 0
  {
    if lines == [] then None
    else
      var diffs := LineDiffs(lines, cursor);
      Some(lines[FirstIndex(diffs, Min(diffs))])
  }

  /** `headings.findLastIndex(h => h.position.start.line <= line)`. */
  function LastHeadingAtOrBefore(headings: seq<Heading>, line: nat): (r: Option<nat>)
    ensures r.Some? ==> r.value < |headings| && headings[r.value].line <= line
                        && forall k :: r.value < k < |headings| ==> headings[k].line > line
    ensures r.None? ==> forall k :: 0 <= k < |headings| ==> headings[k].line > line
  {
    if headings == [] then None
    else if headings[|headings| - 1].line <= line then Some(|headings| - 1)
    else LastHeadingAtOrBefore(headings[..|headings| - 1], line)
  }

  predicate Ascending(lines: seq<nat>) {
    forall i, j :: 0 <= i < j < |lines| ==> lines[i] <= lines[j]
  }

  /** With the button lines in document order the chosen button is always the first one,
      wherever the cursor is: a button at or above the line below the cursor has the
      smallest difference, and with none there every difference is MAX_SAFE_INTEGER. */
  lemma AlwaysFirstButton(lines: seq<nat>, cursor: nat)
    requires |lines| > 0 && Ascending(lines)
    ensures ChosenButton(lines, cursor) == Some(lines[0])
  {
    var diffs := LineDiffs(lines, cursor);
    forall i | 0 <= i < |lines| ensures diffs[0] <= diffs[i] {
      assert lines[0] <= lines[i];
    }
    assert Min(diffs) == diffs[0];
  }

  /** `if (teamName)`: a string is truthy when it is not empty. */
  predicate Given(name: Option<string>) {
    name.Some? && name.value != ""
  }

  /** The common head of getSectionText's messages. */
  function Expected(prefix: Option<string>, level: int): (m: string)
    ensures StartsWith(m, "Error: Expected heading ")
  {
    var m := "Error: Expected heading " + Shown(prefix) + " at level " + IntToString(level);
    assert m[..24] == "Error: Expected heading ";
    m
  }

  /** `${x}` of an optional string. */
  function Shown(x: Option<string>): string {
    if x.Some? then x.value else "undefined"
  }

  // ---------------------------------------------------------------- the buffer

  /** `a.then(b)` of two results: the values concatenated, or the first failure. */
  function Prepend<T>(acc: seq<T>, r: Result<seq<T>>): (p: Result<seq<T>>)
    ensures p.Fail? <==> r.Fail?
    ensures p.Fail? ==> p.error == r.error
    ensures p.Ok? ==> p.value == acc + r.value
  {
    if r.Fail? then Fail(r.error) else Ok(acc + r.value)
  }

  lemma PrependNothing<T>(r: Result<seq<T>>)
    ensures Prepend([], r) == r
    ensures r.Ok? ==> Prepend(r.value, Ok([])) == r
  {
    if r.Ok? {
      assert [] + r.value == r.value;
      assert r.value + [] == r.value;
    }
  }

  lemma PrependTwice<T>(acc: seq<T>, x: T, r: Result<seq<T>>)
    ensures Prepend(acc, Prepend([x], r)) == Prepend(acc + [x], r)
  {
    if r.Ok? { assert acc + ([x] + r.value) == acc + [x] + r.value; }
  }

  class ParsingBuffer {
    /** The note's text. */
    const text: string
    /** The headings and sections of the note's metadata cache, in document order. */
    const headings: seq<Heading>
    const sections: seq<Section>
    /** The offset at which each line of the text starts (the editor's `posToOffset` at
        column 0). */
    const lineStarts: seq<nat>

    constructor (text: string, headings: seq<Heading>, sections: seq<Section>, lineStarts: seq<nat>)
      ensures this.text == text && this.headings == headings
      ensures this.sections == sections && this.lineStarts == lineStarts
    {
      this.text := text;
      this.headings := headings;
      this.sections := sections;
      this.lineStarts := lineStarts;
    }

    /** `posToOffset({line, ch: 0})`; a line past the end of the note is its end. */
    function LineOffset(line: nat): nat {
      if line < |lineStarts| then lineStarts[line] else |text|
    }

    // ---------------------------------------------------------- getStakeholders

    /** What getStakeholders returns or throws. */
    function Stakeholders(heading: string): Result<seq<Fields>> {
      match FindHeading(headings, heading)
      case None => Fail(Message("No Teams heading."))
      case Some(h) =>
        match TableAfter(sections, h.offset, 0)
        case None => Fail(Message("No table in Teams heading."))
        case Some(t) => ParseTable(Slice(text, sections[t].start, |text|))
    }

    /** getStakeholders: the rows of the table in the section right after the heading
        section of the first heading called `heading`. */
    method GetStakeholders(heading: string) returns (r: Result<seq<Fields>>)
      ensures r == Stakeholders(heading)
    {
      var found := FindHeading(headings, heading);
      if found.None? {
        return Fail(Message("No Teams heading."));
      }
      var offset := found.value.offset;
      var i := 0;
      while i < |sections|
        invariant TableAfter(sections, offset, i) == TableAfter(sections, offset, 0)
        decreases |sections| - i
      {
        if sections[i].kind == "heading" && sections[i].start == offset {
          i := i + 1;
          if i < |sections| && sections[i].kind == "table" {
            assert TableAfter(sections, offset, i - 1) == Some(i);
            return ParseTable(Slice(text, sections[i].start, |text|));
          }
        }
        i := i + 1;
      }
      return Fail(Message("No table in Teams heading."));
    }

    /** getStakeholders throws "No Teams heading." exactly when no heading has that text. */
    lemma NoTeamsHeading(heading: string)
      ensures Stakeholders(heading) == Fail(Message("No Teams heading.")) <==>
                forall k :: 0 <= k < |headings| ==> headings[k].text != heading
    {
      if FindHeading(headings, heading).Some? {
        var h := FindHeading(headings, heading).value;
        match TableAfter(sections, h.offset, 0)
        case None =>
        case Some(t) => ParseTableNeverMessage(Slice(text, sections[t].start, |text|));
      }
    }

    /** With the heading present and a single heading section at its offset,
        getStakeholders throws "No table in Teams heading." exactly when the section after
        that heading section is not a table. */
    lemma NoTableInTeamsHeading(heading: string, j: nat)
      requires FindHeading(headings, heading).Some?
      requires j < |sections| && HeadingAt(sections, FindHeading(headings, heading).value.offset, j)
      requires forall k :: 0 <= k < |sections| && k != j ==>
                 !HeadingAt(sections, FindHeading(headings, heading).value.offset, k)
      ensures Stakeholders(heading) == Fail(Message("No table in Teams heading.")) <==>
                !(j + 1 < |sections| && sections[j + 1].kind == "table")
    {
      var h := FindHeading(headings, heading).value;
      TableAfterComplete(sections, h.offset, 0, j);
      if j + 1 < |sections| && sections[j + 1].kind == "table" {
        ParseTableNeverMessage(Slice(text, sections[j + 1].start, |text|));
      }
    }

    // ---------------------------------------------------------- getSectionText

    /** getSectionText: the text between heading `index`, which must be at `level` and start
        with `prefix` when one is given, and the heading after it. */
    function SectionText(index: nat, level: int, prefix: Option<string>): Result<string> {
      if index >= |headings| then
        Fail(Message(Expected(prefix, level) + " but reached end of text"))
      else
        var h := headings[index];
        if h.level != level || (Given(prefix) && !StartsWith(h.text, prefix.value)) then
          Fail(Message(Expected(prefix, level) + " but got heading " + h.text + " at level " + IntToString(h.level)))
        else if index + 1 >= |headings| then
          Fail(TypeError("Cannot read properties of undefined (reading 'position')"))
        else
          Ok(Slice(text, LineOffset(h.line + 1), LineOffset(headings[index + 1].line)))
    }

    /** getSectionText fails exactly when the heading is missing, has another level, lacks
        the prefix, or is the last heading: the `text.length` alternative is never taken. */
    lemma SectionTextFails(index: nat, level: int, prefix: Option<string>)
      ensures SectionText(index, level, prefix).Fail? <==>
                index + 1 >= |headings| || headings[index].level != level
                || (Given(prefix) && !StartsWith(headings[index].text, prefix.value))
      ensures index + 1 == |headings| && headings[index].level == level
              && !(Given(prefix) && !StartsWith(headings[index].text, prefix.value)) ==>
                SectionText(index, level, prefix).error.TypeError?
    {
    }

    /** A body is the text from the start of the line after the heading to the start of the
        next heading's line. */
    lemma SectionTextBody(index: nat, level: int, prefix: Option<string>)
      requires SectionText(index, level, prefix).Ok?
      requires LineOffset(headings[index].line + 1) <= LineOffset(headings[index + 1].line) <= |text|
      ensures SectionText(index, level, prefix).value ==
                text[LineOffset(headings[index].line + 1)..LineOffset(headings[index + 1].line)]
    {
    }

    // ---------------------------------------------------------- parseMsTeam

    /** The lines of the code sections that contain "label: Update team". */
    function ButtonLines(secs: seq<Section>): seq<nat> {
      if secs == [] then []
      else
        var s := secs[0];
        var rest := ButtonLines(secs[1..]);
        if s.kind == "code" && Contains(Slice(text, s.start, s.end), "label: Update team")
        then [s.line] + rest else rest
    }

    /** The team heading's index and the team name: with a name, the predicate handed to
        `findIndex` is an async function whose promise is always truthy, so the first
        heading is taken; without one, the last heading at or above the chosen button. */
    function TeamIndex(teamName: Option<string>, cursorLine: nat): (r: Result<(nat, string)>)
      ensures r.Ok? ==> r.value.0 < |headings|
    {
      if Given(teamName) then
        if |headings| == 0 then Fail(Message("Error: Cannot find team heading " + teamName.value + "."))
        else Ok((0, teamName.value))
      else
        var missing := Fail(Message("Error: Cannot find team heading (with button below) in context of cursor line "
                                    + NatToString(cursorLine) + "."));
        match ChosenButton(ButtonLines(sections), cursorLine)
        case None => missing
        case Some(line) =>
          match LastHeadingAtOrBefore(headings, line)
          case None => missing
          case Some(i) => Ok((i, headings[i].text))
    }


    /** One pass of the channel loop of parseMsTeam at heading `i`, a heading at
        `level + 1`: the channel and the heading after it. The channel is private, with Owner
        and Member headings, when the heading after it is at `level + 2`. */
    function ChannelAt(i: nat, level: int, emails: string -> seq<string>): (r: Result<(ChannelValue, nat)>)
      requires i < |headings|
      ensures r.Ok? ==> i < r.value.1
    {
      var body :- SectionText(i, level + 1, None);
      ChannelFrom(i, level, ParseOptionsSection(body), emails)
    }

    /** The channel at heading `i` once its description and options are parsed. */
    function ChannelFrom(i: nat, level: int, parsed: (string, Options), emails: string -> seq<string>)
      : (r: Result<(ChannelValue, nat)>)
      requires i < |headings|
      ensures r.Ok? ==> i < r.value.1
    {
      if i + 1 < |headings| && headings[i + 1].level == level + 2 then
        match SectionText(i + 1, level + 2, Some("Owner"))
        case Fail(e) => Fail(e)
        case Ok(owners) =>
          match SectionText(i + 2, level + 2, Some("Member"))
          case Fail(e) => Fail(e)
          case Ok(members) =>
            var channel := ChannelValue(headings[i].text, parsed.0, "Private", parsed.1,
                                        ParseUserSection(owners, emails), ParseUserSection(members, emails));
            Ok((channel, i + 3))
      else
        Ok((ChannelValue(headings[i].text, parsed.0, "Standard", parsed.1, [], []), i + 1))
    }

    /** The channel loop of parseMsTeam from heading `i` on: the channels are the following
        headings at `level + 1`, up to the first heading at any other level. */
    function Channels(i: nat, level: int, emails: string -> seq<string>): Result<seq<ChannelValue>>
      decreases |headings| - i
    {
      if i >= |headings| || headings[i].level != level + 1 then Ok([])
      else
        var step :- ChannelAt(i, level, emails);
        Prepend([step.0], Channels(step.1, level, emails))
    }

    /** The team's Owner and Member headings come right after the team heading, one level
        deeper, and another heading follows them; the team heading's own text is read the
        same way, and that is all reading the team's own part needs. Its options never keep
        an `ID`. */
    lemma TeamHeadLayout(index: nat, emails: string -> seq<string>)
      requires index < |headings|
      ensures var level := headings[index].level;
              TeamHead(index, emails).Ok? <==>
                && index + 3 < |headings|
                && headings[index + 1].level == level + 1
                && StartsWith(headings[index + 1].text, "Owner")
                && headings[index + 2].level == level + 1
                && StartsWith(headings[index + 2].text, "Member")
    {
      var level := headings[index].level;
      TeamHeadSections(index, emails);
      SectionTextFails(index, level, None);
      SectionTextFails(index + 1, level + 1, Some("Owner"));
      SectionTextFails(index + 2, level + 1, Some("Member"));
    }

    /** Reading the team's own part fails exactly when one of its three sections does. */
    lemma TeamHeadSections(index: nat, emails: string -> seq<string>)
      requires index < |headings|
      ensures var level := headings[index].level;
              TeamHead(index, emails).Ok? <==>
                && SectionText(index, level, None).Ok?
                && SectionText(index + 1, level + 1, Some("Owner")).Ok?
                && SectionText(index + 2, level + 1, Some("Member")).Ok?
    {
    }

    /** The team's own part keeps no `ID` option, and the `ID` it reports is the option's
        value when that is a non-empty text. */
    lemma TeamHeadWithoutId(index: nat, emails: string -> seq<string>)
      requires index < |headings| && TeamHead(index, emails).Ok?
      ensures var head := TeamHead(index, emails).value;
              var options := ParseOptionsSection(SectionText(index, headings[index].level, None).value).1;
              && "ID" !in Keys(head.options)
              && (forall e :: e in head.options <==> e in options && e.0 != "ID")
              && (head.id.Some? <==> "ID" in Keys(options))
              && head.channels == []
    {
      var s := StripFences(SectionText(index, headings[index].level, None).value);
      match OptionLine(s)
      case Some((key, value, end)) => OptionLineSound(s, key, value, end);
      case None =>
    }

    /** A channel heading is read when a heading follows it. The channel is private exactly
        when that heading is one level deeper; then it must be its Owner heading, followed by
        its Member heading and one more heading, and the loop goes on after them. Otherwise
        the channel is standard, without owners or members, and the loop goes on with the
        next heading. The channel's name is its heading's text. */
    lemma ChannelLayout(i: nat, level: int, emails: string -> seq<string>)
      requires i < |headings| && headings[i].level == level + 1
      ensures var private := i + 1 < |headings| && headings[i + 1].level == level + 2;
              ChannelAt(i, level, emails).Ok? <==>
                i + 1 < |headings|
                && (private ==> i + 3 < |headings| && StartsWith(headings[i + 1].text, "Owner")
                                && headings[i + 2].level == level + 2
                                && StartsWith(headings[i + 2].text, "Member"))
      ensures ChannelAt(i, level, emails).Ok? ==>
                var (c, next) := ChannelAt(i, level, emails).value;
                var private := headings[i + 1].level == level + 2;
                && c.displayName == headings[i].text
                && (c.membershipType == "Private" <==> private)
                && (private ==> next == i + 3)
                && (!private ==> c.membershipType == "Standard" && c.owners == [] && c.members == []
                                 && next == i + 1)
    {
      SectionTextFails(i, level + 1, None);
      var body := SectionText(i, level + 1, None);
      if body.Ok? {
        SectionTextFails(i + 1, level + 2, Some("Owner"));
        SectionTextFails(i + 2, level + 2, Some("Member"));
      }
    }

    /** Every channel is named after a heading one level below the team, at or after `i`. */
    lemma {:induction false} ChannelsFromHeadings(i: nat, level: int, emails: string -> seq<string>)
      ensures Channels(i, level, emails).Ok? ==>
                forall c :: c in Channels(i, level, emails).value ==>
                  exists k :: i <= k < |headings| && headings[k].level == level + 1
                              && headings[k].text == c.displayName
      decreases |headings| - i
    {
      if i < |headings| && headings[i].level == level + 1 {
        var step := ChannelAt(i, level, emails);
        if step.Ok? {
          ChannelLayout(i, level, emails);
          ChannelsFromHeadings(step.value.1, level, emails);
        }
      }
    }

    /** The team heading's own part of parseMsTeam: its description and options (without
        `ID`), the `ID` option, the line where an `:ID:` line is to be inserted when there is
        none, and the Owner and Member headings right after it. */
    function TeamHead(index: nat, emails: string -> seq<string>): Result<TeamValue>
      requires index < |headings|
    {
      var level := headings[index].level;
      var body :- SectionText(index, level, None);
      var (description, options) := ParseOptionsSection(body);
      var id := match GetOption(options, "ID") case Some(Text(s)) => if s == "" then None else Some(s)
                                               case _ => None;
      var owners :- SectionText(index + 1, level + 1, Some("Owner"));
      var members :- SectionText(index + 2, level + 1, Some("Member"));
      Ok(TeamValue(id, headings[index].text, description, DeleteOption(options, "ID"),
                   ParseUserSection(owners, emails), ParseUserSection(members, emails), []))
    }

    /** What parseMsTeam yields: the team and the line where an `:ID:` option is to be
        inserted (`None` for null when the team has an ID), or the failure it reports. */
    function MsTeam(teamName: Option<string>, cursorLine: nat, emails: string -> seq<string>)
      : Result<(TeamValue, Option<nat>)>
    {
      var picked :- TeamIndex(teamName, cursorLine);
      MsTeamAt(picked.0, picked.1, emails)
    }

    /** parseMsTeam once the team heading `index` is chosen and named `name`. */
    function MsTeamAt(index: nat, name: string, emails: string -> seq<string>)
      : Result<(TeamValue, Option<nat>)>
      requires index < |headings|
    {
      var head :- TeamHead(index, emails);
      MsTeamWith(index, name, head, emails)
    }

    /** parseMsTeam once the team heading's own part `head` is read: its channels follow. */
    function MsTeamWith(index: nat, name: string, head: TeamValue, emails: string -> seq<string>)
      : Result<(TeamValue, Option<nat>)>
      requires index < |headings|
    {
      var channels :- Channels(index + 3, headings[index].level, emails);
      Ok((head.(displayName := name, channels := channels),
          if head.id.Some? then None else Some(headings[index].line + 1)))
    }

    /** With a team name, the first heading is taken as the team heading whatever its text,
        and the team is named as given; only a note without headings gives the error. */
    lemma NamedTeamIsFirstHeading(teamName: Option<string>, cursorLine: nat, emails: string -> seq<string>)
      requires Given(teamName)
      ensures |headings| > 0 ==> MsTeam(teamName, cursorLine, emails) == MsTeamAt(0, teamName.value, emails)
      ensures |headings| == 0 ==>
                MsTeam(teamName, cursorLine, emails)
                == Fail(Message("Error: Cannot find team heading " + teamName.value + "."))
    {
    }

    /** Without a team name, and with the code sections in document order, the team
        heading is the last heading at or above the first button, wherever the cursor is. */
    lemma UnnamedTeamAtFirstButton(teamName: Option<string>, cursorLine: nat)
      requires !Given(teamName)
      requires |ButtonLines(sections)| > 0 && Ascending(ButtonLines(sections))
      ensures var last := LastHeadingAtOrBefore(headings, ButtonLines(sections)[0]);
              && (TeamIndex(teamName, cursorLine).Ok? <==> last.Some?)
              && (last.Some? ==> TeamIndex(teamName, cursorLine).value == (last.value, headings[last.value].text))
    {
      AlwaysFirstButton(ButtonLines(sections), cursorLine);
    }

    /** What parseMsTeam yields on success: the team read below the chosen heading `index`,
        named `name`, with its channels, no `ID` among its options, and an insertion line, the
        line after the team heading, exactly when the team has no ID. */
    lemma MsTeamShape(teamName: Option<string>, cursorLine: nat, emails: string -> seq<string>,
                      index: nat, name: string, team: TeamValue, idInsertLine: Option<nat>)
      requires TeamIndex(teamName, cursorLine) == Ok((index, name))
      requires MsTeam(teamName, cursorLine, emails) == Ok((team, idInsertLine))
      ensures index < |headings| && TeamHead(index, emails).Ok?
      ensures Channels(index + 3, headings[index].level, emails) == Ok(team.channels)
      ensures team.displayName == name && "ID" !in Keys(team.options)
      ensures idInsertLine.Some? <==> team.id.None?
      ensures idInsertLine.Some? ==> idInsertLine.value == headings[index].line + 1
    {
      assert MsTeam(teamName, cursorLine, emails) == MsTeamAt(index, name, emails);
      var head := TeamHead(index, emails).value;
      MsTeamWithShape(index, name, head, emails, team, idInsertLine);
    }

    lemma MsTeamWithShape(index: nat, name: string, head: TeamValue, emails: string -> seq<string>,
                          team: TeamValue, idInsertLine: Option<nat>)
      requires index < |headings| && TeamHead(index, emails) == Ok(head)
      requires MsTeamAt(index, name, emails) == Ok((team, idInsertLine))
      ensures Channels(index + 3, headings[index].level, emails) == Ok(team.channels)
      ensures team.displayName == name && "ID" !in Keys(team.options)
      ensures idInsertLine.Some? <==> team.id.None?
      ensures idInsertLine.Some? ==> idInsertLine.value == headings[index].line + 1
    {
      assert MsTeamAt(index, name, emails) == MsTeamWith(index, name, head, emails);
      MsTeamWithChannels(index, name, head, emails);
      TeamHeadWithoutId(index, emails);
    }

    /** One pass of the channel loop keeps its invariant: the channels read so far, then
        the channels from the next heading on, are the channels from `start` on. */
    lemma ChannelsStep(start: nat, k: nat, values: seq<ChannelValue>, level: int,
                       emails: string -> seq<string>)
      requires k < |headings| && headings[k].level == level + 1
      requires Channels(start, level, emails) == Prepend(values, Channels(k, level, emails))
      ensures ChannelAt(k, level, emails).Fail? ==>
                Channels(start, level, emails) == Fail(ChannelAt(k, level, emails).error)
      ensures ChannelAt(k, level, emails).Ok? ==>
                var step := ChannelAt(k, level, emails).value;
                Channels(start, level, emails) == Prepend(values + [step.0], Channels(step.1, level, emails))
    {
      var c := ChannelAt(k, level, emails);
      if c.Ok? {
        PrependTwice(values, c.value.0, Channels(c.value.1, level, emails));
      }
    }

    /** The channel loop of parseMsTeam, from heading `start` on: the channels, or the
        failure of the first channel that fails. */
    method ReadChannels(start: nat, level: int, emails: string -> seq<string>)
      returns (r: Result<seq<ChannelValue>>)
      ensures r == Channels(start, level, emails)
    {
      var values: seq<ChannelValue> := [];
      var k := start;
      PrependNothing(Channels(start, level, emails));
      while k < |headings| && headings[k].level == level + 1
        invariant start <= k
        invariant Channels(start, level, emails) == Prepend(values, Channels(k, level, emails))
        decreases |headings| - k
      {
        ChannelsStep(start, k, values, level, emails);
        var step :- ChannelAt(k, level, emails);
        values := values + [step.0];
        k := step.1;
      }
      PrependNothing(Ok(values));
      return Ok(values);
    }

    lemma MsTeamWithChannels(index: nat, name: string, head: TeamValue, emails: string -> seq<string>)
      requires index < |headings|
      ensures var cs := Channels(index + 3, headings[index].level, emails);
              MsTeamWith(index, name, head, emails)
              == if cs.Fail? then Fail(cs.error)
                 else Ok((head.(displayName := name, channels := cs.value),
                          if head.id.Some? then None else Some(headings[index].line + 1)))
    {}

    /** parseMsTeam: the team below the given team name, or below the button the cursor
        selects; every failure is caught, shown and turned into `undefined`, here `Fail`. */
    method ParseMsTeam(teamName: Option<string>, cursorLine: nat, emails: string -> seq<string>)
      returns (r: Result<(Team, Option<nat>)>)
      ensures r.Fail? <==> MsTeam(teamName, cursorLine, emails).Fail?
      ensures r.Fail? ==> r.error == MsTeam(teamName, cursorLine, emails).error
      ensures r.Ok? ==> TeamValueOf(r.value.0) == MsTeam(teamName, cursorLine, emails).value.0
                        && r.value.1 == MsTeam(teamName, cursorLine, emails).value.1
                        && forall c :: c in r.value.0.channels ==> fresh(c)
    {
      var picked :- TeamIndex(teamName, cursorLine);
      assert MsTeam(teamName, cursorLine, emails) == MsTeamAt(picked.0, picked.1, emails);
      var index := picked.0;
      var head :- TeamHead(index, emails);
      assert MsTeamAt(index, picked.1, emails) == MsTeamWith(index, picked.1, head, emails);
      var idInsertLine: Option<nat> := if head.id.Some? then None else Some(headings[index].line + 1);
      MsTeamWithChannels(index, picked.1, head, emails);
      var values :- ReadChannels(index + 3, headings[index].level, emails);
      var channels := NewChannels(values);
      var team := Team(head.id, picked.1, head.description, head.options, head.owners, head.members, channels);
      return Ok((team, idInsertLine));
    }
  }

  /** A fresh channel object for each channel, in order. */
  method NewChannels(values: seq<ChannelValue>) returns (cs: seq<Channel>)
    ensures ChannelValues(cs) == values
    ensures forall c :: c in cs ==> fresh(c)
  {
    cs := [];
    for j := 0 to |values|
      invariant |cs| == j
      invariant forall i :: 0 <= i < j ==> fresh(cs[i]) && cs[i].Value() == values[i]
    {
      var c := new Channel(values[j]);
      cs := cs + [c];
    }
    ChannelValuesAre(cs, values);
  }

  lemma ChannelValuesAre(cs: seq<Channel>, vs: seq<ChannelValue>)
    requires |cs| == |vs| && forall j :: 0 <= j < |cs| ==> cs[j].Value() == vs[j]
    ensures ChannelValues(cs) == vs
  {
  }

  /** parseTable only ever fails with a TypeError, never with a thrown message. */
  lemma ParseTableNeverMessage(markdown: string)
    ensures ParseTable(markdown).Fail? ==> ParseTable(markdown).error.TypeError?
  {
  }
}

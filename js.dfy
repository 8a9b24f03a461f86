/**
 * The pieces of JavaScript string and array semantics that the plugin's code relies on:
 * failures (thrown strings and runtime TypeErrors), String.prototype.trim, split, join,
 * startsWith, includes, slice, Array.prototype.filter(Boolean) on strings, `[...new Set(xs)]`
 * and number-to-string conversion of integers.
 */
module Js {

  datatype Option<+T> = None | Some(value: T)

  /** What a JavaScript `throw` carries: a thrown string, or a runtime TypeError
      (reading a property of `undefined`). */
  datatype Thrown = Message(text: string) | TypeError(what: string)

  datatype Result<+T> = Ok(value: T) | Fail(error: Thrown) {
    predicate IsFailure() { Fail? }
    function PropagateFailure<U>(): Result<U> requires Fail? { Fail(error) }
    function Extract(): T requires Ok? { value }
  }

  /** WhiteSpace and LineTerminator code points of ECMAScript, the set `trim` removes
      and `\s` matches. */
  predicate IsWhitespace(c: char) {
    c == '\t' || c == '\n' || c == '\U{000B}' || c == '\U{000C}' || c == '\r' || c == ' '
    || c == '\U{00A0}' || c == '\U{1680}' || ('\U{2000}' <= c <= '\U{200A}')
    || c == '\U{2028}' || c == '\U{2029}' || c == '\U{202F}' || c == '\U{205F}'
    || c == '\U{3000}' || c == '\U{FEFF}'
  }

  /** LineTerminator code points: the characters a regular expression `.` does not match. */
  predicate IsLineTerminator(c: char) {
    c == '\n' || c == '\r' || c == '\U{2028}' || c == '\U{2029}'
  }

  predicate AllWhitespace(s: string) {
    forall i :: 0 <= i < |s| ==> IsWhitespace(s[i])
  }

  /** Neither starts nor ends with whitespace. */
  predicate Trimmed(s: string) {
    |s| == 0 || (!IsWhitespace(s[0]) && !IsWhitespace(s[|s| - 1]))
  }

  /** String.prototype.trim: whitespace is removed from both ends, one character at a time,
      until neither end is whitespace. */
  function Trim(s: string): (r: string)
    ensures |r| <= |s|
    ensures Trimmed(r)
    decreases |s|
  {
    if |s| > 0 && IsWhitespace(s[0]) then Trim(s[1..])
    else if |s| > 0 && IsWhitespace(s[|s| - 1]) then Trim(s[..|s| - 1])
    else s
  }

  /** How many characters trim removes from the front of `s`. */
  function TrimOffset(s: string): (n: nat)
    decreases |s|
  {
    if |s| > 0 && IsWhitespace(s[0]) then 1 + TrimOffset(s[1..])
    else if |s| > 0 && IsWhitespace(s[|s| - 1]) then TrimOffset(s[..|s| - 1])
    else 0
  }

  /** What trim keeps is the piece of the string at TrimOffset, with only whitespace before
      and after it. */
  lemma {:induction false} TrimIsInfix(s: string)
    ensures TrimOffset(s) + |Trim(s)| <= |s|
    ensures s[TrimOffset(s)..TrimOffset(s) + |Trim(s)|] == Trim(s)
    ensures AllWhitespace(s[..TrimOffset(s)])
    ensures AllWhitespace(s[TrimOffset(s) + |Trim(s)|..])
    decreases |s|
  {
    if |s| > 0 && IsWhitespace(s[0]) {
      TrimDropsFront(s);
    } else if |s| > 0 && IsWhitespace(s[|s| - 1]) {
      TrimDropsBack(s);
    }
  }

  lemma {:induction false} TrimDropsFront(s: string)
    requires |s| > 0 && IsWhitespace(s[0])
    ensures TrimOffset(s) + |Trim(s)| <= |s|
    ensures s[TrimOffset(s)..TrimOffset(s) + |Trim(s)|] == Trim(s)
    ensures AllWhitespace(s[..TrimOffset(s)])
    ensures AllWhitespace(s[TrimOffset(s) + |Trim(s)|..])
    decreases |s|, 0
  {
    var tail := s[1..];
    var r := Trim(tail);
    var i := TrimOffset(tail);
    TrimIsInfix(tail);
    assert Trim(s) == r && TrimOffset(s) == i + 1;
    DropSlice(s, 1, i, i + |r|);
    assert AllWhitespace(s[..i + 1]) by {
      assert s[..i + 1] == [s[0]] + tail[..i];
    }
  }

  lemma {:induction false} TrimDropsBack(s: string)
    requires |s| > 0 && !IsWhitespace(s[0]) && IsWhitespace(s[|s| - 1])
    ensures TrimOffset(s) + |Trim(s)| <= |s|
    ensures s[TrimOffset(s)..TrimOffset(s) + |Trim(s)|] == Trim(s)
    ensures AllWhitespace(s[..TrimOffset(s)])
    ensures AllWhitespace(s[TrimOffset(s) + |Trim(s)|..])
    decreases |s|, 0
  {
    var init := s[..|s| - 1];
    var r := Trim(init);
    var i := TrimOffset(init);
    TrimIsInfix(init);
    assert Trim(s) == r && TrimOffset(s) == i;
    TakeSlice(s, |s| - 1, i, i + |r|);
    assert AllWhitespace(s[i + |r|..]) by {
      assert s[i + |r|..] == init[i + |r|..] + [s[|s| - 1]];
    }
  }

  /** Slicing what is left after dropping `k` elements is slicing the original `k` further on. */
  lemma DropSlice<T>(s: seq<T>, k: nat, a: nat, b: nat)
    requires k + b <= |s| && a <= b
    ensures s[k..][a..b] == s[k + a..k + b]
    ensures s[k..][b..] == s[k + b..]
  {
  }

  /** Slicing inside a prefix is slicing the whole sequence. */
  lemma TakeSlice<T>(s: seq<T>, k: nat, a: nat, b: nat)
    requires a <= b <= k <= |s|
    ensures s[..k][a..b] == s[a..b]
    ensures s[..k][..a] == s[..a]
  {
  }

  lemma {:induction false} TrimOfTrimmed(s: string)
    requires Trimmed(s)
    ensures Trim(s) == s
  {
  }

  lemma TrimIdempotent(s: string)
    ensures Trim(Trim(s)) == Trim(s)
  {
    TrimOfTrimmed(Trim(s));
  }

  predicate StartsWith(s: string, prefix: string) {
    |prefix| <= |s| && s[..|prefix|] == prefix
  }

  predicate EndsWith(s: string, suffix: string) {
    |suffix| <= |s| && s[|s| - |suffix|..] == suffix
  }

  lemma EndsWithAppend(s: string, suffix: string)
    ensures EndsWith(s + suffix, suffix)
  {
    assert (s + suffix)[|s|..] == suffix;
  }

  predicate OccursAt(s: string, pat: string, k: int) {
    0 <= k && k + |pat| <= |s| && s[k..k + |pat|] == pat
  }

  /** The first index at or after `from` where `pat` occurs (String.prototype.indexOf). */
  function IndexOfFrom(s: string, pat: string, from: nat): (r: Option<nat>)
    decreases |s| - from
    ensures r.Some? ==> from <= r.value && OccursAt(s, pat, r.value)
                        && forall k :: from <= k < r.value ==> !OccursAt(s, pat, k)
    ensures r.None? ==> forall k :: from <= k ==> !OccursAt(s, pat, k)
  {
    if from + |pat| > |s| then None
    else if s[from..from + |pat|] == pat then Some(from)
    else IndexOfFrom(s, pat, from + 1)
  }

  function IndexOf(s: string, pat: string): (r: Option<nat>)
    ensures r.Some? ==> OccursAt(s, pat, r.value) && forall k :: 0 <= k < r.value ==> !OccursAt(s, pat, k)
    ensures r.None? ==> forall k :: !OccursAt(s, pat, k)
  {
    IndexOfFrom(s, pat, 0)
  }

  /** String.prototype.includes (the host's `contains`). */
  predicate Contains(s: string, pat: string) {
    IndexOf(s, pat).Some?
  }

  /** String.prototype.split with a non-empty separator: the pieces between the
      left-to-right, non-overlapping occurrences of `sep`. */
  function Split(s: string, sep: string): (r: seq<string>)
    requires |sep| > 0
    decreases |s|
    ensures |r| >= 1
  {
    match IndexOf(s, sep)
    case None => [s]
    case Some(k) => [s[..k]] + Split(s[k + |sep|..], sep)
  }

  /** No piece of a split contains the separator. */
  lemma {:induction false} SplitPiecesFree(s: string, sep: string)
    requires |sep| > 0
    ensures forall i :: 0 <= i < |Split(s, sep)| ==> !Contains(Split(s, sep)[i], sep)
    decreases |s|
  {
    match IndexOf(s, sep)
    case None =>
    case Some(k) =>
      SplitPiecesFree(s[k + |sep|..], sep);
      assert IndexOf(s[..k], sep).None? by {
        forall j ensures !OccursAt(s[..k], sep, j) {
          if OccursAt(s[..k], sep, j) {
            assert s[j..j + |sep|] == s[..k][j..j + |sep|];
            assert OccursAt(s, sep, j);
          }
        }
      }
  }

  /** Array.prototype.join. */
  function Join(xs: seq<string>, sep: string): string {
    if xs == [] then "" else if |xs| == 1 then xs[0] else xs[0] + sep + Join(xs[1..], sep)
  }

  /** Joining the pieces of a split with the same separator gives back the string. */
  lemma {:induction false} JoinSplit(s: string, sep: string)
    requires |sep| > 0
    ensures Join(Split(s, sep), sep) == s
    decreases |s|
  {
    var m := IndexOf(s, sep);
    if m.Some? {
      var k := m.value;
      var rest := s[k + |sep|..];
      var tail := Split(rest, sep);
      Reassemble(s, sep, k);
      JoinSplit(rest, sep);
      assert Split(s, sep) == [s[..k]] + tail;
      JoinCons(s[..k], tail, sep);
    }
  }

  lemma Reassemble(s: string, pat: string, k: int)
    requires OccursAt(s, pat, k)
    ensures s == s[..k] + pat + s[k + |pat|..]
  {
  }

  lemma JoinCons(x: string, xs: seq<string>, sep: string)
    requires |xs| > 0
    ensures Join([x] + xs, sep) == x + sep + Join(xs, sep)
  {
    assert ([x] + xs)[1..] == xs;
  }

  /** A piece that neither contains the separator nor runs into the separator after it
      comes back whole: the first occurrence found is the one right after it. */
  lemma SplitCons(c: string, sep: string, rest: string)
    requires |sep| > 0
    requires forall k :: 0 <= k < |c| ==> !OccursAt(c + sep + rest, sep, k)
    ensures Split(c + sep + rest, sep) == [c] + Split(rest, sep)
  {
    var s := c + sep + rest;
    assert s[|c|..|c| + |sep|] == sep;
    assert OccursAt(s, sep, |c|);
    assert IndexOf(s, sep) == Some(|c|);
    assert s[..|c|] == c && s[|c| + |sep|..] == rest;
  }

  /** `ch` does not occur in `s`. */
  predicate Lacks(s: string, ch: char) {
    forall j :: 0 <= j < |s| ==> s[j] != ch
  }

  /** With a one-character separator that no piece contains, split undoes join. */
  lemma {:induction false} SplitJoinChar(xs: seq<string>, ch: char)
    requires |xs| > 0
    requires forall i :: 0 <= i < |xs| ==> Lacks(xs[i], ch)
    ensures Split(Join(xs, [ch]), [ch]) == xs
  {
    if |xs| == 1 {
      assert forall k :: !OccursAt(xs[0], [ch], k) by {
        forall k ensures !OccursAt(xs[0], [ch], k) {
          if 0 <= k < |xs[0]| { assert xs[0][k..k + 1] == [xs[0][k]]; }
        }
      }
    } else {
      var c := xs[0];
      var rest := Join(xs[1..], [ch]);
      forall k | 0 <= k < |c| ensures !OccursAt(c + [ch] + rest, [ch], k) {
        assert (c + [ch] + rest)[k] == c[k];
      }
      SplitCons(c, [ch], rest);
      SplitJoinChar(xs[1..], ch);
      assert [c] + xs[1..] == xs;
    }
  }

  /** `ch` is absent from a concatenation exactly when it is absent from both parts. */
  lemma LacksConcat(a: string, b: string, ch: char)
    ensures Lacks(a + b, ch) <==> Lacks(a, ch) && Lacks(b, ch)
  {
    if Lacks(a + b, ch) {
      assert forall j :: 0 <= j < |a| ==> a[j] == (a + b)[j];
      assert forall j :: 0 <= j < |b| ==> b[j] == (a + b)[|a| + j];
    }
  }

  /** The first occurrence of `pat` in `a` is still the first one once text is appended. */
  lemma IndexOfExtend(a: string, rest: string, pat: string)
    requires IndexOf(a, pat).Some?
    ensures IndexOf(a + rest, pat) == IndexOf(a, pat)
  {
    var k := IndexOf(a, pat).value;
    var s := a + rest;
    assert s[k..k + |pat|] == a[k..k + |pat|];
    forall j | 0 <= j < k ensures !OccursAt(s, pat, j) {
      assert s[j..j + |pat|] == a[j..j + |pat|];
      assert !OccursAt(a, pat, j);
    }
    assert OccursAt(s, pat, k);
  }

  /** A string without the separator splits into itself alone. */
  lemma SplitLacking(s: string, ch: char)
    requires Lacks(s, ch)
    ensures Split(s, [ch]) == [s]
  {
    forall k | 0 <= k < |s| ensures !OccursAt(s, [ch], k) {
      assert s[k] != ch;
      assert s[k..k + 1] == [s[k]];
    }
  }

  /** With a one-character separator, the pieces of `a + [ch] + b` are the pieces of `a`
      followed by the pieces of `b`. */
  lemma {:induction false} SplitAround(a: string, ch: char, b: string)
    ensures Split(a + [ch] + b, [ch]) == Split(a, [ch]) + Split(b, [ch])
    decreases |a|
  {
    var s := a + [ch] + b;
    match IndexOf(a, [ch])
    case None =>
      forall k | 0 <= k < |a| ensures !OccursAt(s, [ch], k) {
        assert s[k..k + 1] == a[k..k + 1];
        assert !OccursAt(a, [ch], k);
      }
      SplitCons(a, [ch], b);
    case Some(k) =>
      var a1 := a[k + 1..];
      IndexOfExtend(a, [ch] + b, [ch]);
      assert s == a + ([ch] + b);
      assert s[..k] == a[..k];
      assert s[k + 1..] == a1 + [ch] + b;
      SplitAround(a1, ch, b);
  }

  /** The pieces of every string of `xs`, one string after another. */
  function SplitAll(xs: seq<string>, sep: string): (r: seq<string>)
    requires |sep| > 0
    ensures |r| >= |xs|
  {
    if xs == [] then [] else Split(xs[0], sep) + SplitAll(xs[1..], sep)
  }

  lemma {:induction false} SplitAllAppend(xs: seq<string>, ys: seq<string>, sep: string)
    requires |sep| > 0
    ensures SplitAll(xs + ys, sep) == SplitAll(xs, sep) + SplitAll(ys, sep)
  {
    if xs != [] {
      SplitAllAppend(xs[1..], ys, sep);
      assert (xs + ys)[1..] == xs[1..] + ys;
    } else {
      assert xs + ys == ys;
    }
  }

  /** Strings free of the separator come back whole. */
  lemma {:induction false} SplitAllLacking(xs: seq<string>, ch: char)
    requires forall i :: 0 <= i < |xs| ==> Lacks(xs[i], ch)
    ensures SplitAll(xs, [ch]) == xs
  {
    if xs != [] {
      SplitLacking(xs[0], ch);
      SplitAllLacking(xs[1..], ch);
    }
  }

  /** Splitting a join on its one-character separator gives the pieces of the joined
      strings, in order. */
  lemma {:induction false} SplitJoinAll(xs: seq<string>, ch: char)
    requires |xs| > 0
    ensures Split(Join(xs, [ch]), [ch]) == SplitAll(xs, [ch])
  {
    if |xs| > 1 {
      SplitAround(xs[0], ch, Join(xs[1..], [ch]));
      SplitJoinAll(xs[1..], ch);
    } else {
      assert SplitAll(xs, [ch]) == Split(xs[0], [ch]) + SplitAll([], [ch]);
    }
  }

  /** Joining two non-empty lists: the two joins with one separator between them. */
  lemma {:induction false} JoinAppend(xs: seq<string>, ys: seq<string>, sep: string)
    requires |xs| > 0 && |ys| > 0
    ensures Join(xs + ys, sep) == Join(xs, sep) + sep + Join(ys, sep)
  {
    if |xs| > 1 {
      JoinAppend(xs[1..], ys, sep);
      assert (xs + ys)[1..] == xs[1..] + ys;
    } else {
      assert (xs + ys)[1..] == ys;
    }
  }

  /** Array.prototype.filter(Boolean) on strings: drops the empty strings. */
  function NonEmpty(xs: seq<string>): (r: seq<string>)
    ensures forall i :: 0 <= i < |r| ==> |r[i]| > 0
    ensures |r| <= |xs|
  {
    if xs == [] then [] else (if |xs[0]| == 0 then [] else [xs[0]]) + NonEmpty(xs[1..])
  }

  /** filter(Boolean) keeps exactly the non-empty strings. */
  lemma {:induction false} NonEmptyMembers(xs: seq<string>, x: string)
    ensures x in NonEmpty(xs) <==> x in xs && |x| > 0
  {
    if xs != [] {
      NonEmptyMembers(xs[1..], x);
      assert xs == [xs[0]] + xs[1..];
    }
  }

  /** filter(Boolean) works element by element, so it distributes over concatenation. */
  lemma {:induction false} NonEmptyAppend(xs: seq<string>, ys: seq<string>)
    ensures NonEmpty(xs + ys) == NonEmpty(xs) + NonEmpty(ys)
  {
    if xs != [] {
      NonEmptyAppend(xs[1..], ys);
      var first := if |xs[0]| == 0 then [] else [xs[0]];
      assert (xs + ys)[0] == xs[0] && (xs + ys)[1..] == xs[1..] + ys;
      assert NonEmpty(xs + ys) == first + NonEmpty(xs[1..] + ys);
      assert NonEmpty(xs) == first + NonEmpty(xs[1..]);
    } else {
      assert xs + ys == ys;
    }
  }

  /** filter(Boolean) keeps a list of non-empty strings whole. */
  lemma {:induction false} NonEmptyKeeps(xs: seq<string>)
    requires forall i :: 0 <= i < |xs| ==> xs[i] != ""
    ensures NonEmpty(xs) == xs
  {
    if xs != [] {
      NonEmptyKeeps(xs[1..]);
      assert [xs[0]] + xs[1..] == xs;
    }
  }
  /** A prefix one longer is the prefix and the next element. */
  lemma TakeSnoc<T>(s: seq<T>, i: nat)
    requires i < |s|
    ensures s[..i + 1] == s[..i] + [s[i]]
  {
  }

  /** The property names of an object held as its entries in insertion order. */
  function Keys<V>(entries: seq<(string, V)>): (ks: seq<string>)
    ensures |ks| == |entries| && forall i :: 0 <= i < |entries| ==> ks[i] == entries[i].0
  {
    if entries == [] then [] else [entries[0].0] + Keys(entries[1..])
  }

  /** Array.prototype.map. */
  function MapSeq<A, B>(f: A -> B, xs: seq<A>): (r: seq<B>)
    ensures |r| == |xs|
  {
    if xs == [] then [] else [f(xs[0])] + MapSeq(f, xs[1..])
  }

  /** The `i`-th result of map is `f` of the `i`-th element. */
  lemma {:induction false} MapSeqAt<A, B>(f: A -> B, xs: seq<A>, i: nat)
    requires i < |xs|
    ensures MapSeq(f, xs)[i] == f(xs[i])
  {
    if i > 0 {
      MapSeqAt(f, xs[1..], i - 1);
    }
  }

  /** Mapping a list is mapping all but its last element, then the last one. */
  lemma MapSeqSnoc<A, B>(f: A -> B, xs: seq<A>)
    requires |xs| > 0
    ensures MapSeq(f, xs) == MapSeq(f, xs[..|xs| - 1]) + [f(xs[|xs| - 1])]
  {
    var init := xs[..|xs| - 1];
    assert xs == init + [xs[|xs| - 1]];
    MapSeqAppend(f, init, [xs[|xs| - 1]]);
  }

  /** map works element by element, so it distributes over concatenation. */
  lemma {:induction false} MapSeqAppend<A, B>(f: A -> B, xs: seq<A>, ys: seq<A>)
    ensures MapSeq(f, xs + ys) == MapSeq(f, xs) + MapSeq(f, ys)
  {
    if xs != [] {
      MapSeqAppend(f, xs[1..], ys);
      assert (xs + ys)[1..] == xs[1..] + ys;
    } else {
      assert xs + ys == ys;
    }
  }

  /** `xs.map(s => s.trim())`. */
  function TrimAll(xs: seq<string>): (r: seq<string>)
    ensures |r| == |xs| && forall i :: 0 <= i < |xs| ==> r[i] == Trim(xs[i])
  {
    if xs == [] then [] else [Trim(xs[0])] + TrimAll(xs[1..])
  }

  /** Trimming each element gives `ys` when it gives `ys[i]` at every position. */
  lemma TrimAllPointwise(xs: seq<string>, ys: seq<string>)
    requires |xs| == |ys| && forall i :: 0 <= i < |xs| ==> Trim(xs[i]) == ys[i]
    ensures TrimAll(xs) == ys
  {
  }

  /** String.prototype.replace with a string pattern: only the first occurrence is replaced. */
  function ReplaceFirst(s: string, pat: string, repl: string): (r: string)
    ensures IndexOf(s, pat).None? ==> r == s
    ensures IndexOf(s, pat).Some? ==>
              r == s[..IndexOf(s, pat).value] + repl + s[IndexOf(s, pat).value + |pat|..]
  {
    match IndexOf(s, pat)
    case None => s
    case Some(k) => s[..k] + repl + s[k + |pat|..]
  }

  /** String.prototype.toLowerCase, for the letters A to Z. */
  function LowerChar(c: char): char {
    if 'A' <= c <= 'Z' then (c as int + 32) as char else c
  }

  function ToLower(s: string): (r: string)
    ensures |r| == |s| && forall i :: 0 <= i < |s| ==> r[i] == LowerChar(s[i])
  {
    if s == [] then [] else [LowerChar(s[0])] + ToLower(s[1..])
  }

  /** String.prototype.slice: negative positions count from the end, and both positions are
      clamped to the string; an end before the start gives "". */
  function Slice(s: string, start: int, end: int): (r: string)
    ensures |r| <= |s|
    ensures 0 <= start <= end <= |s| ==> r == s[start..end]
    ensures 0 <= start && |s| <= end ==> r == s[if start <= |s| then start else |s|..]
  {
    var a := if start < 0 then (if |s| + start < 0 then 0 else |s| + start)
             else if start > |s| then |s| else start;
    var b := if end < 0 then (if |s| + end < 0 then 0 else |s| + end)
             else if end > |s| then |s| else end;
    if a >= b then "" else s[a..b]
  }

  /** `[...new Set(xs)]`: the distinct elements in order of first occurrence. */
  function Dedupe<T(==,!new)>(xs: seq<T>): (r: seq<T>)
    ensures forall x :: x in r <==> x in xs
    ensures NoDuplicates(r)
    ensures |r| <= |xs|
  {
    if xs == [] then []
    else
      var d := Dedupe(xs[..|xs| - 1]);
      var x := xs[|xs| - 1];
      assert xs == xs[..|xs| - 1] + [x];
      if x in d then d else d + [x]
  }

  predicate NoDuplicates<T(==)>(xs: seq<T>) {
    forall i, j :: 0 <= i < j < |xs| ==> xs[i] != xs[j]
  }

  /** Index of the first occurrence of `x` in `xs` (Array.prototype.indexOf). */
  function FirstIndex<T(==)>(xs: seq<T>, x: T): (k: nat)
    requires x in xs
    ensures k < |xs| && xs[k] == x && forall j :: 0 <= j < k ==> xs[j] != x
  {
    if xs[0] == x then 0 else 1 + FirstIndex(xs[1..], x)
  }

  /** The order `Dedupe` keeps: elements appear as their first occurrences do in the input. */
  lemma {:induction false} DedupeFirstOccurrenceOrder<T(!new)>(xs: seq<T>, i: nat, j: nat)
    requires i < j < |Dedupe(xs)|
    ensures FirstIndex(xs, Dedupe(xs)[i]) < FirstIndex(xs, Dedupe(xs)[j])
  {
    var r := Dedupe(xs);
    var init := xs[..|xs| - 1];
    var d := Dedupe(init);
    var x := xs[|xs| - 1];
    assert xs == init + [x];
    if x in d {
      DedupeFirstOccurrenceOrder(init, i, j);
      FirstIndexPrefix(init, x, d[i]);
      FirstIndexPrefix(init, x, d[j]);
    } else {
      if j < |d| {
        DedupeFirstOccurrenceOrder(init, i, j);
        FirstIndexPrefix(init, x, d[i]);
        FirstIndexPrefix(init, x, d[j]);
      } else {
        assert r[j] == x && x !in init;
        FirstIndexPrefix(init, x, d[i]);
        assert FirstIndex(xs, x) == |xs| - 1;
      }
    }
  }

  lemma FirstIndexPrefix<T>(init: seq<T>, last: T, y: T)
    requires y in init
    ensures FirstIndex(init + [last], y) == FirstIndex(init, y)
  {
    var xs := init + [last];
    var k := FirstIndex(init, y);
    assert forall j :: 0 <= j <= k ==> xs[j] == init[j];
  }

  /** Deduplicating a list without duplicates leaves it unchanged. */
  lemma {:induction false} DedupeOfDistinct<T(!new)>(xs: seq<T>)
    requires NoDuplicates(xs)
    ensures Dedupe(xs) == xs
  {
    if xs != [] {
      var init := xs[..|xs| - 1];
      DedupeOfDistinct(init);
      assert xs == init + [xs[|xs| - 1]];
    }
  }

  /** Appending elements that are already there changes nothing. */
  lemma {:induction false} DedupeAbsorbs<T(!new)>(d: seq<T>, ys: seq<T>)
    requires NoDuplicates(d) && forall y :: y in ys ==> y in d
    ensures Dedupe(d + ys) == d
  {
    if ys == [] {
      assert d + ys == d;
      DedupeOfDistinct(d);
    } else {
      var init := ys[..|ys| - 1];
      DedupeAbsorbs(d, init);
      assert d + ys == (d + init) + [ys[|ys| - 1]];
      assert (d + ys)[..|d + ys| - 1] == d + init;
    }
  }

  lemma DedupeIdempotent<T(!new)>(xs: seq<T>)
    ensures Dedupe(Dedupe(xs)) == Dedupe(xs)
  {
    DedupeOfDistinct(Dedupe(xs));
  }

  /** Decimal digits of a natural number, as template literals print them. */
  function NatToString(n: nat): (r: string)
    ensures |r| >= 1 && forall i :: 0 <= i < |r| ==> '0' <= r[i] <= '9'
    ensures r[0] == '0' ==> n == 0
  {
    if n < 10 then [Digit(n)] else NatToString(n / 10) + [Digit(n % 10)]
  }

  function Digit(d: nat): (c: char)
    requires d < 10
    ensures '0' <= c <= '9' && c as int - '0' as int == d
  {
    (d + '0' as int) as char
  }

  /** Template-literal text of an integer. */
  function IntToString(n: int): (r: string)
    ensures |r| > 0 && (r[0] == '-' <==> n < 0)
  {
    if n < 0 then "-" + NatToString(-n) else NatToString(n)
  }

  /** Reading decimal digits back gives the number: the conversion loses nothing. */
  function DigitsValue(s: string): int
  {
    if s == [] then 0 else DigitsValue(s[..|s| - 1]) * 10 + (s[|s| - 1] as int - '0' as int)
  }

  lemma {:induction false} NatToStringValue(n: nat)
    ensures DigitsValue(NatToString(n)) == n
  {
    if n >= 10 {
      NatToStringValue(n / 10);
      var s := NatToString(n);
      assert s[..|s| - 1] == NatToString(n / 10);
    }
  }

  /** What an `Array.prototype.sort` comparator compares: a number (`a.x - b.x`) or a string
      (`sort()` with no comparator, which orders by UTF-16 code unit; the model compares
      code points, as the README's "Left out" section says). */
  datatype SortKey = NumberKey(n: real) | StringKey(s: string)

  /** Code-point order on strings (Dafny compares characters by Unicode scalar value): a proper
      prefix comes first. JavaScript's code-unit order differs only when a supplementary
      character is compared with one in U+E000 to U+FFFF, as the README's "Left out" section says. */
  predicate TextLe(a: string, b: string) {
    |a| == 0 || (|b| > 0 && (a[0] < b[0] || (a[0] == b[0] && TextLe(a[1..], b[1..]))))
  }

  predicate KeyLe(a: SortKey, b: SortKey) {
    match a
    case NumberKey(x) => b.StringKey? || x <= b.n
    case StringKey(x) => b.StringKey? && TextLe(x, b.s)
  }

  lemma {:induction false} TextLeTotal(a: string, b: string)
    ensures TextLe(a, b) || TextLe(b, a)
  {
    if |a| > 0 && |b| > 0 && a[0] == b[0] {
      TextLeTotal(a[1..], b[1..]);
    }
  }

  lemma {:induction false} TextLeTrans(a: string, b: string, c: string)
    requires TextLe(a, b) && TextLe(b, c)
    ensures TextLe(a, c)
  {
    if |a| > 0 && a[0] == b[0] && b[0] == c[0] {
      TextLeTrans(a[1..], b[1..], c[1..]);
    }
  }

  lemma KeyLeTotal(a: SortKey, b: SortKey)
    ensures KeyLe(a, b) || KeyLe(b, a)
  {
    if a.StringKey? && b.StringKey? {
      TextLeTotal(a.s, b.s);
    }
  }

  lemma KeyLeTrans(a: SortKey, b: SortKey, c: SortKey)
    requires KeyLe(a, b) && KeyLe(b, c)
    ensures KeyLe(a, c)
  {
    if a.StringKey? {
      TextLeTrans(a.s, b.s, c.s);
    }
  }

  predicate SortedBy<T>(xs: seq<T>, key: T -> SortKey) {
    forall i, j :: 0 <= i < j < |xs| ==> KeyLe(key(xs[i]), key(xs[j]))
  }

  /** `x` placed before the first element of `ys` whose key is greater than its own. */
  function Insert<T>(x: T, ys: seq<T>, key: T -> SortKey): (r: seq<T>)
    ensures |r| == |ys| + 1
  {
    if ys == [] then [x]
    else if !KeyLe(key(ys[0]), key(x)) then [x] + ys
    else [ys[0]] + Insert(x, ys[1..], key)
  }

  /** `Array.prototype.sort(comparator)`, stable: each element in turn is inserted after the
      earlier elements whose key is not greater. */
  function SortBy<T>(xs: seq<T>, key: T -> SortKey): (r: seq<T>)
    ensures |r| == |xs|
  {
    if xs == [] then [] else Insert(xs[|xs| - 1], SortBy(xs[..|xs| - 1], key), key)
  }

  lemma {:induction false} InsertPermutes<T>(x: T, ys: seq<T>, key: T -> SortKey)
    ensures multiset(Insert(x, ys, key)) == multiset(ys) + multiset{x}
  {
    if ys != [] && KeyLe(key(ys[0]), key(x)) {
      InsertPermutes(x, ys[1..], key);
      assert ys == [ys[0]] + ys[1..];
    }
  }

  lemma {:induction false} InsertSorted<T>(x: T, ys: seq<T>, key: T -> SortKey)
    requires SortedBy(ys, key)
    ensures SortedBy(Insert(x, ys, key), key)
  {
    if ys == [] {
    } else if !KeyLe(key(ys[0]), key(x)) {
      KeyLeTotal(key(ys[0]), key(x));
      forall j | 0 < j < |ys| + 1 ensures KeyLe(key(x), key(([x] + ys)[j])) {
        if j > 1 {
          KeyLeTrans(key(x), key(ys[0]), key(ys[j - 1]));
        }
      }
    } else {
      var rest := Insert(x, ys[1..], key);
      InsertSorted(x, ys[1..], key);
      InsertPermutes(x, ys[1..], key);
      forall j | 0 <= j < |rest| ensures KeyLe(key(ys[0]), key(rest[j])) {
        assert rest[j] in multiset(ys[1..]) + multiset{x};
        if rest[j] != x {
          assert rest[j] in ys[1..];
        }
      }
    }
  }

  /** The sort orders by key and loses or adds nothing. */
  lemma {:induction false} SortByPermutesAndOrders<T>(xs: seq<T>, key: T -> SortKey)
    ensures multiset(SortBy(xs, key)) == multiset(xs)
    ensures SortedBy(SortBy(xs, key), key)
  {
    if xs != [] {
      var init := xs[..|xs| - 1];
      SortByPermutesAndOrders(init, key);
      InsertPermutes(xs[|xs| - 1], SortBy(init, key), key);
      InsertSorted(xs[|xs| - 1], SortBy(init, key), key);
      assert xs == init + [xs[|xs| - 1]];
    }
  }

  lemma {:induction false} InsertDistinct<T>(x: T, ys: seq<T>, key: T -> SortKey)
    requires NoDuplicates(ys) && x !in ys
    ensures NoDuplicates(Insert(x, ys, key))
  {
    if ys != [] && KeyLe(key(ys[0]), key(x)) {
      InsertDistinct(x, ys[1..], key);
      InsertPermutes(x, ys[1..], key);
      var rest := Insert(x, ys[1..], key);
      forall j | 0 <= j < |rest| ensures rest[j] != ys[0] {
        assert rest[j] in multiset(ys[1..]) + multiset{x};
        if rest[j] != x {
          assert rest[j] in ys[1..];
        }
      }
    }
  }

  /** Sorting distinct elements gives distinct elements. */
  lemma {:induction false} SortByDistinct<T>(xs: seq<T>, key: T -> SortKey)
    requires NoDuplicates(xs)
    ensures NoDuplicates(SortBy(xs, key))
  {
    if xs != [] {
      var init := xs[..|xs| - 1];
      SortByDistinct(init, key);
      SortByPermutesAndOrders(init, key);
      assert xs[|xs| - 1] !in multiset(SortBy(init, key));
      InsertDistinct(xs[|xs| - 1], SortBy(init, key), key);
    }
  }

  /** What the sort promises, by membership: the same elements, distinct when they were, in order. */
  lemma SortByFacts<T>(xs: seq<T>, key: T -> SortKey)
    ensures forall x :: x in SortBy(xs, key) <==> x in xs
    ensures NoDuplicates(xs) ==> NoDuplicates(SortBy(xs, key))
    ensures SortedBy(SortBy(xs, key), key)
  {
    SortByPermutesAndOrders(xs, key);
    if NoDuplicates(xs) {
      SortByDistinct(xs, key);
    }
    forall x ensures x in SortBy(xs, key) <==> x in xs {
      assert x in SortBy(xs, key) <==> x in multiset(SortBy(xs, key));
      assert x in xs <==> x in multiset(xs);
    }
  }

  /** Multiplication by a count distributes over adding one to the count. */
  lemma Distribute(x: real, n: nat)
    ensures x * (n + 1) as real == x * n as real + x
  {
  }

  /** A sum over the elements does not depend on their order: the sort keeps it. */
  function SumBy<T>(xs: seq<T>, f: T -> real): real {
    if xs == [] then 0.0 else f(xs[0]) + SumBy(xs[1..], f)
  }

  lemma {:induction false} SumByInsert<T>(x: T, ys: seq<T>, key: T -> SortKey, f: T -> real)
    ensures SumBy(Insert(x, ys, key), f) == f(x) + SumBy(ys, f)
  {
    if ys != [] && KeyLe(key(ys[0]), key(x)) {
      SumByInsert(x, ys[1..], key, f);
    }
  }

  lemma {:induction false} SumByAppend<T>(xs: seq<T>, ys: seq<T>, f: T -> real)
    ensures SumBy(xs + ys, f) == SumBy(xs, f) + SumBy(ys, f)
  {
    if xs != [] {
      SumByAppend(xs[1..], ys, f);
      assert (xs + ys)[1..] == xs[1..] + ys;
    } else {
      assert xs + ys == ys;
    }
  }

  lemma {:induction false} SumBySorted<T>(xs: seq<T>, key: T -> SortKey, f: T -> real)
    ensures SumBy(SortBy(xs, key), f) == SumBy(xs, f)
  {
    if xs != [] {
      var init := xs[..|xs| - 1];
      SumBySorted(init, key, f);
      SumByInsert(xs[|xs| - 1], SortBy(init, key), key, f);
      SumByAppend(init, [xs[|xs| - 1]], f);
      assert xs == init + [xs[|xs| - 1]];
    }
  }

  lemma SumBySnoc<T>(xs: seq<T>, x: T, f: T -> real)
    ensures SumBy(xs + [x], f) == SumBy(xs, f) + f(x)
  {
    SumByAppend(xs, [x], f);
  }

  /** Sums of two functions that agree on every element are equal. */
  lemma {:induction false} SumByPointwise<T>(xs: seq<T>, f: T -> real, g: T -> real)
    requires forall i :: 0 <= i < |xs| ==> f(xs[i]) == g(xs[i])
    ensures SumBy(xs, f) == SumBy(xs, g)
  {
    if xs != [] {
      SumByPointwise(xs[1..], f, g);
    }
  }

  /** Summing `g` over the images of `f` is summing `g` after `f` over the originals. */
  lemma {:induction false} SumByMap<A, B>(f: A -> B, xs: seq<A>, g: B -> real, h: A -> real)
    requires forall x :: h(x) == g(f(x))
    ensures SumBy(MapSeq(f, xs), g) == SumBy(xs, h)
  {
    if xs != [] {
      SumByMap(f, xs[1..], g, h);
    }
  }

  /** Array.prototype.filter. */
  function Filter<T(!new)>(xs: seq<T>, p: T -> bool): (r: seq<T>)
    ensures |r| <= |xs|
    ensures forall x :: x in r <==> x in xs && p(x)
  {
    if xs == [] then []
    else
      var init := Filter(xs[..|xs| - 1], p);
      assert xs == xs[..|xs| - 1] + [xs[|xs| - 1]];
      if p(xs[|xs| - 1]) then init + [xs[|xs| - 1]] else init
  }

  /** Nothing passes the test: the filter keeps nothing. */
  lemma {:induction false} FilterNone<T(!new)>(xs: seq<T>, p: T -> bool)
    requires forall i :: 0 <= i < |xs| ==> !p(xs[i])
    ensures Filter(xs, p) == []
  {
    if xs != [] {
      FilterNone(xs[..|xs| - 1], p);
    }
  }

  /** Filtering keeps the order and the distinctness of what it keeps. */
  lemma {:induction false} FilterKeepsOrder<T(!new)>(xs: seq<T>, p: T -> bool, key: T -> SortKey)
    requires SortedBy(xs, key) && NoDuplicates(xs)
    ensures SortedBy(Filter(xs, p), key) && NoDuplicates(Filter(xs, p))
  {
    if xs != [] {
      var init := xs[..|xs| - 1];
      var last := xs[|xs| - 1];
      FilterKeepsOrder(init, p, key);
      forall y | y in Filter(init, p) ensures KeyLe(key(y), key(last)) && y != last {
        var i :| 0 <= i < |init| && init[i] == y;
        assert xs[i] == y;
      }
    }
  }
}

/**
 * The branch of the outline below a line (renderBranch of src/render.ts): the heading at or
 * above the line, and the line range from the given line to the next heading at the same or
 * a higher level. The range's text and its rendering to HTML are the editor's and the
 * exporter's work and are not modelled.
 */
module Render {
  import opened Js
  import opened Outline

  /** The range passed to `getRange`: from column 0 of `from` to column 0 of `to`. */
  datatype LineRange = LineRange(from: nat, to: int)

  /** The first heading from index `j` on at `level` or higher (a level number not greater). */
  function EndHeading(headings: seq<Heading>, level: int, j: nat): (r: Option<nat>)
    ensures r.Some? ==> j <= r.value < |headings| && headings[r.value].level <= level
                        && forall k :: j <= k < r.value ==> headings[k].level > level
    ensures r.None? ==> forall k :: j <= k < |headings| ==> headings[k].level > level
    decreases |headings| - j
  {
    if j >= |headings| then None
    else if headings[j].level <= level then Some(j)
    else EndHeading(headings, level, j + 1)
  }

  /** What renderBranch computes before rendering: a failure when no heading starts at or
      before the line (`headings[-1].level` reads a property of undefined); -1 as the end when
      the branch starts at the first heading (`while (index++)` tests 0 and stops); otherwise
      the start line of the heading that ends the branch, or the line count. */
  function BranchRange(headings: seq<Heading>, line: nat, lineCount: nat): Result<LineRange> {
    match LastHeadingAtOrBefore(headings, line)
    case None => Fail(TypeError("Cannot read properties of undefined (reading 'level')"))
    case Some(i) =>
      if i == 0 then Ok(LineRange(line, -1))
      else
        match EndHeading(headings, headings[i].level, i + 1)
        case None => Ok(LineRange(line, lineCount))
        case Some(j) => Ok(LineRange(line, headings[j].line))
  }

  /** renderBranch up to the range: `findLastIndex`, then the `while (index++)` loop. */
  method RenderBranch(headings: seq<Heading>, line: nat, lineCount: nat) returns (r: Result<LineRange>)
    ensures r == BranchRange(headings, line, lineCount)
  {
    var found := LastHeadingAtOrBefore(headings, line);
    if found.None? {
      return Fail(TypeError("Cannot read properties of undefined (reading 'level')"));
    }
    var start := found.value;
    var level := headings[start].level;
    var endLine: int := -1;
    var index: int := start;
    var test := index;
    index := index + 1;
    while test != 0
      invariant start < index <= |headings| && test == index - 1
      invariant start == 0 ==> index == 1
      invariant EndHeading(headings, level, index) == EndHeading(headings, level, start + 1)
      invariant endLine == -1
      decreases |headings| - index
    {
      if index >= |headings| {
        endLine := lineCount;
        break;
      }
      if headings[index].level <= level {
        endLine := headings[index].line;
        break;
      }
      test := index;
      index := index + 1;
    }
    return Ok(LineRange(line, endLine));
  }

  /** The range starts at the line. It fails exactly when every heading starts after the line.
      Otherwise, for a start heading other than the first, the branch holds every following
      heading that is deeper than the start heading. It ends at the first heading that is not
      deeper, which starts after the line, or at the line count when there is none. With the
      first heading as the start, the loop stops at once and the end stays -1. */
  lemma BranchRangeSound(headings: seq<Heading>, line: nat, lineCount: nat)
    ensures var r := BranchRange(headings, line, lineCount);
            (r.Fail? <==> forall k :: 0 <= k < |headings| ==> headings[k].line > line)
            && (r.Ok? ==> r.value.from == line)
            && (r.Ok? && LastHeadingAtOrBefore(headings, line).value == 0 ==> r.value.to == -1)
    ensures var r := BranchRange(headings, line, lineCount);
            var i := LastHeadingAtOrBefore(headings, line);
            r.Ok? && i.value > 0 ==>
              (r.value.to == lineCount && forall k :: i.value < k < |headings| ==> headings[k].level > headings[i.value].level)
              || (r.value.to > line
                  && exists j :: i.value < j < |headings| && r.value.to == headings[j].line
                                 && headings[j].level <= headings[i.value].level
                                 && forall k :: i.value < k < j ==> headings[k].level > headings[i.value].level)
  {
    var i := LastHeadingAtOrBefore(headings, line);
    if i.Some? && i.value > 0 {
      match EndHeading(headings, headings[i.value].level, i.value + 1)
      case None =>
      case Some(j) =>
        assert headings[j].line > line;
    }
  }
}

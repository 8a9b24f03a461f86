# CoolTool plugin core in Dafny

CoolTool is an Obsidian plugin for consultants. Its notes describe teams and projects with
headings and pipe tables. This project models and proves the plugin's deterministic core:

- **Outline parser** (`Outline`, `MarkdownTable`). The `ParsingBuffer` of a note:
  - finds the stakeholder table under a heading and parses pipe tables into row objects;
  - reads a Microsoft Teams team (owners, members, channels, options) laid out as headings
    by level;
  - cuts section text between headings;
  - parses the `:key: value` option line and the e-mail list of a section.
- **Row objects** (`MarkdownTable`, `CoolTool`): `hasRole`, `headers`, `asArray`,
  `filterColumns` and `addColumns`.
- **Parsing-buffer cache** (`CoolTool.BufferCache`). The plugin object keeps one buffer per
  path and drops a path's buffer when its file is edited. `stakeholders`/`team` and the link
  capture of `pathFromLink` go with it.
- **Teams script generator** (`MsTeams`, `Teams`). It builds the PowerShell script that
  creates or updates a team and reads the team id back from the script's output. Arguments
  are quoted (`PowerShell`) in one of two ways:
  - src/powershell.ts embeds the Base64 (section 4 of RFC 4648) of the value's UTF-8 bytes
    (RFC 3629);
  - main.ts doubles double quotes.
- **Monthly revenue report** (`Reporting`). Each project's revenue and person-days are
  spread over its Monday-to-Friday days and bucketed by month. The displayed months are then
  filtered, projects are grouped and sorted, and the table rows are built.
- **Booking report** (`Retain`):
  - `groupByAndSum` and the business days of a booking;
  - the equal daily split and the carry-forward rounding to hours;
  - the weekly pivot with its totals, and `formatMarkdownTable`.
- **Branch range** (`Render`). The line range of the outline branch that `renderBranch`
  exports.

Exceptions are modelled as a `Result` whose failure carries the thrown string or the runtime
`TypeError`. Dates are integer day numbers. The date library (weekday, month key, next
business day), the vault, the shell and note loading are parameters. Amounts are exact
`real`s.

## Model

| member | source | states |
|---|---|---|
| MarkdownTable.SetField | src/parsing-buffer.ts:66-69 | `obj[k] = v`: afterwards `k` maps to `v`; an existing property keeps its place, a new one is appended |
| MarkdownTable.SetFieldOther | src/parsing-buffer.ts:67-69 | setting one property leaves every other property's value unchanged |
| MarkdownTable.FirstNonTableLine | src/parsing-buffer.ts:59 | `findIndex`: the first line not starting with `"\| "`, with every earlier line starting with it; none when all do |
| MarkdownTable.LeadingRunKeeps | src/parsing-buffer.ts:58-59 | the kept lines are those before the first non-table line; when every line qualifies, `slice(0, -1)` drops the last line |
| MarkdownTable.ParseRowsOutcome | src/parsing-buffer.ts:58-72 | parseTable throws exactly when the first line does not start with `"\| "` or is the only line; otherwise it yields one row per kept line after the second (same code in main.ts:314-330) |
| MarkdownTable.SeparatorEndsRun | src/parsing-buffer.ts:59-61 | a `\|---\|` separator line ends the run, so no data rows come out |
| MarkdownTable.AllTableLinesDropLast | src/parsing-buffer.ts:59-61 | when every line is a table line, the last data line is lost |
| MarkdownTable.ParseRowsOfRun | src/parsing-buffer.ts:59-71 | headers come from the first kept line, the second is skipped, and each later line becomes one row |
| MarkdownTable.BuildRowMapsByPosition | src/parsing-buffer.ts:63-69 | with distinct headers, header i maps to cell i, surplus headers map to undefined, and the row's keys are the headers in order |
| MarkdownTable.BuildRowAt | src/parsing-buffer.ts:66-69 | header i maps to cell i (undefined past the last cell) whenever no later header has the same name, since a later assignment under another name leaves it alone |
| MarkdownTable.BuildRowKeys | src/parsing-buffer.ts:66-69 | with repeated headers, each header is a key once, in order of first occurrence |
| MarkdownTable.EmptyCellShiftsLeft | src/parsing-buffer.ts:63-68 | an empty cell is dropped, so the next value moves one header left and the last header gets undefined |
| Outline.ParseTableNeverMessage | src/parsing-buffer.ts:57-73 | parseTable can only fail with a TypeError, never with a thrown message |
| MarkdownTable.HasRole | src/dataview.ts:6-10 | fails exactly when the row has no Role value; with no roles to look for it is never true |
| MarkdownTable.HasRoleSingle | src/dataview.ts:7 | a Role without commas matches exactly when its trimmed text is one of the roles |
| MarkdownTable.HasRoleParts | main.ts:43-47 | for a Role made of comma-separated parts, the result is true iff some trimmed part is among the roles (same code as src/dataview.ts:6-10) |
| MarkdownTable.FormatEmptyTable | src/retain.ts:42-47 | with no rows, the output is the header line, the separator line and a trailing newline |
| MarkdownTable.ParseCellsRowLine | src/retain.ts:45 | a data line written by formatMarkdownTable parses back to its cells |
| MarkdownTable.ParseHeadersRowLine | src/retain.ts:43 | the header line written by formatMarkdownTable parses back to its headers |
| MarkdownTable.FormattedLinesParseBack | src/retain.ts:42-47 | round trip: the lines of a formatted table, followed by a non-table line, parse back to one row per table row mapping headers to cells |
| Outline.FindHeading | src/parsing-buffer.ts:38 | `find`: none exactly when no heading has the text; otherwise a heading with that text |
| Outline.TableAfterSound | src/parsing-buffer.ts:41-53 | what the section scan finds is a table right after a heading section at the heading's offset |
| Outline.TableAfterComplete | src/parsing-buffer.ts:41-53 | with one heading section at the offset, the scan finds a table exactly when the next section is one |
| Outline.ParsingBuffer.GetStakeholders | src/parsing-buffer.ts:36-55 | the `++i` section loop returns what the specification function `Stakeholders` gives (same code in main.ts:293-312) |
| Outline.ParsingBuffer.NoTeamsHeading | src/parsing-buffer.ts:37-40 | throws "No Teams heading." iff no heading has the given text |
| Outline.ParsingBuffer.NoTableInTeamsHeading | src/parsing-buffer.ts:41-54 | throws "No table in Teams heading." iff the section after the heading's section is not a table |
| Outline.ParsingBuffer.SectionTextFails | src/parsing-buffer.ts:136-143 | getSectionText fails iff the heading is missing, has another level, lacks the prefix, or is the last heading; the last-heading case is a TypeError, so the `text.length` branch is dead (same code in main.ts:393-402) |
| Outline.ParsingBuffer.SectionTextBody | src/parsing-buffer.ts:142-143 | the body runs from the start of the line after the heading to the start of the next heading's line |
| Outline.RunLengthSpec | src/parsing-buffer.ts:149-150 | a greedy character-class run: all of the class, and the character after it is not |
| Outline.OptionLineSound | src/parsing-buffer.ts:150 | an option match has a word-character key, a value without blanks or newlines, and ends with the first newline |
| Outline.FencesRemovedGreedily | src/parsing-buffer.ts:149 | on one line, the fence pattern removes everything from the first ``` to the end of the last ``` and the blanks after it |
| Outline.OptionOnlyAtStart | src/parsing-buffer.ts:150 | text starting with anything but a blank or a colon has no option line (no `m` flag) |
| Outline.OptionLineReadsBack | src/parsing-buffer.ts:150-153 | `:key: value\n` is read back as that key and value, and the match ends after the newline |
| Outline.OptionsSectionWithOption | src/parsing-buffer.ts:147-155 | a fence-free text starting with an option line gives that one option and the rest with its first newline made a blank, trimmed (same code in main.ts:404-412) |
| Outline.OptionsSectionWithoutOption | src/parsing-buffer.ts:147-155 | a fence-free text without a leading option line gives no options and the text with its first newline made a blank, trimmed |
| Outline.UserSectionShape | src/parsing-buffer.ts:157-161 | parseUserSection: lower-case addresses, each once, exactly the matches, in order of first match; no match gives [] (same code in main.ts:414-418) |
| Outline.LineDiffs | src/parsing-buffer.ts:90 | each button's distance to the cursor line, or `MAX_SAFE_INTEGER` for a button more than one line below it |
| Outline.Min | src/parsing-buffer.ts:91 | `Math.min`: a member of the list that is at most every element |
| Outline.ChosenButton | src/parsing-buffer.ts:91 | a button is chosen exactly when there is one |
| Outline.AlwaysFirstButton | src/parsing-buffer.ts:85-91 | with button lines in document order, the first button is chosen wherever the cursor is |
| Outline.LastHeadingAtOrBefore | src/parsing-buffer.ts:92 | `findLastIndex`: the last heading starting at or before the line; none when every heading starts after it |
| Outline.ParsingBuffer.TeamIndex | src/parsing-buffer.ts:77-96 | the team heading's index lies within the headings |
| Outline.ParsingBuffer.NamedTeamIsFirstHeading | src/parsing-buffer.ts:78-81 | with a team name, the always-truthy async predicate makes the first heading the team heading; only a note without headings fails |
| Outline.ParsingBuffer.UnnamedTeamAtFirstButton | src/parsing-buffer.ts:82-95 | without a name, the team heading is the last heading at or above the first button |
| Outline.ParsingBuffer.TeamHeadLayout | src/parsing-buffer.ts:97-103 | the team's part reads iff Owner and Member follow the team heading one level deeper and another heading follows them |
| Outline.ParsingBuffer.TeamHeadWithoutId | src/parsing-buffer.ts:98-101 | the `ID` option is removed from the options and every other entry is kept; an id is reported iff the options had one |
| Outline.ParsingBuffer.ChannelLayout | src/parsing-buffer.ts:105-118 | a channel is Private iff the next heading is one level deeper, and then Owner and Member at that level are consumed; otherwise it is Standard with empty lists |
| Outline.ParsingBuffer.ChannelsFromHeadings | src/parsing-buffer.ts:105-106 | every channel comes from a heading one level below the team |
| Outline.ParsingBuffer.ReadChannels | src/parsing-buffer.ts:104-119 | the channel loop returns what the specification function `Channels` gives |
| Outline.NewChannels | src/parsing-buffer.ts:118-127 | the team holds one fresh channel object per parsed channel, in order, each holding that channel's value |
| Outline.ParsingBuffer.MsTeamShape | src/parsing-buffer.ts:97-130 | a parsed team has the channels read after its Owner and Member headings, the chosen name, and no `ID` option; an insertion line (heading line + 1) is given iff it has no id |
| Outline.ParsingBuffer.ParseMsTeam | src/parsing-buffer.ts:75-134 | the method fails iff the specification `MsTeam` fails, with the same error; on success it builds that team's channel objects (same code in main.ts:332-391) |
| Outline.PrependTwice | src/cooltool.ts:215-218 | concatenating results is associative |
| Outline.Prepend | src/cooltool.ts:215-218 | `all.concat(next)` on results: fails iff the next result fails, with its error; otherwise the rows so far followed by its rows |
| Teams.GetOption | src/parsing-buffer.ts:99 | `options[key]`: none iff the key is absent; otherwise the stored entry |
| Teams.DeleteOption | src/parsing-buffer.ts:100 | `delete options[key]`: the key is gone and every other entry is kept |
| PowerShell.Utf8RoundTrip | src/powershell.ts:34 | decoding the UTF-8 bytes of a string gives the string back |
| PowerShell.DecodeEncodeChar | src/powershell.ts:34 | one character's bytes decode to that character and use exactly its bytes |
| PowerShell.Base64Value | src/powershell.ts:36 | the alphabet table of RFC 4648 section 4 is invertible |
| PowerShell.DecodeEncodeQuantum | src/powershell.ts:36 | each 1-3 byte quantum decodes back to its bytes |
| PowerShell.Base64RoundTrip | src/powershell.ts:36 | FromBase64String of the encoding gives back exactly the bytes |
| PowerShell.Base64Shape | src/powershell.ts:36 | the encoding has 4·⌈n/3⌉ characters from the alphabet, with `=` only as final padding |
| PowerShell.Pssavpar | src/powershell.ts:33-38 | the expression is the fixed prefix, the Base64 literal and the fixed suffix |
| PowerShell.PssavparQuoteFree | src/powershell.ts:36-37 | the Base64 literal has no `'`, so it cannot close the single-quoted string |
| PowerShell.PssavparSeparatorFree | src/powershell.ts:37 | the expression has no space and no newline |
| PowerShell.PssavparRoundTrip | src/powershell.ts:33-38 | evaluating the emitted expression gives back the value |
| PowerShell.QuotedPssavpar | main.ts:242-244 | main.ts quoting: a literal that starts and ends with `"` |
| PowerShell.QuotedPssavparRoundTrip | main.ts:243 | un-doubling the inside of the literal recovers the value |
| PowerShell.QuotedPssavparLacks | main.ts:243 | quote doubling adds no character other than `"` |
| MsTeams.PssavparSafe | src/powershell.ts:33-38 | Base64 quoting always gives a single word without spaces or newlines |
| MsTeams.QuotedPssavparSafe | main.ts:242-244 | quote doubling never introduces a newline |
| MsTeams.UpdateOptions | src/msteams.ts:36-43 | the options line is empty iff there are no options (same code in main.ts:190-197) |
| MsTeams.OptionArguments | src/msteams.ts:41-42 | one `-key value` argument per entry, in order; strings are quoted and booleans become `$true`/`$false` |
| MsTeams.OptionLineWords | src/msteams.ts:39-42 | the line splits on spaces into `Set-Team` (or `Set-TeamChannel` with `-CurrentDisplayName`), `-GroupId $id`, then `-key` and value per entry |
| MsTeams.RoleArgument | src/msteams.ts:46 | a `-Role 'Owner'` argument is given iff the role is "Owner" |
| MsTeams.AddLines | src/msteams.ts:49 | one `$news.Add('user')` line per user, in order; an empty list leaves one empty line |
| MsTeams.UpdateUsersLines | src/msteams.ts:45-55 | the users block, line by line: header, old list, new list, one add line per user, then the add and remove loops (same code in main.ts:199-210) |
| MsTeams.Refreshed | src/msteams.ts:61 | the channel's members become members plus owners, each once; nothing else changes |
| MsTeams.RefreshedIdempotent | src/msteams.ts:61 | refreshing twice is the same as refreshing once |
| MsTeams.ChannelFragments | src/msteams.ts:62-69 | the member and owner blocks are empty iff the channel is Standard; the options fragment is empty iff it has no options |
| MsTeams.ChannelsScript | src/msteams.ts:58-83 | the channels block is empty iff there are no channels |
| MsTeams.ChannelsScriptCreationLines | src/msteams.ts:71-74 | after three fixed lines, the block has one `$news.Add(name)` line per channel, in channel order |
| MsTeams.RefreshEach | src/msteams.ts:60-70 | the map refreshes every channel object in place and maps the refreshed values, also when a channel object repeats |
| MsTeams.MergeOwners | src/msteams.ts:61 | writing the refreshed members into the i-th channel object refreshes every alias of it, keeps the earlier channels refreshed, and leaves each later one untouched or refreshed |
| MsTeams.UpdateChannels | src/msteams.ts:58-83 | each channel's members are overwritten in place by the refreshed list, and the script is built from the refreshed channels (same code in main.ts:212-240) |
| MsTeams.TeamMembers | src/msteams.ts:8 | the team's member list holds exactly the members and owners, each once |
| MsTeams.TeamMembersOrder | src/msteams.ts:8 | people keep the order of their first appearance in members followed by owners |
| MsTeams.SetupCodeLines | src/msteams.ts:9-23 | the script starts with five head lines and ends with the success message and `"$id"`. The third line is the group line (`Get-Team -GroupID` when there is an id, `New-Team -DisplayName` otherwise). Empty fragments are dropped |
| MsTeams.TeamIdOf | src/msteams.ts:27-28 | the id is found iff some case-insensitive `TeamID: ` is followed by a hex/dash character, and then it is a non-empty run of them |
| MsTeams.TeamIdOfLeftmost | src/msteams.ts:27-28 | the leftmost match wins, and its whole run is taken |
| MsTeams.TeamIdOfEcho | src/msteams.ts:15 | the `TeamID: <id>` line the script prints is read back as exactly that id |
| MsTeams.SetupTeam | src/msteams.ts:7-34 | the output is the shell's output; success iff the shell succeeded and the output contains the success message; the id is read from the output; the channels are refreshed in place (same code in main.ts:160-188) |
| Reporting.SpreadAt | src/reporting.ts:98-107 | every month gets the daily amount once per working day it holds in the range |
| Reporting.MonthsOfGrows | src/reporting.ts:104 | the month list only grows, without duplicates, gaining exactly the months with a working day |
| Reporting.CountWorkdays | src/reporting.ts:72-81 | the first day loop counts the Monday-to-Friday days of the project |
| Reporting.SpreadProject | src/reporting.ts:94-107 | the second day loop fills the breakdown, the revenue and PD totals and the month set as the specification functions `Spread` and `MonthsOf` say |
| Reporting.ProjectShare | src/reporting.ts:91-101 | each month receives budget·rate/n once per working day, where n is the project's number of working days |
| Reporting.ProjectConservation | src/reporting.ts:91-107 | per project, the months add up to budget·rate and the PD spread adds up to the budget |
| Reporting.PageProjectShape | src/reporting.ts:94-124 | a counted page's project is well formed, its months add up to its revenue, and it has an amount exactly in its working months |
| Reporting.ScanWarnings | src/reporting.ts:62-69 | the warnings are the links of the skipped pages that have a Nessie id or lack a Salesforce id, in page order |
| Reporting.ScanMonths | src/reporting.ts:56-125 | the month set holds exactly the months with a working day of a counted page, and there is one project per counted page |
| Reporting.ScanShape | src/reporting.ts:56-125 | the months are distinct and cover the totals; each project's months add up to its revenue; a month is listed iff some project has an amount in it |
| Reporting.ScanRevenueByMonth | src/reporting.ts:102 | every month's revenue total is the sum of the projects' amounts in it, displayed or not |
| Reporting.ScanTotals | src/reporting.ts:98-107 | over all months, the revenue totals add up to the projects' revenues and the PD totals to the counted budgets |
| Reporting.DisplayedMonthsOrdered | src/reporting.ts:127-134 | displayed months are ascending, distinct, and exactly the seen months that overlap [from, to] |
| Reporting.DateFilterError | src/reporting.ts:32-38 | with defaults 2020-01-01 and 2029-12-31, the date error message comes back iff a filter does not parse, and then there are no warnings |
| Reporting.Messages | src/reporting.ts:136-141 | once the dates parse, a message comes back iff no displayed month remains; which message depends on whether any project was counted |
| Reporting.ReportMonths | src/reporting.ts:127-134 | a report's months are ascending, distinct, working months of counted pages that overlap the filter |
| Reporting.GetMonthlyRevenue | src/reporting.ts:21-208 | the loops compute the specification function `MonthlyRevenue` and the warnings `Warnings` |
| Reporting.AddMonthsKeepsTotal | src/reporting.ts:169-178 | a group's breakdown stays within the displayed months, and its total is their sum |
| Reporting.GroupProjects | src/reporting.ts:152-179 | the nested grouping loops compute `GroupAll` |
| Reporting.GroupShape | src/reporting.ts:149-179 | group keys are listed once; each group holds displayed months only, and its total is their sum |
| Reporting.GroupsAddUp | src/reporting.ts:169-178 | for each displayed month, the groups' amounts add up to the projects' amounts |
| Reporting.SortedKeysOrder | src/reporting.ts:181 | the sorted group keys are each key once, ordered by name, by first positive displayed month, or by total descending |
| Reporting.GroupedItemsShape | src/reporting.ts:181-189 | one item per group key; its months are displayed months and its total is their sum |
| Reporting.GroupedItemsOrder | src/reporting.ts:181-189 | grouped items are in the requested order, with no key twice |
| Reporting.FirstPositiveFrom | src/reporting.ts:44 | the index of the first displayed month with a positive amount, or -1 when there is none |
| Reporting.ProjectOrder | src/reporting.ts:39-44 | the project sort is a permutation ordered by name, by first positive month (-1 first), or by lifetime revenue descending |
| Reporting.UngroupedItems | src/reporting.ts:191-205 | the ungrouped loop computes `ProjectItems` |
| Reporting.UngroupedItemsShape | src/reporting.ts:191-205 | one item per project, sorted as requested; id = link, full breakdown, total = sum over displayed months only |
| Reporting.ItemsAddUp | src/reporting.ts:149-207 | for every displayed month, the items' amounts add up to that month's revenue total, grouped or not |
| Reporting.BuildItems | src/reporting.ts:149-207 | the grouped or the ungrouped branch computes `Items`, the sorted items of the report |
| Reporting.EscapeRoundTrip | src/reporting.ts:281 | escaping `\|` as `\\|` is undone by unescaping |
| Reporting.EscapeShape | src/reporting.ts:281 | every bar in an escaped cell is preceded by a backslash |
| Reporting.TotalOver | src/reporting.ts:236-239 | the grand-total loop sums the totals over the displayed months |
| Reporting.PushMonths | src/reporting.ts:240-243 | one cell is pushed per displayed month, in order, holding that month's total |
| Reporting.BuildBody | src/reporting.ts:234-274 | the row loops compute `Body` |
| Reporting.BodyShape | src/reporting.ts:228-274 | **PD Total** and **Revenue Total** rows come first, then one row per item. Every row has 2 + |months| cells: label, total, one amount per displayed month |
| Reporting.TotalsRowAddsUp | src/reporting.ts:247-257 | a totals row's grand total is the sum of the month cells after it |
| Reporting.TableColumnsAddUp | src/reporting.ts:247-274 | in a report's table, each month column of item rows adds up to the revenue totals row's cell |
| Reporting.TableCells | src/reporting.ts:277-284 | head and alignment have one entry per column; each body cell is its text with every bar escaped |
| Reporting.MonthlyRevenuesTable | src/reporting.ts:221-286 | the displayed output is the message paragraph or the table of `MonthlyRevenue` |
| Retain.GroupByAndSum | src/retain.ts:169-180 | the forEach loop computes the specification function `GroupSum` and leaves the input rows unchanged |
| Retain.GroupSumShape | src/retain.ts:169-180 | one entry per distinct joined key, in first-appearance order, carrying the first row's fields and the sum over the rows with that key |
| Retain.GroupSumConserves | src/retain.ts:169-180 | the groups' sums add up to the rows' total |
| Retain.BusinessDaysShape | src/retain.ts:258-266 | empty iff start > end; otherwise it starts with start itself, steps by the next business day, stays within [start, end], and the step after the last day passes end |
| Retain.BusinessDaysBetween | src/retain.ts:258-266 | the while loop computes `BusinessDays` |
| Retain.SplitConserves | src/retain.ts:193-201 | a booking's daily entries are its business days, each with an equal share, adding up to its work |
| Retain.DailyConserves | src/retain.ts:193-201 | the daily entries add up to the work of the bookings that have business days; bookings without days contribute nothing |
| Retain.RoundBounds | src/retain.ts:215 | `Math.round` moves a value by more than -1/2 and at most 1/2 |
| Retain.CarryRoundSound | src/retain.ts:211-219 | every value becomes whole hours; the remainder stays in (-30, 30]; 60·Σrounded − Σoriginal equals the final remainder |
| Retain.CarryForward | src/retain.ts:212-218 | the loop overwrites the array in place with the carried rounding and returns its remainder |
| Retain.RoundedRowsSound | src/retain.ts:206-219 | the rounded rows keep their other fields and hold whole hours; their hours in minutes minus the minutes worked lie in (-30, 30] |
| Retain.WeekShiftsSound | src/retain.ts:222-233 | the weekly shifts hold the hours in eight-hour days, and every shift's week is among the pushed weeks |
| Retain.WeeksAscending | src/retain.ts:236 | the weeks are exactly the pushed ones, strictly ascending |
| Retain.GridCell | src/retain.ts:238-239 | a cell holds the last shift of its week and resource; a resource listed twice is written only at its first column |
| Retain.BuildPivot | src/retain.ts:238-244 | the pivot writes, the totals loop and the row sums compute `Pivot` |
| Retain.SumByColumns | src/retain.ts:240-244 | summing the column totals gives the sum of the row sums |
| Retain.PivotTotals | src/retain.ts:238-244 | one row per week plus the totals row; each row ends in its own sum; the totals row holds the column sums, and its sum is the grand total |
| Retain.ShiftRowsDoubled | src/retain.ts:244-252 | as written, every body row is one cell wider than the head, and its last cell is twice the row total |
| Retain.ShiftRowsDoubledExample | src/retain.ts:244-252 | as written, one resource with one day in week 7 gives a row with values 1, 1, 2 under head Week, Date, resource, Total |
| Retain.ShiftRowsSound | src/retain.ts:245-252 | corrected body: every row is as wide as the head and ends in its own total; week rows are labelled by week; the last row is `Total` with the column sums and the grand total |
| Retain.ProcessBookingsShape | src/retain.ts:182-256 | the shift table has one row per week holding a booked day, the weeks strictly ascending and each row labelled by its week, then the totals row holding the column sums; every row is as wide as the head and ends in its total (corrected row sum) |
| CoolTool.LinkCaptureSound | src/cooltool.ts:264-266 | the regex matches exactly a trimmed `[[…]]` around a non-empty, line-terminator-free capture, which is everything between the brackets |
| CoolTool.AliasedLink | src/cooltool.ts:264 | for `[[Name\|Alias]]`, the greedy group captures `Name\|Alias`; the intended lazy group captures `Name` |
| CoolTool.LinkTargetSound | src/cooltool.ts:258 | the intended target is a non-empty start of the capture, either all of it or cut at the alias bar |
| CoolTool.FindFile | src/cooltool.ts:269 | `find` on the vault files: found iff some file has that basename |
| CoolTool.AliasedLinkResolves | src/cooltool.ts:262-276 | as written, an aliased link fails whenever no file name contains a bar; as intended, it resolves to the file named `Name` |
| CoolTool.PlainLinkResolves | src/cooltool.ts:262-276 | a plain `[[Name]]` resolves to the file's path, or fails reading `path` of undefined when no such file exists, both as written and as intended |
| CoolTool.BufferCache.constructor | src/cooltool.ts:27 | the cache starts empty |
| CoolTool.BufferCache.EditorChange | src/cooltool.ts:28-31 | an edit removes exactly the edited path's buffer; every other entry is unchanged |
| CoolTool.BufferCache.GetParsingBuffer | src/cooltool.ts:59-76 | fails iff the path does not resolve. A cached buffer is returned as is; otherwise a fresh buffer for the note is stored and returned, and nothing else changes |
| CoolTool.BufferCache.GetTwice | src/cooltool.ts:66-75 | two calls without an edit in between return the same object |
| CoolTool.BufferCache.Stakeholders | src/cooltool.ts:207-220 | fails with the error of the first resolution of the path that fails, leaving the cache unchanged; otherwise the result is the concatenation over the headings of getStakeholders of the buffer now cached under the twice-resolved path, which is the cached one on a hit and otherwise a fresh buffer of that path's note added to an otherwise unchanged cache |
| CoolTool.CollectSound | src/cooltool.ts:215-219 | the concatenation succeeds iff every heading's table does, and then holds all rows in heading order; otherwise it fails with the first failure |
| CoolTool.TeamIsStakeholders | src/cooltool.ts:203-209 | `team(h)` is `stakeholders([h])`, which is getStakeholders of `h` |
| CoolTool.Gather | src/cooltool.ts:215-219 | the forEach loop computes `Collect` |
| CoolTool.AsArrayAligned | src/cooltool.ts:93-108 | head `[]` for an empty table and one body row per row; a row with the first row's names lines up with the head (same code in main.ts:129-144) |
| CoolTool.PickKeys | src/cooltool.ts:126-129 | the reduced object's names are the picked names, once each, in order |
| CoolTool.PickLookup | src/cooltool.ts:126-129 | the reduced object holds the row's value under each picked name, and nothing else |
| CoolTool.FilterColumnsSound | src/cooltool.ts:110-130 | each new row holds exactly the kept properties, in their original order, with unchanged values (name list or predicate; main.ts:146-154 is the predicate form) |
| CoolTool.SetColumnsSound | src/cooltool.ts:134-136 | every listed column is set with the last equal name winning; other properties keep their values; existing names keep their places |
| CoolTool.SetColumnsIdempotent | src/cooltool.ts:133-138 | setting the columns twice gives the same row as setting them once |
| CoolTool.SetAll | src/cooltool.ts:134-136 | the inner forEach sets the columns on the row object in place |
| CoolTool.AddColumns | src/cooltool.ts:132-139 | every row object gets the columns in place, also when it repeats in the table; the same objects are returned |
| Render.EndHeading | src/render.ts:14-22 | the first later heading at the same or a higher level, with every heading between deeper; none when all later headings are deeper |
| Render.RenderBranch | src/render.ts:11-24 | the `while (index++)` loop computes the specification function `BranchRange` |
| Render.BranchRangeSound | src/render.ts:11-24 | fails iff every heading starts after the line, and the range starts at the line. A first-heading start gives end -1. Otherwise the branch holds the following deeper headings and ends at the next heading not deeper, which lies after the line, or at the line count |

## Left out

- Host APIs (editor, metadata cache, workspace, `Notice`, modals, Chart.js) are not modelled. The note's text, headings, sections, line starts and cursor line are inputs.
- `expandedText` is left out because it evaluates Dataview scripts. Heading text and section text are used as they are.
- The e-mail regular expression of `parseUserSection` is a parameter. Only its lower-case, deduplicated, first-occurrence contract is proved, for any matcher that returns pieces of its input.
- Shell, HTTP and file I/O are left out: `executePowerShellCommand` is the `execute` parameter of `MsTeams.SetupTeam`, and the resource-planning client's requests are not modelled.
- The date library is a set of parameters because it is external: day parsing, weekday, month keys, month bounds, `plusBusiness` and `startOf('week')`. `toFixed`, the month label and the link text are also parameters, and the text that `markdown-table-ts` renders is not modelled.
- Amounts are exact `real`s, while the source sums and divides JavaScript doubles (src/reporting.ts:98-103, src/retain.ts:193-219). So these facts hold of exact arithmetic, not of the program's floating point: Reporting.ProjectConservation, Reporting.ScanTotals, Reporting.ItemsAddUp, Reporting.TableColumnsAddUp, Retain.SplitConserves, Retain.DailyConserves, Retain.CarryRoundSound. In particular `Math.round(adjustedWork / 60)` rounds a float quotient, which can fall on the other side of .5 than the exact one.
- `localeCompare` and the comparator-free `sort()` are modelled as code-point order (Dafny compares characters by their Unicode scalar values), because locale collation is external. JavaScript's `sort()` compares UTF-16 code units, which differs only when a supplementary character is compared with one in U+E000 to U+FFFF.
- JavaScript enumerates integer-like object keys first, in numeric order, and the other keys in insertion order. The model keeps insertion order for every object. This changes what the program outputs in these places:
  - Reporting.GroupProjects, Reporting.BuildItems: `Object.keys(groupedData)` (src/reporting.ts:181) lists integer-like group names first, so with the stable "total" or "month" sort, tied groups come out in JavaScript's key order. Grouping by a numeric field puts "2023" before "2024" even when the 2024 page is read first, and "2024" before "Unspecified".
  - MarkdownTable.BuildRowKeys, MarkdownTable.BuildRowMapsByPosition: a row object that parseTable builds (src/parsing-buffer.ts:66-68) puts integer-like headers first, so its key order is not the header order the model states when a header is integer-like.
  - CoolTool.Headers, CoolTool.AsArray, CoolTool.FilterColumnsSound: `Object.keys` in `headers`, `asArray` and `filterColumns` (src/cooltool.ts:96, 103, 122) gives integer-like column names first.
  - the order of `groupedByRes` in processBookings, which the pivot does not depend on.
- Non-numeric budgets or rates count as missing, as in the source; NaN arithmetic is not modelled. Prototype keys of JavaScript objects are not modelled.
- `normalizePath` and the vault's file list are parameters.
- The older copy of `msteamsSetupTeam`, `updateOptions`, `updateUsers` and `updateChannels` in src/msteams.ts calls them through `this`, which is undefined there at run time (src/msteams.ts:16-19, 66-68). The model treats these as direct calls.
- The report's doc comment gives the default filters as 2000-01-01 and 2099-12-31, but the code uses 2020-01-01 and 2029-12-31. The model follows the code.
- CoolTool.BufferCache.GetParsingBuffer: on every cache miss the source builds `new ParsingBuffer(plugin, this)`, whose constructor reads the active note, stores it under the path, and then throws `TypeError: buf.init is not a function`, since src/parsing-buffer.ts defines no `init`. The model instead stores and returns a buffer of the note that `load` gives for the resolved path, and does not fail. The asynchronous loading is not modelled.
- CoolTool.BufferCache.Stakeholders: the source's cached buffer is built as `new ParsingBuffer(this.plugin, this)` (src/cooltool.ts:68), so the buffer's `dv` is the CoolTool object, which has no `array` method. Whenever getStakeholders finds the table, `this.dv.array(...)` (src/parsing-buffer.ts:45) therefore throws `TypeError: this.dv.array is not a function`. With the `buf.init` failure on a cache miss, the source's `stakeholders` never returns rows. The model gives each buffer a working Dataview `array` (the wiring of main.ts:157) and returns the rows of getStakeholders where the source throws.
- CoolTool.BufferCache.GetParsingBuffer, CoolTool.BufferCache.Stakeholders: resolve paths with the corrected `PathFromLink`, not the greedy capture of src/cooltool.ts:264 (see Findings). So for an argument `[[Name|Alias]]` the model returns the buffer of `Name`, where the source throws a TypeError when it reads `.path` of undefined.
- PowerShell.QuotedPssavpar: the quote doubling of main.ts:243 leaves `$name`, `$(...)`, backtick escapes and the typographic quotes “ ” „ active inside the double-quoted literal, so PowerShell does not read values such as `a$(whoami)` or `x“y` back as they were. PowerShell.QuotedPssavparRoundTrip proves only that un-doubling inverts the doubling; PowerShell's string expansion is not modelled.
- CoolTool.AddColumns: requires each row's property names to be distinct, which every JavaScript object satisfies.
- `createNote`, `products`, `stages`, `property`, `getDataview`, `updateTeamBelow`, the settings UI and the configuration patching are not modelled, because they are host or I/O glue.
- `getRange` and the HTML rendering of `renderBranch` belong to the editor and the exporter, so only the line range is modelled.
- Strings are sequences of Unicode scalar values (Dafny `char`), not UTF-16 code units, so lone surrogates, which `TextEncoder` turns into U+FFFD, are not modelled. `toLowerCase` lowers only ASCII letters.

## Findings

| source | as written | input that shows it | evidently intended | confidence | as-written member | corrected member |
|---|---|---|---|---|---|---|
| src/retain.ts:244-252 | line 244 already appends each row's sum, and line 252 appends `sum(x[1])` of the extended row again | one resource, one day in week 7: the row reads 1, 1, 2 under Week, Date, resource, Total | each row ends in its own total once, as wide as the head | high (not executed) | Retain.ShiftRowsAsWritten with Retain.ShiftRowsDoubledExample | Retain.ShiftRows with Retain.ShiftRowsSound |
| src/cooltool.ts:264 | the greedy `(.+)` runs to the final `]]`, so the alias group never matches and the capture keeps `\|Alias` | `[[Name\|Alias]]` captures `Name\|Alias`, no basename matches, and reading `.path` of undefined throws | capture only the target, as the lazy pattern at src/cooltool.ts:258 does | high (not executed) | CoolTool.PathFromLinkAsWritten with CoolTool.AliasedLinkResolves | CoolTool.PathFromLink with CoolTool.LinkTargetSound |

# Life graph: a Dafny model

This project models the logic of a single-page "2025 life graph" diary.
A year is twelve month records, one per month. Each record holds:

- a score from 0 to 100, a title and a note;
- up to five images;
- a checklist of keyword categories and a list of achievements;
- five optional reflection texts.

The model covers how each editor edits one record and how the shell writes
edits back into the year. It also covers the values derived from the year:

- the average and its mood message;
- the best and worst month;
- the trend curve of the share card and the report cover;
- the report's pages and the timeline cards;
- the recap viewer's navigation;
- the interactive graph's scales, drag score and pointer state machine.

Each source file has its own module:

- `Types`: records and the JavaScript behaviour the code relies on, namely truthiness, `trim`, `Math.round`, `parseInt` and decimal rendering.
- `Seqs`: `filter`, `splice(i, 1)` and `slice(0, n)`.
- `Categories`: the category-list edits shared by both editors.
- `Constants`, `Diary` (DiarySection) and `Detail` (DetailPanel).
- `Year` (App).
- `TrendPath` (the `getGraphPath` loop shared by the share card and the report).
- `Share`, `Report`, `Graph` (LifeGraph), `Recap` (MonthRecapModal) and `Timeline` (YearlyTimeline).

Handlers are pure functions from the record shown to the record passed to
`onUpdate`. A handler that returns early yields `None`. Randomly generated
category ids are parameters. An image upload arrives as the list of already
read data URLs, in file order.

Where the documented behaviour and the code differ, the model follows the code:

- Neither `handleScoreChange` nor `handleUpdateScore` clamps a score. The range input (0 to 100) and the graph's clamp are what keep scores in range. `Detail.SliderScoreRoundTrip` and `Graph.RunKeepsValidYear` prove this.
- The large report marker goes to every record whose month equals the best record's month. The best record is the last one with the top score, not just any maximum.
- A month page with no images or no achievements still shows those sections, with placeholder text.

## Model

| member | source | states |
|---|---|---|
| Types.Trim | components/DiarySection.tsx:31 | the result is a stretch of the input with only whitespace before and after it, it is empty exactly when the input is all whitespace, and otherwise it starts and ends with a non-whitespace character |
| Types.TrimIsUnique | components/DiarySection.tsx:31 | those properties pin the trimmed text down: any text that meets them is the trimmed text |
| Types.TrimIdempotent | components/DiarySection.tsx:43 | trimming twice gives the same text as trimming once |
| Types.OrElse | components/ReportPDF.tsx:195 | an optional text or its `'-'` fallback gives the text when it is present and non-empty, otherwise the fallback |
| Types.StrOrElse | components/ReportPDF.tsx:130 | a title or its fallback gives the title when it is non-empty, otherwise the fallback |
| Types.Round | App.tsx:87 | `Math.round` returns the integer within one half of x, with halves rounding up |
| Types.RoundOfInt | App.tsx:87 | rounding a whole number returns it unchanged |
| Types.ParseInt | components/DetailPanel.tsx:21 | `parseInt` of a blank string is NaN |
| Types.ParseIntOfNatToString | components/DetailPanel.tsx:21 | parsing the decimal rendering of a natural number returns that number |
| Types.DigitsValueOfNatToString | components/DetailPanel.tsx:21 | the digit string of a number evaluates back to that number |
| Types.NatToString | constants.tsx:4-7 | decimal rendering gives digits only, with no leading zero |
| Types.IntToString | components/YearlyTimeline.tsx:37 | an integer in a template literal is its decimal digits, with a minus sign when negative |
| Seqs.Filter | components/DetailPanel.tsx:43 | `filter` keeps exactly the elements satisfying the predicate, with their multiplicities |
| Seqs.FilterConcat | components/DetailPanel.tsx:43 | filtering keeps order: filtering two lists joined gives the filtered lists joined |
| Seqs.SpliceStart | components/DiarySection.tsx:51 | the start index `splice` uses: i itself inside the list, the length when i is past the end |
| Seqs.RemoveAt | components/DiarySection.tsx:49-53 | `splice(i, 1)` on a copy removes exactly the element at the start index and keeps the others in order |
| Seqs.RemoveAtTwice | components/DiarySection.tsx:49-53 | removing index i twice removes the two distinct original elements i and i + 1 |
| Seqs.Take | components/DiarySection.tsx:62 | `slice(0, n)` gives the first min(n, length) elements |
| Categories.Toggle | components/DiarySection.tsx:22-27 | exactly the categories with the id flip their value; ids, names and order stay |
| Categories.ToggleTwice | components/DiarySection.tsx:22-27 | toggling the same id twice restores the list |
| Categories.ToggleKeepsDistinctIds | components/DiarySection.tsx:22-27 | toggling keeps ids distinct |
| Categories.Append | components/DiarySection.tsx:29-39 | a blank name adds nothing; otherwise the list grows by one category with the trimmed name at the end |
| Categories.AppendKeepsDistinctIds | components/DiarySection.tsx:32-37 | appending a category with a fresh id keeps ids distinct |
| Categories.Remove | components/DetailPanel.tsx:42-44 | no category with the id remains, every other category keeps its multiplicity, and a list without the id is unchanged |
| Categories.RemoveConcat | components/DetailPanel.tsx:42-44 | removal keeps the order of the remaining categories |
| Categories.RemoveKeepsDistinctIds | components/DetailPanel.tsx:42-44 | removal keeps ids distinct |
| Categories.Active | components/ReportPDF.tsx:110 | the active categories are exactly the switched-on ones, with their multiplicities |
| Categories.ActiveConcat | components/ReportPDF.tsx:110 | the active categories keep their original order |
| Constants.MonthNamesAreNumbered | constants.tsx:4-7 | label k is the number k + 1 followed by "월" |
| Constants.InitialReflectionsShape | constants.tsx:9-15 | five default reflections with ids "1" to "5", all switched off |
| Constants.InitialDataShape | constants.tsx:17-102 | the seed year has twelve valid records for months 1 to 12, with distinct category ids and no images |
| Constants.ScoreBandOf | constants.tsx:110-114 | above 70 is high, above 40 is mid, otherwise low |
| Constants.ScoreColor | constants.tsx:104-114 | each of the three colours is returned exactly for its score band |
| Constants.ScoreBandEdges | constants.tsx:110-114 | 71 and 70, and 41 and 40, fall in different bands |
| Diary.HandleFieldChange | components/DiarySection.tsx:18-20 | the field holds the new text and every other field is unchanged |
| Diary.FieldChangeUndo | components/DiarySection.tsx:18-20 | writing a field's old content back restores the record |
| Diary.ToggleCategory | components/DiarySection.tsx:22-27 | only the categories with that id flip; the rest of the record is unchanged |
| Diary.AddCategory | components/DiarySection.tsx:29-39 | no update for a blank name; otherwise one switched-on category with the trimmed name is appended and nothing else changes |
| Diary.AddAchievement | components/DiarySection.tsx:41-47 | no update for a blank entry; otherwise the trimmed, non-empty text is appended |
| Diary.RemoveAchievement | components/DiarySection.tsx:49-53 | a valid index removes exactly that achievement; an index past the end changes nothing |
| Diary.HandleImageUpload | components/DiarySection.tsx:55-74 | no update for no files or a full gallery; otherwise the first (5 - current) files are appended in order, and there are never more than five images |
| Diary.RemoveImage | components/DiarySection.tsx:76-80 | a valid index removes exactly that image and keeps the rest in order |
| Diary.ApplyKeepsValid | components/DiarySection.tsx:18-80 | every editor action keeps the month, the score and the validity of a record |
| Diary.ApplyAllKeepsValid | components/DiarySection.tsx:55-74 | any sequence of editor actions, uploads included, keeps a record valid with at most five images |
| Detail.HandleNoteChange | components/DetailPanel.tsx:16-18 | only the note changes |
| Detail.ScoreOf | components/DetailPanel.tsx:21 | the parsed input or 0 gives 0 when the input does not parse, otherwise the parsed value |
| Detail.HandleScoreChange | components/DetailPanel.tsx:20-22 | only the score changes; a blank input stores 0 |
| Detail.SliderScoreRoundTrip | components/DetailPanel.tsx:63-68 | every slider position from 0 to 100 is stored as that score, so a valid record stays valid |
| Detail.ToggleCategory | components/DetailPanel.tsx:24-29 | only the categories with that id flip |
| Detail.AddCategory | components/DetailPanel.tsx:31-40 | no update for a blank name; otherwise one switched-off category with the trimmed name is appended |
| Detail.RemoveCategory | components/DetailPanel.tsx:42-44 | the list is the category list with every entry of that id removed and the others kept in order; no entry of the id is left, the others keep their multiplicity, distinct ids stay distinct, and no other field changes |
| Year.InitialDataIsValidYear | App.tsx:16 | the store starts as a valid year |
| Year.UpdateScore | App.tsx:74-78 | only the score of record `index` changes |
| Year.UpdateScoreKeepsValid | App.tsx:74-78 | a score from 0 to 100 keeps the year valid |
| Year.UpdateMonthData | App.tsx:80-85 | the record lands at index month - 1 and every other index keeps its record |
| Year.EditorWriteBackKeepsValid | App.tsx:167 | any sequence of editor actions on month i, written back, replaces month i only and keeps the year valid |
| Year.ScoreSum | App.tsx:87 | the sum of twelve valid scores lies between 0 and 100 times the count |
| Year.AverageScore | App.tsx:87 | the average is the sum over 12 rounded to the nearest integer, and lies in 0..100 for a valid year |
| Year.EmotionalMessage | App.tsx:89-95 | each of the five messages is returned exactly for its band of averages |
| Year.EmotionalMessageSamples | App.tsx:89-95 | 90, 75, 55, 35 and 10 select the five messages in band order |
| Year.SeedAverage | App.tsx:87 | the seed scores sum to 745, so the displayed average is 62 and the message is the calm one |
| Year.OnPrev | App.tsx:210 | step back only from an index above 0 |
| Year.OnNext | App.tsx:211 | step forward only from an index below 11 |
| Year.RecapIndexStaysInRange | App.tsx:210-213 | the recap index stays in 0..11, and stays put exactly at the first or last month |
| Year.PrevUndoesNext | App.tsx:210-211 | stepping forward then back returns to the same month below 11 |
| TrendPath.YAtBounds | components/ShareModal.tsx:39 | a score of 0 is drawn on the bottom padding line and 100 on the top one, and higher scores are drawn higher |
| TrendPath.ControlPointsMeet | components/ShareModal.tsx:42-43 | both control points of a segment sit at the midpoint x of the two months it joins |
| TrendPath.GraphPath | components/ShareModal.tsx:31-47 | one move point at the first month and exactly len - 1 cubic segments; segment i ends at month i's point, with control points at the previous and current heights |
| Share.BestIndex | components/ShareModal.tsx:23 | the best month has the top score and no later month reaches it, so ties go to the later month |
| Share.WorstIndex | components/ShareModal.tsx:26 | the worst month has the lowest score and no later month is as low |
| Share.BestIndexIsUnique | components/ShareModal.tsx:23 | the reduce returns exactly the index satisfying the best-month rule |
| Share.WorstIndexIsUnique | components/ShareModal.tsx:26 | the reduce returns exactly the index satisfying the worst-month rule |
| Share.ComputeStats | components/ShareModal.tsx:19-29 | the card's average equals the shell's, and the best and worst records bound every score |
| Share.SeedScores | constants.tsx:17-102 | the twelve seed scores in month order |
| Share.SeedBest | components/ShareModal.tsx:23 | on the seed year the best month is December |
| Share.SeedWorst | components/ShareModal.tsx:26 | on the seed year the worst month is June |
| Share.ShareCoordinates | components/ShareModal.tsx:32-39 | in the 300 x 120 box, month i sits at x = 20 + i·260/11 and score s at y = 100 − 0.8·s |
| Share.SharePath | components/ShareModal.tsx:31-47 | the card's curve starts at the first month's point and has len - 1 segments; segment i ends at month i + 1's point, and both its control points sit halfway between months i and i + 1, at month i's height and month i + 1's height |
| Share.ShareHeights | components/ShareModal.tsx:39 | 0 is drawn at y = 100, 100 at y = 20, and a higher score higher |
| Report.EmotionalMessage | components/ReportPDF.tsx:19-25 | the report's message equals the shell's message for every score |
| Report.MarkerRadius | components/ReportPDF.tsx:94-97 | radius 8 exactly for a record whose month is the best record's month, 4 otherwise |
| Report.LargeMarkerIsBestMonth | components/ReportPDF.tsx:14 | in a valid year exactly the best month's marker is large, and it carries a top score |
| Report.MarkerAt | components/ReportPDF.tsx:90-99 | marker i sits at (30 + i·490/11, 190 − 1.6·score), with its radius and its score colour |
| Report.ReportCoordinates | components/ReportPDF.tsx:28-37 | the report curve runs from x = 30 to x = 520, with y = 190 − 1.6·score |
| Report.MakeCover | components/ReportPDF.tsx:59-101 | the cover shows the given average and its message, and one marker per record, each lying exactly on the curve |
| Report.ListOrElse | components/ReportPDF.tsx:154-163 | a section shows its list when it is non-empty and the placeholder otherwise |
| Report.Keywords | components/ReportPDF.tsx:110-219 | a keyword is shown exactly when some switched-on category has that name |
| Report.KeywordsConcat | components/ReportPDF.tsx:110 | keywords follow the categories' order |
| Report.MonthPageOf | components/ReportPDF.tsx:108-266 | title and note fall back to their defaults; at most the first 3 images and the first 4 achievements appear, or the placeholder when the list is empty; empty highlights show '-'; the page number is month + 1 |
| Report.MonthPages | components/ReportPDF.tsx:108-114 | one page per record, in record order |
| Report.PageNumbersFollowRecords | components/ReportPDF.tsx:265 | in a valid year, record i's page is month i + 1, numbered i + 2, straight after the cover |
| Report.MakeReport | components/ReportPDF.tsx:42-270 | the cover first, carrying the given average, its message and one marker per record on the trend curve, then one month page per record in record order |
| Graph.InvertUndoesLinear | components/LifeGraph.tsx:52-56 | inverting a non-degenerate linear scale undoes it |
| Graph.ScaleEndpoints | components/LifeGraph.tsx:39-56 | month 1 maps to the left padding and 12 to width − right; score 0 maps to height − bottom and 100 to top; higher scores are drawn higher |
| Graph.Clamp | components/LifeGraph.tsx:72 | the clamp lies in 0..100 and leaves in-range values alone |
| Graph.DragScore | components/LifeGraph.tsx:72-73 | for any pointer height the emitted score is a whole number in 0..100, the rounding of the clamped inverse |
| Graph.DragScoreRoundTrip | components/LifeGraph.tsx:52-73 | dragging to where a score is drawn emits that score; above the plot it emits 100, below it 0 |
| Graph.Step | components/LifeGraph.tsx:69-82 | a move while not dragging emits nothing; pointer-down sets the dragged month; pointer-up clears it; enter and leave set the hovered month; a click selects only when nothing is dragged |
| Graph.ActiveMonths | components/LifeGraph.tsx:155 | a month is highlighted exactly when it is the selected, dragged or hovered month, so at most three are |
| Graph.StepInRange | components/LifeGraph.tsx:169-177 | events on the hit circles keep the dragged and hovered indices in range, and every emitted update names a month, with a score in 0..100 |
| Graph.RunKeepsValidYear | components/LifeGraph.tsx:69-82 | any run of pointer events, with updates applied by the shell, keeps the year valid |
| Recap.HandleKeyDown | components/MonthRecapModal.tsx:19-23 | Escape always closes; ArrowLeft steps back exactly when not first; ArrowRight steps forward exactly when not last |
| Recap.Press | components/MonthRecapModal.tsx:31-57 | a control fires nothing exactly when it is hidden or disabled; the arrows step only away from the ends; the backdrop closes once, and the close button closes twice because its click also reaches the backdrop |
| Recap.NavButtons | components/MonthRecapModal.tsx:42-57 | the desktop arrows render exactly away from the ends; the mobile arrows always render |
| Recap.NavigateStaysInRange | components/MonthRecapModal.tsx:19-23 | with the shell's callbacks, any input either closes the viewer or keeps the index in 0..11, moving by at most one; Escape, the close button and the backdrop all leave it closed |
| Recap.CardOf | components/MonthRecapModal.tsx:64-176 | the card is active exactly at the current index; title and note fall back to defaults; images, reflections and achievements show exactly when non-empty, each reflection only when truthy |
| Recap.Cards | components/MonthRecapModal.tsx:64 | one card per record, in order |
| Recap.ExactlyOneActiveCard | components/MonthRecapModal.tsx:65 | exactly the card at the current index is active, and none when the index is out of range |
| Timeline.Initial | components/YearlyTimeline.tsx:52 | a badge shows the first character of the name, or nothing for an empty name |
| Timeline.Badges | components/YearlyTimeline.tsx:46-54 | at most three badges: the first three switched-on categories, in order |
| Timeline.BadgesIgnoreLaterCategories | components/YearlyTimeline.tsx:46 | categories after the third switched-on one do not change the badges |
| Timeline.CardOf | components/YearlyTimeline.tsx:15-42 | an empty title falls back to "<month>월의 기록", an empty note to the no-content text, and clicking passes the card's own index |
| Timeline.Cards | components/YearlyTimeline.tsx:15 | one card per record, in order |
| Timeline.ClickIndicesArePositions | components/YearlyTimeline.tsx:20 | clicking card i passes exactly i, so no two cards pass the same index |

## Left out

- The IndexedDB persistence and its debounced autosave: `services/db.ts` is asynchronous browser storage with no logic to state. Backup import and export are not part of this model either.
- Rasterising the report pages and writing the PDF, the PNG download and clipboard copy are left out. So are their fixed settle delays. They are browser I/O.
- The d3 monotone curve and area generators of the interactive graph, the resize listener and pointer capture are left out. Only the linear scales, the clamp and the drag state are modelled.
- The SVG path text of `getGraphPath` is left out. The path is modelled as exact rational points. JavaScript's rendering of floating-point numbers into the string, and its rounding, are not modelled.
- `FileReader`: an upload is the list of data URLs in file order, once all reads have finished.
- Diary.HandleImageUpload: the upload is applied at once to the record shown. In the source the reads are awaited first (components/DiarySection.tsx:70-71). The finished upload then writes back through the `onUpdate` of the render that started it, which copies that render's year (App.tsx:80-85). So an edit made while the reads are pending is overwritten, whether it is to this month, to another month or an earlier overlapping upload. That lost update is not modelled.
- Diary.ApplyAll: applies every action, uploads included, to the current record in turn, so the lost update above does not arise in it.
- `Math.random` category ids are a parameter. Their uniqueness is not proved. Where a lemma needs distinct ids, freshness is a precondition.
- Scrolling, timers and `window.innerWidth` in `handleMonthSelect`: the graph emits the click, and what the shell does with it beyond the selected index is not modelled.
- Year.UpdateScore: requires an index inside the year. The source would throw on a missing record.
- Graph.Handle: ignores a drag update whose index is outside the year. Events only come from the twelve hit circles.
- Year.UpdateMonthData: requires the record's month to be inside the year. The source would write past the end of the array.
- Year.UpdateScore: the in-place score write of `handleUpdateScore` (App.tsx:74-78) is modelled as replacing the record by value. In the source the record object is shared with the previous year array, which is why a score dragged while an upload is pending survives its write-back. That sharing is not modelled.
- Types.ParseInt: its contract states only that blank input gives NaN. The decimal grammar is stated through Types.ParseIntOfNatToString. It reads decimal and `0x` hexadecimal digits with unbounded precision. It does not model the loss of precision past 2^53.
- Timeline.Initial: takes the first Unicode scalar value of the name. JavaScript takes the first UTF-16 code unit, which differs only for characters outside the Basic Multilingual Plane.
- Graph.DragScore: the scales, their inverse and the drag score are exact rationals, as are Graph.Linear, Graph.LinearInvert and Graph.YInvert. The source computes them in IEEE doubles before `Math.round` (components/LifeGraph.tsx:52-73). A height whose exact score is k + 0.5 may round to k there. Double rounding is not modelled.
- Share.BestIndex: requires a non-empty year. For an empty array the source's `reduce(..., data[0])` returns `undefined` and rendering `stats.best.month` throws (components/ShareModal.tsx:23).
- Share.WorstIndex: requires a non-empty year, for the same throw on `stats.worst` (components/ShareModal.tsx:26).
- Share.ComputeStats: requires a non-empty year, for the throws above.
- Share.BestIndexIsUnique: requires a non-empty year, as Share.BestIndex does.
- Share.WorstIndexIsUnique: requires a non-empty year, as Share.WorstIndex does.
- TrendPath.GraphPath: requires a non-empty year. For an empty array the source reads `data[0].score` and throws (components/ShareModal.tsx:36, components/ReportPDF.tsx:29).
- Share.SharePath: requires a non-empty year, for the throw in `getGraphPath`.
- Report.MakeCover: requires a non-empty year, for the throw in `getGraphPath`.
- Report.MakeReport: requires a non-empty year, for the throw in `getGraphPath`. Every caller passes the twelve-record year, so none of these throws is reachable from the app.
- The graph's pointer events arrive in the order the model is given. The browser's ordering of click after pointer-up, and React's batching of state updates between them, are not modelled.
- Styling, colours beyond the score colour, icons and layout classes are presentation only.

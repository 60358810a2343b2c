# Real-estate deal dashboard — a Dafny model

This project models the data-deriving core of a small dashboard for screening
property listings. An upstream analysis writes each listing to a data-store
table with a verdict: `GO`, `PRÜFEN` ("check") or `NO-GO`. The dashboard reads
the table back and shows the listings in four places:

- a daily overview with counts, the best GO yield and four top picks;
- a sortable, filterable, searchable table;
- a history view limited to a date range;
- a pipeline board with one column per deal stage.

Cards, badges and a detail drawer present single listings.

The model has one Dafny module per source file. `Types` holds the listing
record and the status and stage values. `Seqs` holds `Array.prototype.filter`
and the facts about it that the views share: what a filter keeps, that it
keeps the order, and how filter sizes add up. React state becomes classes
whose methods change their fields: `ListingTable.Table`,
`History.HistoryView` and `PipelineBoard.PipelineView`. The table's in-place
sort is an insertion sort on an `array`. The fetch loop is a `while` loop over
a given sequence of response pages. Everything else is functions with lemmas.

Foreign calls are parameters. These are locale number and date formatting,
`toFixed`, `Date` parsing, `JSON.parse` and the wall clock:
`Utils.Formatters`, `Airtable.Clock`, and the `now`/`parse` arguments of the
history filter. Timestamps are integer milliseconds. JavaScript numbers are
`real`; a missing number (`null`, or the `-Infinity` stand-in the sort
comparators use) is `None`.

`src/components/ui/KanbanCard.tsx` and `src/components/ui/KanbanColumn.tsx`
call drag-and-drop hooks. `src/components/pages/PipelineClient.tsx` does not
use them: it renders plain buttons that open the drawer. `src/lib/airtable.ts`
has no write call. So no move of a listing between stages is modelled.

## Model

| member | source | states |
|---|---|---|
| `Utils.FormatNumber` | src/lib/utils.ts:1-17 | price, yield and area formatting give `'—'` for null or undefined and otherwise the formatter's text |
| `Utils.FormatDate` | src/lib/utils.ts:20-29 | `'—'` for a missing or empty date, the input itself when it does not parse, the formatted date otherwise |
| `Utils.ParseRisks` | src/lib/utils.ts:31-39 | no risks for a missing or empty field, otherwise what the JSON parser yields (no risks if it fails) |
| `Utils.IsToday` | src/lib/utils.ts:41-50 | true exactly when the date is non-empty, parses, and falls on the same calendar day as now |
| `Utils.Cn` | src/lib/utils.ts:52-54 | the class string is empty exactly when every argument is falsy |
| `Utils.CnAppend` | src/lib/utils.ts:52-54 | `cn` of two argument lists is their class strings in order, joined by one space and with no space beside an empty side |
| `Utils.CnSingle` | src/lib/utils.ts:53 | a truthy argument contributes its text, a falsy one nothing; `true` contributes `"true"` |
| `Utils.Join` | src/lib/utils.ts:53 | no parts give `''`; the first part starts the result; two parts are joined by one separator; the length is the parts' lengths plus one separator between each pair of neighbours |
| `Utils.CnPair` | src/lib/utils.ts:53 | two non-empty classes are joined by exactly one space |
| `Utils.Truncate` | src/lib/utils.ts:56-59 | unchanged when it fits; otherwise the first `maxLen` characters plus `'…'`, of length `maxLen + 1` |
| `Utils.TruncateIdempotent` | src/lib/utils.ts:56-59 | truncating twice to the same non-negative length equals truncating once |
| `Utils.TruncateNegativeShrinks` | src/lib/utils.ts:58 | with a negative length, `slice` counts from the end, so a second truncation cuts further |
| `ListingTable.Table.constructor` | src/components/ui/ListingTable.tsx:23-26 | initial state: all statuses, sorted by price descending, empty search |
| `ListingTable.Table.HandleSort` | src/components/ui/ListingTable.tsx:28-35 | the current column flips the direction; another column is selected descending; filter and search are untouched |
| `ListingTable.Table.ClickTwice` | src/components/ui/ListingTable.tsx:29-30 | two clicks on the current sort column restore the whole state |
| `ListingTable.Table.SetStatusFilter` | src/components/ui/ListingTable.tsx:80 | a status button sets the filter and nothing else |
| `ListingTable.Table.SetSearch` | src/components/ui/ListingTable.tsx:96 | typing sets the search text and nothing else |
| `ListingTable.LowerChar` | src/components/ui/ListingTable.tsx:45 | the ASCII capitals and the Latin-1 capitals `À`–`Þ` except `×` move 32 code points down to their small letters; every other character stays as it is |
| `ListingTable.Lower` | src/components/ui/ListingTable.tsx:45 | lower-casing keeps the length and works character by character |
| `ListingTable.Includes` | src/components/ui/ListingTable.tsx:48-50 | a prefix is found; a found needle is no longer than the text; a needle as long as the text is found exactly when it is the text |
| `ListingTable.IncludesAt` | src/components/ui/ListingTable.tsx:48-50 | `includes` holds exactly when the needle occurs at some position of the text |
| `ListingTable.MatchesStatus` | src/components/ui/ListingTable.tsx:40-42 | `ALL` keeps every row; a status keeps exactly the rows with that status |
| `ListingTable.MatchesSearch` | src/components/ui/ListingTable.tsx:44-52 | a blank search keeps every row; otherwise a row passes exactly when the lowered query occurs at some position of its lowered address, its lowered title or its raw postcode |
| `ListingTable.Selected` | src/components/ui/ListingTable.tsx:40-52 | a row passes exactly when it has the chosen status (any status under ALL) and a blank search, or its lowered address or title, or its raw postcode, contains the lowered, untrimmed query |
| `ListingTable.NullsPlacement` | src/components/ui/ListingTable.tsx:55-58 | in a sorted result, missing values come first ascending and last descending |
| `ListingTable.InOrderTotal` | src/components/ui/ListingTable.tsx:57-59 | any two rows are ordered one way or the other |
| `ListingTable.InOrderTransitive` | src/components/ui/ListingTable.tsx:57-59 | the comparator's order is transitive |
| `ListingTable.SwapDown` | src/components/ui/ListingTable.tsx:54 | swapping two neighbours exchanges exactly them and keeps the multiset |
| `ListingTable.InsertDown` | src/components/ui/ListingTable.tsx:54-60 | one insertion step extends the sorted prefix by one and keeps the multiset and the rest of the array |
| `ListingTable.SortInPlace` | src/components/ui/ListingTable.tsx:54-60 | the in-place sort leaves the array sorted by the field and direction, and a permutation of what it held |
| `ListingTable.Table.Filtered` | src/components/ui/ListingTable.tsx:37-63 | the rows are a permutation of exactly the passing listings, sorted, and never more than the input |
| `Dashboard.FoldBestIsBest` | src/app/page.tsx:15-18 | the reduce keeps the best yield seen so far |
| `Dashboard.BestYield` | src/app/page.tsx:15-18 | the best yield is null exactly when no GO listing has a yield; otherwise it is some GO listing's yield and no GO yield exceeds it |
| `Dashboard.NonGoYieldIgnored` | src/app/page.tsx:10-18 | changing the yield of a listing that is not GO never changes the best yield |
| `Dashboard.Stats` | src/app/page.tsx:10-19 | the day's total is the number of listings; the GO and PRÜFEN counts are the numbers of listings with those statuses, and together at most the total; the best yield is `BestYield`'s |
| `Dashboard.Insert` | src/app/page.tsx:24-32 | inserting adds exactly the one element |
| `Dashboard.InsertSorted` | src/app/page.tsx:24-32 | insertion preserves the ranking order |
| `Dashboard.RankSort` | src/app/page.tsx:24-32 | the ranking sort is a permutation |
| `Dashboard.RankSortSorted` | src/app/page.tsx:24-32 | the ranking sort yields a ranked sequence |
| `Dashboard.Ranked` | src/app/page.tsx:22-32 | the full ranking holds every GO and PRÜFEN listing as often as the input does and nothing else, #GO + #PRÜFEN of them, in ranking order |
| `Dashboard.RankSortedOrder` | src/app/page.tsx:25-31 | in a ranked sequence no PRÜFEN precedes a GO; within a status, yields do not increase and missing yields come last |
| `Dashboard.TopPicks` | src/app/page.tsx:22-33 | there are min(4, #GO + #PRÜFEN) top picks, a prefix of the full ranking, each a GO or PRÜFEN listing of the input, in ranking order |
| `Airtable.NumberOrZero` | src/lib/airtable.ts:20-21 | an absent or non-numeric price or area becomes 0 |
| `Airtable.MapRecord` | src/lib/airtable.ts:11-49 | keeps the record id; the nullable numbers are copied as stored; an absent or non-numeric price or area is 0; the duplicate flag is set only by a stored `true` |
| `Airtable.MapRecordFieldwise` | src/lib/airtable.ts:14-47 | every present field is copied; every absent text field takes its own default (`''`, `'not stated'`, `'⚪ Unknown'` or `'[]'`); a numeric price or area is kept |
| `Airtable.MapRecordDefaults` | src/lib/airtable.ts:14-47 | a record without fields gets `''`, `'not stated'`, `'⚪ Unknown'`, `'[]'`, 0, null and false as its defaults |
| `Airtable.MapRecordRoundTrip` | src/lib/airtable.ts:14-47 | a record storing every field maps back to exactly the listing it came from |
| `Airtable.MapAll` | src/lib/airtable.ts:130 | each page record is mapped, in order |
| `Airtable.BuildParams` | src/lib/airtable.ts:89-113 | no formula without filters, the single filter verbatim, `AND(a, b)` for two; the status filter is `{status} = '<s>'`; sort by the given field (descending by default), or by analysis date descending |
| `Airtable.NoOptionsParams` | src/lib/airtable.ts:107-113 | a fetch with no options has no formula and sorts by `analyzed_at` descending |
| `Airtable.StopIndex` | src/lib/airtable.ts:118-132 | the loop stops at the first page that fails or has no offset |
| `Airtable.FetchPages` | src/lib/airtable.ts:115-134 | request k carries page k−1's offset; the records are every page's mapped records in page order; total is their count; a failed page raises the HTTP status |
| `Airtable.AllRecordsAppend` | src/lib/airtable.ts:130 | a page's records are appended after the records of the pages before it |
| `Airtable.AllRecords` | src/lib/airtable.ts:130 | the collected records are as many as the pages hold together |
| `Airtable.AllRecordsContains` | src/lib/airtable.ts:130 | every record of every page reaches the result, mapped |
| `Airtable.MockFetch` | src/lib/airtable.ts:59-86 | a listing is returned exactly when it is in the mock data, has the given status (if one is given) and was analysed today or in the last seven days (if that date option is given); without either filter all are returned |
| `Airtable.MockFetchIsFilter` | src/lib/airtable.ts:62-83 | the status filter followed by the date filter is one filter by both conditions |
| `Airtable.MockFetchInOrder` | src/lib/airtable.ts:62-83 | the mock result keeps the order of the mock data and each kept listing as often as it occurs there |
| `Airtable.FetchListings` | src/lib/airtable.ts:58-135 | the mock branch sends no query; the remote branch's first query is the built one and its result is the page loop's |
| `Airtable.FirstWithId` | src/lib/airtable.ts:139 | finds the first position with the id, or none exactly when no listing has it |
| `Airtable.FetchListingById` | src/lib/airtable.ts:137-150 | the first mock listing with the id, or null; remotely, null exactly for a failed response and the mapped record otherwise |
| `History.Cutoff` | src/components/pages/HistoryClient.tsx:21-22 | the cutoff is now minus 7 or 30 days of milliseconds |
| `History.InRange` | src/components/pages/HistoryClient.tsx:18-28 | `all` returns the input; a bounded range keeps exactly the listings analysed at or after the cutoff, each as often as in the input, never one with an empty date |
| `History.InRangeInOrder` | src/components/pages/HistoryClient.tsx:24-27 | the kept listings stay in their original order |
| `History.RangesNested` | src/components/pages/HistoryClient.tsx:19-27 | at one clock reading, the 7-day view is a subsequence of the 30-day view, which is a subsequence of all |
| `History.Stats` | src/components/pages/HistoryClient.tsx:30-35 | the total is the filtered count; the GO, PRÜFEN and NO-GO counts are the status counts and sum to at most the total |
| `History.HistoryView.constructor` | src/components/pages/HistoryClient.tsx:14-16 | nothing selected, drawer closed, last seven days |
| `History.HistoryView.SetDateRange` | src/components/pages/HistoryClient.tsx:53 | a range button sets the range only |
| `History.HistoryView.SelectRow` | src/components/pages/HistoryClient.tsx:75-78 | selecting a row sets the selection and opens the drawer |
| `History.HistoryView.CloseDrawer` | src/components/pages/HistoryClient.tsx:84 | closing sets open to false and keeps the selection |
| `PipelineBoard.ColumnStages` | src/components/pages/PipelineClient.tsx:14-20 | the column stages, in column order |
| `PipelineBoard.ColumnStagesAre` | src/components/pages/PipelineClient.tsx:14-20 | the stages are NEW, CONTACTED, VIEWING, OFFER, PASSED, pairwise distinct; CLOSED and the empty stage have no column |
| `PipelineBoard.ListingsForStage` | src/components/pages/PipelineClient.tsx:31-32 | a column holds exactly the listings of its stage, each as often as in the input |
| `PipelineBoard.ListingsForStageInOrder` | src/components/pages/PipelineClient.tsx:31-32 | a column keeps the listings' order |
| `PipelineBoard.Board` | src/components/pages/PipelineClient.tsx:44-45 | the board is one stage filter per column, in column order |
| `PipelineBoard.OnExactlyOneColumn` | src/components/pages/PipelineClient.tsx:14-32 | a listing with one of the five stages is on exactly one column; any other listing is on none |
| `PipelineBoard.SizeSumCounts` | src/components/pages/PipelineClient.tsx:44-45 | the sizes of distinct stage filters add up to the size of the filter by their union |
| `PipelineBoard.BoardSize` | src/components/pages/PipelineClient.tsx:44-45 | the column sizes add up to the number of listings whose stage is one of the five |
| `PipelineBoard.RenderColumn` | src/components/pages/PipelineClient.tsx:44-70 | the badge shows the column's size, the placeholder shows exactly when it is empty, the colour follows the base classes |
| `PipelineBoard.PipelineView.constructor` | src/components/pages/PipelineClient.tsx:23-24 | nothing selected, drawer closed |
| `PipelineBoard.PipelineView.OpenDrawer` | src/components/pages/PipelineClient.tsx:26-29 | opening sets the selection and opens the drawer |
| `PipelineBoard.PipelineView.CloseDrawer` | src/components/pages/PipelineClient.tsx:107 | closing sets open to false only |
| `PipelinePage.Staged` | src/app/pipeline/page.tsx:10 | keeps exactly the listings with a non-empty stage, each as often as in the input |
| `PipelinePage.StagedInOrder` | src/app/pipeline/page.tsx:10 | the kept listings are an order-preserving subsequence |
| `PipelinePage.ClosedHasNoColumn` | src/app/pipeline/page.tsx:10 | a CLOSED listing passes the page filter but is on no column |
| `PipelinePage.StagingKeepsColumns` | src/app/pipeline/page.tsx:10 | every column is the same with or without the page filter |
| `PipelinePage.Load` | src/app/pipeline/page.tsx:6-12 | the page fetches with no formula and the `analyzed_at` descending sort, then keeps the staged listings; a failed page fails the load |
| `YieldDisplay.ToneOf` | src/components/ui/YieldDisplay.tsx:23-28 | emerald from 5.5, amber from 4 below 5.5, red below 4 |
| `YieldDisplay.ToneMonotone` | src/components/ui/YieldDisplay.tsx:23-28 | a higher yield never gets a worse colour |
| `YieldDisplay.SizeArgsClass` | src/components/ui/YieldDisplay.tsx:14-16 | exactly the chosen size's class survives |
| `YieldDisplay.NoYieldClasses` | src/components/ui/YieldDisplay.tsx:12-17 | without a yield the class string is the gray class, then the size class |
| `YieldDisplay.YieldClasses` | src/components/ui/YieldDisplay.tsx:31-37 | with a yield the class string is semibold, then the colour, then the size class, bold for `lg` |
| `YieldDisplay.ChosenSize` | src/components/ui/YieldDisplay.tsx:9 | the size is `md` when none is passed |
| `YieldDisplay.Render` | src/components/ui/YieldDisplay.tsx:9-40 | without a yield: the rating or `'n/a'`, gray, at the size class (`md` by default); with one: the yield and `%`, semibold in its colour, `lg` bold |
| `StatusBadge.StylesDistinct` | src/components/ui/StatusBadge.tsx:4-9 | GO, PRÜFEN, NO-GO and the empty status have four distinct styles |
| `StatusBadge.StatusStyle` | src/components/ui/StatusBadge.tsx:16 | a known status gets its style; an unknown one the empty status's style |
| `StatusBadge.Render` | src/components/ui/StatusBadge.tsx:11-22 | the text is the status, or `'Pending'` when empty; the base classes come before the style |
| `StatusBadge.UnknownLooksPending` | src/components/ui/StatusBadge.tsx:16 | an unknown status is styled like an empty one but shows its own text |
| `StatusBadge.BaseFirst` | src/components/ui/StatusBadge.tsx:15-16 | the base classes are a prefix of the class string |
| `EnergyBadge.Label` | src/components/ui/EnergyBadge.tsx:17 | `A_PLUS` is labelled `A+`, every other class as is |
| `EnergyBadge.EnergyStyle` | src/components/ui/EnergyBadge.tsx:22 | a known class gets its style, an unknown one the `'not stated'` style |
| `EnergyBadge.KnownClasses` | src/components/ui/EnergyBadge.tsx:3-14 | the table has exactly A_PLUS, A to H and `'not stated'` |
| `EnergyBadge.Render` | src/components/ui/EnergyBadge.tsx:16-28 | the label, with the base classes before the style |
| `EnergyBadge.APlusSpellings` | src/components/ui/EnergyBadge.tsx:17-22 | `A_PLUS` and `A+` both show `A+`, but only `A_PLUS` gets the A+ style |
| `ListingCard.FirstSegment` | src/components/ui/ListingCard.tsx:60-62 | the text before the first underscore, or all of it when there is none |
| `ListingCard.SourceLabel` | src/components/ui/ListingCard.tsx:60-62 | `'ImmoScout24'` for an id without an underscore, otherwise the text before the first one (empty for a leading one); never an underscore |
| `ListingCard.FirstSegmentOfPrefix` | src/components/ui/ListingCard.tsx:62 | the segment of `portal_rest` is `portal` |
| `ListingCard.PrefixIsLabel` | src/components/ui/ListingCard.tsx:60-62 | an id `portal_rest` is labelled `portal` |
| `ListingCard.Render` | src/components/ui/ListingCard.tsx:12-68 | the summary paragraph shows only for a non-empty summary, truncated to at most 121 characters; missing rooms show `'—'`; the label as derived |
| `DetailDrawer.ReplaceUnderscores` | src/components/ui/DetailDrawer.tsx:99 | every `_` becomes a space, the length is kept, no `_` remains |
| `DetailDrawer.ReplaceUnderscoresFixes` | src/components/ui/DetailDrawer.tsx:99-102 | the replacement is idempotent and changes a value exactly when it holds an underscore |
| `DetailDrawer.RentedLabel` | src/components/ui/DetailDrawer.tsx:100 | `y` is Ja, `n` is Nein, anything else Unbekannt |
| `DetailDrawer.NumberOrDash` | src/components/ui/DetailDrawer.tsx:97-98 | a missing number shows `'—'` |
| `DetailDrawer.StringOrDash` | src/components/ui/DetailDrawer.tsx:107 | a missing value shows `'—'`, an empty one shows empty |
| `DetailDrawer.TextOrDash` | src/components/ui/DetailDrawer.tsx:174 | an empty value shows `'—'` |
| `DetailDrawer.PricePerSqmText` | src/components/ui/DetailDrawer.tsx:82 | a missing price per square metre and a price of 0 both show `'—'` |
| `DetailDrawer.ShownIf` | src/components/ui/DetailDrawer.tsx:112 | a section renders exactly for a non-empty field |
| `DetailDrawer.NullishVersusFalsy` | src/components/ui/DetailDrawer.tsx:107 | the nullish fallback keeps an empty string where the falsy fallback shows the dash |
| `DetailDrawer.AgentSection` | src/components/ui/DetailDrawer.tsx:155-166 | the agent section renders when any of name, e-mail, phone is non-empty, each line only for its own field |
| `DetailDrawer.Content` | src/components/ui/DetailDrawer.tsx:45-202 | no content without a listing; otherwise each value is the listing's field through its own rule (copied, formatted, underscores replaced, dash for a missing number or stage, `??` dash for the refurbishment year) and each optional section is present exactly when non-empty and then holds the field |
| `DetailDrawer.Overlay` | src/components/ui/DetailDrawer.tsx:30-43 | open shows the backdrop and the panel; closed fades the backdrop, lets clicks through and slides the panel out |

## Left out

- Network, headers, revalidation and URL encoding of the query are not modelled. A list response is a given sequence of pages and a single-record response a given value. The API route handlers are not part of this model.
- `Airtable.FetchPages`: requires that some page of the response sequence ends the loop. A store that returns offsets forever makes the source loop forever, and that case is not modelled.
- `MOCK_LISTINGS` and the mock-data switch are parameters (`Airtable.Source`), because the mock data is not part of this model.
- Locale and number formatting are parameters, and so are `toFixed`, number-to-text conversion, `Date` parsing and the calendar day of a timestamp. NaN and the infinities are not values of the model. The nullable numeric fields of a stored record are taken to be numeric when present.
- JSON parsing in `parseRisks` is a parameter; only its empty-input branch is modelled.
- `ListingTable.LowerChar`: lowers only the ASCII and Latin-1 capitals, not all of Unicode's case mapping. Lengths count code points, where JavaScript counts UTF-16 units.
- `ListingTable.Table.Filtered`: states sortedness and permutation but not the stability of `Array.prototype.sort`, because the in-place insertion sort is proved against an order, not against input positions.
- `StatusBadge.StatusStyle`: looking up a status named after an `Object.prototype` property (such as `constructor`) finds that property in the source. The model treats such a name as an unknown status.
- `EnergyBadge.EnergyStyle`: looking up an energy class named after an `Object.prototype` property (such as `constructor`) finds that truthy property in the source. The model treats such a name as an unknown class and gives it the `'not stated'` style.
- `flagged_potential_duplicate` may also be stored as `''`. The model takes the stored value as a boolean, so `''` is treated as absent (both give false).
- The drag-to-move stage update, its optimistic update and its rollback exist in no source file, so they are not modelled. The dnd-kit hooks of the kanban components are a foreign library.
- JSX markup, Tailwind classes beyond the modelled tables, the layout, loading and error pages, the mobile header, the stats-card colours and the dashboard's date header are rendering only.
- The drawer's Escape-key listener is DOM event plumbing.
- The history page's one-line fetch is left out.

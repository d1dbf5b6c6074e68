# luminous dashboard hooks, modelled in Dafny

This project models the client-side hooks of the luminous dashboard: the chart hook, the
table hook and the multi-select variable hook. The chart and table hooks wrap chart.js and
Tabulator and take the data the server pushes on `<id>::refresh-data`. The chart hook
dispatches the zoomed range as a `zoomCompleted` DOM event on the time range selector, and
the table hook's CSV download ends in the browser. The multi-select hook uses no widget
library: it takes its selection from the `dropdownOpen` DOM event and pushes
`lmn_variable_updated` to the server when a `clickAway` event closes the open dropdown.
The model covers the logic the hooks themselves carry:

- **Chart hook** (`chart_hook.dfy`, `chart_legend.dfy`, `chart_csv.dfy`)
  - The refresh handler maps a payload's datasets to chart.js datasets and writes the chart options.
  - The zoom callback and its re-entrancy flag. resetZoom calls back into the callback; this is
    modelled as mutual recursion that decreases on the flag.
  - The legend click handler with its four branches (Ctrl toggle, reveal all, toggle others,
    highlight). Each branch is an imperative method over the legend items' `hidden` flags and
    the chart's dataset visibility, proved against a specification function.
  - The CSV export: a JavaScript `Map` from timestamp to value vector, filled in place. It is
    modelled as an insertion-ordered sequence of entries built by nested loops, and proved equal
    to a fold whose result is characterised in dataset terms.
- **Table hook** (`table_hook.dfy`)
  - The hook object, whose `table` field stays null until the first refresh.
  - The table's data and column definitions.
  - The CSV text built line by line.
  - `convertToUTF16`, which fills a byte array two bytes per UTF-16 code unit. It is proved to
    produce the UTF-16LE encoding of section 4.2 of RFC 2781, and that encoding is proved to
    decode back (`utf16.dfy`).
- **Multi-select variable hook** (`multi_select.dfy`)
  - A class with the `open` and `values` fields and one method per DOM event.
  - The search filter over the option list, and the clear-all / select-all checkbox loops over
    arrays.
- **JavaScript built-ins** (`js_text.dfy`): `Array.prototype.join` and `Array.prototype.indexOf`.

JavaScript strings are Dafny strings. Where the code looks at UTF-16 code units
(`length`, `charCodeAt`), `Utf16.Units` gives the code units, with a surrogate pair for each
supplementary character. A data value or table cell is carried as the text `join` renders it
as. A missing table field is `undefined`, which joins as the empty string.

As written, the refresh handler writes `scales.y.stacked` from the payload's `stacked_x` and
`scales.x.stacked` from `stacked_y` (assets/js/components/chartjs_hook.js:357-358). The model
keeps that assignment. Which axis the server means by each flag is not visible in this code.

Clicking an item of the multi-select twice restores the selection when the value was not
selected before. On a selection without duplicates where the value was selected, the first
click removes it and the second appends it, so the value moves to the end: the same values,
in the original order only if it was already last. `MultiSelectVariable.ToggleTwiceReorders`
shows `["a", "b"]` becoming `["b", "a"]`. `dropdownOpen` accepts any list, duplicates
included; there the second click removes another copy, and
`MultiSelectVariable.ToggleTwiceDuplicate` shows `["a", "a"]` becoming `["a"]` and then `[]`.

## Model

| member | source | states |
|---|---|---|
| `ChartHook.Chart.constructor` | assets/js/components/chartjs_hook.js:182-185 | a new chart has no datasets and the mount-time options, Ctrl is not pressed and the zoom flag is set |
| `ChartHook.Chart.Show` | assets/js/components/chartjs_hook.js:243 | chart.show(i) makes dataset i visible and changes no other dataset's visibility |
| `ChartHook.Chart.Hide` | assets/js/components/chartjs_hook.js:245 | chart.hide(i) makes dataset i invisible and changes no other dataset's visibility |
| `ChartHook.DatasetMapping` | assets/js/components/chartjs_hook.js:321-334 | one chart dataset per payload dataset, at the same position. Each keeps its label, unit, type and rows, takes palette colour idx mod 9 with suffix FF (border) or 40 (background), and fills to the origin exactly when attrs.fill is set |
| `ChartHook.PaletteCycles` | assets/js/components/chartjs_hook.js:326-327 | datasets nine positions apart get the same border and background colours |
| `ChartHook.PaletteDistinct` | assets/js/components/chartjs_hook.js:7 | the nine palette entries are pairwise different seven-character strings |
| `ChartHook.NineConsecutiveDistinct` | assets/js/components/chartjs_hook.js:326-327 | datasets fewer than nine positions apart never share a border or background colour |
| `ChartHook.RefreshDisplays` | assets/js/components/chartjs_hook.js:345-363 | after a refresh the x axis, y axis and y grid are displayed iff the payload has a dataset; the y title is shown with the payload's label, and the time zone is the payload's |
| `ChartHook.OffsetNeverReset` | assets/js/components/chartjs_hook.js:337-343 | after any run of refreshes, x.offset is set iff it was set before or some refresh had a bar chart as its first dataset, so once set it stays set |
| `ChartHook.Refresh` | assets/js/components/chartjs_hook.js:319-366 | the refresh handler replaces the chart's datasets by the mapped payload datasets, one per payload dataset and every one visible (new dataset objects get fresh metadata in chart.update()), and its options by the payload's option update of the old options |
| `ChartHook.OnZoomComplete` | assets/js/components/chartjs_hook.js:154-175 | with the flag clear the callback does nothing. With it set, it dispatches one zoomCompleted range, from the first tick to the last tick plus one hour, iff there is a tick. The nested callback from resetZoom dispatches nothing, and afterwards the flag is set again |
| `ChartHook.ResetZoom` | assets/js/components/chartjs_hook.js:172-174 | the reset made while the flag is clear calls back into a callback that dispatches nothing, and the flag is unchanged |
| `ChartLegend.ToggleFlipsOnlyClicked` | assets/js/components/chartjs_hook.js:241-248 | toggling item k flips its hidden flag and shows its dataset if it was hidden, hides it otherwise; every other item and dataset is unchanged |
| `ChartLegend.CtrlClickTogglesOnly` | assets/js/components/chartjs_hook.js:209-212 | with Ctrl pressed a click takes only the toggle branch |
| `ChartLegend.RevealAllWhenAllHidden` | assets/js/components/chartjs_hook.js:216-219 | when every item is hidden, a click on any item leaves every item shown and every dataset visible |
| `ChartLegend.VisibleClickTogglesOthers` | assets/js/components/chartjs_hook.js:223-239 | a click on a visible item, with not all hidden, flips every other item and dataset and leaves the clicked one as it was |
| `ChartLegend.HiddenClickHighlights` | assets/js/components/chartjs_hook.js:250-260 | a click on a hidden item, with some item shown, leaves exactly the clicked dataset visible and exactly the other items hidden |
| `ChartLegend.ClickPreservesMirror` | assets/js/components/chartjs_hook.js:206-260 | every click branch keeps each item hidden iff its dataset is not visible |
| `ChartLegend.IsolateThenRestore` | assets/js/components/chartjs_hook.js:223-260 | clicking a hidden item isolates it; clicking it again shows every dataset |
| `ChartLegend.CtrlClickTwiceRestores` | assets/js/components/chartjs_hook.js:241-248 | two Ctrl clicks on the same item restore the legend and the chart's visibility |
| `ChartLegend.Legend.constructor` | assets/js/components/chartjs_hook.js:206 | the legend's items mirror the chart: item i is hidden iff dataset i is not visible |
| `ChartLegend.ToggleLegendItem` | assets/js/components/chartjs_hook.js:241-248 | the items and visibility become the toggled state of the old ones |
| `ChartLegend.ToggleAllLegendItems` | assets/js/components/chartjs_hook.js:217 | every item's hidden flag is flipped, and each dataset becomes visible iff its item was hidden |
| `ChartLegend.ToggleOtherLegendItems` | assets/js/components/chartjs_hook.js:233-239 | every item but k is toggled; item k and its dataset are unchanged |
| `ChartLegend.HighlightLegendItem` | assets/js/components/chartjs_hook.js:250-260 | only dataset k is visible and only item k is shown |
| `ChartLegend.AllLegendItemsHidden` | assets/js/components/chartjs_hook.js:262-271 | the loop with early exit returns true iff every item is hidden, so it is true for an empty legend |
| `ChartLegend.LegendClickHandler` | assets/js/components/chartjs_hook.js:206-231 | the legend and chart end in the state of the branch the click takes, chosen in the source's order; a legend that mirrored the chart still does |
| `ChartCsv.Fold` | assets/js/components/chartjs_hook.js:285-296 | every value vector of the Map has one slot per dataset |
| `ChartCsv.Observations` | assets/js/components/chartjs_hook.js:287-288 | every point scanned belongs to one of the datasets |
| `ChartCsv.FoldDescribes` | assets/js/components/chartjs_hook.js:292-294 | after any prefix of the scan, the Map holds each timestamp seen once, in order of first appearance, and slot idx holds the last y seen there for dataset idx, or '' |
| `ChartCsv.MergeRows` | assets/js/components/chartjs_hook.js:285-296 | the Map has one entry per distinct timestamp of any dataset, in order of first appearance scanning datasets by index. Each entry's slot idx is dataset idx's last value at that time, or '' where it has none |
| `ChartCsv.MergeRowCount` | assets/js/components/chartjs_hook.js:285-296 | the number of entries is the number of distinct timestamps |
| `ChartCsv.ChartCsvLayout` | assets/js/components/chartjs_hook.js:277-303 | the lines are `sep=,`, then `"time",` with the quoted labels, then one line per distinct timestamp in first-appearance order, holding the formatted time and every dataset's last value there |
| `ChartCsv.SetPoint` | assets/js/components/chartjs_hook.js:292-294 | one get / fill / set step is one step of the fold that the Map is characterised by |
| `ChartCsv.ScanDataset` | assets/js/components/chartjs_hook.js:288-295 | the inner forEach over one dataset's points extends the fold by that dataset's block of the scan |
| `ChartCsv.BuildRows` | assets/js/components/chartjs_hook.js:285-296 | the nested forEach loops with get / fill / set build exactly the merged Map |
| `ChartCsv.DownloadCsv` | assets/js/components/chartjs_hook.js:274-303 | the CSV text is the export's lines joined by CRLF |
| `JsText.IndexOf` | assets/js/components/multi_select_variable_hook.js:13 | indexOf returns -1 iff the value is absent, else the first position holding it |
| `JsText.JoinEndsWithLast` | assets/js/components/table_hook.js:53 | a joined list ends with its last element, with no trailing separator |
| `Utf16.UnitsOfBmp` | assets/js/components/table_hook.js:66-69 | for text of Basic Multilingual Plane characters, length and charCodeAt see one code unit per character |
| `Utf16.EncodeLELayout` | assets/js/components/table_hook.js:66-70 | the encoding has two bytes per code unit, the low byte at 2i and the high byte at 2i + 1 |
| `Utf16.EncodeLEMatches` | assets/js/components/table_hook.js:66-70 | any byte string laid out that way is the encoding |
| `Utf16.DecodeEncode` | assets/js/components/table_hook.js:64-73 | reading the bytes back as lo + 256 * hi recovers every code unit, so no bits are lost to the 8-bit stores |
| `Utf16.EncodeDecode` | assets/js/components/table_hook.js:64-73 | every even-length byte string is the encoding of its own decoding (with `Utf16.DecodeEncode`, of exactly one code unit sequence) |
| `Utf16.BomFirst` | assets/js/components/table_hook.js:55-58 | text that starts with U+FEFF encodes to bytes starting FF FE, the little-endian byte-order mark |
| `TableHook.Table.constructor` | assets/js/components/table_hook.js:24-32 | a new table holds the given rows and column definitions |
| `TableHook.Table.ReplaceData` | assets/js/components/table_hook.js:34 | replaceData swaps the rows and keeps the columns |
| `TableHook.TableHook.constructor` | assets/js/components/table_hook.js:9 | after mount there is no table |
| `TableHook.TableHook.CreateOrUpdateTable` | assets/js/components/table_hook.js:22-36 | the first call creates a table with the rows and columns. Later calls keep the same table and its first columns and replace only the rows. Afterwards there is always a table holding the rows |
| `TableHook.TableCsvLayout` | assets/js/components/table_hook.js:42-51 | the lines are `sep=,`, the quoted titles, then one line per table row in order, with that row's value for each column field |
| `TableHook.CsvTextBounds` | assets/js/components/table_hook.js:45-56 | the text starts with U+FEFF, `sep=,`, CRLF and the header, and ends with the last row's line (the header's when there are no rows), with no trailing CRLF |
| `TableHook.CsvBytes` | assets/js/components/table_hook.js:53-58 | the file's bytes start FF FE, are two per code unit of the text, and decode back to the text's code units |
| `TableHook.BuildCsv` | assets/js/components/table_hook.js:41-56 | the loop over the data builds exactly the CSV text |
| `TableHook.ConvertToUtf16` | assets/js/components/table_hook.js:64-73 | the byte array is the UTF-16LE encoding of the string's code units |
| `TableHook.TableHook.DownloadCsv` | assets/js/components/table_hook.js:39-62 | with no table yet there is no file; otherwise the file is the UTF-16LE encoding of the table's CSV text |
| `MultiSelectVariable.ToggleRemovesFirst` | assets/js/components/multi_select_variable_hook.js:13-16 | a selected value loses exactly its first occurrence: the list is one shorter, the other elements keep their order, one copy of the value is gone |
| `MultiSelectVariable.ToggleAppends` | assets/js/components/multi_select_variable_hook.js:17-19 | a value not selected is appended at the end |
| `MultiSelectVariable.ToggleKeepsNoDup` | assets/js/components/multi_select_variable_hook.js:13-19 | on a duplicate-free list, a click keeps it duplicate-free and flips only the clicked value's membership |
| `MultiSelectVariable.NoDupOnce` | assets/js/components/multi_select_variable_hook.js:13-16 | in a duplicate-free list each value occurs once, so the splice removes it entirely |
| `MultiSelectVariable.ToggleTwiceAbsent` | assets/js/components/multi_select_variable_hook.js:13-19 | two clicks on a value not selected restore the list |
| `MultiSelectVariable.ToggleTwicePresent` | assets/js/components/multi_select_variable_hook.js:13-19 | on a duplicate-free list, two clicks on a selected value keep the same values but move it to the end |
| `MultiSelectVariable.ToggleTwiceReorders` | assets/js/components/multi_select_variable_hook.js:13-19 | two clicks on "a" turn ["a", "b"] into ["b", "a"] |
| `MultiSelectVariable.ToggleTwiceDuplicate` | assets/js/components/multi_select_variable_hook.js:7-19 | with a duplicated value the second click removes the other copy: ["a", "a"] becomes ["a"], then [] |
| `MultiSelectVariable.IncludesSlice` | assets/js/components/multi_select_variable_hook.js:34 | includes holds iff the query is a contiguous slice of the text |
| `MultiSelectVariable.IncludesEmpty` | assets/js/components/multi_select_variable_hook.js:34 | the empty query is included in every text |
| `MultiSelectVariable.EmptySearchShowsAll` | assets/js/components/multi_select_variable_hook.js:30-39 | an empty search shows every item, whatever it showed before |
| `MultiSelectVariable.ClicksExactly` | assets/js/components/multi_select_variable_hook.js:45-49 | the handlers click exactly the checkboxes in the state they look for, each once and in document order |
| `MultiSelectVariable.ClickedSettles` | assets/js/components/multi_select_variable_hook.js:42-60 | with a click toggling a checkbox, clearSelection leaves every checkbox unchecked and selectAll every checkbox checked; other inputs are untouched |
| `MultiSelectVariable.ClicksAfterClicked` | assets/js/components/multi_select_variable_hook.js:42-60 | running a handler a second time clicks nothing |
| `MultiSelectVariable.ClickAll` | assets/js/components/multi_select_variable_hook.js:45-49 | the loop leaves the inputs in the clicked state and returns the clicked indices |
| `MultiSelectVariable.MultiSelectVariableHook.constructor` | assets/js/components/multi_select_variable_hook.js:3 | after mount the dropdown is closed and nothing is selected |
| `MultiSelectVariable.MultiSelectVariableHook.DropdownOpen` | assets/js/components/multi_select_variable_hook.js:5-8 | the dropdown is open and the selection is the event's list |
| `MultiSelectVariable.MultiSelectVariableHook.ValueClicked` | assets/js/components/multi_select_variable_hook.js:12-20 | the selection becomes the toggle of the old one by the clicked value (see the Toggle lemmas) |
| `MultiSelectVariable.MultiSelectVariableHook.ClickAway` | assets/js/components/multi_select_variable_hook.js:22-27 | when open, it closes and pushes exactly one lmn_variable_updated with the current selection. When closed, it pushes nothing and changes nothing |
| `MultiSelectVariable.MultiSelectVariableHook.ItemSearch` | assets/js/components/multi_select_variable_hook.js:29-40 | each list item is shown iff its lowercased text includes the lowercased query, and its text is unchanged |
| `MultiSelectVariable.MultiSelectVariableHook.ClearSelection` | assets/js/components/multi_select_variable_hook.js:42-50 | exactly the checked checkboxes are clicked (and so unchecked); nothing else changes |
| `MultiSelectVariable.MultiSelectVariableHook.SelectAll` | assets/js/components/multi_select_variable_hook.js:52-60 | exactly the unchecked checkboxes are clicked (and so checked); nothing else changes |

## Left out

- Canvas drawing of the no-data / cursor-line plugin and the chart.js configuration literal: rendering options of a library.
- Luxon formatting of timestamps: CSV timestamps are formatted by a function parameter, and zoom ranges are returned as millisecond values before formatting, with luxon's one-hour step as 3 600 000 ms.
- The Blob and object URL creation, `sendFileToClient` and the PNG export: browser I/O. The table's download ends at the byte array, the chart's at the CSV text.
- DOM event registration, the LiveView `handleEvent` / `pushEventTo` plumbing and the Ctrl key listeners. The Ctrl state is the chart's `isCtrlPressed` flag, and pushed or dispatched events are returned values.
- `toLowerCase` in the item search: Unicode case mapping is a function parameter.
- CSV escaping: neither export escapes quotes, commas or line breaks in labels, titles or values, and the model claims no CSV round trip.
- What a checkbox click sets off beyond flipping `checked` (the `valueClicked` event the page wires to it): the clear and select handlers return the clicked indices instead.
- The legend items chart.js regenerates on `chart.update()` and any legend filter or sort: legend item i stands for dataset i.
- ChartHook.ResetZoom: the zoom plugin's resetZoom is modelled only as the nested callback it causes. Its change to the scales is outside the model.
- Aliasing in `dropdownOpen`: the selection array from the event and the state share one JavaScript array, so the splice and push in `valueClicked` also change the event's array. The model copies values.
- Tabulator's pagination, layout and placeholder options, and the column definitions it derives: the table keeps the definitions it was created with.
- Lone surrogates: a JavaScript string may hold an unpaired surrogate code unit, which a Dafny `char` cannot be, so such strings are outside the model; `convertToUTF16` would write that code unit out unchanged.
- Undeclared variables in `chartjs_hook.js` (`ticks`, `i`, `labels`, `rows`, `n`, `values`, `csvRows`, `row`, `csv`, `datasets`): in sloppy mode they are page-wide globals that every chart shares, and under strict mode each assignment throws a ReferenceError. The model treats them as locals, which matches sloppy mode because each handler runs to completion without interleaving.
- `y_min_value` / `y_max_value` are taken as given numbers (real); floating point is not modelled.
- The time range, map and app hooks, `utils.js` and the build configuration are not part of this model.

# musikbox track list window, modelled in Dafny

This project models the track list window of musikbox, the terminal music player of
musikcube (`TrackListView`). The model has two parts.

- **Query state machine.** The window holds one outstanding library query. `Requery`
  replaces the held query; a replaced query is forgotten, not cancelled. When the library
  reports a query done, the window posts a completion message to its own queue, but only
  if that query is the one it holds. When the window processes the message, it applies
  the held query's tracks and album-header indices, but only if the query's status is
  `Finished`. Applying also releases the query and puts the cursor back on row 0. The
  window also records the playing track. Return plays the applied list from the cursor.
- **Row formatter.** Each row has five columns: track number, title, duration, artist and
  album. Three spaces separate them. Each column is padded like `std::setw`. Every padding
  width is the column's visible budget plus the value's multi-byte excess (bytes beyond
  visible characters). The title's budget is whatever the window width leaves after the
  four corrected fixed widths and the twelve separator spaces. A row's colour shows the
  cursor, the playing track (same track id and same library id), or both. A row that
  starts an album group carries a header line with the raw album.

Modules:

- `Native` (`native.dfy`): `size_t` arithmetic (modulo 2^64) and `size_t` to 32-bit
  `int` conversion.
- `Text` (`text.dfy`): byte strings, and the three text helpers the formatter calls.
  `u8len`, `text::Ellipsize` and `text::Duration` are passed in as the `Helpers`
  argument. The only fact assumed about them is that `u8len(s)` is at most the byte
  length of `s` (`Wellformed`). `Wrappers.Option` stands for a shared pointer that may
  be null.
- `RowFormat` (`row_format.dfy`): `Adapter::GetEntry` as pure functions, with the layout
  lemmas.
- `Window` (`track_list_view.dfy`): the `TrackListView` class, with fields `query`,
  `metadata`, `headers`, `playing`, `selectedIndex` and the queue of posted messages.
  The methods change these fields in place. `GetEntryCount` and `GetEntry` are
  functions that read them.
- `Scenarios` (`scenarios.dfy`): runs against the window. In the general run, any
  sequence of requeries, completions (successful or failed, of any issued query, in any
  order) and turns on the queue is played out. In a narrower run, all requeries come
  first and every completion succeeds. In another, a requery comes between a completion
  message and its turn. The last is a three-row window with a header, a cursor and a
  playing track.

Notes on how the code computes a row, which the model keeps:

- **Narrow window.** `column1CharacterCount`, the title budget, is a `size_t`. When the
  window is narrower than the fixed columns plus the separators, the subtraction wraps
  around. It is neither negative nor clamped to zero (`TitleBudgetWhenNarrow`).
  `Ellipsize` then gets a budget above 2^63. The title's `int` padding width is the
  signed difference plus the title's multi-byte excess. That sum can be negative, zero
  or positive.
- **Title budget.** The code subtracts the corrected widths of the other four columns.
  It does not subtract their nominal budgets 3, 5, 14 and 14. A multi-byte track number,
  artist or album therefore makes the row narrower on screen than the window
  (`UncutRowWidth`).
- **Measured before change.** The code measures the title before it ellipsizes it, and
  the duration before it formats it. A changed value therefore shifts the later columns
  (`VisibleWidthOfRow`).
- **Helpers of `GetEntry`.** `IsPlaying`, `Shown` and `MakeEntry` are the pieces of
  `Adapter::GetEntry`: the playing test, the shown values, and the entry with or without
  a header. Their behaviour is stated by the contract of `Window.TrackListView.GetEntry`
  and by the layout of `RowFormat.RowText`.

## Model

| member | source | states |
|---|---|---|
| `Native.AsSize` | src/musikbox/app/window/TrackListView.cpp:140-146 | a `size_t` result is in [0, 2^64); it is the value itself in range and the value plus 2^64 for a negative value |
| `Native.AsInt` | src/musikbox/app/window/TrackListView.cpp:135-138 | an `int` column width is within 32-bit range; it is the value itself below 2^31, and a wrapped `size_t` near 2^64 comes back as the negative difference |
| `RowFormat.Highlight` | src/musikbox/app/window/TrackListView.cpp:111-127 | the attribute marks the selection exactly when the row is selected and marks playback exactly when it plays, so both together give black on yellow, playing alone gives bold yellow on black, selected alone gives black on green, and neither gives -1 |
| `RowFormat.Spaces` | src/musikbox/app/window/TrackListView.cpp:155-161 | the `setfill(' ')` fill is `n` bytes, all spaces |
| `RowFormat.Pad` | src/musikbox/app/window/TrackListView.cpp:155-161 | a padded value is at least the `setw` width and at least the value; it holds the value whole at its aligned end and only spaces elsewhere |
| `RowFormat.DisplayWidth` | src/musikbox/app/window/TrackListView.cpp:107-108 | in range, `DISPLAY_WIDTH` is at least the budget, and its excess over the byte length equals the budget's excess over the visible length |
| `RowFormat.ColumnWidths` | src/musikbox/app/window/TrackListView.cpp:135-148 | the padding widths of track number, duration, artist and album are their nominal 3, 5, 14 and 14 plus the raw value's multi-byte excess, hence never below the nominal |
| `RowFormat.Cells.Joined` | src/musikbox/app/window/TrackListView.cpp:155-156 | the row text holds the five cells in order, each at its own offset, with exactly three spaces at each of the four separators, and nothing else |
| `RowFormat.PaddedCells` | src/musikbox/app/window/TrackListView.cpp:150-161 | the cells are `Padded`: each is as long as the larger of its padding width and its shown value (title, artist and album ellipsized, duration formatted); track number and duration are spaces followed by the value, the others the value followed by spaces |
| `RowFormat.RowText` | src/musikbox/app/window/TrackListView.cpp:150-161 | the row is laid out in five columns: track number right-aligned, title left-aligned, duration right-aligned, artist and album left-aligned, each cell the larger of its width and its value, with only spaces as fill and three spaces between cells |
| `RowFormat.JoinedIsLaidOut` | src/musikbox/app/window/TrackListView.cpp:155-161 | joining cells that are each the `setw` padding of their shown value, in the alignment of their column, yields that column layout |
| `RowFormat.TitleBudgetWhenWide` | src/musikbox/app/window/TrackListView.cpp:140-148 | in a wide enough window, the title budget is the window width minus the four corrected widths minus 12, and the title's padding width is that budget plus the title's multi-byte excess |
| `RowFormat.TitleBudgetWhenNarrow` | src/musikbox/app/window/TrackListView.cpp:140-152 | in a too-narrow window, the `size_t` title budget wraps to 2^64 plus the negative difference (above any `int`), and the title's padding width is the signed difference plus the title's excess |
| `RowFormat.CellTakesBudget` | src/musikbox/app/window/TrackListView.cpp:103-108 | a value within its budget, once padded to `DISPLAY_WIDTH`, takes exactly its budget in visible cells: its visible characters plus the fill |
| `RowFormat.RowByteLength` | src/musikbox/app/window/TrackListView.cpp:135-161 | when the window is wide enough and every value fits its column, the row's byte length is the window width plus the raw title's multi-byte excess |
| `RowFormat.VisibleWidthOfRow` | src/musikbox/app/window/TrackListView.cpp:135-161 | under the same conditions, the row's visible width is the window width, plus the raw title's excess, minus the excess of each shown value |
| `RowFormat.UncutRowWidth` | src/musikbox/app/window/TrackListView.cpp:140-161 | with title, artist and album not cut and a single-byte duration, the row falls short of the window by the multi-byte excess of track number, artist and album |
| `Window.TrackListViewQuery.constructor` | src/musikbox/app/window/TrackListView.cpp:47 | a new query has its column and id, is idle, and has no result yet |
| `Window.TrackListView.constructor` | src/musikbox/app/window/TrackListView.cpp:32-40 | a new window holds no query, no track list, no header set and no playing track, and has posted nothing |
| `Window.TrackListView.Requery` | src/musikbox/app/window/TrackListView.cpp:46-49 | the held query becomes a fresh idle query for the column and id; the track list, headers, playing track, cursor and queue are unchanged |
| `Window.TrackListView.OnQueryCompleted` | src/musikbox/app/window/TrackListView.cpp:51-55 | one completion message is posted exactly when the completed query is the held one; no other state changes |
| `Window.TrackListView.ProcessMessage` | src/musikbox/app/window/TrackListView.cpp:69-79 | for a completion message with a held `Finished` query: track list and headers become the query's, the query is released and the cursor is 0; in every other case nothing changes |
| `Window.TrackListView.OnTrackChanged` | src/musikbox/app/window/TrackListView.cpp:81-84 | the playing track becomes the reported one; nothing else changes |
| `Window.TrackListView.KeyPress` | src/musikbox/app/window/TrackListView.cpp:57-67 | playback of the track list at the cursor starts (key handled) exactly when the key is Return, a track list is present and the cursor is within it; otherwise the key goes to the list window |
| `Window.TrackListView.GetEntryCount` | src/musikbox/app/window/TrackListView.cpp:94-96 | there are no rows before a track list is applied, and afterwards one row per applied track |
| `Window.TrackListView.GetEntry` | src/musikbox/app/window/TrackListView.cpp:110-174 | a row has a header (the raw album, green on black) exactly when its index is in the header set; its text is the formatted row; its attribute marks the selection exactly when it is under the cursor, and marks playback exactly when both track id and library id match the playing track |
| `Scenarios.SupersededQueriesAreIgnored` | src/musikbox/app/window/TrackListView.cpp:46-79 | when all requeries come first, and then every query finishes successfully in any order (repeats allowed) with each message processed at once, the applied track list is only ever the last query's result, and it is present from that query's completion on |
| `Scenarios.NotIssuedNotFinished` | src/musikbox/app/window/TrackListView.cpp:46-55 | a query cannot be completed before it is issued |
| `Scenarios.FinishAfter` | src/musikbox/app/window/TrackListView.cpp:46-55 | one more event issues a query, finishes an issued unfinished query, or changes no query's outcome |
| `Scenarios.StepRequery` | src/musikbox/app/window/TrackListView.cpp:46-49 | a requery issues a fresh query that the window then holds, keeps every earlier query's outcome, and leaves the applied track list alone |
| `Scenarios.StepComplete` | src/musikbox/app/window/TrackListView.cpp:51-55 | a completion finishes or fails an issued idle query; the window posts a completion message exactly when that query is the one it holds; the applied track list is left alone |
| `Scenarios.StepTurn` | src/musikbox/app/window/TrackListView.cpp:69-79 | the window's turn on its oldest unprocessed message changes the applied track list only to the successful result of the most recently issued query |
| `Scenarios.Step` | src/musikbox/app/window/TrackListView.cpp:46-79 | any one event keeps the window and the issued queries in the state the events so far describe, and changes the applied track list only as a turn that applies the latest query's successful result |
| `Scenarios.StaleResultsNeverApplied` | src/musikbox/app/window/TrackListView.cpp:46-79 | in any run of requeries, successful or failed completions in any order, and turns on the queue, the applied track list changes only on a turn, and only to the successful result of the query most recently issued before it: a superseded or failed query never changes it |
| `Scenarios.RequeryBeforeTurn` | src/musikbox/app/window/TrackListView.cpp:46-79 | a completion message still queued when the window is requeried applies nothing; the new query's own message then applies the new result |
| `Scenarios.ThreeRowWindow` | src/musikbox/app/window/TrackListView.cpp:46-84 | a finished query's three tracks and header set are applied, and the playing track is recorded |
| `Scenarios.ThreeRows` | src/musikbox/app/window/TrackListView.cpp:110-174 | in that window, the header row under the cursor is green, the playing row is bold yellow, and a row whose track shares only the track id with the playing one has no attribute |

## Left out

- Asynchronous query execution (`library->Enqueue`, the query's own code, the signal wiring in the constructor) is not modelled. The library's work is a client setting a query's status and result.
- Query statuses other than `Finished` are stand-in names (`Idle`, `Running`, `Failed`, `Canceled`). `IQuery` is not part of this model; only `Finished` matters to the window.
- `PostMessage` and the message loop are reduced to a sequence of posted messages. `ProcessMessage` receives the message; threading is not modelled.
- `OnAdapterChanged` (the redraw request after an apply or a track change) is not modelled: it only schedules drawing.
- List window mechanics are not modelled: scrolling, other effects of `SetSelectedIndex`, the non-Return branch of `KeyPress` (shown as `Forward`), `GetScrollAdapter`, and the destructor.
- `playback.Play` itself is not modelled; `KeyPress` returns the list and index it is called with.
- Terminal colour pairs and `A_BOLD` are the `Attrs` enumeration.
- `u8len`, `text::Ellipsize` and `text::Duration` are parameters; their code is not part of this model. So is `Track::GetValue`: a track is a record of the fields a row reads.
- `boost::format` and the stream manipulators are replaced by `Pad` with explicit alignment per column.
- The display width (`GetWidth()` of the adapter) is a parameter of `GetEntry`.
- `metadata->at(index)` throws for an index out of range; `GetEntry` instead requires the index to be in range, because the list widget only asks for rows below `GetEntryCount()`.
- Signed overflow of `GetWidth() - column0Width - …` is not modelled: the difference is computed exactly and then reduced modulo 2^64.
- Idempotence of ellipsizing is a property of `text::Ellipsize`, which is not part of this model.
- `RowFormat.ColumnWidths`: the exact widths and their lower bounds are stated only for fields and windows below `MAX_SIZE` (2^28 bytes). Above that, the `int` conversion can truncate.
- `RowFormat.CellTakesBudget`, `RowFormat.TitleBudgetWhenWide`, `RowFormat.TitleBudgetWhenNarrow`, `RowFormat.RowByteLength`, `RowFormat.VisibleWidthOfRow` and `RowFormat.UncutRowWidth` are likewise stated only below `MAX_SIZE`.
- `RowFormat.DisplayWidth`: the exact width is stated only when it fits in an `int`.
- `Scenarios.StaleResultsNeverApplied`: states only when the applied track list may change, not that a processed message of a finished latest query always applies it. A second completion of a query that already finished or failed is ignored, because the library completes each query once.

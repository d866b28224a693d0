# mapgrab core, modelled in Dafny

mapgrab captures a map area as a grid of screenshots. index.js cuts the
bounding box of a geocoded place into a grid of coordinates, 0.03 degrees of
latitude by 0.06 degrees of longitude. It numbers the cells in row-major
order and pushes either every cell or the single `--tile` cell onto a batch
queue. The queue runs the captures `limit` at a time. Each result is sorted
into a success list or an error list, and the run ends with a success
message or an error report. Next to this pipeline, the repository carries
the integer part of the GlobalMercator tile algebra: TMS/Google row flips,
quadkeys, the pixel-to-tile map and the pixel-to-raster map.

The model is nine Dafny modules, one per concern:

| file | module | models |
|---|---|---|
| arith.dfy | `Arith` | powers of two, uniqueness of Euclidean division, bits of an integer, `Math.ceil` |
| mercator.dfy | `Mercator` | lib/GlobalMercator.js: `tileSize`, `PixelsToTile`, `PixelsToRaster`, `GoogleTile`, `QuadKey`, `QuadKeyToTile` |
| chunk.dfy | `Chunking` | lodash `_.chunk`, the batch partition both queues use |
| trace.dfy | `Trace` | the event trace of a batch scheduler: Dispatch, Settle, Delay |
| paced_queue.dfy | `PacedQueue` | lib/utils/queue.js: `push`, `process` with a timer between batches |
| gated_queue.dfy | `GatedQueue` | lib/queue.js: `push`, `process` as written and as intended |
| matrix.dfy | `Matrix` | lib/utils/matrix.js: `make`, `fill`, `each`, `new` |
| grid.dfy | `Grid` | index.js lines 50-152: grid sizing, coordinates, numbering, tile selection, enqueueing |
| report.dfy | `Report` | index.js lines 155-219: success/error lists, progress, the closing report |

The asynchronous queues are modelled as sequential traces. A callback
invocation is a `Dispatch`, the settlement of its promise is a `Settle`
carrying its outcome, a `setTimeout` between batches is a `Delay`, and the
resolution of the promise `process` returns is `Done`. Whether a callback's
promise fulfils is a parameter `ok: J -> bool`. Every join is `Promise.all`,
which ends at the first rejection in its batch: the batch's remaining
callbacks settle later, after whatever the queue launches next. Both queues
are modelled as written and as evidently intended.

index.js loads lib/queue.js (index.js:14), so `Report.Run` runs the capture
pipeline on that queue as written. Its callback catches every capture error,
so the callback's promise always fulfils (`Report.Handled`). Whether a
capture succeeded is a separate parameter `captured: Job -> bool`, which
decides the list a request lands in.

Where the code and the repository's written description differ, the model
follows the code:

- An axis with zero extent gets 0 steps, because `Math.ceil(0 / offset)` is 0. The grid is then empty and nothing is captured.
- A queue limit below 1 makes `_.chunk` return no batches, so `process` runs nothing. Nothing rejects the limit.
- `PixelsToTile` puts pixel p in tile t when 512 t < p <= 512 (t + 1), because it computes `ceil(p / 512) - 1`. A pixel on a tile boundary therefore belongs to the tile below it, and pixel 0 lies in tile -1.
- `success` and `errors` are filled in the order the captures settle, and the closing message reads them when `process` resolves, which for lib/queue.js can be before every capture has settled.

## Model

| member | source | states |
|---|---|---|
| Mercator.GoogleTile | lib/GlobalMercator.js:124-128 | keeps tx; the two rows add up to 2^zoom - 1, so a row is in range before the flip iff it is after |
| Mercator.GoogleTileInvolution | lib/GlobalMercator.js:124-128 | flipping twice gives back the original tile |
| Mercator.QuadKey | lib/GlobalMercator.js:131-147 | the key has exactly zoom characters, each one of '0'..'3' |
| Mercator.QuadKeyDigits | lib/GlobalMercator.js:134-145 | character k: its low bit is bit zoom-1-k of tx, and its high bit is the same bit of the Google (flipped) row |
| Mercator.DecodeFromInvariant | lib/GlobalMercator.js:155-168 | loop invariant of the decoder: after i characters the accumulators hold the bits read so far, at their final positions |
| Mercator.QuadKeyToTile | lib/GlobalMercator.js:150-171 | zoom is the key length; tx is the number spelt by the x bits; ty is the flip of the number spelt by the y bits; both lie in [0, 2^zoom) |
| Mercator.QuadKeyRoundTrip | lib/GlobalMercator.js:131-171 | decoding the quadkey of any in-range tile gives back that tile and zoom |
| Mercator.QuadKeyReverseRoundTrip | lib/GlobalMercator.js:131-171 | encoding the decoded tile of any key of digits '0'..'3' gives back the key |
| Mercator.QuadKeyIgnoresOtherChars | lib/GlobalMercator.js:158-167 | a character other than '1', '2', '3' decodes like '0'; the empty key decodes to tile (0, 0) at zoom 0 |
| Mercator.PixelsToTile | lib/GlobalMercator.js:94-100 | on each axis the tile t satisfies 512 t < p <= 512 (t + 1) |
| Mercator.PixelsToTileUnique | lib/GlobalMercator.js:94-100 | that tile is the only one whose pixel range holds p |
| Mercator.MapSizeAsWritten | lib/GlobalMercator.js:106 | `512 << zoom` is a signed 32-bit value congruent modulo 2^32 to 512 * 2^(zoom mod 32), the shift count being taken modulo 32 |
| Mercator.MapSizeAgreesBelowZoom22 | lib/GlobalMercator.js:103-108 | for zoom <= 21 the 32-bit `512 << zoom` equals 512 * 2^zoom |
| Mercator.MapSizeOverflowsAtZoom22 | lib/GlobalMercator.js:106 | at zoom 22 the shift gives -2^31 where 2^31 is meant; at zoom 23 it gives 0 |
| Mercator.MapSizeWrongFromZoom22 | lib/GlobalMercator.js:106 | for every zoom from 22 to 31 the 32-bit shift gives -2^31 or 0, never the positive map size |
| Mercator.PixelsToRasterAsWritten | lib/GlobalMercator.js:103-108 | as written, x is kept, and below zoom 22 the result is the intended raster point |
| Mercator.RasterAsWrittenWrongFromZoom22 | lib/GlobalMercator.js:103-108 | as written, for every zoom from 22 to 31 each pixel row is sent below the raster row the map height gives |
| Mercator.RasterAsWrittenWrongAtZoom22 | lib/GlobalMercator.js:103-108 | as written, pixel row 0 at zoom 22 maps to raster row -2^31 instead of 2^31 |
| Mercator.PixelsToRaster | lib/GlobalMercator.js:103-108 | x is kept; y and its image add up to the map height, so [0, height] maps onto itself |
| Mercator.PixelsToRasterInvolution | lib/GlobalMercator.js:103-108 | flipping twice gives back the original pixel |
| Chunking.Chunk | lib/utils/queue.js:29 | the batches concatenate to the queue; all batches are full but the last, which is non-empty; a limit below 1 gives no batches |
| Chunking.ChunkCount | lib/utils/queue.js:29 | there are ceil(n / limit) batches |
| Chunking.ChunkSlice | lib/utils/queue.js:29 | batch i is the slice [i * limit, min((i + 1) * limit, n)) of the queue |
| Chunking.ChunkPrefix | lib/utils/queue.js:29 | the batches before batch i hold exactly the first i * limit requests |
| Chunking.ChunkSnoc | lib/utils/queue.js:18-29 | pushing one request puts it in the last batch if that has room, otherwise alone in a new batch |
| Trace.JoinLength | lib/utils/queue.js:56-59 | a `Promise.all` join takes in the callbacks up to and including the first rejection, and the whole batch when every callback fulfils |
| Trace.LaunchesIgnoreOutcomes | lib/utils/queue.js:47-61 | the order of dispatches and timers is the same whatever the callbacks' outcomes; only where the settlements fall between them changes |
| Trace.FailFastOverlap | lib/utils/queue.js:56-59 | when the first callback of batch 0 rejects, batch 1 is dispatched while the rest of batch 0 is still outstanding |
| Trace.ProcessTraceFulfilled | lib/utils/queue.js:56-59 | when every callback fulfils, the fail-fast run is the run in which every join waits for its whole batch |
| Trace.BatchTraceBounded | lib/utils/queue.js:56 | a run of batches of at most limit requests, each joined whole before the next, never has more than limit outstanding |
| Trace.SettledTraceBounded | lib/utils/queue.js:47-87 | the same bound for the run that ends with `Done` |
| Trace.PacingOnlyAddsDelays | lib/utils/queue.js:53-61 | dropping the timers from a paced run gives the unpaced run |
| Trace.SettledPacingOnlyAddsDelays | lib/utils/queue.js:53-61 | the same for the run that ends with `Done` |
| PacedQueue.Init | lib/utils/queue.js:8-15 | the queue starts empty, with limit 2 and a 1-second delay |
| PacedQueue.Push | lib/utils/queue.js:18-23 | appends the request; limit and delay are unchanged |
| PacedQueue.Process | lib/utils/queue.js:26-89 | as written, with fail-fast joins: every queued request is dispatched once, in queue order, and settles once; there are (batches - 1) pauses of delay * 1000 ms; `process` resolves once; each settlement carries the callback's outcome; a limit below 1 or an empty queue does nothing |
| PacedQueue.TimerCount | lib/utils/queue.js:35-61 | there are ceil(n / limit) - 1 timers |
| PacedQueue.BatchGating | lib/utils/queue.js:35-84 | batch i is dispatched after batches 0..i-1 and one pause unless i = 0, in one piece, and after the events of the joins of the earlier batches |
| PacedQueue.BatchGatingRunning | lib/utils/queue.js:47-59 | when batch i is dispatched, the callbacks still outstanding are exactly those of batch i - 1 after its first rejection, and every other earlier request has settled |
| PacedQueue.GatingFulfilled | lib/utils/queue.js:47-59 | when every callback fulfils, every request of batches 0..i-1 has settled when batch i is dispatched |
| PacedQueue.ProcessIntended | lib/utils/queue.js:26-89 | the evidently intended schedule: every request dispatched and settled once in queue order, all before `process` resolves, never more than limit outstanding |
| PacedQueue.FulfillingCallbacksMeetIntent | lib/utils/queue.js:56-80 | when every callback fulfils, the run as written is the intended run, so it stays within the limit and settles everything before resolving |
| PacedQueue.EarlyRejectionExceedsLimit | lib/utils/queue.js:47-61 | with limit >= 2, at least limit + 2 requests and a first callback that rejects, more than limit callbacks are outstanding at once |
| PacedQueue.FourRequestsFirstRejects | lib/utils/queue.js:47-80 | four requests with limit 2 whose first rejects: a, b dispatched, a settles, the pause, then c and d dispatched with b still outstanding, 3 in flight |
| PacedQueue.RejectionsDoNotStopBatches | lib/utils/queue.js:47-59 | rejections never stop a later batch: the order of dispatches and timers is the same whatever the outcomes, and every request is dispatched |
| PacedQueue.PushThenProcess | lib/utils/queue.js:18-29 | a request pushed last is dispatched after everything queued before it |
| GatedQueue.Init | lib/queue.js:7-11 | the queue starts empty, with limit 2 |
| GatedQueue.Push | lib/queue.js:14-19 | appends the request; the limit is unchanged |
| GatedQueue.ProcessAsWritten | lib/queue.js:22-87 | as written: every request is dispatched and settles exactly once (in queue order when there are at most 2 * limit of them); `process` resolves once; no timers; each settlement carries the callback's outcome; a limit below 1 or an empty queue does nothing |
| GatedQueue.ThreeBatches | lib/queue.js:25 | more than 2 * limit requests make at least three batches, the first two full |
| GatedQueue.AsWrittenAgreesUpToTwoBatches | lib/queue.js:34-82 | with at most 2 * limit requests the as-written run is the fail-fast batch run with no timers |
| GatedQueue.AsWrittenMeetsIntentUpToTwoBatches | lib/queue.js:22-87 | with at most 2 * limit requests whose callbacks all fulfil, the run as written is the intended run |
| GatedQueue.AsWrittenExceedsLimit | lib/queue.js:34-61 | as written, with more than 2 * limit requests, n - limit callbacks are outstanding at once, more than limit |
| GatedQueue.AsWrittenFiveRequests | lib/queue.js:43 | five requests with limit 2: requests 1, 2 and 5 run at the same time |
| GatedQueue.BatchOneWaitsForBatchZero | lib/queue.js:37-57 | as written, batch 1 is dispatched only after batch 0's join: after the callbacks of batch 0 up to its first rejection (all of them when they fulfil) have settled |
| GatedQueue.AsWrittenResolvesEarly | lib/queue.js:49-85 | as written, with three or more batches `process` resolves once batch 0 and the join of batch 2 have settled; the rest of batch 2, batches 3 on and batch 1 settle afterwards, so with fulfilling callbacks some request is still outstanding |
| GatedQueue.FiveRequestsResolveEarly | lib/queue.js:52-85 | five fulfilling requests with limit 2: `process` resolves after requests 1, 2 and 5 have settled; 3 and 4 settle afterwards |
| GatedQueue.RejectionsDoNotStopBatches | lib/queue.js:43-55 | rejections never stop a later batch: the order of dispatches is the same whatever the outcomes, and every request is dispatched |
| GatedQueue.ProcessIntended | lib/queue.js:22-87 | the evidently intended schedule: every request dispatched and settled once in queue order, all before `process` resolves, never more than limit outstanding, with no pauses |
| GatedQueue.PacedQueueAddsOnlyDelays | lib/queue.js:22-87 | the intended schedule is the paced queue's intended schedule without its timers |
| Matrix.Make | lib/utils/matrix.js:5-12 | rows rows of cols cells, every cell null |
| Matrix.Fill | lib/utils/matrix.js:15-30 | same shape; cell (r, c) is the callback applied to row r, the old cell, r and c |
| Matrix.FillIdentity | lib/utils/matrix.js:15-30 | filling with the old cell changes nothing |
| Matrix.FillFill | lib/utils/matrix.js:15-30 | two fills compose into one |
| Matrix.EachVisitsCells | lib/utils/matrix.js:33-48 | every callback call `each` makes is for an in-range cell, with that cell's row and value |
| Matrix.EachAt | lib/utils/matrix.js:33-48 | for any matrix, ragged or not, cell (x, y) is visited right after the cells of rows 0..x-1 and the first y cells of row x |
| Matrix.EachCount | lib/utils/matrix.js:33-48 | a rows x cols matrix gets rows * cols callback calls |
| Matrix.RowMajor | lib/utils/matrix.js:33-48 | cell (x, y) of a rows x cols matrix is call x * cols + y |
| Matrix.RowMajorIndex | lib/utils/matrix.js:33-48 | call k is for cell (k / cols, k % cols) |
| Matrix.New | lib/utils/matrix.js:51-63 | a rows x cols matrix whose cell (r, c) is the callback's value for an empty row, a null cell, r and c |
| Grid.Steps | index.js:50-57 | the step count is the least n with n * offset >= the extent |
| Grid.StepsZero | index.js:52-57 | an axis has no steps exactly when its two bounds are equal |
| Grid.Cells | index.js:59-81 | a rows x cols matrix; cell (x, y) is the south-west corner plus x latitude and y longitude offsets |
| Grid.CellsInside | index.js:60-81 | every cell lies within the extents measured from the south-west corner |
| Grid.CellsCover | index.js:50-81 | every point of that box lies in the 0.03 x 0.06 strip of some cell |
| Grid.Jobs | index.js:107-116 | one request per cell the nested `forEach` visits |
| Grid.JobNumbering | index.js:84-89 | there are rows * cols requests, and cell (x, y) is request number x * cols + y + 1 |
| Grid.JobCell | index.js:107-116 | request number k + 1 is for cell (k / cols, k % cols) |
| Grid.Select | index.js:122-147 | each visited cell pushes at most one request |
| Grid.SelectMembers | index.js:122-147 | a request is pushed iff it is among the visited cells and wanted: always without `--tile`, and only the one numbered t with `--tile t` |
| Grid.SelectAll | index.js:138-147 | without `--tile` every request is pushed, in order |
| Grid.SelectTile | index.js:122-136 | with `--tile t` exactly request t is pushed when 1 <= t <= n, and nothing otherwise |
| Grid.SelectNaN | index.js:125 | a tile argument that is not an integer pushes nothing |
| Grid.SmallBox | index.js:50-136 | a 0.1 x 0.1 degree box is a 4 x 2 grid, and `--tile 5` pushes only cell (2, 0) at (0.06, 0) |
| Grid.SelectAppend | index.js:107-152 | the requests pushed from a concatenation of cell runs are those pushed from each run, in order |
| Grid.EnqueueRow | index.js:110-150 | one row's `forEach` advances the counter by the row's length and pushes exactly the selected requests among that row's cells |
| Grid.Enqueue | index.js:104-152 | the nested loop pushes exactly the selected requests, in visiting order, and counts every cell |
| Report.OutcomesPartition | index.js:165-185 | the success and error lists together are a permutation of the settled requests |
| Report.OutcomesMembers | index.js:165-185 | a request is in the success list iff its capture succeeded, and in the error list iff it failed |
| Report.Record | index.js:159-192 | after any stretch of the run, `success` lists the settled requests that were captured and `errors` those that failed, each in settlement order |
| Report.ReportOf | index.js:202-219 | the error report is chosen exactly when the error list is non-empty, and it carries that list and its length |
| Report.Finish | index.js:195-219 | the closing message says complete success iff every capture settled before `process` resolved succeeded, and otherwise counts those that failed |
| Report.NoErrorsIffAllCaptured | index.js:202-219 | the error list is empty exactly when every capture succeeded |
| Report.EarlyErrorsAreRequests | index.js:178-211 | an error in the report is always a request whose capture failed |
| Report.Run | index.js:98-219 | the run on lib/queue.js as written: the selected requests are pushed, the counter reaches the cell count, every request is dispatched and settles once; the lists and the report cover what settled before `process` resolved; a reported error is a real failure; with at most 4 requests that is every request, and the report says complete success iff every capture succeeded |
| Report.AsWrittenReportsTooEarly | lib/queue.js:85 | five requests whose third capture fails and the others succeed: the run reports complete success |
| Report.RunIntended | index.js:98-219 | the run on the intended queue: every request settles before `process` resolves and at most 2 are in flight; the lists split all requests by outcome; the report says complete success iff every capture succeeded |
| Report.ProgressCompletes | index.js:95-98 | one progress step per settled capture over the whole run; the count reaches the bar's total iff no tile was asked for or the tile is in 1..rows * cols |

## Left out

- The floating-point projections of GlobalMercator (CoordsToMeters, MetersToCoords, MetersToPixels, Resolution, TileBounds, PixelsToMeters, CoordsToTile, MetersToTile) are not modelled. They are real-valued trigonometry outside the integer core.
- Coordinates and pixels are exact reals. IEEE-754 rounding of `x * offset`, of `diff / offset` and of `2 ** zoom` is not modelled.
- Mercator.QuadKey: stated only for zoom <= 30, where every `1 << (i - 1)` mask is a positive 32-bit power of two. For larger zooms the masks wrap, and that is not modelled.
- Mercator.QuadKeyToTile: stated only for keys of at most 30 characters, for the same reason.
- Mercator.QuadKeyToTile: a key is a sequence of Unicode scalar values, while JavaScript's `length` and indexing count UTF-16 code units. A character outside the Basic Multilingual Plane is one character here and two code units there, so for such keys the zoom and the bits differ.
- Mercator.QuadKeyIgnoresOtherChars: for the same reason, a character outside the Basic Multilingual Plane decodes here as one '0' digit, where JavaScript reads two.
- The pixel functions take the map size as 512 * 2^zoom with unbounded integers. The 32-bit shift is modelled separately as `MapSizeAsWritten`.
- Wall-clock time is not modelled. A `Delay` event records the milliseconds passed to `setTimeout`, not when the timer fires.
- Settlements arrive in dispatch order. Each join takes in its batch's settlements up to the first rejection, and the rest of that batch settles after the next batch is dispatched. Real captures can settle in any order, which changes which callbacks a `Promise.all` has taken in when it rejects; that freedom is not modelled.
- A callback's outcome is a fixed function of its request (`ok`, and `captured` for the capture). Retries and nondeterministic failures are not modelled.
- GatedQueue.ProcessAsWritten: this trace also fixes how the I/O interleaves. Batch 0 settles before the batches dispatched with it, batch 1 is dispatched right after batch 0's join, and settlements arrive in dispatch order.
- Report.ProgressCompletes: counts the increments of the whole run. As written, the bar is stopped when `process` resolves, which with more than four requests is before the last increments; what a stopped bar displays is not modelled.
- Invalid `Array` lengths are not modelled. `Matrix.Make` takes natural numbers, and a negative or fractional length throws a RangeError in JavaScript.
- `Matrix.New` returns the filled matrix only. The `each` and `fill` methods it attaches to the array are the module's own `Each` and `Fill`.
- Grid.Steps: takes a positive offset. index.js only calls it with the constants 0.03 and 0.06.
- Command-line parsing (commander), the geocoding request (lib/MapTiler.js), URL building, the file name expression, the `images/` directory, the console output and the screenshot capture itself (capture-website) are I/O and are not modelled. A request carries its number, its cell and its coordinate, the data the URL and path are built from, and an error entry carries its request but not the error message.
- An empty `--tile ''` argument is falsy and is treated as absent by the code. The model's `TileArg` starts from the already-classified argument.
- lodash is not part of this model. `Chunking.Chunk` follows lodash's documented `_.chunk` behaviour.
- JavaScript numbers beyond 2^53 are not modelled.

## Findings

| source | as written | input that shows it | evidently intended | confidence | as-written member | corrected member |
|---|---|---|---|---|---|---|
| lib/GlobalMercator.js:106 | `this.tileSize << zoom` is a signed 32-bit shift | zoom 22: map size is -2^31, and pixel row 0 goes to raster row -2^31; zoom 23 gives map size 0 | the map height 512 * 2^zoom at every zoom | not executed | Mercator.RasterAsWrittenWrongFromZoom22 | Mercator.PixelsToRaster |
| lib/queue.js:43 | batch i waits on `chunks[i - 1]`, but for i >= 2 that entry does not exist yet when it is read, so `Promise.all(undefined)` rejects at once and the batch starts immediately | 5 requests with limit 2: requests 1, 2 and 5 are in flight together | batch i waits for batch i - 1, so at most limit captures run at once | not executed | GatedQueue.AsWrittenExceedsLimit | GatedQueue.ProcessIntended |
| lib/queue.js:85 | `Promise.all(wait)` joins entries that resolve early: batch 1's entry joins `chunks[1]`, which holds batch 2, and the entries of batches 3 on join nothing, so `process` resolves before batch 1 and later batches have settled; index.js:197-219 then reports on partial lists | 5 requests with limit 2 whose third capture fails: `process` resolves after captures 1, 2 and 5, and "Map images saved successfully." is printed | the report is written once every capture has settled, and says complete success only when every capture worked | not executed | Report.AsWrittenReportsTooEarly | Report.RunIntended |
| lib/utils/queue.js:56 | each batch's join is `Promise.all`, which settles at the first rejection, so the timer for the next batch starts while the rest of the batch is still running | limit 2, requests a, b, c, d with callback(a) rejecting at once: c and d are dispatched while b is outstanding, 3 in flight | each batch waits until every callback of the previous one has settled, so at most limit run at once | not executed | PacedQueue.FourRequestsFirstRejects | PacedQueue.ProcessIntended |

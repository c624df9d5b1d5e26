# MMM-IT8951 refresh controller, modelled in Dafny

MMM-IT8951 mirrors a MagicMirror page onto an IT8951 e-ink panel.
`node_helper.js` takes 8-bit gray captures of the page, packs them two pixels
per byte, and draws them on the panel. Real panels draw in either 16 gray
levels or a fast 4-gray waveform. The helper also keeps the panel asleep
between draws.

The model covers the logic that decides what reaches the panel:

- **Pixels** (`pixels.dfy`): the 8-bit to 4-bit packing (`downscale8bitsTo4bits`) and the 4-gray palette check (`isBufferOnlyGray4Levels`). Both are methods over bytes (`bv8`) that use the source's own bit operations. Each is proved equal to a specification function, and lemmas cover unpacking, the palette, idempotence and a worked example.
- **Observer** (`observer.dfy`): the in-page MutationObserver callback. It folds a batch of mutated bounding boxes into one box. Only the left and right edges are aligned to 32 columns. The box is emitted as a DOMRect with the flags of the batch's last mutation. It is proved to be the min/max of the visible boxes, starting from the initial box (so right and bottom are at least 0), with left floored and right ceiled to 32.
- **Decisions** (`decisions.dfy`): the pure decisions.
  - The effective level and waveform of a draw.
  - The full-refresh level hint.
  - The payload rule of `IT8951_ASK_FULL_REFRESH`.
  - The routing in `puppeteerMutation`.
  - The message dispatch.
- **Drain** (`drain.dfy`): the de-duplication `processStack` performs with `rectDone`. Rectangles are compared by value, as their JSON strings are.
- **Trace** (`trace.dfy`): what the helper sends to the driver, written as a trace of events.
  - The power sequences of `IT8951_activate` and `IT8951_sleep`, and the draw command.
  - The power bookkeeping invariant: the recorded `IT8951_sysrun` matches the last power command, no draw reaches a sleeping panel, and mock mode issues no driver command (the construction of the driver object is not recorded; see `Helper.NodeHelper.InitializeEink` under "## Left out").
  - What a drain session and a single-draw session issue.
- **Helper** (`helper.dfy`): the `NodeHelper` class. Its fields are `config`, `isInitialized`, `stackAreas`, `IT8951_sysrun`, whether `refreshTimeout` is set, the display size, and a ghost trace of events. Its methods mirror the source's methods, and each states its new state and the trace it appends.

The page and its captures come in as a parameter, `screen: Area -> seq<bv8>`: the decoded gray frame of a captured area. The visible-module counts and the window size come in as parameters too.

Behaviours of `node_helper.js` that the model keeps as written:

- The 4-level packing of the pixels `[0xF0, 0x00, 0xA0, 0x60]` gives `[0x0F, 0x5A]` (`Pixels.FewLevelExample`): the pixel 0x60 is snapped to 5, not kept at 6.
- The observer aligns only left and right to 32. Top and bottom are only floored and ceiled.
- The observer's running box starts with right and bottom at 0, so the running box never ends left of column 0 or above row 0 (`Observer.FoldReachesOrigin`).
- A forced 16-level refresh withholds only the hint. The draw still runs the palette check, so 4-gray content is still drawn in 4-level mode (`Decisions.ForcedFullRefreshStillChecksPalette`).

The 4-level quantizer produces the codes {0, 5, 10, 15}. The palette check accepts {0, 6, 10, 15}. Both are modelled as written, and `Pixels.PalettesDiffer` shows the difference.

## Model

| member | source | states |
|---|---|---|
| Pixels.Downscale8BitsTo4Bits | node_helper.js:243-256 | the returned buffer is exactly `Downscaled(buffer, is4levels)`: `|buffer|/2` bytes, byte i holding pixel 2i in its low nibble and pixel 2i+1 in its high nibble, each snapped to 4 levels if asked |
| Pixels.IsBufferOnlyGray4Levels | node_helper.js:258-266 | true exactly when every pixel's high nibble is 0xF, 0xA, 0x6 or 0; on false some pixel lies outside that set |
| Pixels.PackedByteNibbles | node_helper.js:247-252 | unpacking one packed byte gives the even pixel's level from its low nibble and the odd pixel's from its high nibble |
| Pixels.UnpackDownscaled | node_helper.js:243-256 | reading a packed buffer back one nibble per pixel gives each pixel's quantized level in pixel order; only the trailing pixel of an odd-length capture is lost |
| Pixels.FullLevelPacking | node_helper.js:251-253 | 16-level packing keeps both pixels' high nibbles; byte i equals `(p[2i] >> 4) \| (p[2i+1] & 0xF0)` |
| Pixels.FewLevelNibble | node_helper.js:247-248 | a 4-level nibble is in {0, 5, 10, 15}, never above the source's high nibble, and unchanged when already one of those codes |
| Pixels.FewLevelPalette | node_helper.js:246-249 | every pixel of a 4-level packed buffer is in {0, 5, 10, 15} and no brighter than its source pixel |
| Pixels.FewLevelKeepsQuantizerPalette | node_helper.js:245-254 | a capture whose nibbles are all in {0, 5, 10, 15} packs the same at 4 and at 16 levels |
| Pixels.FewLevelIdempotent | node_helper.js:246-249 | re-packing at 4 levels what a 4-level draw shows yields the same packed buffer |
| Pixels.FewLevelExample | node_helper.js:246-249 | `[0xF0, 0x00, 0xA0, 0x60]` packs to `[0x0F, 0x5A]` at 4 levels |
| Pixels.OneOutlierFailsCheck | node_helper.js:259-263 | one pixel outside the gray palette anywhere in the buffer makes the whole check fail |
| Pixels.PalettesDiffer | node_helper.js:246-266 | nibble 6 passes the check but is snapped to 5, and the code 5 the quantizer produces fails the check |
| Observer.Floor32 | node_helper.js:117 | the result is a multiple of 32 not above x and less than 32 below it |
| Observer.Ceil32 | node_helper.js:116 | the result is a multiple of 32 not below x and less than 32 above it |
| Observer.ObserveMutations | node_helper.js:115-135 | the notice is the one for the folded box. When emitted: some mutation was visible, width and height are positive, left and right are multiples of 32, the flags are the last mutation's, and every visible mutation lies inside the box |
| Observer.Grow | node_helper.js:123-130 | one loop step: a visible box widens the running box to the min/max, left floored and right ceiled to 32; an invisible one leaves it (proved by `Observer.FoldCovers`, `Observer.FoldAligned`) |
| Observer.Fold | node_helper.js:118-131 | the running box after a batch, from the initial box (proved by `Observer.FoldIsAlignedHull`) |
| Observer.FoldWithoutVisible | node_helper.js:118-132 | a batch without a visible mutation leaves the initial box, and nothing is emitted |
| Observer.FoldCovers | node_helper.js:119-131 | the running box covers every visible mutation of the batch |
| Observer.FoldAligned | node_helper.js:124-129 | after a visible mutation, the box's left and right edges are multiples of 32 |
| Observer.FoldIsAlignedHull | node_helper.js:118-131 | the folded box is `Hull` with left floored and right ceiled to 32, top and bottom unchanged; `Hull` is the min/max of the visible boxes starting from the initial box, so its right and bottom are never below 0 |
| Observer.HullWithoutVisible | node_helper.js:118-131 | the hull of a batch without a visible box is the initial box |
| Observer.FoldReachesOrigin | node_helper.js:118-131 | the running box's right and bottom are never below 0, because the loop starts them at 0 |
| Observer.ExampleNegativeBox | node_helper.js:118-131 | a box from (-100, -100) to (-50, -50) folds to the box from (-128, -100) to (0, 0) |
| Observer.ProperMutationIsEmitted | node_helper.js:123-134 | a batch holding a box of positive width and height always leads to a notice |
| Observer.ExampleAlignment | node_helper.js:124-133 | a 40x40 change at the origin is emitted as 64 columns by 40 rows |
| Observer.ExampleZeroWidth | node_helper.js:123 | a zero-width change is never emitted |
| Decisions.EffectiveIs4Levels | node_helper.js:202-204 | a draw is at 4 levels exactly when the caller passed true or every pixel passes the palette check |
| Decisions.DisplayMode | node_helper.js:207-209 | the driver's default mode exactly for a 16-level draw; otherwise GLD16 (5) on a 6-inch panel and DU4 (7) elsewhere |
| Decisions.Force16LevelsUnlessFalse | node_helper.js:273 | a refresh request forces 16 levels unless its payload is exactly the boolean false |
| Decisions.ForcedFullRefreshHint | node_helper.js:171 | a forced full refresh never passes the 4-level hint |
| Decisions.FullRefreshHintMeaning | node_helper.js:171 | with the 4-level default, the hint holds iff no visible module has `no-eink-4levels`; otherwise iff every visible module has `eink-4levels` |
| Decisions.ForcedFullRefreshStillChecksPalette | node_helper.js:202-209 | under a forced refresh the draw's level is exactly the palette check's verdict, and 4-gray content still gets a 4-gray waveform |
| Decisions.HintedDrawIsFewLevel | node_helper.js:202-209 | a draw given the hint is at 4 levels with a 4-gray waveform, whatever the content |
| Decisions.RouteMeaning | node_helper.js:97-108 | ignored iff the refresh timer is unset; drawn at once iff armed and (`eink-4levels`, or the 4-level default without `no-eink-4levels`); queued otherwise |
| Decisions.DispatchMeaning | node_helper.js:268-276 | CONFIG is acted on iff not yet initialized; a refresh request iff initialized, and it forces 16 levels iff the payload is not the boolean false |
| Decisions.FullRefreshIs4Levels | node_helper.js:171 | the hint of a full refresh: never when forced; with the 4-level default, no visible `no-eink-4levels` module; otherwise every visible module has `eink-4levels` (proved by `Decisions.FullRefreshHintMeaning` and `Decisions.ForcedFullRefreshHint`) |
| Decisions.Force16Levels | node_helper.js:273 | a payload forces 16 levels unless it is the boolean false (proved by `Decisions.Force16LevelsUnlessFalse`) |
| Decisions.RouteMutation | node_helper.js:97-108 | the three routes of a notice: ignore before the timer is armed, draw now, or enqueue (proved by `Decisions.RouteMeaning`) |
| Decisions.Dispatch | node_helper.js:268-276 | the action of a message: configure once before initialisation, a full refresh after it, otherwise nothing (proved by `Decisions.DispatchMeaning`) |
| Drain.DedupFrom | node_helper.js:82-91 | the rectangles the rest of a drain draws, given the queue left and `rectDone` (proved by `Drain.DedupFromMember`, `Drain.DedupFromNoDuplicates`, `Drain.DedupFromOrder`) |
| Drain.Dedup | node_helper.js:80-91 | the rectangles a whole drain draws, starting from an empty `rectDone` (proved by `Drain.DedupDrawsEachOnceInArrivalOrder`) |
| Drain.DedupFromMember | node_helper.js:80-91 | a rectangle is drawn by the rest of a drain iff it is still queued and not yet in `rectDone` |
| Drain.DedupFromNoDuplicates | node_helper.js:80-91 | no rectangle is drawn twice in one drain |
| Drain.DedupFromOrder | node_helper.js:80-91 | the drawn rectangles come in order of their first arrival in the queue |
| Drain.DedupDrawsEachOnceInArrivalOrder | node_helper.js:80-91 | a drain draws every queued rectangle, each exactly once, in order of first arrival |
| Drain.DedupExample | node_helper.js:82-88 | the queue `[1, 2, 1, 1]` draws `[1, 2]` |
| Trace.ActivateCommands | node_helper.js:226-233 | the commands `IT8951_activate` issues: wait, activate, wait unless mock or already running (proved by `Trace.ActivateCommandsCount`, `Trace.ActivateKeepsInvariant`) |
| Trace.SleepCommands | node_helper.js:235-241 | the commands `IT8951_sleep` issues: wait for the display, sleep unless mock or already asleep (proved by `Trace.SleepCommandsCount`, `Trace.SleepKeepsInvariant`) |
| Trace.DrawEvents | node_helper.js:192-224 | the event of one draw: the packed buffer at the effective level with its waveform, or the mock PNG (proved by `Trace.DrawEventsFacts`) |
| Trace.ActivateKeepsInvariant | node_helper.js:226-233 | the activate sequence keeps the power bookkeeping and leaves the panel running |
| Trace.SleepKeepsInvariant | node_helper.js:235-241 | the sleep sequence keeps the power bookkeeping and leaves the panel asleep |
| Trace.DrawKeepsInvariant | node_helper.js:192-224 | a draw issued to a running panel keeps the power bookkeeping |
| Trace.DrainEventsKeepInvariant | node_helper.js:82-91 | drawing a run of rectangles on a running panel keeps the power bookkeeping |
| Trace.DrainSessionKeepsInvariant | node_helper.js:78-93 | a drain session keeps the bookkeeping and ends asleep: no draw reaches a sleeping panel, and mock mode issues no driver command |
| Trace.DrawEventsFacts | node_helper.js:192-224 | a draw captures nothing, draws exactly its area and issues no power command |
| Trace.DrainStepCaptured | node_helper.js:86-89 | one drain step captures exactly its rectangle |
| Trace.DrainStepDrawn | node_helper.js:86-89 | one drain step draws exactly its rectangle |
| Trace.DrainStepNoPower | node_helper.js:86-89 | one drain step issues no activate and no sleep |
| Trace.DrainEventsCaptured | node_helper.js:82-91 | the captures of a run of drain steps are its rectangles, in order |
| Trace.DrainEventsDrawn | node_helper.js:82-91 | the draws of a run of drain steps are its rectangles, in order |
| Trace.DrainEventsNoPower | node_helper.js:82-91 | a run of drain steps issues no activate and no sleep |
| Trace.ActivateCommandsCount | node_helper.js:226-233 | the activate sequence holds one activate exactly when not mock and not already running, and never a sleep |
| Trace.SleepCommandsCount | node_helper.js:235-241 | the sleep sequence holds one sleep exactly when not mock and not already asleep, and never an activate |
| Trace.PowerSequencesAreaFree | node_helper.js:226-241 | neither power sequence captures or draws anything |
| Trace.DrainSessionCaptured | node_helper.js:78-93 | a drain session captures the given rectangles, in order |
| Trace.DrainSessionDrawn | node_helper.js:78-93 | a drain session draws the given rectangles, in order |
| Trace.DrainSessionCount | node_helper.js:78-93 | the activates and sleeps of a drain session are those of its one activate sequence and its one sleep sequence |
| Trace.DrainSessionShape | node_helper.js:78-93 | a drain session captures and draws the given rectangles in order. On a panel: one activate (none if already running), exactly one sleep, and the sleep is the last command |
| Trace.ActivateTwiceIssuesOnce | node_helper.js:226-233 | a second activate issues nothing; the wake sequence holds one activate exactly when not mock and not running |
| Trace.SleepTwiceIssuesOnce | node_helper.js:235-241 | a second sleep issues nothing; the sleep sequence holds one sleep exactly when not mock and not asleep; mock issues neither |
| Trace.SingleDrawSessionKeepsInvariant | node_helper.js:169-174 | capture, activate, draw, sleep keeps the power bookkeeping and ends asleep |
| Trace.SingleDrawSessionContents | node_helper.js:169-174 | a single-draw session captures and draws just its area |
| Helper.MockDimension | node_helper.js:66-67 | a configured window size is kept, an absent one (0) falls back to 1872 or 1404 (used by `Helper.NodeHelper.InitializeEink`) |
| Helper.NodeHelper.constructor | node_helper.js:29-32 | starts uninitialized, with an empty configuration, an empty queue, `IT8951_sysrun` undefined and no timer |
| Helper.NodeHelper.Activate | node_helper.js:226-233 | issues wait/activate/wait unless mock or already running; records running |
| Helper.NodeHelper.Sleep | node_helper.js:235-241 | issues wait-display/sleep unless mock or already asleep; records asleep |
| Helper.NodeHelper.CaptureScreen | node_helper.js:184-190 | captures the given rectangle, or the whole page when none is given |
| Helper.NodeHelper.Draw | node_helper.js:192-224 | appends the draw: packed at the effective level with the matching waveform on a panel, or a PNG of 4 or 16 colours in mock mode |
| Helper.NodeHelper.ProcessStack | node_helper.js:78-93 | empties the queue, ends asleep, keeps the invariant, and appends the drain session of the de-duplicated queue |
| Helper.NodeHelper.DrainQueue | node_helper.js:80-91 | shifts the queue to empty; `rectDone` ends as the de-duplicated queue, with its captures and draws appended |
| Helper.NodeHelper.DrawRect | node_helper.js:86-89 | captures one rectangle and draws it without a level hint |
| Helper.NodeHelper.DrawInPowerCycle | node_helper.js:99-104 | capture, activate, draw with the hint, sleep; keeps the invariant and ends asleep |
| Helper.NodeHelper.PuppeteerMutation | node_helper.js:96-112 | per route: nothing before the timer is armed; an immediate 4-level single-draw session; or the notice is queued, and a drain starts exactly when the queue was empty |
| Helper.NodeHelper.FullRefresh | node_helper.js:164-182 | drops the queue, arms the timer, ends asleep, and appends a single-draw session of the whole page with the full-refresh level hint |
| Helper.NodeHelper.InitializeEink | node_helper.js:58-76 | on a panel: init and sleep, then take the panel's size; in mock mode: the window size, defaulting to 1872x1404; then a forced 16-level full refresh |
| Helper.NodeHelper.SocketNotificationReceived | node_helper.js:268-276 | CONFIG stores the configuration and initializes, with the page size and trace `InitializeEink` states; a refresh request runs a full refresh with the payload rule and keeps the page size; anything else changes nothing |

## Left out

- Browser and Puppeteer I/O: launching, navigation, the viewport, screenshots and in-page evaluation. A capture is the `screen` parameter; the visible-module counts (`getNbVisibleModules`) and the window size are parameters.
- Sharp: decoding a screenshot to 8-bit gray, and writing the mock PNG to `/tmp/screenshot-N.png`. The mock draw is recorded as an event carrying the colour count. Its file counter `inc` (modulo 200) is not modelled.
- The `node-it8951` driver's internals. Each driver command (init, activate, sleep, the waits, draw) is one trace event.
- `start` and `stop`. `stop` closes the browser and clears and closes the panel, which is outside the refresh logic.
- Timers and async interleavings. The `bufferDelay` wait, the `updateInterval` re-arm and the un-awaited async calls are not modelled. `PuppeteerMutation` reports that it would start a drain, and a drain is the separate `ProcessStack` call. Only whether `refreshTimeout` is set is kept (`clearTimeout` never unsets it).
- The wiring in `initObservers`: `exposeFunction`, the observer's registration, and the check that `bufferDelay` is a number. The callback bodies are modelled: `PuppeteerMutation` and `Observer.ObserveMutations`.
- Garbage collection and logging.
- Coordinates are integers. The source's `Math.floor`/`Math.ceil` on top and bottom only matter for fractional bounds, which the model does not represent.
- Configuration values are booleans. JavaScript truthiness of other values (e.g. `mock: 1`) is not modelled. `force6inch` follows the source's `=== true` test. A `CONFIG` payload of `null` or `undefined` makes `initializeEink` throw when it reads `driverParam` (line 59), before `isInitialized` is set; that case is not modelled, and `ConfigOf` reads any non-object payload as the empty configuration.
- Failures of the browser, Sharp or the driver: every capture, decode and driver call is taken to succeed. In the source, a throw inside the loop of `processStack` (lines 88-89) leaves the panel awake. When the throw comes before the last `shift` (line 83), it also leaves rectangles in `stackAreas`. The queue then never becomes one long again (line 107), so no drain starts until a full refresh empties it (line 167). The model does not capture this.
- Helper.NodeHelper.InitializeEink: `new IT8951(this.config.driverParam)` (line 59) builds the driver object in both modes, before the `mock` test; the model records no event for it, so its trace starts with `init` on a panel and is empty up to the full refresh in mock mode.
- Pixels.Downscale8BitsTo4Bits: its contract states the contents of the returned array, not that the array is freshly allocated.

# A verified model of the nonono site's interactive core

This project models the logic behind three of the site's mini-apps:

- **Gesture Drawing**, where hand gestures seen by the camera drive a glowing brush. The model covers the per-hand gesture classifier and the frame loop that turns the hands of one frame into drawing, erasing, undo, hold-to-clear and snapshot actions. It also covers the undo history and the colour and brush cycles.
- **Drinking Earth**, a live map of check-ins "who is drinking now". The model covers the `/api/drinks` Cloudflare Pages function (storage, the `GET` filter, sort and limit, and `POST` validation and normalisation), plus the client's lookups, time labels, filters, statistics and submit handling.
- **The drawing app's voice and performance helpers.** These are the voice command processor (a confidence gate, a cooldown, per-second de-duplication, a bounded history and a keyword parser), the message display queue, the batched UI update queue and the frame-rate monitor.

Code that works by updating state is modelled as Dafny classes whose fields mirror the source's fields. Each method is proved to produce exactly the state that a pure transition function gives, and the properties the source promises are proved about those functions. Code that only computes is modelled as functions. Callbacks, timers, animation frames and idle callbacks become explicit events or output lists. The clock (`Date.now()`, `performance.now()`) is a parameter.

Modules:
- `Options`, `Seqs`: `Option`, plus `slice(-n)` and `slice(0, n)`.
- `Strings`: `trim` over the ECMAScript white-space and line-terminator characters, ASCII `toLowerCase`, substring search, and decimal rendering of integers.
- `JsNumbers`: the JavaScript number with NaN and the infinities, `Math.max` and `Math.min`.
- `Sorting`: a stable sort on a descending key, the `Array.prototype.sort` the source calls with `b.x - a.x`.
- `GestureClassifier`: `detectGesture`.
- `GestureEngine`: the frame loop of `GestureDrawingApp`, its history and canvas effects, and the cycling helpers. It includes the `GestureDrawing` class.
- `DrinksApi`: `functions/api/drinks.ts`.
- `DrinkingEarth`: the pure parts of `DrinkingEarthApp` and its `stats` loop.
- `VoiceOptimizer`: the `VoiceControlOptimizer` class.
- `PerformanceOptimizer`: the `MessageOptimizer`, `UIUpdateOptimizer` and `PerformanceMonitor` classes.

Some facts about the gesture code that shape the model:
- Gestures are classified afresh every frame. There is no hysteresis or debounce between frames.
- Thumbs-up undoes.
- Holding an open palm for 3000 ms clears the canvas.
- A fist erases with radius twice the brush size.

## Model

| member | source | states |
|---|---|---|
| GestureClassifier.Classify | src/components/apps/GestureDrawingApp.tsx:194-261 | Pinch exactly when the tips touch (< 0.05) and the index is not curled. Failing that: peace iff index and middle are open and ring and pinky curled; palm iff no finger is curled. All four curled gives thumbs-up if the thumb is extended (> 0.1) and fist otherwise. "None" exactly when no pattern holds. The output is only ever one of these six gestures. |
| GestureEngine.Saved | src/components/apps/GestureDrawingApp.tsx:100-117 | The saved history has 1 to 20 entries. The current canvas is last, and before it are the most recent 19 (or fewer) earlier snapshots in order. Nothing else changes. |
| GestureEngine.Undone | src/components/apps/GestureDrawingApp.tsx:120-149 | An empty history changes nothing and only posts "nothing to undo". Otherwise exactly the last entry is removed, and the canvas becomes the new last entry, or blank when none remains. The effects replay to that canvas. |
| GestureEngine.UndoAfterSave | src/components/apps/GestureDrawingApp.tsx:100-149 | Below the cap, undo right after a save restores the previous history. The canvas becomes the snapshot saved before, not the one just saved. |
| GestureEngine.ReplayAppend | src/components/apps/GestureDrawingApp.tsx:581-695 | Replaying two effect lists one after the other equals replaying their concatenation. |
| GestureEngine.ReplayFirst | src/components/apps/GestureDrawingApp.tsx:581-695 | An effect list whose later effects leave the canvas alone replays as its first effect. |
| GestureEngine.FaithfulThen | src/components/apps/GestureDrawingApp.tsx:425-567 | Faithful outcomes compose: two steps whose effects each replay to their new canvas do so together. |
| GestureEngine.Drawn | src/components/apps/GestureDrawingApp.tsx:581-652 | Without a last position it only records the point. With one, spray and particle brushes spatter and keep the old position; every other brush strokes from it to the point and moves it there. Drawing only ever paints. |
| GestureEngine.Erased | src/components/apps/GestureDrawingApp.tsx:654-660 | Erases a circle of radius brushSize * 2 at the point and changes nothing else. |
| GestureEngine.AddHandFirst | src/components/apps/GestureDrawingApp.tsx:425-476 | A hand keeps an earlier first pinch (fist) position, and otherwise supplies its own when it shows that gesture. |
| GestureEngine.AddHandFlag | src/components/apps/GestureDrawingApp.tsx:463-474 | A hand sets the palm (thumbs-up) flag exactly when it shows that gesture, and never clears it. |
| GestureEngine.SummarizeFirst | src/components/apps/GestureDrawingApp.tsx:425-476 | The pinch (fist) cursor the loop keeps is absent exactly when no hand pinches (fists). When present it is the cursor of the first such hand. |
| GestureEngine.SummarizePeace | src/components/apps/GestureDrawingApp.tsx:463-474 | The peace count equals the number of hands classified as peace. |
| GestureEngine.SummarizeFlag | src/components/apps/GestureDrawingApp.tsx:463-474 | The palm and thumbs-up flags are set exactly when some hand shows that gesture. |
| GestureEngine.Collect | src/components/apps/GestureDrawingApp.tsx:425-476 | The hand-collection loop computes exactly the summary of all hands. |
| GestureEngine.Summarize | src/components/apps/GestureDrawingApp.tsx:425-476 | Each hand adds at most one to the peace count; no hands give the empty summary. The cursor and flag fields are characterised by the three lemmas above. |
| GestureEngine.FramePriority | src/components/apps/GestureDrawingApp.tsx:464-567 | Two or more peace hands give a snapshot; else any palm, hold-to-clear; else the first pinch hand draws; else the first fist hand erases; else thumbs-up undoes; else idle. Every case is stated in both directions. |
| GestureEngine.Decide | src/components/apps/GestureDrawingApp.tsx:480-567 | Drawing and erasing happen at the summary's pinch and fist cursors. The frame is idle exactly when no gesture is shown. |
| GestureEngine.SnapshotFrame | src/components/apps/GestureDrawingApp.tsx:480-487 | The countdown and the delayed snapshot fire only when the current gesture is not already snapshot. Otherwise nothing changes. |
| GestureEngine.PalmFrame | src/components/apps/GestureDrawingApp.tsx:489-512 | The first palm frame records its time. A later one under 3000 ms only shows progress. From 3000 ms on, the canvas is cleared and the start reset. A clear happens exactly in that case. |
| GestureEngine.PinchFrame | src/components/apps/GestureDrawingApp.tsx:514-536 | Resets the palm hold and sets the gesture to pinch. History is saved only on entry to pinch. Position and canvas follow the draw step. |
| GestureEngine.FistFrame | src/components/apps/GestureDrawingApp.tsx:538-548 | Resets the palm hold and the last position, sets the gesture to fist and erases at the cursor. The eraser message appears only on entry. |
| GestureEngine.ThumbsUpFrame | src/components/apps/GestureDrawingApp.tsx:550-559 | Resets the palm hold and the last position. Undo runs only on entry to thumbs-up. |
| GestureEngine.IdleFrame | src/components/apps/GestureDrawingApp.tsx:561-567 | Resets the palm hold and the last position. The gesture becomes none unless it is snapshot. There are no effects. |
| GestureEngine.Dispatch | src/components/apps/GestureDrawingApp.tsx:480-567 | Every branch's effects replay to the branch's new canvas. |
| GestureEngine.Resized | src/components/apps/GestureDrawingApp.tsx:404-410 | When the video size differs from the canvas, the canvas takes the video's size and its drawing is blanked. The undo history is kept. At a steady size nothing changes and nothing is emitted. |
| GestureEngine.ResizeBlanks | src/components/apps/GestureDrawingApp.tsx:404-567 | A frame with a new video size acts on a blank drawing, after a resize effect. At a steady size the frame is exactly the hands' action. |
| GestureEngine.Step | src/components/apps/GestureDrawingApp.tsx:404-567 | A whole frame's effects replay to the frame's new canvas, and afterwards the canvas has the video's size. |
| GestureEngine.HoldResets | src/components/apps/GestureDrawingApp.tsx:489-567 | Every pinch, fist, thumbs-up or idle frame resets the palm start; a snapshot frame keeps it. With an empty history, only hold-to-clear clears. |
| GestureEngine.EdgeTriggers | src/components/apps/GestureDrawingApp.tsx:482-566 | A snapshot is scheduled iff the frame is a snapshot and the gesture was not already. History changes only on entry to pinch (a save) or to thumbs-up (an undo). Idle never overwrites snapshot. |
| GestureEngine.LastPositionUpdates | src/components/apps/GestureDrawingApp.tsx:514-652 | Fist, thumbs-up and idle frames clear the last position. Drawing moves it unless a spray or particle brush already has one. Every stroke starts at the previous last position and ends at the cursor. |
| GestureEngine.PaletteIndex | src/components/apps/GestureDrawingApp.tsx:268-274 | `findIndex` over the palette: the first index with that colour, or -1 when none has it. |
| GestureEngine.NextColor | src/components/apps/GestureDrawingApp.tsx:268-274 | The result is a palette colour, namely the one after the current colour, wrapping around. An unknown colour gives the first. |
| GestureEngine.BrushIndex | src/components/apps/GestureDrawingApp.tsx:276-291 | Every brush has a position in the brush cycle. |
| GestureEngine.NextBrush | src/components/apps/GestureDrawingApp.tsx:276-291 | The next brush is one position further round the cycle. |
| GestureEngine.AdvanceBrushIndex | src/components/apps/GestureDrawingApp.tsx:276-291 | k steps advance the brush k positions modulo 7. |
| GestureEngine.BrushCycleCloses | src/components/apps/GestureDrawingApp.tsx:276-291 | Seven steps return to the starting brush, and no fewer do. |
| GestureEngine.GestureDrawing.constructor | src/components/apps/GestureDrawingApp.tsx:36-57 | Starts with no gesture, no hold, no position and an empty history, with the glow brush, colour #39ff14 and size 5. The canvas has the default 300 × 150 size. |
| GestureEngine.GestureDrawing.SaveToHistory | src/components/apps/GestureDrawingApp.tsx:100-117 | Updates the fields exactly as `Saved`. |
| GestureEngine.GestureDrawing.Undo | src/components/apps/GestureDrawingApp.tsx:120-149 | Updates the fields and emits effects exactly as `Undone`. |
| GestureEngine.GestureDrawing.Draw | src/components/apps/GestureDrawingApp.tsx:581-652 | Exactly as `Drawn`. |
| GestureEngine.GestureDrawing.Erase | src/components/apps/GestureDrawingApp.tsx:654-660 | Exactly as `Erased`. |
| GestureEngine.GestureDrawing.ClearCanvas | src/components/apps/GestureDrawingApp.tsx:689-695 | Blanks the canvas and nothing else. |
| GestureEngine.GestureDrawing.PalmBranch | src/components/apps/GestureDrawingApp.tsx:489-512 | Exactly as `PalmFrame`. |
| GestureEngine.GestureDrawing.PinchBranch | src/components/apps/GestureDrawingApp.tsx:514-536 | Exactly as `PinchFrame`. |
| GestureEngine.GestureDrawing.FistBranch | src/components/apps/GestureDrawingApp.tsx:538-548 | Exactly as `FistFrame`. |
| GestureEngine.GestureDrawing.ThumbsUpBranch | src/components/apps/GestureDrawingApp.tsx:550-559 | Exactly as `ThumbsUpFrame`. |
| GestureEngine.GestureDrawing.SnapshotBranch | src/components/apps/GestureDrawingApp.tsx:480-487 | Exactly as `SnapshotFrame`. |
| GestureEngine.GestureDrawing.IdleBranch | src/components/apps/GestureDrawingApp.tsx:561-567 | Exactly as `IdleFrame`. |
| GestureEngine.GestureDrawing.Act | src/components/apps/GestureDrawingApp.tsx:480-567 | Acting on an intent updates the fields and emits effects exactly as `Dispatch`. |
| GestureEngine.GestureDrawing.Tick | src/components/apps/GestureDrawingApp.tsx:404-567 | One camera frame, the canvas sizing included, updates the fields and emits effects exactly as `Step`. |
| GestureEngine.GestureDrawing.MatchSize | src/components/apps/GestureDrawingApp.tsx:404-410 | Sizing the canvases to the video updates the fields and emits effects exactly as `Resized`. |
| DrinksApi.LoadFromKv | functions/api/drinks.ts:49-63 | A stored array is returned as is. A missing key, a failed read or a non-array value all give the empty list. |
| DrinksApi.StoreAppend | functions/api/drinks.ts:42-77 | The stored list has 1 to 500 events. The new event is last, and before it are the most recent 499 (or fewer) previous events in order. |
| DrinksApi.KvSave | functions/api/drinks.ts:65-71 | The KV branch writes the loaded list with the event appended and capped. Any unusable stored value leaves just the new event. |
| DrinksApi.MemoryStore.constructor | functions/api/drinks.ts:42 | The in-memory store starts empty. |
| DrinksApi.MemoryStore.Save | functions/api/drinks.ts:73-76 | The in-memory push and splice leave exactly `StoreAppend` of the old list. |
| DrinksApi.MemoryStore.Post | functions/api/drinks.ts:118-201 | Answers as `HandlePost`. Only a created event is saved. |
| DrinksApi.ParseNumber | functions/api/drinks.ts:79-86 | A number comes back unchanged. A string gives its conversion exactly when that is finite. Anything else gives undefined. |
| JsNumbers.Max | functions/api/drinks.ts:88-90 | `Math.max` of two numbers: NaN iff either argument is NaN, otherwise the larger argument. |
| JsNumbers.Min | functions/api/drinks.ts:88-90 | `Math.min` of two numbers: NaN iff either argument is NaN, otherwise the smaller argument. |
| JsNumbers.ThousandOver | src/components/apps/PerformanceOptimizer.tsx:263 | `1000 / delta`: the finite quotient, or +Infinity for a zero gap. |
| DrinksApi.Clamp | functions/api/drinks.ts:88-90 | NaN iff the input is NaN. Otherwise, when lo ≤ hi, the result is finite and within [lo, hi]; it equals the input when the input is inside, and the nearer bound when the input is beyond it. |
| DrinksApi.FilterAfter | functions/api/drinks.ts:103 | Each event created after `since` is kept exactly as many times as it is stored; no other event is kept. |
| DrinksApi.FilterAfterAppend | functions/api/drinks.ts:103 | The filter keeps the stored order: filtering a concatenation is concatenating the filtered parts. |
| DrinksApi.SinceFilter | functions/api/drinks.ts:95-105 | Filtering applies exactly when `since` is present and non-empty and does not convert to NaN. |
| DrinksApi.Candidates | functions/api/drinks.ts:99-106 | With a usable `since`, each event after it is a candidate exactly as many times as it is stored, and no other event is. Without one the candidates are all the events. |
| DrinksApi.CandidatesAppend | functions/api/drinks.ts:99-106 | The candidates keep the stored order. |
| DrinksApi.HandleGet | functions/api/drinks.ts:92-116 | GET returns min(candidates, 200) events drawn from the candidates, ordered newest first. No candidate left out is newer than any event returned. |
| DrinksApi.GetTiesInStoredOrder | functions/api/drinks.ts:99-108 | Events with the same creation time come back in storage order. When the 200 limit cuts through such a group, the earliest stored of them are kept. |
| DrinksApi.GetFiltersSince | functions/api/drinks.ts:99-108 | At most 200 stored events are returned. When `since` parses, each one is newer than `since`; otherwise all events are candidates. |
| DrinksApi.NormalizeType | functions/api/drinks.ts:146-161 | The stored type is always an allowed one. An allowed type is kept; anything else becomes "other". |
| DrinksApi.Truncate | functions/api/drinks.ts:163-164 | `slice(0, n)` through `?.`: present iff the input is present, and then a prefix of length at most n. A short input is kept whole. |
| DrinksApi.ParseGender | functions/api/drinks.ts:165-167 | Keeps male, female or other, each exactly for that input. Anything else is dropped. |
| DrinksApi.StringField | functions/api/drinks.ts:170-176 | A string geo field is kept; anything else is dropped. |
| DrinksApi.RejectsContentType | functions/api/drinks.ts:121 | A POST is refused exactly when a Content-Type header is present and "application/json" occurs nowhere in it; a missing header passes. |
| DrinksApi.Coordinate | functions/api/drinks.ts:177-178 | Present iff the value parses. A non-NaN result is finite and within ±bound. NaN survives only when the field itself is the number NaN. |
| DrinksApi.HandlePost | functions/api/drinks.ts:118-201 | A present Content-Type without application/json, then an invalid body, then an empty trimmed lower-cased type each give their 400. Otherwise an event is created with the given id and time, the normalised type, truncated name and message, a filtered gender and clamped coordinates. |
| DrinksApi.KvPost | functions/api/drinks.ts:193 | Only a created event is written, appended to the loaded list and capped. |
| DrinksApi.PostedEventWellFormed | functions/api/drinks.ts:138-178 | A created event has a non-empty allowed type, a name ≤ 80 and a message ≤ 160. Its coordinates, when not NaN, lie within ±90 and ±180. |
| Strings.Trim | functions/api/drinks.ts:138 | The result is no longer than the input, is a contiguous part of it with only whitespace removed around it, and has no whitespace at either end. |
| Strings.ToLower | functions/api/drinks.ts:138 | Lower-cases every ASCII capital letter and keeps every other character. |
| Strings.ToLowerIdempotent | src/components/apps/VoiceOptimizer.tsx:100 | Lower-casing twice is lower-casing once. |
| Strings.ContainsMeans | src/components/apps/VoiceOptimizer.tsx:110-113 | `includes` is true exactly when the text occurs somewhere in the string. |
| Sorting.SortDesc | functions/api/drinks.ts:108 | The comparator sort returns a permutation of its input in non-increasing key order. |
| Sorting.SortDescStable | src/components/apps/DrinkingEarthApp.tsx:250-251 | The sort is stable: elements with equal keys keep their relative order. |
| Sorting.TopN | functions/api/drinks.ts:108 | Sorting and then keeping the first n (as the GET handler and `sortEntries` both do) gives min(n, length) elements of the input. They are in non-increasing key order, and nothing left out has a larger key than anything kept. |
| Sorting.TopNTies | src/components/apps/DrinkingEarthApp.tsx:250-251 | Among elements with equal keys, sort-then-slice keeps the earliest ones of the input, in input order. |
| Sorting.WithKeyPrefix | src/components/apps/DrinkingEarthApp.tsx:250-251 | The elements with key k in a prefix are a prefix of those in the whole. |
| Sorting.TopOfSorted | src/components/apps/DrinkingEarthApp.tsx:250-251 | In any sorted list, whatever lies past the first n elements has a key no larger than any of them. |
| DrinkingEarth.GetDrink | src/components/apps/DrinkingEarthApp.tsx:41-66 | A configured type gets its style; any other key gets the "other" style. |
| DrinkingEarth.GetGender | src/components/apps/DrinkingEarthApp.tsx:56-67 | A configured gender gets its style; anything else gives null. |
| DrinkingEarth.DrinkConfigMatchesAllowedTypes | src/components/apps/DrinkingEarthApp.tsx:41-54 | The client's drink table has exactly the types the endpoint allows. |
| DrinkingEarth.GenderConfigMatchesEndpoint | src/components/apps/DrinkingEarthApp.tsx:56-60 | The client styles exactly the genders the endpoint keeps. |
| DrinkingEarth.MinutesSince | src/components/apps/DrinkingEarthApp.tsx:70 | `Math.floor(Δ / 60000)`: the whole minutes m with m·60000 ≤ Δ < (m+1)·60000, negative Δ included. |
| DrinkingEarth.IsActive | src/components/apps/DrinkingEarthApp.tsx:39-68 | An event is active exactly when its relative time shows fewer than 30 minutes. |
| DrinkingEarth.FloorTwice | src/components/apps/DrinkingEarthApp.tsx:70-73 | The floor of a floor over 60 is the floor over an hour. |
| DrinkingEarth.TimeAgo | src/components/apps/DrinkingEarthApp.tsx:69-74 | "just now" under a minute, including future times. Whole minutes + "m ago" under an hour. Whole hours + "h ago" from then on. |
| DrinkingEarth.ValidEvents | src/components/apps/DrinkingEarthApp.tsx:228-231 | Each event with numeric lat and lng is kept exactly as many times as it occurs; no other event is kept. |
| DrinkingEarth.ValidEventsAppend | src/components/apps/DrinkingEarthApp.tsx:228-231 | The located events keep their arrival order: filtering a concatenation is concatenating the filtered parts. |
| DrinkingEarth.ActiveEvents | src/components/apps/DrinkingEarthApp.tsx:233 | Each valid event created less than 30 minutes ago is kept exactly as many times as it occurs; no other event is kept. |
| DrinkingEarth.ActiveEventsAppend | src/components/apps/DrinkingEarthApp.tsx:233 | The active events keep the order of the valid ones. |
| DrinkingEarth.ActiveWithinValid | src/components/apps/DrinkingEarthApp.tsx:228-233 | Active ⊆ valid ⊆ events, and each active event is located and active. |
| DrinkingEarth.PointOf | src/components/apps/DrinkingEarthApp.tsx:266-272 | A point sits at the event's coordinates, has size 1.5 when active and 0.5 otherwise, and takes its drink's colour. |
| DrinkingEarth.PointsData | src/components/apps/DrinkingEarthApp.tsx:266-272 | One point per valid event, in order. |
| DrinkingEarth.Bump | src/components/apps/DrinkingEarthApp.tsx:241-248 | `counts[k] = (counts[k] \|\| 0) + 1` adds an entry exactly for a new key. |
| DrinkingEarth.BumpFacts | src/components/apps/DrinkingEarthApp.tsx:241-248 | Exactly the bumped key's count grows by one. The total grows by one, and the keys gain that key and stay distinct. |
| DrinkingEarth.TallyFacts | src/components/apps/DrinkingEarthApp.tsx:241-248 | Each key's count in the tally is its number of occurrences. The counts add up to the number of keys. The keys are distinct and are exactly those seen. |
| DrinkingEarth.DistinctKeysCount | src/components/apps/DrinkingEarthApp.tsx:260-261 | `Object.keys(...).length` is the number of distinct keys. |
| DrinkingEarth.DrinkKeys | src/components/apps/DrinkingEarthApp.tsx:241-242 | The i-th drink key is the i-th event's drink type, one key per event. |
| DrinkingEarth.CountryKeysInOrder | src/components/apps/DrinkingEarthApp.tsx:241-243 | The country keys are the countries of the events with a truthy country, in event order. |
| DrinkingEarth.CityKeysInOrder | src/components/apps/DrinkingEarthApp.tsx:241-244 | The city keys are the cities of the events with a truthy city, in event order. |
| DrinkingEarth.SortEntries | src/components/apps/DrinkingEarthApp.tsx:250-251 | At most 10 entries, with counts non-increasing, drawn from the tally. No entry left out has a larger count than one kept. |
| DrinkingEarth.TallyOfSnoc | src/components/apps/DrinkingEarthApp.tsx:241-248 | Tallying one more key bumps the tally. |
| DrinkingEarth.TalliesStep | src/components/apps/DrinkingEarthApp.tsx:241-248 | One loop iteration bumps the three tallies by the event's keys. |
| DrinkingEarth.ComputeStats | src/components/apps/DrinkingEarthApp.tsx:235-263 | The counting loop computes exactly the statistics of the events. |
| DrinkingEarth.StatsOf | src/components/apps/DrinkingEarthApp.tsx:235-263 | In the statistics, male + female + other = total = the number of events, and no more events are active than exist. |
| DrinkingEarth.GenderCountsAddUp | src/components/apps/DrinkingEarthApp.tsx:245-247 | male + female + other = number of events. |
| DrinkingEarth.StatsFacts | src/components/apps/DrinkingEarthApp.tsx:241-262 | The drink counts add up to the total and count each type's occurrences among the events. Country and city counts are the numbers of distinct truthy keys. Each top list has at most 10 entries. |
| DrinkingEarth.Prepend | src/components/apps/DrinkingEarthApp.tsx:297 | The new event is first, and the list holds at most 500 events. The rest are the first 499 (or fewer) earlier events in order. |
| DrinkingEarth.AfterSubmit | src/components/apps/DrinkingEarthApp.tsx:287-315 | Only a response carrying an event changes the list, by prepending it. |
| Seqs.KeepLast | src/components/apps/VoiceOptimizer.tsx:229 | `slice(-n)`: the last min(n, length) elements, as a suffix. |
| Seqs.Take | src/components/apps/DrinkingEarthApp.tsx:297 | `slice(0, n)`: the first min(n, length) elements, as a prefix. |
| Seqs.Filter | src/components/apps/DrinkingEarthApp.tsx:228-233 | `Array.prototype.filter`: every element satisfying the test is kept as often as it occurs, and no other element is. |
| Seqs.FilterAppend | src/components/apps/DrinkingEarthApp.tsx:228-233 | Filtering keeps the order: a filtered concatenation is the concatenation of the filtered parts. With the multiplicities this fixes the result. |
| Seqs.FilterSnoc | src/components/apps/DrinkingEarthApp.tsx:228-233 | One more element at the end is kept at the end exactly when it passes the test. |
| Seqs.AppendKeepLast | src/components/apps/GestureDrawingApp.tsx:109-112 | Appending and keeping the last n puts the new element last. Before it stand the last n-1 previous elements. |
| Seqs.KeepLastThenAppend | src/components/apps/PerformanceOptimizer.tsx:263-267 | Trimming to the last n before appending more keeps the same elements as trimming afterwards only. |
| Strings.NatToString | src/components/apps/DrinkingEarthApp.tsx:72-73 | The decimal text of a non-negative integer is non-empty, all digits, and has no leading zero. |
| Strings.ParseNatToString | src/components/apps/VoiceOptimizer.tsx:118 | The decimal text reads back as the same number. |
| VoiceOptimizer.MentionsMeans | src/components/apps/VoiceOptimizer.tsx:14-45 | An alternation of literals matches exactly when one of its words occurs in the command. |
| VoiceOptimizer.QuickIsCommon | src/components/apps/VoiceOptimizer.tsx:104-113 | Every word of the quick list occurs among the common commands. |
| VoiceOptimizer.IsQuickCommand | src/components/apps/VoiceOptimizer.tsx:104-107 | Exact membership in the quick list; every quick command is also a common command. |
| VoiceOptimizer.IsCommonCommand | src/components/apps/VoiceOptimizer.tsx:110-113 | True exactly when some common command occurs in the text. |
| VoiceOptimizer.FirstRule | src/components/apps/VoiceOptimizer.tsx:155-199 | The first keyword group, in listed order, that the command matches, or -1 when none does. |
| VoiceOptimizer.KeysMapped | src/components/apps/VoiceOptimizer.tsx:48-63 | Every colour key has its `COLOR_MAP` value. Every brush type and tool key has its display name in the tables `parseCommand` consults. |
| VoiceOptimizer.Classify | src/components/apps/VoiceOptimizer.tsx:148-223 | A colour, brush type or tool clause decides only through the first matching rule of its group, in listed order. |
| VoiceOptimizer.ParseCommand | src/components/apps/VoiceOptimizer.tsx:148-223 | Null exactly when no keyword of any command occurs. Every command but save shows a message. |
| VoiceOptimizer.ParseClearAndSave | src/components/apps/VoiceOptimizer.tsx:150-158 | Clear wins exactly when a clear word occurs, and announces the cleared canvas. Save wins exactly when a save word occurs and no clear word. |
| VoiceOptimizer.ParseKeyed | src/components/apps/VoiceOptimizer.tsx:160-199 | A colour, brush type or tool result comes from the first matching group in listed order, with every higher rung failing. A colour carries `COLOR_MAP` of its English key and announces that key. Brushes and tools announce their display names. |
| VoiceOptimizer.ParseLowerPriorities | src/components/apps/VoiceOptimizer.tsx:201-222 | Bigger, smaller, background and help each win exactly when their words occur and every rung above fails. |
| VoiceOptimizer.CommandKeyInjective | src/components/apps/VoiceOptimizer.tsx:118 | Two de-duplication keys are equal only for the same command in the same second. |
| VoiceOptimizer.CommandKey | src/components/apps/VoiceOptimizer.tsx:118 | The key decodes back: the text before its last underscore is the command, and the digits after it read as the second. |
| VoiceOptimizer.Processed | src/components/apps/VoiceOptimizer.tsx:116-145 | A key already seen leaves everything unchanged, `lastCommandTime` included. Set size ≤ 50 and history ≤ 20 are preserved. |
| VoiceOptimizer.ProcessedFacts | src/components/apps/VoiceOptimizer.tsx:116-145 | For a fresh key: the key is added, or the set emptied once it would exceed 50. The time is recorded, and the entry is appended last with the history kept to its last 20. The parsed command is scheduled and its message shown. The queue is untouched. |
| VoiceOptimizer.Gate | src/components/apps/VoiceOptimizer.tsx:71-101 | Confidence under 0.6 or a gap under 200 ms passes nothing. Whatever passes is the trimmed, lower-cased transcript. |
| VoiceOptimizer.GateFacts | src/components/apps/VoiceOptimizer.tsx:71-113 | A final result passes exactly when the confidence and cooldown tests pass. An interim one passes exactly when those pass and the text is a short (≤ 4), very confident (> 0.8) quick command or a confident (> 0.7) common command. |
| VoiceOptimizer.InterimGate | src/components/apps/VoiceOptimizer.tsx:85-113 | An interim result is processed exactly when confidence ≥ 0.6, the gap ≥ 200 ms, confidence > 0.7 and it contains a common command. The quick-command path adds nothing to this. |
| VoiceOptimizer.AfterResult | src/components/apps/VoiceOptimizer.tsx:71-101 | A result that the gate rejects changes no state. One that passes is processed as its cleaned text at that time. |
| VoiceOptimizer.SumOfGapsTelescopes | src/components/apps/VoiceOptimizer.tsx:237-240 | The sum of consecutive gaps is last minus first. |
| VoiceOptimizer.AverageIntervalIsMeanGap | src/components/apps/VoiceOptimizer.tsx:234-243 | The average interval is the mean of the gaps. |
| VoiceOptimizer.VoiceControlOptimizer.constructor | src/components/apps/VoiceOptimizer.tsx:4-11 | Starts with empty queue, set and history and `lastCommandTime` 0. |
| VoiceOptimizer.VoiceControlOptimizer.ProcessVoiceResult | src/components/apps/VoiceOptimizer.tsx:71-101 | Updates the fields exactly as `AfterResult`, keeping both bounds. |
| VoiceOptimizer.VoiceControlOptimizer.ProcessCommand | src/components/apps/VoiceOptimizer.tsx:116-145 | Updates the fields exactly as `Processed`, keeping both bounds. |
| VoiceOptimizer.VoiceControlOptimizer.CalculateAverageInterval | src/components/apps/VoiceOptimizer.tsx:234-243 | 0 with fewer than two entries, otherwise (last − first) / (n − 1). |
| VoiceOptimizer.VoiceControlOptimizer.GetStats | src/components/apps/VoiceOptimizer.tsx:226-232 | Reports the history length, the last five entries and the average interval. |
| VoiceOptimizer.VoiceControlOptimizer.Cleanup | src/components/apps/VoiceOptimizer.tsx:246-250 | Empties the queue, the de-duplication set and the history and changes nothing else. |
| PerformanceOptimizer.MessageInitialValid | src/components/apps/PerformanceOptimizer.tsx:168-171 | The initial message state satisfies the display invariant. |
| PerformanceOptimizer.NextMessage | src/components/apps/PerformanceOptimizer.tsx:191-222 | An empty queue only ends the display. Otherwise the head becomes current and leaves the queue, a frame is requested and the timer started. |
| PerformanceOptimizer.Shown | src/components/apps/PerformanceOptimizer.tsx:178-189 | The message on display is ignored with no state change. Another message is queued, and when nothing is on display it becomes current at once with the queue empty. The display invariant is preserved. |
| PerformanceOptimizer.TimerExpired | src/components/apps/PerformanceOptimizer.tsx:211-221 | With an empty queue, the display is blanked and ends. Otherwise the next head becomes current. The invariant is preserved. |
| PerformanceOptimizer.MessageFrame | src/components/apps/PerformanceOptimizer.tsx:201-203 | A frame shows the message current when it fires and changes nothing else. |
| PerformanceOptimizer.ClearMessages | src/components/apps/PerformanceOptimizer.tsx:225-238 | Empties the queue, stops the timer, blanks the current message and the display, and ends displaying. |
| PerformanceOptimizer.QueueShownInOrder | src/components/apps/PerformanceOptimizer.tsx:191-222 | While displaying, the k-th timer expiry makes the k-th waiting message current. The display continues through the queue. |
| PerformanceOptimizer.QueueDrains | src/components/apps/PerformanceOptimizer.tsx:211-221 | One expiry more than there are waiting messages ends the display with an empty current message. |
| PerformanceOptimizer.MessageOptimizer.constructor | src/components/apps/PerformanceOptimizer.tsx:167-176 | Starts empty, not displaying, with the given display duration. |
| PerformanceOptimizer.MessageOptimizer.ShowMessage | src/components/apps/PerformanceOptimizer.tsx:178-189 | Exactly as `Shown`, keeping the invariant. |
| PerformanceOptimizer.MessageOptimizer.ProcessMessageQueue | src/components/apps/PerformanceOptimizer.tsx:191-222 | Exactly as `NextMessage`. |
| PerformanceOptimizer.MessageOptimizer.OnTimer | src/components/apps/PerformanceOptimizer.tsx:211-221 | Exactly as `TimerExpired`, keeping the invariant. |
| PerformanceOptimizer.MessageOptimizer.OnFrame | src/components/apps/PerformanceOptimizer.tsx:201-203 | Exactly as `MessageFrame`. |
| PerformanceOptimizer.MessageOptimizer.Clear | src/components/apps/PerformanceOptimizer.tsx:225-234 | Exactly as `ClearMessages`. |
| PerformanceOptimizer.MessageOptimizer.Cleanup | src/components/apps/PerformanceOptimizer.tsx:236-238 | Exactly as `ClearMessages`. |
| PerformanceOptimizer.FlattenSnoc | src/components/apps/PerformanceOptimizer.tsx:44-45 | Capturing one more batch appends its updates after those already captured. |
| PerformanceOptimizer.Captured | src/components/apps/PerformanceOptimizer.tsx:39-72 | Captures exactly the queued updates, in order, as one batch. It empties the queue, marks processing and records the time. No update is lost or reordered. |
| PerformanceOptimizer.Scheduled | src/components/apps/PerformanceOptimizer.tsx:24-37 | Processes at once after 16 ms since the last batch, otherwise requests a frame. No update is lost or reordered. |
| PerformanceOptimizer.Enqueued | src/components/apps/PerformanceOptimizer.tsx:16-22 | The update joins the end of the order of all updates. While processing it only waits in the queue. |
| PerformanceOptimizer.UpdateFrame | src/components/apps/PerformanceOptimizer.tsx:35 | A requested frame captures the queue. No update is lost or reordered. |
| PerformanceOptimizer.IdleCallback | src/components/apps/PerformanceOptimizer.tsx:49-58 | The oldest captured batch runs after everything run before, and processing ends. |
| PerformanceOptimizer.UpdateCleanup | src/components/apps/PerformanceOptimizer.tsx:74-81 | Empties the queue, clears processing and the frame, and keeps the batches already captured. |
| PerformanceOptimizer.UIUpdateOptimizer.constructor | src/components/apps/PerformanceOptimizer.tsx:5-13 | Starts with an empty queue, not processing. |
| PerformanceOptimizer.UIUpdateOptimizer.QueueUpdate | src/components/apps/PerformanceOptimizer.tsx:16-22 | Exactly as `Enqueued`. |
| PerformanceOptimizer.UIUpdateOptimizer.ScheduleUpdate | src/components/apps/PerformanceOptimizer.tsx:24-37 | Exactly as `Scheduled`. |
| PerformanceOptimizer.UIUpdateOptimizer.ProcessUpdates | src/components/apps/PerformanceOptimizer.tsx:39-72 | Exactly as `Captured`. |
| PerformanceOptimizer.UIUpdateOptimizer.OnFrame | src/components/apps/PerformanceOptimizer.tsx:35 | Exactly as `UpdateFrame`. |
| PerformanceOptimizer.UIUpdateOptimizer.OnIdle | src/components/apps/PerformanceOptimizer.tsx:49-58 | Runs the batch's updates in order, exactly as `IdleCallback`. |
| PerformanceOptimizer.UIUpdateOptimizer.Cleanup | src/components/apps/PerformanceOptimizer.tsx:74-81 | Exactly as `UpdateCleanup`. |
| PerformanceOptimizer.Frame | src/components/apps/PerformanceOptimizer.tsx:258-277 | Counts the frame exactly once and records its time. After the first frame, the buffer becomes the last 60 rates with the new rate last; the first frame adds none. |
| PerformanceOptimizer.FramesCounted | src/components/apps/PerformanceOptimizer.tsx:247-274 | Any run of frames adds exactly one to the count per frame and keeps at most 60 samples. |
| PerformanceOptimizer.FramesBuffered | src/components/apps/PerformanceOptimizer.tsx:263-267 | Once the clock is positive, the buffer holds the rates of the last 60 frame gaps, oldest first. |
| PerformanceOptimizer.PerformanceMonitor.constructor | src/components/apps/PerformanceOptimizer.tsx:249-256 | Construction runs the first frame at once. |
| PerformanceOptimizer.PerformanceMonitor.UpdateFPS | src/components/apps/PerformanceOptimizer.tsx:258-277 | Exactly as `Frame`. |
| PerformanceOptimizer.PerformanceMonitor.GetFrameCount | src/components/apps/PerformanceOptimizer.tsx:283-285 | Returns the frame count. |

## Left out

- Rendering, the camera and the hand tracker (MediaPipe) are not modelled. Landmarks and the video size come in as inputs, and pixel drawing becomes abstract canvas marks. The overlay canvas and the drawing canvas are always sized together, so one size stands for both.
- The rainbow hue (`Date.now`), the spray and particle scatter (`Math.random`) and event ids are parameters or abstract marks.
- The 3D brush's shadow stroke and the neon brush's halved width are folded into one stroke mark.
- `handleGestureAction` beyond its colour and brush index arithmetic is not modelled. The frame loop never calls it, and its `ok` case cannot occur.
- React state batching and stale closures: history, position and gesture are one owned state, updated in program order.
- The canvas-taint exception when a snapshot is saved is not modelled.
- `Number()`'s string grammar is a parameter `toNumber`. `toLowerCase` is modelled for ASCII letters only, and string lengths count characters rather than UTF-16 code units.
- Floating-point rounding is not modelled. Landmark geometry, clamping and rates use exact reals, and squared distances stand in for Euclidean ones.
- KV and network I/O, `JSON.parse`, `fetch` polling, the globe, geolocation and the Cloudflare `cf` object are not modelled. Their results come in as datatypes.
- `functions/api/_middleware.ts` (CORS and error wrapping) is not part of this model. A JSON body field of the wrong type, which makes the handler throw, is therefore not modelled either.
- A stored event whose `createdAt` is not a number is not modelled; timestamps are integers.
- Keys inherited from `Object.prototype` (such as "constructor" or "__proto__") are not modelled. `getDrink` and `getGender` would return the prototype's value. In the `stats` tallies, `counts[k] || 0` would start from that value, and a `__proto__` key would be dropped. The model treats every key as an own key. So is `Object.entries` putting integer-like keys first; tallies keep insertion order.
- `DrinkingEarth.StatsOf`: the `stats` object's derived fields (`topDrinks` and so on) are given by the same sort and slice as the source. The chart's bar widths are not modelled.
- `useOptimizedVoiceControl`, the SpeechRecognition lifecycle and its restart timers are not part of this model.
- `VoiceOptimizer.CommandKey`: covers only non-negative timestamps, as `Date.now()` gives.
- `VoiceOptimizer.VoiceControlOptimizer.ProcessVoiceResult`: `Date.now()` is read once per call and passed as a parameter.
- `VoiceOptimizer.ParseCommand`: the `/i` flag is not modelled separately, because the command is already lower-cased. Non-ASCII case folding is not modelled.
- `CanvasOptimizer` and `usePerformanceOptimizer` are not part of this model. Nothing in the modelled apps uses the offscreen renderer.
- `PerformanceOptimizer.Frame`: the averaged `fps`, `getFPS`, `isPerformanceGood` and `getReport` are floating-point averaging and are not modelled. Rates are JavaScript numbers, with `1000 / 0` giving +Infinity.
- `PerformanceOptimizer.UIUpdateOptimizer.OnIdle`: `requestIdleCallback` and the `setTimeout` fallback behave the same and are one event. An update that throws is logged and skipped; the model runs every update.
- `PerformanceOptimizer.MessageOptimizer.OnTimer`: `frameId` and `messageTimer` are reduced to "requested" flags. The display duration only fixes when the timer event comes.
- `PerformanceOptimizer.UIUpdateOptimizer.QueueUpdate`: `performance.now()` is read once per call, so `scheduleUpdate` and `processUpdates` see the same time.

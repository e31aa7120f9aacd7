# Pandemic globe: spread engine and playback driver

This project models two pieces of a pandemic-visualisation web app.

**The spread engine** is the `Globe` component of `components/globe-visualization.tsx`. It keeps a list of infection sites on a sphere and rewrites that list once per simulated day:

- An idle globe shows a single origin site at the start location.
- Day 0 changes nothing.
- A list of 150 or more sites is compacted to its 140 most recent sites.
- Otherwise the list grows by at most three sites. Each new site is grown from a random existing site: its position is read back as latitude/longitude, jittered by up to half the spread distance, clamped to [-85, 85] × [-180, 180] and mapped back onto the sphere.

How many sites a step adds depends on the effective reproduction number. That is r0 scaled down by the mitigation toggles (social distancing, masks, vaccination rate).

The coordinate mapper converts in both directions on a sphere with Y as the polar axis. It is modelled with the transcendental functions (sin, cos, acos, atan2, π) passed in as a `Trig` value.

**The playback driver** is the `PandemicSimulator` page of `components/pandemic-simulator.tsx`:

- A tab selects one of three datasets.
- A play/pause toggle: starting restarts playback at day 1, pausing keeps the day.
- A timer tick shows the points stored under the key `day_<n>` of entry n, then moves on to the next day.

Modules:

- `Js` (`js.dfy`): JavaScript values as a `typeof` test sees them, `OrDefault`, `Clamp` and `slice(0, n)`.
- `Geo` (`geo.dfy`): `latLngToVector3`, `vector3ToLatLng` as written and corrected, and their round trip.
- `Sites` (`sites.dfy`): the site record, the stable newest-first sort, compaction and the render slice.
- `Spread` (`spread.dfy`): the spread engine. Randomness is a sequence of draws `Draws = nat -> real`: the k-th `Math.random()` call of a step. The specification functions (`Derive`, `Iterate`, `NewOffspring`, `StepResult`) come with a loop method `GenerateNewInfections` and a `Globe` class whose `Step` updates `infectedLocations`. The step lemmas are stated for any `Mapper`, so they hold both for the source's mapper `AsWrittenMapper(t)` and for the corrected `GlobeMapper(t)`.
- `Simulator` (`simulator.dfy`): dataset selection, the toggle, the tick, and repeated ticks, plus a `PandemicSimulator` class whose methods update the page state.

## Model

| member | source | states |
|---|---|---|
| Js.OrDefault | components/globe-visualization.tsx:39-41 | a number is kept and anything else becomes the given default |
| Js.Clamp | components/globe-visualization.tsx:256-257 | the result lies in [lo, hi]; it equals x inside the range, lo below it and hi above it |
| Js.Prefix | components/globe-visualization.tsx:226 | `slice(0, n)` yields min(n, length) elements and is a prefix of the input |
| Geo.LatLngToVector3 | components/globe-visualization.tsx:38-51 | definition of the forward map; its properties are in the rows `Geo.ForwardDefaults`, `Geo.PolarAxisIsY` and `Geo.RoundTrip` |
| Geo.ForwardDefaults | components/globe-visualization.tsx:38-50 | a non-number latitude or longitude acts as 0 and a non-number radius as 1; all-invalid input maps like (0, 0, 1) |
| Geo.PolarAxisIsY | components/globe-visualization.tsx:43-49 | the Y coordinate does not depend on longitude, and the point scales linearly with the radius |
| Geo.LatPhiInverse | components/globe-visualization.tsx:43-64 | the latitude-to-polar-angle map and its inverse cancel in both orders |
| Geo.LngThetaInverse | components/globe-visualization.tsx:43-64 | the longitude-to-azimuth map and its inverse cancel in both orders |
| Geo.Vector3ToLatLngAsWritten | components/globe-visualization.tsx:53-67 | a missing vector or a non-number component gives (0, 0) |
| Geo.Vector3ToLatLng | components/globe-visualization.tsx:53-67 | the corrected inverse: same guard and latitude as written; a longitude below -180 gets 360 added |
| Geo.InverseDefaults | components/globe-visualization.tsx:58 | both inverses treat a non-number radius exactly like a radius of 1 |
| Geo.AsWrittenShiftsEasternLongitudes | components/globe-visualization.tsx:61-64 | the inverse as written returns lng - 360 for every longitude in (0, 180) |
| Geo.AsWrittenKeepsWest | components/globe-visualization.tsx:61-64 | the inverse as written returns every western longitude in [-180, 0] unchanged, so only eastern longitudes shift |
| Geo.RoundTrip | components/globe-visualization.tsx:38-67 | the corrected inverse returns the original latitude and longitude for every longitude in [-180, 180) away from the poles |
| Sites.SortByDay | components/globe-visualization.tsx:225 | definition of the stable sort by `b.day - a.day` (insertion sort); its properties are in the rows `Sites.SortByDayPermutes`, `Sites.SortByDaySorted` and `Sites.SortByDayStable` |
| Sites.InsertByDayPermutes | components/globe-visualization.tsx:225 | inserting adds exactly one element to the multiset and one to the length |
| Sites.InsertByDaySorted | components/globe-visualization.tsx:225 | inserting into a newest-first list keeps it newest first |
| Sites.InsertByDayStable | components/globe-visualization.tsx:225 | within each day, an inserted element goes before all the old ones of that day, which keep their order |
| Sites.SortByDayPermutes | components/globe-visualization.tsx:225 | the sort by `b.day - a.day` is a permutation |
| Sites.SortByDaySorted | components/globe-visualization.tsx:225 | the sorted list is in non-increasing day order |
| Sites.SortByDayStable | components/globe-visualization.tsx:225 | the sort is stable: the sites of each day keep their input order |
| Sites.Compact | components/globe-visualization.tsx:225-226 | definition of the compaction, the first 140 of the sorted list; its properties are in the row `Sites.CompactKeepsNewest` |
| Sites.CompactKeepsNewest | components/globe-visualization.tsx:222-227 | compacting 150 or more sites keeps exactly 140; kept and dropped sites together are the input multiset; the kept sites are newest first; no dropped site is newer than a kept one; per day, the kept sites are the first ones in input order |
| Sites.VisibleLocations | components/globe-visualization.tsx:146 | the renderer draws a prefix of the list: exactly its first 150 sites when it has more, all of them otherwise |
| Spread.SafeMeasures | components/globe-visualization.tsx:183-188 | a toggle is on only if given as true; a missing vaccination rate is 0 |
| Spread.CompleteMeasuresKept | components/globe-visualization.tsx:183-188 | measures given in full come through unchanged |
| Spread.MissingMeasuresAreNeutral | components/globe-visualization.tsx:183-188 | all-missing measures leave the effective R0 at r0 (2 when not a number) and the spread distance at 40 |
| Spread.EffectiveR0 | components/globe-visualization.tsx:231-236 | definition of the effective R0; its properties are in the rows `Spread.EffectiveR0IsProduct`, `Spread.StricterMeasuresLowerR0` and `Spread.MissingMeasuresAreNeutral` |
| Spread.EffectiveR0IsProduct | components/globe-visualization.tsx:231-236 | the effective R0 is r0 (2 when not a number) times 0.7 under distancing, times 0.8 under masks, times the unvaccinated fraction |
| Spread.MaxNewLocations | components/globe-visualization.tsx:238-242 | the cap is never above 3; below 3 it is the whole part of length × effR0 / 5; it is 3 only when that product reaches 3; it is non-negative for non-negative effR0 |
| Spread.MaxNewMonotone | components/globe-visualization.tsx:238-242 | a lower effective R0 never raises the cap |
| Spread.StricterMeasuresLowerR0 | components/globe-visualization.tsx:231-236 | for r0 ≥ 0 and vaccination in [0, 100], switching on more measures or vaccinating more never raises the effective R0, which stays non-negative |
| Spread.StricterMeasuresAllowFewer | components/globe-visualization.tsx:231-242 | for the same inputs, stricter measures never allow more new sites per step |
| Spread.SpreadDistance | components/globe-visualization.tsx:243 | definition of the spread distance (20 under travel restrictions, 40 otherwise); the jitter bounds it yields are in the row `Spread.NewSitesInBounds` |
| Spread.AsWrittenMapper | components/globe-visualization.tsx:252-260 | the engine's two conversions as the source writes them, with the as-written inverse; the consequence is in the row `Spread.AsWrittenEasternSpreadLandsOnAntimeridian` |
| Spread.GlobeMapper | components/globe-visualization.tsx:252-260 | the same conversions with the corrected inverse |
| Spread.Derive | components/globe-visualization.tsx:248-264 | definition of one loop iteration (`continue` after one draw, or a new site from five draws); its properties are in the rows `Spread.DeriveBounds` and `Spread.DeriveWithinDraws` |
| Spread.Iterate | components/globe-visualization.tsx:245-265 | definition of the first j iterations; its properties are in the row `Spread.IterateFacts` |
| Spread.NewOffspring | components/globe-visualization.tsx:245-265 | definition of the whole loop, empty on an empty list; its properties are in the rows `Spread.NewOffspringCount` and `Spread.GenerateNewInfections` |
| Spread.Batch | components/globe-visualization.tsx:258-264 | one site per offspring (the object `ToSite` builds, as pushed at 259-264), in order: the current simulation day, the position the forward map gives for the clamped coordinates, and the offspring's intensity and radius |
| Spread.DeriveBounds | components/globe-visualization.tsx:248-264 | an iteration's offspring names an existing source and is the jittered position clamped into [-85, 85] × [-180, 180]; with draws in [0, 1), a non-empty list always yields an offspring |
| Spread.DeriveWithinDraws | components/globe-visualization.tsx:253-263 | with draws in [0, 1), the jitter stays within ±spread/2 of the source, intensity lies in [0.2, 1) and radius in [0.01, 0.03) |
| Spread.BornFromDerive | components/globe-visualization.tsx:245-265 | every site the loop makes is the result of one iteration at some draw index |
| Spread.IterateFacts | components/globe-visualization.tsx:245-265 | j iterations make at most j sites, every one within the bounds; with draws in [0, 1) and a non-empty list, exactly j sites from 5j draws |
| Spread.NewOffspringCount | components/globe-visualization.tsx:245-265 | a step's batch holds at most max(maxNew, 0) sites, exactly that many with draws in [0, 1) and a non-empty list, and each is within the bounds |
| Spread.GenerateNewInfections | components/globe-visualization.tsx:229-265 | the loop builds exactly the batch of `NewOffspring`, at most max(maxNew, 0) sites, all of the current day |
| Spread.Globe.constructor | components/globe-visualization.tsx:177 | the list starts empty |
| Spread.Globe.Step | components/globe-visualization.tsx:206-268 | one run of the effect, reading positions back through the given mapper, sets the list to the step result of the old list; the source's behaviour is the one with `Spread.AsWrittenMapper` |
| Spread.NewInfections | components/globe-visualization.tsx:230-265 | definition of the growing branch's `newInfections` batch; its properties are in the rows `Spread.GrowthAppends`, `Spread.NewSitesInBounds` and `Spread.StricterMeasuresNeverSpreadMore` |
| Spread.OriginSite | components/globe-visualization.tsx:208-215 | definition of the idle globe's single site; its properties are in the row `Spread.IdleShowsOrigin` |
| Spread.StepResult | components/globe-visualization.tsx:206-268 | definition of one run of the effect; its properties are in the rows `Spread.IdleShowsOrigin` through `Spread.CorrectedEasternSpreadStaysNear` |
| Spread.IdleShowsOrigin | components/globe-visualization.tsx:207-217 | with either mapper, a stopped globe shows exactly one site: the start location (0, 0 when missing) on the 1.01 sphere, day 0, intensity 1, radius 0.03 |
| Spread.DayZeroKeepsList | components/globe-visualization.tsx:219 | a running globe on day 0 keeps its list unchanged |
| Spread.FullListIsCompacted | components/globe-visualization.tsx:222-227 | a running step on a list of 150 or more keeps its 140 newest sites newest first, a sub-multiset, with no dropped site newer than a kept one |
| Spread.GrowthAppends | components/globe-visualization.tsx:229-267 | below 150 sites the old list stays an unchanged prefix; at most min(maxNew, 3) sites are added (exactly max(maxNew, 0) with draws in [0, 1) and a non-empty list), all of the current day |
| Spread.NewSitesInBounds | components/globe-visualization.tsx:243-264 | every added site comes from an offspring clamped into the box and carries the current day; with draws in [0, 1) its jittered position lies within 10 degrees of its source under travel restrictions and within 20 otherwise, and the site's intensity lies in [0.2, 1) and its radius in [0.01, 0.03) |
| Spread.StricterMeasuresNeverSpreadMore | components/globe-visualization.tsx:231-265 | with the same r0 and draws in [0, 1), stricter measures never produce more new sites |
| Spread.StepKeepsBound | components/globe-visualization.tsx:222-267 | a list of at most 152 sites stays at most 152 after a step |
| Spread.LoneSeedWaits | components/globe-visualization.tsx:231-242 | with the default r0 and no measures, a single site does not spread |
| Spread.DeriveAsWrittenEastern | components/globe-visualization.tsx:248-257 | with the as-written inverse and draws in [0, 1), a child of a site at an eastern longitude in (0, 160) is clamped to longitude -180 |
| Spread.DeriveCorrectedEastern | components/globe-visualization.tsx:248-257 | with the corrected inverse, the same child is not clamped and lies within half the spread distance of the source's longitude |
| Spread.AsWrittenEasternSpreadLandsOnAntimeridian | components/globe-visualization.tsx:229-265 | a source step on a list seeded at an eastern longitude in (0, 160) puts every new site at longitude -180 |
| Spread.CorrectedEasternSpreadStaysNear | components/globe-visualization.tsx:229-265 | the corrected step puts every new site within 10 or 20 degrees of the seed's longitude |
| Simulator.SelectDataset | components/pandemic-simulator.tsx:52-63 | only the historical and simulator tabs select; historical means China, simulator means India and the output dataset; on the historical tab the cumulative dataset is chosen exactly when the display type is `cumulative_cases`, otherwise the percent dataset |
| Simulator.Decimal | components/pandemic-simulator.tsx:72 | the numeral is non-empty, and has two or more digits exactly when the number is at least 10 |
| Simulator.DecimalInjective | components/pandemic-simulator.tsx:72 | different numbers have different numerals |
| Simulator.DayKeyInjective | components/pandemic-simulator.tsx:72 | different days have different `day_<n>` keys |
| Simulator.DayKey | components/pandemic-simulator.tsx:72 | definition of the key `day_<n>`; its property is in the row `Simulator.DayKeyInjective` |
| Simulator.PointsOfDay | components/pandemic-simulator.tsx:73 | definition of `spreadData[day][dayKey]`, None when the key is missing; used by `Simulator.Tick` |
| Simulator.Toggle | components/pandemic-simulator.tsx:85-90 | the toggle flips running; starting from stopped resets the day to 1; stopping keeps the day; the points on display stay |
| Simulator.ToggleTwiceRestarts | components/pandemic-simulator.tsx:85-90 | two toggles return to the same running state at day 1 |
| Simulator.Tick | components/pandemic-simulator.tsx:70-78 | a tick never changes running; while running with day < length it shows `spreadData[day]["day_" + day]` (undefined when the key is missing) and adds exactly 1 to the day; otherwise nothing changes |
| Simulator.Ticks | components/pandemic-simulator.tsx:69-81 | definition of n ticks in a row; its properties are in the rows `Simulator.TicksStayWithinLength`, `Simulator.RunningTicksReplayDays` and `Simulator.InertTicksChangeNothing` |
| Simulator.TicksStayWithinLength | components/pandemic-simulator.tsx:71-78 | from day ≤ length, any number of ticks never pushes the day past the length, never lowers it and never touches running |
| Simulator.RunningTicksReplayDays | components/pandemic-simulator.tsx:71-75 | while running, n ticks within the dataset advance the day by exactly n and leave the last day's points on display |
| Simulator.InertTicksChangeNothing | components/pandemic-simulator.tsx:71-78 | when stopped, or with day ≥ length, any number of ticks changes nothing |
| Simulator.PandemicSimulator.constructor | components/pandemic-simulator.tsx:34-45 | the initial state: China, `cumulative_cases`, historical tab, stopped at day 1, empty points and dataset |
| Simulator.PandemicSimulator.SetDisplayType | components/pandemic-simulator.tsx:130 | only the display type changes; the dataset is not reloaded |
| Simulator.PandemicSimulator.LoadTab | components/pandemic-simulator.tsx:52-63 | the tab effect: a selecting tab sets the country and loads that dataset's contents (`Simulator.SelectDataset`); any other tab leaves both alone; tab, display type and playback are untouched |
| Simulator.PandemicSimulator.ChangeTab | components/pandemic-simulator.tsx:48-66 | the tab is set; the effect runs only when the tab changed, so choosing the current tab again reloads nothing; playback is untouched |
| Simulator.PandemicSimulator.ToggleSimulation | components/pandemic-simulator.tsx:85-90 | the playback state becomes the toggle of the old one, and nothing else changes |
| Simulator.PandemicSimulator.OnTick | components/pandemic-simulator.tsx:70-76 | the playback state becomes the tick of the old one over the current dataset, and nothing else changes |

## Left out

- Floating point: numbers are exact reals. NaN, infinities and rounding are not modelled, so `typeof x === "number"` is a plain number/non-number split.
- The transcendental functions are parameters (`Trig`). What exact acos and atan2 return at a mapped point is a hypothesis (`Geo.InvertsAt`), not derived: the round trip and the longitude-shift lemmas assume it. `acos(y / radius)` is one injected function of y and the radius, so a zero radius needs no real division.
- Geo.LatLngToVector3: nothing guards a radius of 0 or below, and the model adds no guard either.
- Spread: the engine takes its inverse as a `Mapper`. `Spread.AsWrittenMapper` is the source's and `Spread.GlobeMapper` the corrected one (see Findings). The step lemmas hold for any mapper. The longitude shift's effect on the spread is proved only for a list whose sites all sit at one eastern point (`Spread.SeededAt`).
- Spread.Derive: the `source?.position` guard is modelled only as the index falling outside the list. A `Site` always has a position.
- React reactivity: stale closures and the ordering of state updates are not modelled. Each effect or callback is one method, with `prev` equal to the current value. Of the dependency arrays, only the tab effect's `[currTab]` is modelled (`ChangeTab` runs `LoadTab` only on a change; the mount run is a `LoadTab` call after the constructor).
- Timers: the `setInterval` period and `clearInterval` are not modelled. One tick is one `OnTick` call.
- JSON loading: `require` of the data files is replaced by a function `files` from dataset to contents. The stale `setTotalDays(spreadData.length)` and `totalDays` are not modelled.
- Simulator: the entries of `spreadData` are maps from key to a list of opaque points, so a non-object entry is not modelled. The day counter is a natural number.
- Props: the start location is a pair of numbers, so a non-number latitude in a start location is not modelled (`Geo.ForwardDefaults` covers it for the mapper).
- Rendering, the camera, textures, the ambient animation, the click-to-pick handler, console logging, the other page components and the chart formatting are not modelled.
- The `globeGL` component that today receives `pointData` is not part of this model.

## Findings

| source | as written | input that shows it | evidently intended | confidence | as-written member | corrected member |
|---|---|---|---|---|---|---|
| components/globe-visualization.tsx:61-64 | `lng = atan2(z, -x) * 180 / π - 180`, and atan2 answers in (-π, π], so the result lies in (-360, 0]: western longitudes in [-180, 0] come back unchanged, eastern ones do not | any longitude in (0, 180), e.g. the default start 114.3055 (Wuhan) maps to the sphere and comes back as -245.6945; children of such a site then clamp to -180 | the inverse of `latLngToVector3`, returning the original longitude in [-180, 180) | not executed | Geo.Vector3ToLatLngAsWritten, Geo.AsWrittenShiftsEasternLongitudes, Geo.AsWrittenKeepsWest, Spread.AsWrittenEasternSpreadLandsOnAntimeridian | Geo.Vector3ToLatLng, Geo.RoundTrip, Spread.CorrectedEasternSpreadStaysNear |

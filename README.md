# Wedding site core, modelled in Dafny

The wedding site has two guest-facing parts. The gift list (`presentes`) opens a story-style
gallery for each gift, ending on a thank-you slide with contribution amounts. Each amount is
paid through a Pix "Copia e Cola" code. The accommodation guide (`hospedagem`) shows the
lodging options on a map. The map uses Google Maps or Leaflet/OpenStreetMap. Its
coordinates can be refined by cached, sequential calls to the Google Geocoding service, one address at a time with a pause between calls. The batched `geocodeAddresses` is modelled too, although no component calls it.

This project models the logic under those pages, one module per source file:

| module | file | form |
|---|---|---|
| `Gallery` | `gallery.dfy` | pure cursor functions on (gift, slide), and a class `GalleryModal` whose fields are the component's state, with methods proved against those functions |
| `Geocoding` | `geocoding.dfy` | the address normaliser, the versioned local-storage cache as a value, and a class `Geocoder` whose `storage` field is the stored item and whose methods are the single and batched resolutions |
| `GeocodedAccommodations` | `geocoded_accommodations.dfy` | the hook: the disabled path, the merge and venue centre as functions, and a class `GeocodingHook` whose `geocodedCoords`/`state` fields are the React state updated by the two passes |
| `PixConfig` | `pix_config.dfy` | the six-tier code table over an environment map |
| `Subdomain` | `subdomain.dfy` | host classification and page dispatch |
| `MapShared` | `map_shared.dfy` | the provider switch, the venue centre and the cluster colour and label tables |
| `LeafletMapView` | `leaflet_map_view.dfy` | the car-time text, the map links, the marker icons, popups and the fly-to rule |
| `GoogleMapsView` | `google_maps_view.dfy` | icons, info-window content, and a class holding the open info window |
| `AccommodationsMap` | `accommodations_map.dfy` | the centre fallback, the provider dispatch, the legend, and a class holding the selected id |

`wrappers.dfy` (`Option`), `strings.dfy` (prefix and substring tests, decimal numerals) and
`types.dfy` (the accommodation record) are shared.

External inputs are parameters, as follows.
- A geocoding call meets an `Attempt`. This holds the service's reply (a thrown error, or a status with results), the clock reading, and whether the local-storage write succeeds.
- Call number `i` of a batch or loop meets `attempt(i)`.
- The environment variables are a map from name to value.
- The host name and path are strings.
- The hook's unmount is a parameter `teardownAt`. It numbers the await during which the cleanup runs: await `2k` is call `k`, and await `2k+1` is the pause after it.

Behaviour worth noting, as the code has it:
- A failed cache save loses the entry. `geocodeAddress` reloads the cache from local storage on every call, so no in-memory copy survives a failed write (`Geocoding.Geocoder.GeocodeAddress`).
- Three "previous" presses from the first slide of the third gift of the 6×3 catalogue land on the second gift's second slide, (1, 1). They do not reach the first gift's thank-you slide (`Gallery.SixByThreeBackFromGiftTwo`).
- On the enabled path without an API key, every queued record counts as failed, and the advisory error is set (`GeocodedAccommodations.GeocodingHook.GeocodeAllWithoutKey`).
- The Google view ignores `selectedId`: it neither re-centres nor opens a window on selection (`GoogleMapsView.RenderIgnoresSelection`).
- An empty selected id is falsy, so it causes no fly-to (`LeafletMapView.FlyTo`).

## Model

| member | source | states |
|---|---|---|
| Gallery.TotalSlides | components/GalleryModal.tsx:51 | a gift has one slide per gallery image plus the thank-you slide |
| Gallery.IsLastSlide | components/GalleryModal.tsx:52 | the current slide is the gift's thank-you slide |
| Gallery.ShowPrev | components/GalleryModal.tsx:53-58 | the previous control is shown unless at the first slide of the first gift |
| Gallery.ShowNext | components/GalleryModal.tsx:54-60 | the next control is shown unless at the last slide of the last gift |
| Gallery.SlideAt | components/GalleryModal.tsx:50-52 | the thank-you slide at the last index, the gallery image at every earlier one |
| Gallery.Next | components/GalleryModal.tsx:62-73 | the next cursor keeps the cursor in bounds |
| Gallery.Prev | components/GalleryModal.tsx:75-88 | the previous cursor keeps the cursor in bounds |
| Gallery.View | components/GalleryModal.tsx:48 | nothing is rendered exactly when the gift list is empty |
| Gallery.SlidesOfGift | components/GalleryModal.tsx:50-52 | a gift has `gallery.length + 1` slides: the last is the thank-you slide with the six amounts, every earlier one shows `gallery[s]` |
| Gallery.ShowPrevOnlyAtFirst | components/GalleryModal.tsx:53-59 | the previous control is hidden exactly at (0, 0) |
| Gallery.ShowNextOnlyAtTerminal | components/GalleryModal.tsx:54-60 | the next control is hidden exactly at the last gift's thank-you slide |
| Gallery.ShowNextIffMoves | components/GalleryModal.tsx:60-73 | the next control is shown exactly when a step forward moves |
| Gallery.ShowPrevIffMoves | components/GalleryModal.tsx:59-88 | the previous control is shown exactly when a step back moves |
| Gallery.PrevAfterNext | components/GalleryModal.tsx:62-88 | stepping forward and then back returns to every non-terminal cursor |
| Gallery.NextAfterPrev | components/GalleryModal.tsx:62-88 | stepping back and then forward returns to every non-initial cursor |
| Gallery.PrevCrossesToTerminalSlide | components/GalleryModal.tsx:80-87 | stepping back from a gift's first slide lands on the previous gift's thank-you slide |
| Gallery.SlidesBeforeMonotone | components/GalleryModal.tsx:50-52 | the slides before gift `k` include all slides of the earlier gifts |
| Gallery.RankBounds | components/GalleryModal.tsx:50-52 | every in-bounds cursor has a position in the global slide order below the slide total |
| Gallery.RankInjective | components/GalleryModal.tsx:50-52 | distinct in-bounds cursors have distinct global positions |
| Gallery.TerminalRank | components/GalleryModal.tsx:54-55 | the terminal slide is the last in the global order |
| Gallery.NextRank | components/GalleryModal.tsx:62-73 | a step forward advances the global position by exactly one |
| Gallery.NextN | components/GalleryModal.tsx:62-73 | any number of forward steps stays in bounds |
| Gallery.NextNRank | components/GalleryModal.tsx:62-73 | `n` forward steps advance the global position by `n` while the end is not reached |
| Gallery.TraversalLength | components/GalleryModal.tsx:50-73 | exactly total-slides − 1 forward steps take (0, 0) to the terminal slide, and no fewer reach it |
| Gallery.SixByThreeSlideCount | components/GalleryModal.tsx:50-52 | six gifts of three images each have 24 slides |
| Gallery.SixByThreeTraversal | components/GalleryModal.tsx:62-73 | in that catalogue exactly 23 forward steps reach the terminal slide, and no fewer |
| Gallery.SixByThreeBackFromGiftTwo | components/GalleryModal.tsx:75-88 | three steps back from (2, 0) land on (1, 1) |
| Gallery.GalleryModal.constructor | components/GalleryModal.tsx:23-30 | opening at a valid gift index starts at its first slide with key 0, no amount selected and no touch |
| Gallery.GalleryModal.ShowPrevButton | components/GalleryModal.tsx:53-58 | the modal's previous control follows `ShowPrev` at its position |
| Gallery.GalleryModal.ShowNextButton | components/GalleryModal.tsx:54-60 | the modal's next control follows `ShowNext` at its position |
| Gallery.GalleryModal.Reset | components/GalleryModal.tsx:33-38 | a new starting gift resets gift, slide, key and selected amount |
| Gallery.GalleryModal.GoNext | components/GalleryModal.tsx:62-73 | the position becomes the next cursor; the key grows by one except at the terminal slide |
| Gallery.GalleryModal.GoPrev | components/GalleryModal.tsx:75-88 | the position becomes the previous cursor; the key grows by one except at (0, 0) |
| Gallery.GalleryModal.OnTouchStart | components/GalleryModal.tsx:99-102 | a touch start records its coordinate and clears the end |
| Gallery.GalleryModal.OnTouchMove | components/GalleryModal.tsx:104-106 | a touch move records the end coordinate |
| Gallery.GalleryModal.OnTouchEnd | components/GalleryModal.tsx:97-120 | with a falsy coordinate nothing changes; otherwise beyond 50 px forward or back the cursor steps, and the touch state is cleared |
| Gallery.GalleryModal.HandleLeftEdgeClick | components/GalleryModal.tsx:123-126 | the left region steps back when the control is shown, and is otherwise a no-op |
| Gallery.GalleryModal.HandleRightEdgeClick | components/GalleryModal.tsx:128-131 | the right region steps forward when the control is shown, and is otherwise a no-op |
| Gallery.GalleryModal.DotClick | components/GalleryModal.tsx:299-305 | a dot jumps to its slide of the current gift, and the key grows by one even on the current dot |
| Gallery.GalleryModal.SelectValue | components/GalleryModal.tsx:254-259 | an amount button on the thank-you slide selects that amount |
| Gallery.GalleryModal.CloseValueModal | components/GalleryModal.tsx:272-276 | closing the payment modal clears the selected amount |
| Geocoding.LowerChar | utils/geocoding.ts:68 | a lowered character is never upper case |
| Geocoding.Lower | utils/geocoding.ts:68 | lower-casing maps each character and keeps the length |
| Geocoding.DropLeadingSpace | utils/geocoding.ts:69 | the leading part of the trim leaves no leading white space |
| Geocoding.DropLeadingKeeps | utils/geocoding.ts:69 | dropping leading white space keeps the per-character properties and the last character |
| Geocoding.DropTrailingSpace | utils/geocoding.ts:69 | the trailing part of the trim is a prefix with no trailing white space |
| Geocoding.Trim | utils/geocoding.ts:69 | the trimmed text is no longer than the input and has no white space at either end |
| Geocoding.TrimShape | utils/geocoding.ts:69 | trimming keeps lower case |
| Geocoding.CollapseShape | utils/geocoding.ts:70 | after collapsing, all white space is single plain spaces |
| Geocoding.CollapseKeepsLowered | utils/geocoding.ts:70 | collapsing keeps lower case |
| Geocoding.CollapseSpace | utils/geocoding.ts:70 | every maximal run of white space becomes one plain space |
| Geocoding.SpaceAfterCommas | utils/geocoding.ts:71 | every comma and the white space after it become a comma and one space |
| Geocoding.CommasSpacedAfter | utils/geocoding.ts:71 | after the comma rewrite, every comma is followed by a space |
| Geocoding.CommasKeepPlain | utils/geocoding.ts:71 | the comma rewrite introduces only plain spaces |
| Geocoding.CommasKeepIsolated | utils/geocoding.ts:71 | the comma rewrite creates no adjacent spaces |
| Geocoding.CommasKeepLowered | utils/geocoding.ts:71 | the comma rewrite keeps lower case |
| Geocoding.CommasTrailing | utils/geocoding.ts:71 | the rewritten text ends in a space only after a trailing comma (`"abc,"` gives `"abc, "`) |
| Geocoding.NormalizeAddress | utils/geocoding.ts:66-72 | the cache key: lower-cased, trimmed, white-space runs collapsed to one space, and every comma followed by one space |
| Geocoding.NormalizeIsKey | utils/geocoding.ts:66-72 | every cache key is lower case, has no leading white space and no adjacent spaces, its only white space is plain spaces, and every comma is followed by exactly one space |
| Geocoding.CollapseFixed | utils/geocoding.ts:70 | collapsing changes nothing in text with only isolated plain spaces |
| Geocoding.CommasFixed | utils/geocoding.ts:71 | the comma rewrite changes correctly spaced text only by a space after a trailing comma |
| Geocoding.LowerFixed | utils/geocoding.ts:68 | lower-casing changes nothing in lower-case text |
| Geocoding.TrimmedKey | utils/geocoding.ts:69-71 | a key is its own trim, plus a space after a trailing comma |
| Geocoding.NormalizeKeeps | utils/geocoding.ts:66-72 | normalisation leaves a string unchanged exactly when it has the shape of a key |
| Geocoding.NormalizeIdempotent | utils/geocoding.ts:66-72 | normalising twice equals normalising once |
| Geocoding.LoadCache | utils/geocoding.ts:35-49 | the loaded cache has version `v1`; it is the stored one only when that parses with version `v1`, otherwise empty |
| Geocoding.StaleVersionHidesEntries | utils/geocoding.ts:40-44 | a stored cache with another version yields no location for any address |
| Geocoding.Lookup | utils/geocoding.ts:77-81 | a location exactly when the stored cache parses with version `v1` and holds the address's key, and then it is the entry under that key |
| Geocoding.Geocoder.GetCachedLocation | utils/geocoding.ts:77-81 | `getCachedLocation` reads the resolver's storage through `Lookup` |
| Geocoding.LookupByKey | utils/geocoding.ts:77-81 | addresses with the same normal form share one entry |
| Geocoding.Written | utils/geocoding.ts:122-125 | after the write the stored cache has version `v1`, the loaded keys plus the address's key, the new location under that key and every other entry unchanged |
| Geocoding.ReadAfterWrite | utils/geocoding.ts:119-124 | after a write, addresses with the written key find the new location and all others find what they found before |
| Geocoding.KeepsTransitive | utils/geocoding.ts:88-136 | "every cached address keeps its location" composes over successive calls |
| Geocoding.WriteKeeps | utils/geocoding.ts:119-124 | writing a missing key keeps every cached address's location |
| Geocoding.WriteExtends | utils/geocoding.ts:119-124 | writing a missing key keeps every entry and adds exactly one |
| Geocoding.Stats | utils/geocoding.ts:189-196 | the entry count equals the number of listed keys, which are exactly the loaded cache's keys |
| Geocoding.Geocoder.GetCacheStats | utils/geocoding.ts:189-196 | the resolver's statistics count and list exactly the keys of the loaded cache |
| Geocoding.ServiceQuery | utils/geocoding.ts:103-105 | every query names `Florianópolis` and starts with the address, and an address that already names it is sent as is |
| Geocoding.ServiceQueryNamesRegion | utils/geocoding.ts:103-105 | qualifying a query a second time changes nothing |
| Geocoding.Interpret | utils/geocoding.ts:113-136 | a location results exactly for status `OK` with a result, and carries the first result's fields and the current time |
| Geocoding.Resolution | utils/geocoding.ts:86-137 | one `geocodeAddress` call as a value: its location, the storage it leaves and the queries it sends |
| Geocoding.ResolutionKeeps | utils/geocoding.ts:86-137 | one call keeps every cached address, answers a hit from the cache with no query, fails fast without a key, and otherwise sends the address's query |
| Geocoding.Replayed | utils/geocoding.ts:153-163 | calls made one after another yield one location per address |
| Geocoding.ReplayedHead | utils/geocoding.ts:153-163 | a run is its first call followed by the run of the rest from the storage that call left |
| Geocoding.ReplayedAppend | utils/geocoding.ts:153-163 | running two stretches in turn is running their concatenation |
| Geocoding.ReplayedSnoc | utils/geocoding.ts:153-163 | one more call is one more step of the run |
| Geocoding.ResolveAll | utils/geocoding.ts:86-137 | `geocodeAddress` calls made one after another give one location per address |
| Geocoding.KeepsByTransitive | utils/geocoding.ts:86-137 | keeping cached answers composes over successive calls |
| Geocoding.KeepsByLookup | utils/geocoding.ts:77-81 | keeping answers read through `getCachedLocation` is keeping every cached location |
| Geocoding.ResolverBehaves | utils/geocoding.ts:86-137 | `geocodeAddress` is cache first; without a key it changes nothing; with one, a miss sends its query and returns the interpreted reply, storing it only under its own key |
| Geocoding.ReplayedKeeps | utils/geocoding.ts:86-163 | a cache-first run keeps every cached address, answers cached addresses from the cache and sends at most one query per call |
| Geocoding.ReplayedInert | utils/geocoding.ts:94-97 | a run of calls that change nothing leaves storage and requests as they were and answers from the cache |
| Geocoding.ReplayedWarm | utils/geocoding.ts:88-92 | a run over cached addresses sends nothing and writes nothing |
| Geocoding.ReplayedFresh | utils/geocoding.ts:99-132 | an uncached call whose key no earlier call wrote returns the interpreted reply to its own attempt |
| Geocoding.FreshAfterHead | utils/geocoding.ts:99-132 | after the first call of a run, an uncached address whose key that call did not use is still uncached |
| Geocoding.Queries | utils/geocoding.ts:103-105 | the query of each address, in order |
| Geocoding.ReplayedSent | utils/geocoding.ts:99-111 | a run over uncached addresses with distinct keys sends exactly their queries, in order |
| Geocoding.Geocoder.constructor | utils/geocoding.ts:3 | the resolver starts with its key, the given storage and no requests |
| Geocoding.Geocoder.SaveCache | utils/geocoding.ts:54-61 | a successful save stores the cache, and a failed one is swallowed and leaves storage unchanged |
| Geocoding.Geocoder.ClearGeocodeCache | utils/geocoding.ts:181-184 | after clearing, no address has a cached location |
| Geocoding.Geocoder.GeocodeAddress | utils/geocoding.ts:86-137 | a hit returns the cached value with no request; a miss with no key returns nothing with no request; otherwise one region-qualified request, and a success is written under the unsuffixed key when the save succeeds; cached addresses keep their locations |
| Geocoding.Geocoder.ResolveTwice | utils/geocoding.ts:88-124 | after a persisted success, the next request for the same key is a cache hit and sends nothing |
| Geocoding.Geocoder.GeocodeBatch | utils/geocoding.ts:153-163 | the batch's locations, storage and new requests are those of its `geocodeAddress` calls made one after another, and the progress reports count up by one from the running total |
| Geocoding.Geocoder.RunBatch | utils/geocoding.ts:153-172 | one turn of the batch loop extends the result map, the storage and the requests from the calls for a prefix to the calls for a longer prefix |
| Geocoding.Geocoder.BatchLoop | utils/geocoding.ts:146-175 | the loop over batches of five yields the result map, storage and requests of one `geocodeAddress` call per address in order, progress 1..n, and one pause between consecutive batches |
| Geocoding.Geocoder.GeocodeAddresses | utils/geocoding.ts:142-176 | the results, storage and requests are those of one `geocodeAddress` call per address in order; progress runs 1..n; one pause between consecutive batches of five; results have a key per address; cached addresses keep their values; an uncached address that occurs once has the reply to its own call; without a key nothing changes; all cached sends nothing; all uncached with distinct keys sends exactly their queries |
| Geocoding.PauseCount | utils/geocoding.ts:168-170 | the pause counter after a batch is the number of batches that have a successor |
| Geocoding.BatchMap | utils/geocoding.ts:165-167 | the entries a batch writes into the result map, in batch order |
| Geocoding.BatchMapShape | utils/geocoding.ts:161-165 | a batch contributes exactly its addresses, each with the outcome of one of its occurrences |
| Geocoding.BatchMapLastWins | utils/geocoding.ts:161-165 | a repeated address takes the outcome of its last occurrence |
| Geocoding.RecordBatch | utils/geocoding.ts:161-165 | the loop writing a batch's outcomes equals the map update in batch order |
| Geocoding.ResolvedSnoc | utils/geocoding.ts:156-163 | the calls for one more address of a batch are the earlier calls followed by one `geocodeAddress` call numbered on |
| Geocoding.ResolvedInTurn | utils/geocoding.ts:153-163 | the calls for the addresses up to the end of a batch are those before it, then those of the batch numbered on |
| Geocoding.BatchMapAppend | utils/geocoding.ts:165-167 | recording two stretches in turn is recording their concatenation |
| Geocoding.ResolvedCached | utils/geocoding.ts:146-176 | the result map has a key per address, and a cached address maps to its cached location |
| Geocoding.ResolvedFresh | utils/geocoding.ts:86-176 | an uncached address that occurs once maps to the reply to its own call, or to null without a key |
| Geocoding.ResolvedFreshLocation | utils/geocoding.ts:86-137 | the call for an uncached address whose key no earlier call used returns the reply to its own attempt, or null without a key |
| Geocoding.ResolvedSent | utils/geocoding.ts:99-111 | with a key, addresses that all miss with distinct keys send exactly their queries |
| Geocoding.ResolvedKeeps | utils/geocoding.ts:86-176 | a run keeps every cached address and sends at most one query per address |
| Geocoding.ResolvedQuiet | utils/geocoding.ts:94-97 | without a key a run changes nothing, sends nothing and answers every address from the cache |
| Geocoding.Resolved | utils/geocoding.ts:142-176 | everything a run of `geocodeAddresses` yields, as listed for `GeocodeAddresses` |
| GeocodedAccommodations.FirstVenue | hooks/useGeocodedAccommodations.ts:159-165 | the index of the first venue record, or none when no record is the venue |
| GeocodedAccommodations.VenueCenter | hooks/useGeocodedAccommodations.ts:159-165 | the centre is the position of the first venue record, and is absent exactly when none is the venue |
| GeocodedAccommodations.MergeOne | hooks/useGeocodedAccommodations.ts:146-154 | a record with a resolved location takes its lat/lng, any other record is returned as it is |
| GeocodedAccommodations.Merge | hooks/useGeocodedAccommodations.ts:144-156 | same length and order; a record with coordinates has only lat/lng replaced; the others are unchanged |
| GeocodedAccommodations.MergeNothing | hooks/useGeocodedAccommodations.ts:144-156 | merging no coordinates changes nothing |
| GeocodedAccommodations.MergeIdempotent | hooks/useGeocodedAccommodations.ts:144-156 | merging twice equals merging once |
| GeocodedAccommodations.MergeKeepsFirstVenue | hooks/useGeocodedAccommodations.ts:144-165 | the merge does not change which record is the first venue |
| GeocodedAccommodations.MergedVenueCenter | hooks/useGeocodedAccommodations.ts:144-165 | the centre is the venue's resolved location, else its static position, else absent |
| GeocodedAccommodations.DisabledResult | hooks/useGeocodedAccommodations.ts:31-44 | the disabled path returns the list as given, with progress = total = length, not loading, no error, no failures, and the static venue centre |
| GeocodedAccommodations.DisabledShowsStaticCoordinates | hooks/useGeocodedAccommodations.ts:31-44 | the disabled path equals the enabled presentation with nothing resolved |
| GeocodedAccommodations.ErrorMessage | hooks/useGeocodedAccommodations.ts:130-131 | the advisory message around the failure count |
| GeocodedAccommodations.FinalError | hooks/useGeocodedAccommodations.ts:128-133 | the error is set exactly when something failed, and carries the message with the count |
| GeocodedAccommodations.ErrorMessageInjective | hooks/useGeocodedAccommodations.ts:130-131 | different failure counts give different messages |
| GeocodedAccommodations.Uncached | hooks/useGeocodedAccommodations.ts:64-75 | the queue is no longer than the list |
| GeocodedAccommodations.UncachedMember | hooks/useGeocodedAccommodations.ts:64-75 | a record is queued exactly when it is in the list and its address misses the cache |
| GeocodedAccommodations.UncachedMiss | hooks/useGeocodedAccommodations.ts:64-75 | every queued record misses the cache |
| GeocodedAccommodations.CachedCoords | hooks/useGeocodedAccommodations.ts:64-75 | the coordinates the pre-pass writes for records whose address hits the cache |
| GeocodedAccommodations.CachedCoordsKey | hooks/useGeocodedAccommodations.ts:64-75 | an id has pre-pass coordinates exactly when some record with that id hits the cache |
| GeocodedAccommodations.CachedCoordsValue | hooks/useGeocodedAccommodations.ts:64-75 | pre-pass coordinates are the cached location of a record with that id |
| GeocodedAccommodations.ColdCacheNeedsAll | hooks/useGeocodedAccommodations.ts:64-75 | with an empty store every record is queued and no coordinates are set |
| GeocodedAccommodations.CachePrepass | hooks/useGeocodedAccommodations.ts:64-75 | the pre-pass loop yields the queue and the cached coordinates, and completed + queued = total |
| GeocodedAccommodations.PrepassStep | hooks/useGeocodedAccommodations.ts:64-75 | one more scanned record either records its cached location under its id or joins the queue |
| GeocodedAccommodations.Successes | hooks/useGeocodedAccommodations.ts:100-110 | the coordinates written by successful calls, in call order |
| GeocodedAccommodations.SuccessesKey | hooks/useGeocodedAccommodations.ts:100-110 | an id has coordinates after the loop exactly when it had them before or a call for it succeeded |
| GeocodedAccommodations.FailCount | hooks/useGeocodedAccommodations.ts:104-114 | failures never exceed the calls |
| GeocodedAccommodations.FailCountExtremes | hooks/useGeocodedAccommodations.ts:104-114 | no failures exactly when every call succeeded, and all failed exactly when none did |
| GeocodedAccommodations.NothingSucceeded | hooks/useGeocodedAccommodations.ts:100-114 | when every call fails the coordinates stay as they were and every call counts as failed |
| GeocodedAccommodations.Calls | hooks/useGeocodedAccommodations.ts:96-103 | the number of calls made before the loop sees the unmount |
| GeocodedAccommodations.Published | hooks/useGeocodedAccommodations.ts:104-119 | the number of results published while mounted |
| GeocodedAccommodations.PublishedBounds | hooks/useGeocodedAccommodations.ts:97-126 | published results never exceed the calls, which never exceed the queue; a teardown publishes fewer than all |
| GeocodedAccommodations.Resolve | hooks/useGeocodedAccommodations.ts:100-103 | the queue's next call is one more `geocodeAddress` call of the run: a hit returns the cached value with no query; a miss without a key returns nothing with no query; otherwise the interpreted reply with the address's query |
| GeocodedAccommodations.QueuedStep | hooks/useGeocodedAccommodations.ts:96-103 | the calls for one more queued record are the earlier calls followed by `geocodeAddress` on that record's address |
| GeocodedAccommodations.Addresses | hooks/useGeocodedAccommodations.ts:100-101 | the addresses of the queued records, in order |
| GeocodedAccommodations.QueuedRun | hooks/useGeocodedAccommodations.ts:96-126 | calls for queued records keep every cached address and send at most one query each; without a key they fail and change nothing; with a key, a record whose key is the first of its kind gets the reply to its own call, and distinct keys send exactly their queries |
| GeocodedAccommodations.Await | hooks/useGeocodedAccommodations.ts:56-140 | an await counts itself, and the component stays mounted unless the teardown happens during it |
| GeocodedAccommodations.GeocodingHook.constructor | hooks/useGeocodedAccommodations.ts:46-53 | the initial state is loading, progress 0 of the list's length, no error, no failures, no coordinates |
| GeocodedAccommodations.GeocodingHook.Result | hooks/useGeocodedAccommodations.ts:144-165 | the returned list is the merge of the list with the published coordinates, the state is passed through, and the venue centre is that of the merged list, present exactly when some record is the venue |
| GeocodedAccommodations.GeocodingHook.GeocodeAll | hooks/useGeocodedAccommodations.ts:59-136 | the outcomes, storage and requests are those of one `geocodeAddress` call per queued record up to the teardown; published coordinates are the cached ones plus the published successes; progress counts cache hits plus published calls; loading and error end as the teardown allows; cached addresses keep their locations; with no key nothing is sent and every call fails; with a key each first-of-its-key record gets its own reply, and distinct keys send exactly their queries |
| GeocodedAccommodations.GeocodingHook.ResolutionLoop | hooks/useGeocodedAccommodations.ts:96-126 | one call per queued record until the teardown, whose outcomes, storage and requests are those of the `geocodeAddress` calls in queue order, with the counters, coordinates and progress published only while mounted |
| GeocodedAccommodations.GeocodingHook.Turn | hooks/useGeocodedAccommodations.ts:97-125 | one turn is one more `geocodeAddress` call of the run, its outcome recorded and published while mounted, then the pause before the next record |
| GeocodedAccommodations.GeocodingHook.LoopExit | hooks/useGeocodedAccommodations.ts:96-126 | the loop's counters at exit give the published state, and `failed` is the failure count on the mounted path |
| GeocodedAccommodations.GeocodingHook.Record | hooks/useGeocodedAccommodations.ts:104-119 | one call's outcome increments `completed` and, on failure, `failed`, and is published while mounted |
| GeocodedAccommodations.GeocodingHook.Pause | hooks/useGeocodedAccommodations.ts:122-125 | the pause between calls changes no counter |
| GeocodedAccommodations.GeocodingHook.GeocodeAllWithoutKey | hooks/useGeocodedAccommodations.ts:94-133 | with no key and a non-empty queue, nothing is sent or stored, only the cached coordinates are shown, and every queued record counts as failed |
| PixConfig.VarNameInjective | pixConfig.ts:6-13 | different amounts read different environment variables |
| PixConfig.EnvOr | pixConfig.ts:7-12 | an unset variable reads as the empty string |
| PixConfig.PixCodes | pixConfig.ts:6-13 | the table has exactly the six tiers, each read from its own variable |
| PixConfig.GetPixCode | pixConfig.ts:20-22 | the configured code for a tier, and `''` for any other amount or an unset variable |
| PixConfig.HasPixCode | pixConfig.ts:29-32 | a real code exactly when the tier's code is set, non-empty and not a placeholder |
| PixConfig.HasPixCodeGivesCode | pixConfig.ts:20-32 | a real code is the non-empty configured value the lookup returns |
| PixConfig.OutsideTiers | pixConfig.ts:6-13 | an amount outside the tiers has neither a code nor a real code |
| PixConfig.PlaceholderIsReturned | pixConfig.ts:20-32 | a placeholder is returned by the lookup but is not a real code |
| PixConfig.TiersIndependent | pixConfig.ts:6-13 | setting one tier's variable changes no other tier's code |
| Subdomain.IsRootHost | index.tsx:18 | the two main host names |
| Subdomain.GetSubdomain | index.tsx:13-22 | `presentes.` hosts are the gift site, `hospedagem.` hosts the accommodation site, the two main hosts the root, each exactly |
| Subdomain.HostTestsExclusive | index.tsx:16-18 | no host passes two of the tests, so their order does not matter |
| Subdomain.OtherHostsHaveNoSite | index.tsx:21 | any other host has no site |
| Subdomain.SubdomainExamples | index.tsx:13-22 | the deployed hosts map to their sites, and `localhost` and `www.presentes.…` map to none |
| Subdomain.Route | index.tsx:29-45 | a detected site renders its page whatever the path; otherwise a site's page exactly when the path matches its route, ignoring ASCII case and trailing slashes |
| Subdomain.MatchesRoute | index.tsx:39-43 | the path is the route up to ASCII case, followed only by slashes |
| Subdomain.RoutesExclusive | index.tsx:39-43 | no path matches the routes of two different sites |
| Subdomain.RoutesExclusiveAll | index.tsx:39-43 | a path matches at most one route |
| Subdomain.RouteExamples | index.tsx:39-43 | `/presentes/` and `/PRESENTES` reach the gift page, `//` the home page, and `/presentesx` nothing |
| Subdomain.RouteAgreement | index.tsx:33-44 | a site's page is the page its route leads to on a development host |
| Subdomain.SiteOf | index.tsx:33-44 | every page belongs to one site and is reachable by its route |
| Subdomain.SitePage | index.tsx:33-35 | the page each detected site renders |
| Subdomain.SitePath | index.tsx:40-42 | the route each page has |
| Subdomain.SitePageInjective | index.tsx:33-35 | distinct sites render distinct pages |
| Subdomain.SubdomainRouter | index.tsx:29-45 | gift hosts show the gift page, accommodation hosts the accommodation page, main hosts the home page, and any other host follows the route table |
| MapShared.TablesAreTotal | components/map/map-shared.ts:18-32 | both tables cover all five clusters, listed once each |
| MapShared.GetMarkerColor | components/map/map-shared.ts:34-36 | a cluster's colour is its table entry, a `#rrggbb` colour |
| MapShared.MarkerColorsDistinct | components/map/map-shared.ts:18-24 | no two clusters share a colour |
| MapShared.GetClusterLabel | components/map/map-shared.ts:38-40 | a cluster's caption is its table entry |
| MapShared.ClusterLabels | components/map/map-shared.ts:26-32 | only the retreat cluster has a caption, `Retiro / Paz` |
| LeafletMapView.IsNumeral | components/map/LeafletMapView.tsx:19 | the strings `\d+\.?\d*` matches: a leading digit, then digits with at most one dot |
| LeafletMapView.DotCount | components/map/LeafletMapView.tsx:19 | a text has no more dots than characters |
| LeafletMapView.NumeralEnd | components/map/LeafletMapView.tsx:19 | the end position of the run of digits and dots starting at a position |
| LeafletMapView.KmAtEnd | components/map/LeafletMapView.tsx:19 | a match at a position can end only where that run ends |
| LeafletMapView.MatchAt | components/map/LeafletMapView.tsx:19 | the match starting at a position, or proof that there is none |
| LeafletMapView.KmMatch | components/map/LeafletMapView.tsx:19-20 | the pattern finds the leftmost match, and none exactly when no position matches |
| LeafletMapView.GetCarTime | components/map/LeafletMapView.tsx:11-26 | `0m` gives `0min`, and an estimate comes from a numeral that matches the pattern |
| LeafletMapView.TildeRedundant | components/map/LeafletMapView.tsx:13-17 | each `~` test is subsumed by the plain one |
| LeafletMapView.FirstFixed | components/map/LeafletMapView.tsx:13-17 | the first fixed test the distance passes, with all earlier tests failing |
| LeafletMapView.CarTimeIsTableScan | components/map/LeafletMapView.tsx:12-25 | the first fixed match wins; otherwise an estimate exactly when the pattern matches, or else the input itself |
| LeafletMapView.CarTimeEstimateIsLeftmost | components/map/LeafletMapView.tsx:19-23 | an estimate uses the numeral of the leftmost match |
| LeafletMapView.ContainedChar | components/map/LeafletMapView.tsx:13-17 | every character of a contained pattern occurs in the string |
| LeafletMapView.LacksChar | components/map/LeafletMapView.tsx:13-17 | a string lacking a character of a pattern does not contain it |
| LeafletMapView.CarTimeThirteenKm | components/map/LeafletMapView.tsx:13-16 | `13km` gives `6-8min` |
| LeafletMapView.CarTimeFourPointThreeKm | components/map/LeafletMapView.tsx:13-16 | `4.3km` gives `6-8min` |
| LeafletMapView.KmMatchExample | components/map/LeafletMapView.tsx:19 | the leftmost match in `~10km` is the numeral `10` |
| LeafletMapView.CarTimeEstimateExample | components/map/LeafletMapView.tsx:13-23 | `~10km` passes no fixed test and is estimated from `10` |
| LeafletMapView.LinksAreShort | components/map/LeafletMapView.tsx:30-40 | every table link is a short link |
| LeafletMapView.GetGoogleMapsLink | components/map/LeafletMapView.tsx:29-42 | the listed short link for the nine known ids, otherwise a search link for the id |
| LeafletMapView.LinkKind | components/map/LeafletMapView.tsx:29-42 | short and search links differ right after the scheme |
| LeafletMapView.LinksDistinct | components/map/LeafletMapView.tsx:30-40 | no two known ids share a link |
| LeafletMapView.GoogleMapsLinkInjective | components/map/LeafletMapView.tsx:29-42 | different ids get different links |
| LeafletMapView.CreateMarkerIcon | components/map/LeafletMapView.tsx:70-88 | the heart at 36 for the venue and the star at 28 otherwise, anchored at its centre, with the popup half a size above |
| LeafletMapView.Badge | components/map/LeafletMapView.tsx:173-175 | no badge without a rating, a stray `0` for a zero rating, the stars otherwise |
| LeafletMapView.BookingButton | components/map/LeafletMapView.tsx:183-192 | the booking button appears exactly for a non-empty URL |
| LeafletMapView.LeafletPopup | components/map/LeafletMapView.tsx:169-200 | the venue's popup has neither rating nor car time; every other popup has a badge from `Badge(rating)` and the car time; all show the address and the map link |
| LeafletMapView.Markers | components/map/LeafletMapView.tsx:160-167 | one marker per accommodation, in order, at its position with its icon and popup |
| LeafletMapView.FirstWithId | components/map/LeafletMapView.tsx:122-124 | the first accommodation with the id, or none when no accommodation has it |
| LeafletMapView.FlyTo | components/map/LeafletMapView.tsx:92-158 | a fly-to at zoom 16 exactly for a non-empty selected id that some accommodation has, to the first such one |
| LeafletMapView.ClickFliesToMarker | components/map/LeafletMapView.tsx:156-167 | with distinct non-empty ids, clicking a marker flies to that marker |
| LeafletMapView.Render | components/map/LeafletMapView.tsx:145-167 | the map is centred on the given centre at the default zoom, its markers are exactly `Markers` of the accommodations, and it flies to the selection |
| GoogleMapsView.ApiKey | components/map/GoogleMapsView.tsx:6 | an unset key reads as empty |
| GoogleMapsView.GoogleMarkerIcon | components/map/GoogleMapsView.tsx:147-151 | the Google icons have the Leaflet icons' symbol, size and anchor |
| GoogleMapsView.InfoContent | components/map/GoogleMapsView.tsx:46-79 | the car time is always shown, the venue included; every record, the venue too, shows its address, the booking button exactly when it has a booking URL, and its map link; for other records the content equals the Leaflet popup |
| GoogleMapsView.GoogleMarkers | components/map/GoogleMapsView.tsx:141-155 | one marker per accommodation at its position, titled with its name |
| GoogleMapsView.InfoWindowFor | components/map/GoogleMapsView.tsx:157-165 | the window sits at the accommodation, 36 px up, with its content |
| GoogleMapsView.GoogleMapsView.constructor | components/map/GoogleMapsView.tsx:6-103 | the view starts with its key and no open window |
| GoogleMapsView.GoogleMapsView.Render | components/map/GoogleMapsView.tsx:115-165 | a placeholder exactly without a key; otherwise the map at the centre and default zoom, its markers exactly `GoogleMarkers` of the accommodations, and a window exactly when one is open |
| GoogleMapsView.GoogleMapsView.HandleMarkerClick | components/map/GoogleMapsView.tsx:105-108 | a click opens that accommodation's window and reports its id |
| GoogleMapsView.GoogleMapsView.HandleInfoWindowClose | components/map/GoogleMapsView.tsx:110-113 | closing clears the window and reports no selection |
| GoogleMapsView.RenderIgnoresSelection | components/map/GoogleMapsView.tsx:128-165 | the rendering does not depend on the selected id |
| GoogleMapsView.NoKeyNoMarkers | components/map/GoogleMapsView.tsx:115-126 | without a key only the placeholder is shown, whatever the props |
| GoogleMapsView.IconsMatchLeaflet | components/map/GoogleMapsView.tsx:141-155 | each Google marker has its Leaflet marker's size and anchor, 36 for the venue and 28 otherwise |
| AccommodationsMap.MapCenter | components/map/AccommodationsMap.tsx:47 | the venue centre when given, the fixed venue coordinates otherwise |
| AccommodationsMap.CenterFromHook | components/map/AccommodationsMap.tsx:47 | fed by the hook, the map centres on the venue's resolved location, else its static position, else the fixed coordinates |
| AccommodationsMap.ViewFor | components/map/AccommodationsMap.tsx:64-68 | the Google view exactly for the Google provider |
| AccommodationsMap.Legend | components/map/AccommodationsMap.tsx:24-36 | one legend entry per cluster, in table order, with its colour and caption |
| AccommodationsMap.LegendShowsEachCluster | components/map/AccommodationsMap.tsx:24-36 | every cluster has a dot in its own colour, and only the retreat is captioned |
| AccommodationsMap.AccommodationsMap.constructor | components/map/AccommodationsMap.tsx:43-44 | nothing selected, and the provider fixed at its configured value |
| AccommodationsMap.AccommodationsMap.MapProps | components/map/AccommodationsMap.tsx:54-59 | both views get the accommodations unchanged, the selected id and the centre fallback |
| AccommodationsMap.AccommodationsMap.View | components/map/AccommodationsMap.tsx:64-68 | the rendered view follows the fixed provider |
| AccommodationsMap.AccommodationsMap.HandleSelectAccommodation | components/map/AccommodationsMap.tsx:49-52 | the id, null included, is stored and forwarded to the callback when there is one |
| AccommodationsMap.AccommodationsMap.ClickGoogleMarker | components/map/AccommodationsMap.tsx:49-52 | a Google marker click opens its window, selects its id and forwards it |
| AccommodationsMap.AccommodationsMap.CloseGoogleInfoWindow | components/map/AccommodationsMap.tsx:49-52 | closing the Google window clears the selection and forwards null |
| AccommodationsMap.AccommodationsMap.ClickLeafletMarker | components/map/AccommodationsMap.tsx:49-59 | a Leaflet marker click selects its id, and with distinct non-empty ids the next rendering flies to it |
| AccommodationsMap.CreatedMapShowsGoogle | components/map/AccommodationsMap.tsx:44-68 | a new container renders the Google view with nothing selected |
| Strings.StartsWith | index.tsx:16-17 | `startsWith`: the prefix is the string's first characters |
| Strings.Contains | utils/geocoding.ts:103 | `includes`: the pattern occurs at some position |
| Strings.ContainsAt | utils/geocoding.ts:103 | a pattern found at a position is contained |
| Strings.ContainsWitness | utils/geocoding.ts:103 | a contained pattern has a position where it occurs |
| Strings.NatToString | hooks/useGeocodedAccommodations.ts:130 | the decimal numeral is non-empty, all digits, with no leading zero |
| Strings.DecimalRoundTrip | hooks/useGeocodedAccommodations.ts:130 | reading the numeral back gives the number |
| Strings.NatToStringInjective | hooks/useGeocodedAccommodations.ts:130 | different numbers have different numerals |

## Left out

- Markup, styling and animation are not modelled: the JSX, Tailwind classes, SVG icons, scroll locking and the lazy loading of the map views.
- `fetch`, JSON parsing of the service's reply and `Date.now()` are an oracle parameter (`Attempt`): the reply, an opaque timestamp, and whether the save succeeds.
- Local storage is the `storage` field, holding an item that is missing, unparseable or a parsed cache. A stored blob that parses but lacks the `entries` shape is not modelled.
- `Promise.all` inside a batch is modelled as sequential calls in batch order. The concurrent interleaving is not modelled.
- The `setTimeout` delays are counted (`pauses`, the hook's awaits) but carry no time.
- React effect scheduling is reduced to the `isMounted` flag and the `teardownAt` parameter.
- The `catch` around each call in the hook's loop is unreachable for the storage shapes modelled (see the storage line above): `geocodeAddress` catches everything inside its `try`, and only a parsed blob without `entries` could make its cache read throw. The model therefore treats that branch like a null result.
- Geocoding.Geocoder.GeocodeAddresses: each `onProgress(completed, total)` call is recorded by its completed count only; the second argument is always the constant `addresses.length`, and it is not recorded.
- LeafletMapView.GetCarTime: the estimate branch's `parseFloat` and `Math.round(km * 2.5)` are floating point, so the model returns the matched numeral (`KmEstimate`) instead of the minutes text.
- Geocoding.Lower: `toLowerCase` is modelled for Basic Latin and Latin-1 upper-case letters only; other Unicode case mappings are not modelled.
- JavaScript's `\s` is modelled by its code-point list; line-terminator subtleties of the regex engine are not modelled beyond that list.
- Object lookups (links, Pix codes, cache entries) are modelled as finite maps. Inherited object keys such as `constructor` are not modelled.
- `Object.keys(CLUSTER_COLORS)` is taken in declaration order.
- Touch coordinates are integers (`clientX` is a number of CSS pixels).
- The accommodation record type is not part of the source's type file. It is defined here from its uses, and fields the core never reads are not modelled.
- Pix amounts are integers. Non-integer amounts always miss the table and are not modelled separately.
- The Leaflet `mounted` placeholder is a first-render UI guard and is not modelled.
- The selection callback is not a value. The views return the argument they would pass to it, and the container returns `Forwarded`/`NotForwarded`.
- The whitespace text node between the Leaflet heading's parts is not modelled.
- components/PixModal.tsx, components/ValuePixModal.tsx (clipboard and QR URL), constants.ts (catalogue data, used only as the 6×3 gallery scenario), the static pages and the card components are not part of this model.
- Subdomain.Route: percent-decoding of the path is not modelled, and an unmatched path rendering nothing is modelled as `None`.
- Gallery.GalleryModal.constructor: the opening gift index is required to be a valid index, as the gift page passes one; a `findIndex` result of −1 is not modelled.
- Geocoding.Stats: the listed addresses are a set, so the insertion order of `Object.keys` is not modelled.
- GeocodedAccommodations.GeocodingHook.Turn: the pause test `needsGeocoding.indexOf(accom) < needsGeocoding.length - 1` is modelled as the loop position being before the last. The two differ only when one record object is queued twice, and records are values here, so object identity is not modelled.

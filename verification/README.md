# BKC Home: valuation estimators and address geocoding, in Dafny

This project models the two deterministic pipelines of the BKC Home real-estate
site and proves what their code promises.

**Valuation estimators.** There are three copies of the estimator:

- `ValoradorVivienda`, the quick form.
- `ValoradorDetalle`, the detailed form.
- The three-step "valora tu vivienda" page.

The two forms share one formula:

- the area is clamped to [20, 400];
- the price per m² is floored at 500;
- a multiplier is built from a condition factor, capped room and bathroom adjustments and four amenity bonuses;
- the result is rounded at 0.93, 1 and 1.07 of the central value.

The two forms differ in how they clamp a non-finite area. The quick form also
writes its state into a link that the detailed form reads back. The page has its
own formula: a price table from a configuration, additive bonuses, and an
unrounded 0.93 / 1.05 range. It also runs a step machine.

**Geocoding.** This covers:

- the server route `GET /api/geocode`: a length gate, a cache keyed by the lower-cased query, a country filter and an order-preserving mapping;
- the address autocomplete widget: labels, town extraction, request parameters, and a debounced lookup effect that aborts the previous request;
- the page's own suggestion box: a filter plus a stable sort towards Madrid and Toledo.

**Modules.** Each module is a file.

- `Wrappers` holds `Option`.
- `JsText` holds `trim`, `toLowerCase`, `includes` and `split(",")[0]`.
- `JsNumber` holds JavaScript numbers over `real`: NaN, ±Infinity, `Number(string)`, `Math.round` and `*`.
- `Seqs` holds filter, map, subsequence and a stable insertion sort.
- `Nominatim` holds the place record and the country tests.
- `Valorador` holds the shared formula and the `mult *=` loop as a method.
- `ValoradorDetalle` and `ValoradorVivienda` each hold a form class and the link encode/decode.
- `GeocodeRoute` holds the route. Its cache and the searches in flight are class fields, and a request is two steps either side of its awaits.
- `AddressAutocomplete` holds the widget: pure functions, a state machine, and a class whose methods are proved equal to it.
- `ValoraPage` holds the page: a class over the form and suggestion state, and the `readUtm` loop.

**How the model is shaped.**

- Network answers, timers and the query string are inputs chosen by the caller.
- An abort controller is a lookup number.
- A React effect that runs after a render is a method or function applied to the state of that render.
- A value written into a URL or JSON from a number is kept as that number (`Scalar.Number`). ECMAScript guarantees that `Number(String(n))` gives back `n`.

The quick form's link targets `/valora-tu-vivienda`, and the page at that path reads only the `utm_*` parameters. The parameters the link writes are exactly those the detailed form's preload reads, so the round trip is stated between the two forms. Which route mounts the detailed form is not part of this model.

Two facts about the code that are easy to miss:

- The geocoding route does not cap the length of its answer. It returns at most as many results as upstream sent, and only upstream's `limit=8` bounds them.
- Both forms start `eurM2Manual` at the initial zone's table price. There is no separate manual default.

## Model

Paths are relative to the repository root.

Some transitions are a function and a method of `Page` that are one concept: the method applies the function to the page's state. These functions have no row of their own, and the rows of their methods and lemmas state them: `Suggestions` (`SuggestionsRanked`), `SelectedCity` (`Page.Choose`), `TimerFired` (`Page.FireTimer`), `WentBack` (`Page.GoBack`, `EventsKeepReached`), `ConfigArrived` (`Page.LoadConfig`, `EventsKeepReached`), `EditedStep1` and `EditedStep2` (`Page.EditStep1`, `Page.EditStep2`, `EventsKeepReached`).

| member | source | states |
|---|---|---|
| JsText.Trim | app/api/geocode/route.ts:8 | the result is no longer than the input, starts and ends with no white space, and is empty exactly when the input is all white space |
| JsText.TrimPadding | app/api/geocode/route.ts:8 | `trim()` removes white space only: everything before and after its result is white space |
| JsText.TrimmedWithin | app/api/geocode/route.ts:8 | every text is its trim with white space before and after it |
| JsText.TrimIgnoresPadding | app/api/geocode/route.ts:8 | white space added on either side never changes what `trim()` returns |
| JsText.TrimUnpadded | app/components/AddressAutocomplete.tsx:84 | text with no white space at either end is its own trim |
| JsText.ToLower | app/api/geocode/route.ts:11 | lower-casing keeps the length and maps each character through the ASCII/Latin-1 case table |
| JsText.TrimLower | app/api/geocode/route.ts:8-11 | trimming and lower-casing commute |
| JsText.BeforeComma | app/components/AddressAutocomplete.tsx:40 | `split(",")[0]` is the prefix before the first comma, it holds no comma, and a comma follows it when it is shorter than the text |
| JsNumber.StringToNumber | app/components/ValoradorDetalle.tsx:45 | `Number(s)` of blank text is 0 |
| JsNumber.StringToNumberIgnoresPadding | app/components/ValoradorDetalle.tsx:45 | white space around a literal never changes what `Number(s)` reads |
| JsNumber.Round | app/components/ValoradorDetalle.tsx:129-131 | `Math.round(x)` lies within half a unit of x, with halves rounded up |
| JsNumber.RoundMonotone | app/components/ValoradorDetalle.tsx:129-131 | rounding keeps order, so the three rounded ends stay ordered |
| JsNumber.RoundWhole | app/components/ValoradorDetalle.tsx:130 | a whole number rounds to itself |
| JsNumber.Mul | app/valora-tu-vivienda/page.tsx:301 | `*` on finite numbers is the real product; the result is NaN exactly when an operand is NaN or an infinity meets 0 |
| Seqs.Filter | app/api/geocode/route.ts:45 | the kept elements are exactly those of the input that pass, each as many times as it occurs in the input |
| Seqs.Map | app/api/geocode/route.ts:46-53 | the mapping keeps the length and maps each position |
| Seqs.MapKeepsCount | app/api/geocode/route.ts:46-53 | the image of every element occurs in the mapped list at least as often as the element occurs in the input |
| Seqs.FilterIsSubsequence | app/components/AddressAutocomplete.tsx:122 | filtering keeps the input order |
| Seqs.MapFilterCommute | app/api/geocode/route.ts:43-53 | filtering before or after a mapping that keeps the tested property gives the same list |
| Seqs.FilterAllPass | app/valora-tu-vivienda/page.tsx:220-221 | a filter that every element passes changes nothing |
| Seqs.SortByCorrect | app/valora-tu-vivienda/page.tsx:222 | the stable sort by a key yields a sorted permutation in which the elements with any given key keep their input order |
| Nominatim.FirstTruthy | app/components/AddressAutocomplete.tsx:45 | the `a \|\| b \|\| …` chain gives the first non-empty operand, or the last operand when all are empty |
| Nominatim.IsSpain | app/components/AddressAutocomplete.tsx:48-53 | a present country code decides, lower-cased, against "es"; without one, the display name must hold the word "España" (case-insensitive, at word boundaries) |
| Nominatim.SpanishCodeIsSpain | app/api/geocode/route.ts:45 | whatever passes the route's country filter passes the clients' `isSpain` |
| GeocodeRoute.Key | app/api/geocode/route.ts:11 | the cache key is as long as the trimmed query, so it has the same length verdict |
| GeocodeRoute.CaseSharesEntry | app/api/geocode/route.ts:8-11 | queries that differ only in letter case share one cache key and one length verdict |
| GeocodeRoute.PaddingSharesEntry | app/api/geocode/route.ts:8-11 | white space around a query never changes its cache key |
| GeocodeRoute.Convert | app/api/geocode/route.ts:46-53 | the mapping copies `place_id`, `display_name`, `address` and `type` verbatim and sets lat/lon to `Number(r.lat)` and `Number(r.lon)` |
| GeocodeRoute.ConvertIdempotent | app/api/geocode/route.ts:46-53 | mapping an already mapped place changes nothing |
| GeocodeRoute.Results | app/api/geocode/route.ts:43-53 | a null body gives no results; every result has country code "es"; every upstream place with that code appears, mapped, at least as often as upstream sent it; there are exactly as many results as upstream places with that code |
| GeocodeRoute.ResultsKeepOrder | app/api/geocode/route.ts:43-53 | the results are the mapped upstream list with some entries dropped, in upstream order |
| GeocodeRoute.ClientsKeepEveryResult | app/api/geocode/route.ts:45 | the clients' `isSpain` filter keeps every result the route sends |
| GeocodeRoute.Arrive | app/api/geocode/route.ts:8-12 | up to the first await, on the cache as it is when the request comes in: a short query answers `[]`, a hit answers the cached payload, and a long query that misses starts a search for its key |
| GeocodeRoute.Land | app/api/geocode/route.ts:39-58 | after the awaits, on the cache as it is by then: a non-2xx answer gives `[]` and leaves the cache alone; a body gives `Results` of it, written under the key whatever the key held, with every other key unchanged |
| GeocodeRoute.Serve | app/api/geocode/route.ts:8-58 | one request with no other request in flight: a short query answers `[]` with no fetch; a fetch happens exactly on a miss for a long query; a hit answers the cached payload; a non-2xx miss answers `[]` and stores nothing; a 2xx miss answers and stores `Results` of the body under the key; existing entries are kept |
| GeocodeRoute.Step | app/api/geocode/route.ts:5-59 | a request coming in changes no cache entry and puts its key in flight exactly when `Arrive` fetches; a completion for a key in flight takes one request for it out of flight and writes the cache as `Land` does |
| GeocodeRoute.RunKeepsWellFormed | app/api/geocode/route.ts:9-56 | however requests overlap, every cached key comes from a query of at least 4 characters and every cached payload holds only places coded "es" |
| GeocodeRoute.AloneIsServe | app/api/geocode/route.ts:5-59 | a request with nothing else in flight, arriving and then completing, leaves the cache `Serve` gives |
| GeocodeRoute.EntriesPersist | app/api/geocode/route.ts:12 | a cached entry with no request for its key in flight is never removed or overwritten, whatever requests follow and however they overlap |
| GeocodeRoute.LaterRequestsHitCache | app/api/geocode/route.ts:11-12 | once the only request in flight for a key gets a 2xx answer, every later request for that key, after any events in between, gets that payload without an upstream call |
| GeocodeRoute.OverlappingRequestsBothFetch | app/api/geocode/route.ts:12-32 | two requests for the same new key that come in before either completes both miss, and both search upstream |
| GeocodeRoute.OverlappingRequestsOverwrite | app/api/geocode/route.ts:56 | of two overlapping requests for one key, the one that completes later overwrites the entry the other stored |
| GeocodeRoute.Route.constructor | app/api/geocode/route.ts:3 | the cache starts empty, with no request in flight |
| GeocodeRoute.Route.Receive | app/api/geocode/route.ts:5-32 | the handler up to its first await answers as `Arrive` and leaves the state `Step` gives, keeping the cache well-formed |
| GeocodeRoute.Route.Complete | app/api/geocode/route.ts:39-58 | the handler after its awaits answers as `Land` on the current cache and leaves the state `Step` gives, keeping the cache well-formed |
| AddressAutocomplete.FirstSegment | app/components/AddressAutocomplete.tsx:40 | the label is the text before the first comma with its surrounding white space removed: that text is the label padded with white space only, and the label neither starts nor ends with white space; it occurs in the display name and holds no comma |
| AddressAutocomplete.FallbackLabel | app/components/AddressAutocomplete.tsx:40 | the trimmed first comma piece (`FirstSegment`) when it is not empty, else the whole display name; it occurs in the display name, and when it is not the whole name it is non-empty, comma-free and unpadded |
| AddressAutocomplete.PrettyLabel | app/components/AddressAutocomplete.tsx:34-41 | "road number" when both are given; the road when only it is given; otherwise `FallbackLabel` of the display name; the label is empty only for a place with no road and an empty display name |
| AddressAutocomplete.ExtractCity | app/components/AddressAutocomplete.tsx:43-46 | no address gives undefined; otherwise city, town, village, municipality and suburb in that order of precedence, each chosen exactly when all before it are missing or empty; the result is non-empty exactly when one of the five is |
| AddressAutocomplete.RequestParams | app/components/AddressAutocomplete.tsx:103-114 | the seven fixed parameters (limit 6, `countrycodes` from the prop, `q`); `viewbox` exactly when one is given; `bounded=1` exactly when a viewbox is given and `bounded` is set |
| AddressAutocomplete.Effect | app/components/AddressAutocomplete.tsx:86-93 | the error is cleared; a query under 3 characters empties the list, stops loading and schedules nothing; a longer one schedules a lookup for it |
| AddressAutocomplete.Edited | app/components/AddressAutocomplete.tsx:152-155 | typing sets the text and opens the list; the effect reruns only when the trimmed query changes, emptying the list for a short query and scheduling a lookup for a long one; lookups and aborts are untouched |
| AddressAutocomplete.TimerFired | app/components/AddressAutocomplete.tsx:95-101 | loading starts, the previous controller is aborted and nothing is un-aborted, and a new lookup becomes current and in flight; text, list and error are unchanged |
| AddressAutocomplete.Settled | app/components/AddressAutocomplete.tsx:116-132 | loading always ends; an aborted lookup leaves list and error alone; data lists the `isSpain` candidates and opens; a failure shows the message and empties the list |
| AddressAutocomplete.MountedConsistent | app/components/AddressAutocomplete.tsx:76-93 | the first render satisfies the lookup invariant (every lookup in flight is current or aborted) |
| AddressAutocomplete.EditedKeepsConsistent | app/components/AddressAutocomplete.tsx:152-155 | typing keeps the lookup invariant |
| AddressAutocomplete.TimerFiredKeepsConsistent | app/components/AddressAutocomplete.tsx:99-101 | issuing a lookup keeps the invariant because the previous one is aborted |
| AddressAutocomplete.SettledKeepsConsistent | app/components/AddressAutocomplete.tsx:116-132 | a lookup settling keeps the invariant |
| AddressAutocomplete.OnlyCurrentLookupShows | app/components/AddressAutocomplete.tsx:99-101 | last request wins: a lookup that is no longer current changes neither list nor error |
| AddressAutocomplete.ShownItemsAreSpanish | app/components/AddressAutocomplete.tsx:119-124 | the list shown after a response passes `isSpain` and keeps response order |
| AddressAutocomplete.StaleListForShortQuery | app/components/AddressAutocomplete.tsx:89-93 | as written, a lookup issued for a long query and answered after the text was cut below 3 characters is listed under the short query |
| AddressAutocomplete.StaleListExample | app/components/AddressAutocomplete.tsx:89-93 | "Calle", then "Ca", then a candidate named "Calle Mayor, Alcorcón, España" meet the conditions of the stale list |
| AddressAutocomplete.MayorStreetIsSpanish | app/components/AddressAutocomplete.tsx:52 | a place with no address is Spanish when its display name holds the word "España" |
| AddressAutocomplete.EditedAborting | app/components/AddressAutocomplete.tsx:89-93 | typing with the abort the effect evidently needs: a query cut below 3 characters also aborts the current lookup |
| AddressAutocomplete.MountedQuiet | app/components/AddressAutocomplete.tsx:76-93 | the first render satisfies the intended invariant (with a short query nothing is listed, scheduled or live) |
| AddressAutocomplete.EditedAbortingKeepsQuiet | app/components/AddressAutocomplete.tsx:89-93 | the aborting edit keeps the intended invariant |
| AddressAutocomplete.TimerFiredKeepsQuiet | app/components/AddressAutocomplete.tsx:95-101 | issuing a lookup keeps the intended invariant |
| AddressAutocomplete.SettledKeepsQuiet | app/components/AddressAutocomplete.tsx:116-132 | a lookup settling keeps the intended invariant |
| AddressAutocomplete.ShortQueryShowsNothing | app/components/AddressAutocomplete.tsx:89-93 | under the intended invariant, no lookup that settles can show a list for a short query |
| AddressAutocomplete.Autocomplete.constructor | app/components/AddressAutocomplete.tsx:76-93 | the first render and the mount run of the effect |
| AddressAutocomplete.Autocomplete.RunEffect | app/components/AddressAutocomplete.tsx:86-93 | the effect method leaves the state `Effect` describes |
| AddressAutocomplete.Autocomplete.Edit | app/components/AddressAutocomplete.tsx:152-155 | typing leaves the state `Edited` describes |
| AddressAutocomplete.Autocomplete.EditAborting | app/components/AddressAutocomplete.tsx:89-101 | the aborting edit leaves the state `EditedAborting` describes |
| AddressAutocomplete.Autocomplete.FireTimer | app/components/AddressAutocomplete.tsx:95-114 | the timer leaves the state `TimerFired` describes and returns the new lookup's number and its `RequestParams` |
| AddressAutocomplete.Autocomplete.Settle | app/components/AddressAutocomplete.tsx:116-132 | settling leaves the state `Settled` describes |
| Valorador.Zona.EurM2 | app/components/ValoradorDetalle.tsx:8-16 | every table price lies between 2 400 and 2 900 |
| Valorador.ZonaFromKey | app/components/ValoradorDetalle.tsx:32-34 | a zone is found exactly when the text is some zone's key, and it is that zone |
| Valorador.KeyInjective | app/components/ValoradorDetalle.tsx:8-16 | no two zones share a key |
| Valorador.EstadoFromKey | app/components/ValoradorDetalle.tsx:36-38 | a condition is found exactly when the text is some condition's key |
| Valorador.EffectiveEurM2 | app/components/ValoradorDetalle.tsx:109 | the manual price in zone "otro", the table price elsewhere |
| Valorador.Clamp | app/components/ValoradorDetalle.tsx:119-120 | `Math.min(hi, Math.max(lo, x))` lies in [lo, hi], is x inside it and the nearer bound outside |
| Valorador.RoomsFactor | app/components/ValoradorDetalle.tsx:119 | the room factor lies in [0.97, 1.03], reaching 0.97 at 0 rooms and 1.03 at 6 |
| Valorador.BathsFactor | app/components/ValoradorDetalle.tsx:120 | the bathroom factor lies in [0.97, 1.03], reaching 0.97 at −1 and 1.03 at 3 |
| Valorador.MultiplierBounds | app/components/ValoradorDetalle.tsx:114-125 | every multiplier lies between 0.88·0.97² and 1.08·1.03²·1.02²·1.015·1.03 |
| Valorador.AscensorFactor | app/components/ValoradorDetalle.tsx:122 | an elevator multiplies the multiplier by exactly 1.02, whatever else is set |
| Valorador.ExteriorFactor | app/components/ValoradorDetalle.tsx:123 | facing outside multiplies it by exactly 1.02 |
| Valorador.TerrazaFactor | app/components/ValoradorDetalle.tsx:124 | a terrace multiplies it by exactly 1.015 |
| Valorador.GarajeFactor | app/components/ValoradorDetalle.tsx:125 | a garage multiplies it by exactly 1.03 |
| Valorador.MultiplierCongruent | app/components/ValoradorDetalle.tsx:114-125 | the multiplier depends only on the condition, the room and bathroom factors and the four amenities |
| Valorador.CentralCongruent | app/components/ValoradorDetalle.tsx:113 | the central value depends on the price only through `Math.max(500, eurM2)` |
| Valorador.LargestAreaExceedsSmallest | app/components/ValoradorDetalle.tsx:112-113 | at equal price and multiplier, 400 m² is worth at least 1 € more than 20 m² |
| Valorador.RangeAroundOrdered | app/components/ValoradorDetalle.tsx:127-132 | around any reachable central value, 0 < min ≤ mid ≤ max |
| Valorador.QuoteOrdered | app/components/ValoradorDetalle.tsx:112-132 | for any form state and any area of at least 20 m², the rounded range is positive and ordered |
| Valorador.ComputeMultiplier | app/components/ValoradorDetalle.tsx:114-125 | the `mult *=` sequence computes exactly the product of the condition, room, bathroom and amenity factors |
| Valorador.Estimate | app/components/ValoradorDetalle.tsx:113-132 | the `useMemo` returns the rounded range around area × max(500, price) × multiplier, and it is positive and ordered |
| Valorador.PlainEightyMetres | app/components/ValoradorDetalle.tsx:113-127 | 80 m² at 2 600 €/m², in average condition with no extras, is a central value of 208 000 |
| Valorador.RangeAroundExample | app/components/ValoradorDetalle.tsx:128-132 | around 208 000 the range is 193 440 / 208 000 / 222 560 |
| ValoradorDetalle.ZonaParam | app/components/ValoradorDetalle.tsx:32-34 | a parameter is a zone exactly when it is that zone's key as text; null and other values are not |
| ValoradorDetalle.EstadoParam | app/components/ValoradorDetalle.tsx:36-38 | a parameter is a condition exactly when it is that condition's key as text |
| ValoradorDetalle.AsBool | app/components/ValoradorDetalle.tsx:40-42 | true exactly for "1", "true" and "yes" (and the number 1, written as "1") |
| ValoradorDetalle.ParamNumber | app/components/ValoradorDetalle.tsx:45 | `Number(null)` is 0 |
| ValoradorDetalle.AsNum | app/components/ValoradorDetalle.tsx:44-47 | the parsed value when finite; the fallback only for NaN and the infinities; 0 for an absent parameter |
| ValoradorDetalle.BlankNumberIsZero | app/components/ValoradorDetalle.tsx:78-80 | an absent or blank numeric parameter reads as 0, never as the fallback |
| ValoradorDetalle.SafeArea | app/components/ValoradorDetalle.tsx:112 | the area lies in [20, 400]; NaN and −∞ give 20, +∞ gives 400, and an in-range value is kept |
| ValoradorDetalle.Quote | app/components/ValoradorDetalle.tsx:111-133 | the range shown is positive and ordered |
| ValoradorDetalle.QuoteIgnoresManualPrice | app/components/ValoradorDetalle.tsx:109 | outside zone "otro" the manual price has no effect on the range |
| ValoradorDetalle.FlagParam | app/components/ValoradorDetalle.tsx:83-93 | a flag keeps its value when its parameter is absent and takes `asBool` of it when present |
| ValoradorDetalle.ManualPriceParam | app/components/ValoradorDetalle.tsx:96-100 | the manual price changes only to a finite parsed value of at least 500, and always does for such a value |
| ValoradorDetalle.PreloadedChoices | app/components/ValoradorDetalle.tsx:71-75 | a valid zona or estado parameter is adopted; an invalid or absent one leaves the field alone |
| ValoradorDetalle.PreloadedNumbers | app/components/ValoradorDetalle.tsx:78-100 | the area becomes finite; absent numbers read 0; a changed manual price came from a present parameter worth at least 500 |
| ValoradorDetalle.PreloadedFlags | app/components/ValoradorDetalle.tsx:83-93 | each flag changes only when its parameter is present, and then to `asBool` of it |
| ValoradorDetalle.SyncedWith | app/components/ValoradorDetalle.tsx:105-107 | the sync effect touches only the manual price, which follows the table outside "otro" and is kept in "otro" |
| ValoradorDetalle.MountedAsWrittenIgnoresManualPrice | app/components/ValoradorDetalle.tsx:70-107 | as written, when the first render's zone is not "otro", the `eurM2Manual` parameter has no effect on the mounted state |
| ValoradorDetalle.ManualLinkPreload | app/components/ValoradorDetalle.tsx:70-100 | the preload of a link for "otro" at 3 500 €/m² takes zone, area and price from it |
| ValoradorDetalle.LinkQuote | app/components/ValoradorDetalle.tsx:109-132 | that link's state with manual price p is quoted around 80 × p × 1.02² |
| ValoradorDetalle.ManualPriceLostOnMount | app/components/ValoradorDetalle.tsx:70-107 | as written, that link mounts with 2 600 €/m² and a central value of 216 403 |
| ValoradorDetalle.ManualPriceKeptOnMount | app/components/ValoradorDetalle.tsx:70-107 | mounted as intended, it keeps 3 500 €/m² and a central value of 291 312 |
| ValoradorDetalle.MountedQuotesPreload | app/components/ValoradorDetalle.tsx:104-109 | mounted as intended, the form quotes exactly what the preload set, and in "otro" the state is the preloaded one |
| ValoradorDetalle.LeadError | app/components/ValoradorDetalle.tsx:158-160 | no error exactly when the trimmed name and phone are non-empty and privacy is accepted, with the two messages in that order |
| ValoradorDetalle.DetalleForm.constructor | app/components/ValoradorDetalle.tsx:56-67 | the initial state |
| ValoradorDetalle.DetalleForm.Preload | app/components/ValoradorDetalle.tsx:70-102 | the preload effect leaves the state `Preloaded` describes |
| ValoradorDetalle.DetalleForm.PreloadChoices | app/components/ValoradorDetalle.tsx:71-75 | the zona/estado part of the preload |
| ValoradorDetalle.DetalleForm.PreloadNumbers | app/components/ValoradorDetalle.tsx:78-80 | the numeric part of the preload |
| ValoradorDetalle.DetalleForm.PreloadFlags | app/components/ValoradorDetalle.tsx:83-93 | the flag part of the preload |
| ValoradorDetalle.DetalleForm.SyncManualPrice | app/components/ValoradorDetalle.tsx:105-107 | the sync effect leaves the state `SyncedWith` describes |
| ValoradorDetalle.DetalleForm.MountAsWritten | app/components/ValoradorDetalle.tsx:69-107 | the mount as the component runs it |
| ValoradorDetalle.DetalleForm.Mount | app/components/ValoradorDetalle.tsx:69-107 | the mount as intended, whose quote is the preloaded one |
| ValoradorDetalle.DetalleForm.SelectZona | app/components/ValoradorDetalle.tsx:209 | choosing a zone, followed by its sync effect |
| ValoradorDetalle.DetalleForm.Valuation | app/components/ValoradorDetalle.tsx:111-133 | the valuation is `Quote` of the state, positive and ordered |
| ValoradorVivienda.ClampNum | app/components/ValoradorVivienda.tsx:28-31 | a non-finite input gives min; the result is at least min, at most max when min ≤ max, and an in-range input is kept |
| ValoradorVivienda.ClampNumIdempotent | app/components/ValoradorVivienda.tsx:28-31 | clamping twice is clamping once |
| ValoradorVivienda.Quote | app/components/ValoradorVivienda.tsx:52-75 | the range shown is positive and ordered |
| ValoradorVivienda.VariantsAgree | app/components/ValoradorVivienda.tsx:53 | the two forms quote alike except for an area of +∞, where this one's central value is lower (20 m² against 400) |
| ValoradorVivienda.AmenityCount | app/components/ValoradorVivienda.tsx:85 | the count is at most 4, is 0 exactly with no amenity and 4 exactly with all |
| ValoradorVivienda.ExtrasCounted | app/components/ValoradorVivienda.tsx:85 | `filter(Boolean)` keeps one entry per amenity ticked |
| ValoradorVivienda.PrecisionLabel | app/components/ValoradorVivienda.tsx:82-90 | "Rápida" with details hidden; otherwise "Alta" for 3 or more amenities, "Media" for 1 or 2, "Rápida+" for none |
| ValoradorVivienda.DetailsQuery | app/components/ValoradorVivienda.tsx:92-110 | the link carries zona, estado, the three clamped numbers and the four flags as "1"/"0", plus `eurM2Manual` (floored at 500) exactly in zone "otro" |
| ValoradorVivienda.DetailsQueryBounds | app/components/ValoradorVivienda.tsx:95-107 | the numbers written are finite and within their clamps; an in-range area and a manual price of at least 500 travel unchanged |
| ValoradorVivienda.KeysRoundTrip | app/components/ValoradorVivienda.tsx:94-100 | every zone key and condition key written reads back as itself under `isZonaKey`/`isEstado` |
| ValoradorVivienda.FlagRoundTrip | app/components/ValoradorVivienda.tsx:102-105 | "1" and "0" read back under `asBool` as the flag they encode |
| ValoradorVivienda.ChoicesRoundTrip | app/components/ValoradorVivienda.tsx:94-100 | the preload of a link restores zone and condition |
| ValoradorVivienda.NumbersRoundTrip | app/components/ValoradorVivienda.tsx:95-99 | the preload of a link restores the clamped area, rooms and bathrooms |
| ValoradorVivienda.FlagsRoundTrip | app/components/ValoradorVivienda.tsx:102-105 | the preload of a link restores the four flags |
| ValoradorVivienda.ManualPriceRoundTrip | app/components/ValoradorVivienda.tsx:107 | the manual price travels (floored at 500) only in "otro" |
| ValoradorVivienda.DetailsRoundTrip | app/components/ValoradorVivienda.tsx:92-110 | reading the link back restores the whole form up to the clamps and the manual price |
| ValoradorVivienda.RoomsFactorClamped | app/components/ValoradorVivienda.tsx:98 | the [0, 10] clamp on rooms never changes the room factor |
| ValoradorVivienda.BathsFactorClamped | app/components/ValoradorVivienda.tsx:99 | the [0, 6] clamp on bathrooms never changes the bathroom factor of a non-negative count |
| ValoradorVivienda.DetailsQuoteSurvives | app/components/ValoradorVivienda.tsx:92-110 | after following the link, the detailed form (mounted as intended) quotes what the quick form quoted |
| ValoradorVivienda.ViviendaForm.constructor | app/components/ValoradorVivienda.tsx:34-48 | the initial state, details hidden |
| ValoradorVivienda.ViviendaForm.SelectZona | app/components/ValoradorVivienda.tsx:172-177 | choosing a zone resets the manual price to that zone's table price |
| ValoradorVivienda.ViviendaForm.Valuation | app/components/ValoradorVivienda.tsx:52-75 | the valuation is `Quote` of the state, positive and ordered |
| ValoradorVivienda.ViviendaForm.DetailsHref | app/components/ValoradorVivienda.tsx:92-110 | the sequential `set` calls build exactly `DetailsQuery` of the state |
| ValoraPage.PricePerM2 | app/valora-tu-vivienda/page.tsx:289-292 | the condition's price, else the `buen_estado` price, else 1800: it never fails |
| ValoraPage.DefaultPrices | app/valora-tu-vivienda/page.tsx:40-46 | with the default table the price is one of its four, 1800 for any unknown condition |
| ValoraPage.Bonus | app/valora-tu-vivienda/page.tsx:294-298 | only "si" adds a bonus: the configured one when there is one, 0.05 otherwise |
| ValoraPage.FactorFromConfig | app/valora-tu-vivienda/page.tsx:294-300 | the factor is 1 plus, for each amenity answered "si", the CRM's `modifiers.garage` / `modifiers.terrace` when configured and 0.05 when not |
| ValoraPage.AmenityNeverLowers | app/valora-tu-vivienda/page.tsx:294-300 | with bonuses that are not negative, the factor is at least 1 and answering "si" for an amenity never lowers it |
| ValoraPage.DefaultFactor | app/valora-tu-vivienda/page.tsx:294-300 | with the default configuration the factor is 1 plus 0.05 per "si", so it lies in [1, 1.1] |
| ValoraPage.CalculateValuation | app/valora-tu-vivienda/page.tsx:285-287 | there is no result exactly when `Number(size)` is NaN or at most 0 |
| ValoraPage.RangeOrdered | app/valora-tu-vivienda/page.tsx:301-306 | with positive price, factor and ordered positive multipliers, both ends are finite with 0 < min ≤ max, or both +∞ |
| ValoraPage.DefaultRangeOrdered | app/valora-tu-vivienda/page.tsx:40-49 | with the default configuration every valuation is ordered |
| ValoraPage.ValuationValue | app/valora-tu-vivienda/page.tsx:285-306 | for any finite positive size m, the range is exactly m × price × factor × 0.93 (or `minMultiplier`) to m × price × factor × 1.05 (or `maxMultiplier`): the area is neither clamped nor rounded |
| ValoraPage.TenMetres | app/valora-tu-vivienda/page.tsx:285-306 | a worked example: 10 m² in good condition with no extras is 16 740 to 18 900 |
| ValoraPage.ValidateStep1 | app/valora-tu-vivienda/page.tsx:265-276 | step 1 is accepted exactly when address and city are not blank, every other field is filled and the size is a number |
| ValoraPage.ValidStep1Valuation | app/valora-tu-vivienda/page.tsx:265-287 | after step 1 is accepted, the valuation fails only for a size of 0 or less |
| ValoraPage.BlankSizePassesStep1 | app/valora-tu-vivienda/page.tsx:269 | a size of one space passes step 1, yet no valuation can be made for it |
| ValoraPage.ValidateStep2 | app/valora-tu-vivienda/page.tsx:278-283 | the contact check accepts exactly what the detailed form's lead gate accepts |
| ValoraPage.SubmittedStep1 | app/valora-tu-vivienda/page.tsx:309-317 | step 2 is reached exactly when step 1 validates, with the message cleared; otherwise the stage stays and the message is shown; the steps, configuration, result and lead are kept |
| ValoraPage.SubmitStarted | app/valora-tu-vivienda/page.tsx:319-340 | starting the step-2 submit stays on step 2 and keeps both steps, the configuration and the result |
| ValoraPage.SubmitStartedOutcomes | app/valora-tu-vivienda/page.tsx:319-340 | a lead is sent exactly when step 2 validates and a valuation exists, carrying both steps, the configuration and that valuation, with the message cleared; otherwise only the message changes, to the contact message or to the size message |
| ValoraPage.LeadSettled | app/valora-tu-vivienda/page.tsx:338-371 | when the POST ends, whatever the stage is then, the page goes to the result stage and shows the lead's valuation; steps, configuration and message are kept |
| ValoraPage.SubmitStep2Outcomes | app/valora-tu-vivienda/page.tsx:319-371 | with nothing happening while the POST is pending, the result stage is reached exactly when step 2 validates and a valuation exists, showing that valuation; otherwise the contact or size message is shown and nothing else changes |
| ValoraPage.LeadDeliveryIrrelevant | app/valora-tu-vivienda/page.tsx:338-365 | a failed lead POST leads to the same page as a delivered one |
| ValoraPage.EventsKeepReached | app/valora-tu-vivienda/page.tsx:309-372 | every event, in any order, including the POST ending after "Volver" and edits, keeps the stage guarantees: in step 2, step 1 is valid; a lead sent has valid steps and carries its step 1's valuation; the result stage shows that valuation, once the POST has ended |
| ValoraPage.BackDuringPost | app/valora-tu-vivienda/page.tsx:338-371 | going back and blanking the address while the POST is pending still ends in the result stage, with a step 1 that no longer validates and the valuation of the step 1 that was sent |
| ValoraPage.Score | app/valora-tu-vivienda/page.tsx:104-113 | −20 exactly for a Madrid hint, −10 exactly for a Toledo hint without a Madrid one, 0 otherwise |
| ValoraPage.SuggestionsRanked | app/valora-tu-vivienda/page.tsx:220-222 | the suggestions are the Spanish candidates with their multiplicities, sorted by score, with ties in response order and Madrid first |
| ValoraPage.LookupEffect | app/valora-tu-vivienda/page.tsx:199-205 | a query under 4 characters empties the list, stops loading and schedules nothing; a longer one schedules a lookup |
| ValoraPage.QueryTyped | app/valora-tu-vivienda/page.tsx:449-455 | typing sets the query, shows the list and drops the selection; a changed short query empties the list, a changed long one schedules a lookup for it |
| ValoraPage.Answered | app/valora-tu-vivienda/page.tsx:214-228 | a lookup's end shows the ranked suggestions and stops loading |
| ValoraPage.Chosen | app/valora-tu-vivienda/page.tsx:246-263 | a choice is kept with numeric lat/lon, hides and empties the list, and puts the place's name in the query; a changed name of 4 or more characters schedules a lookup for it |
| ValoraPage.QuietRanked | app/valora-tu-vivienda/page.tsx:162-166 | the initial suggestion state is ranked |
| ValoraPage.TypedKeepsRanked | app/valora-tu-vivienda/page.tsx:449-455 | typing keeps the suggestion list ranked |
| ValoraPage.AnsweredRanked | app/valora-tu-vivienda/page.tsx:220-224 | a lookup's answer is always ranked |
| ValoraPage.ChosenRanked | app/valora-tu-vivienda/page.tsx:246-263 | choosing keeps the list ranked |
| ValoraPage.ReadUtm | app/valora-tu-vivienda/page.tsx:115-129 | no window gives null; otherwise null exactly when no `utm_*` key has a non-empty value, and else exactly the five keys present with a non-empty value, copied |
| ValoraPage.Page.constructor | app/valora-tu-vivienda/page.tsx:132-166 | the first render, with an empty, ranked suggestion box |
| ValoraPage.Page.LoadConfig | app/valora-tu-vivienda/page.tsx:173-190 | `j.data` replaces the configuration and sets the loaded flag; anything else keeps it and clears the flag |
| ValoraPage.Page.RunLookupEffect | app/valora-tu-vivienda/page.tsx:199-205 | the effect leaves the state `LookupEffect` describes |
| ValoraPage.Page.TypeAddress | app/valora-tu-vivienda/page.tsx:449-455 | typing updates the box as `QueryTyped` and step 1's address, keeping the page invariant |
| ValoraPage.Page.FireTimer | app/valora-tu-vivienda/page.tsx:207-212 | the timer starts loading and returns the query to look up |
| ValoraPage.Page.Answer | app/valora-tu-vivienda/page.tsx:214-228 | the answer shows the ranked suggestions (`Answered`) |
| ValoraPage.Page.Choose | app/valora-tu-vivienda/page.tsx:246-263 | choosing updates the box as `Chosen` and step 1's address and (when named) town |
| ValoraPage.Page.EditStep1 | app/valora-tu-vivienda/page.tsx:235-237 | editing a step-1 field other than the address changes only step 1 |
| ValoraPage.Page.EditStep2 | app/valora-tu-vivienda/page.tsx:239-244 | editing step 2 changes only step 2 |
| ValoraPage.Page.SubmitStep1 | app/valora-tu-vivienda/page.tsx:309-317 | the submit leaves the state `SubmittedStep1` describes |
| ValoraPage.Page.SubmitStep2 | app/valora-tu-vivienda/page.tsx:319-340 | the submit leaves the state `SubmitStarted` describes, keeps the page invariant and returns the lead exactly when one is sent |
| ValoraPage.Page.LeadLanded | app/valora-tu-vivienda/page.tsx:362-371 | the end of the POST leaves the state `LeadSettled` describes and keeps the page invariant |
| ValoraPage.Page.GoBack | app/valora-tu-vivienda/page.tsx:751 | "Volver" returns to step 1 and changes nothing else |

## Left out

- I/O is not modelled: the network (`fetch`, the CRM configuration request, the lead POST and its body), timers, the Meta pixel `fbq` calls, `console` and navigation (`router.push`). Their answers are parameters, and a lookup's outcome is an input.
- JSON parsing and URL serialisation (`URLSearchParams`, `encodeURIComponent`) are left out. Parameters are maps, and duplicate query keys are not modelled (`get` returns the only value).
- Numbers are extended reals. There is no double rounding, no overflow to ±∞ and no signed zero. Rooms, bathrooms and prices in the forms are finite reals, so NaN in those inputs is not modelled. Only the area is a full JavaScript number. The number literal syntax covers decimal, exponent, `Infinity` and `0x`/`0o`/`0b`.
- Strings are sequences of code points, not UTF-16 units. `toLowerCase` and the `/i` regular expression fold ASCII and Latin-1 only.
- Null entries inside a response array are not modelled, and the route's `r?.address` on them is not modelled either. Places are records with optional parts.
- The page's address sync effect (lines 193-196) is not modelled. It only copies `step1.address` into an empty query, and the address box already writes both.
- The page's `submitting` flag is the lead being pending; it is not a separate field. A submit whose valuation fails sets it and clears it with no await between, so it is not visible. The generic "Ha ocurrido un error" branch is not modelled: nothing in the modelled code throws there.
- The widget's `value` prop is assumed to be echoed back by the parent. The widget state holds the text itself.
- `mousedown` outside the widget, focus and blur handlers, the Enter key shortcut and everything rendered (labels, `eur`, `formatEUR`, WhatsApp text, `resumen`) are presentation and are left out.
- GeocodeRoute.Serve: describes one request with no other request in flight. Overlapping requests are modelled by `Step` and `Run`, one step before and one after the awaits. There, a second request for a key in flight searches again and the later completion overwrites the entry (`OverlappingRequestsOverwrite`). Each step is atomic, as the handler's code between two awaits is.
- ValoradorVivienda.DetailsQuoteSurvives: requires a non-negative bathroom count. The link clamps bathrooms to [0, 6], so a negative count comes back with a different factor.
- ValoraPage.EventsKeepReached: does not promise a valid step 1 in the result stage. The POST may end after "Volver" and an edit of step 1 (`BackDuringPost`), so the page can jump from step 1 to the result. What it does promise is that the result shown is the valuation of a lead whose steps validated when it was sent.
- The route's upstream URL (fixed `limit=8`, viewbox and `bounded=0`, User-Agent header) is not modelled. Only its answer is an input.
- The route's throwing paths are not modelled: a rejected `fetch`, a body that is not JSON, or a JSON body that is neither `null` nor an array (`(data || []).filter` then throws). Each answers status 500 and writes nothing to the cache, so for the cache it acts as the non-2xx case. Upstream answers are modelled as non-2xx, or as a `null` body or an array.
- The widget's props are fixed for its lifetime (`Autocomplete.props` is a `const`). The rerun of the lookup effect when `countryCode`, `viewbox` or `bounded` changes (AddressAutocomplete.tsx:136) is not modelled.
- Other repository files are not part of this model: pages, layout, map preview, lead form, relays and sitemap.

## Findings

| source | as written | input that shows it | evidently intended | confidence | as-written member | corrected member |
|---|---|---|---|---|---|---|
| app/components/ValoradorDetalle.tsx:70-107 | On mount, the preload effect and the zone-sync effect both see the first render's zone "alcorcon". The sync queues `setEurM2Manual(2600)` after the preloaded manual price, so the price from the link is overwritten | `?zona=otro&m2=80&habitaciones=3&banos=1&eurM2Manual=3500` mounts with 2 600 €/m² and a central value of 216 403 instead of 291 312 | the sync should follow the zone the preload chose, so that the link's manual price survives | high, not executed | ValoradorDetalle.ManualPriceLostOnMount | ValoradorDetalle.ManualPriceKeptOnMount |
| app/components/AddressAutocomplete.tsx:89-101 | A query cut below 3 characters clears the list but does not abort the lookup in flight, because aborting happens only when the next timer fires. A late answer then lists candidates under the short query | type "Calle", let the timer fire, type "Ca", then the lookup answers with "Calle Mayor, Alcorcón, España": the list shows it for "Ca" | a too-short query should also abort the current lookup, so that nothing is listed for it | medium, not executed | AddressAutocomplete.StaleListForShortQuery | AddressAutocomplete.ShortQueryShowsNothing |

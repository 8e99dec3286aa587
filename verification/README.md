# crypto-dashboard data pipeline, in Dafny

The dashboard (`src/App.tsx`) charts Twitter sentiment about Bitcoin over a
chosen time window. Outside its presentation code it does five things, and
this project models each of them and proves their properties:

- **`fetcher` and the `memory-cache` store** (module `Cache`). A key-value
  store sits in front of the network. A key is served from the store when
  its stored value is truthy. Otherwise the network is asked once, and a
  decoded body is stored under the key. The refresh button empties the
  store. `Cache.Fetcher` is a class: `entries` is the store, `network` is a
  fixed oracle from key to answer, and the ghost `requests` log records what
  was actually sent to the network.
- **The `fetchAllData` loop of `useResponse`** (module `Pagination`). It
  follows the server's `nextStartTime` cursor from `start` until the cursor
  is falsy. It requests `${API_URL}/bitcoin/${cursor}/${end}` each time and
  concatenates the pages' `results`. It then publishes the list in the
  hook's `data`, `loading` and `error` state, or `null` on any failure.
  - `Pagination.Paginate` and `Pagination.Cursors` are the specification:
    the outcome of one cycle, and the cursors it requests.
  - `Pagination.CollectPages` is the loop, proved against that specification.
  - `Pagination.ResponseHook.FetchAllData` is the effect that sets the state.
- **The chart window** (module `Window`). `getStartTime` goes back by a
  duration code from `fromTime`, to the whole minute. The end of the query
  is the module-level `now`, truncated once at load time.
- **`transformTrends`** (module `Series`). It adds `tweetCount` to every
  sample, keeping order and fields.
- **The highlighted sample and the tick label** (`selectedResult` in
  `Series`, `twentyFourHourFormat` in `Labels`).

`Decimal` renders integers the way a template literal does, so that a
request URL can be written out. `Samples` holds the record types and
`Options` holds the option type.

JavaScript truthiness is modelled wherever the code tests a value directly:
- a cached body that is falsy counts as absent;
- a cursor of 0 ends the loop;
- an unset or 0 selection selects nothing;
- an empty array is truthy.

The code never rejects a duration code: any second character other than
`h` or `d` means a week (src/App.tsx:100), and the model adds no error case.

## Model

| member | source | states |
|---|---|---|
| Cache.Fetcher.constructor | src/App.tsx:13 | The store starts empty and nothing has been requested yet. |
| Cache.Fetcher.Fetch | src/App.tsx:35-44 | On a hit it returns the stored body and sends nothing. On a miss it sends exactly one request for that key and returns the network's answer. A decoded body is then stored under that key; a failure stores nothing. |
| Cache.Fetcher.Clear | src/App.tsx:166 | The store is emptied, so every key misses afterwards; the request log is untouched. |
| Cache.Resolve | src/App.tsx:35-44 | What `fetcher(url)` resolves to. A hit always yields a truthy decoded body, and a failure can only come from a miss. Its agreement across fetches is in StoreTransparent / StoreAllTransparent. |
| Cache.Store | src/App.tsx:36-42 | The store after one `fetcher(url)`: at most the fetched key is added, and every other entry keeps its value. Which keys hit afterwards is in StoreHits. |
| Cache.StoreAll | src/App.tsx:35-44 | The store after a run of fetches: no entry disappears, and every new key is one that was fetched. See StoreAllKeepsHits / StoreAllHitsOnly / StoreAllCaches. |
| Cache.Misses | src/App.tsx:36-40 | The keys a run of fetches sends to the network, in order, at most one per fetch. See MissesBounded / MissesAllCached / MissesAllUncached. |
| Cache.FetchOneMore | src/App.tsx:35-44 | A run of fetches with one more key on the end changes the store and request log by that single fetch. |
| Cache.StoreTransparent | src/App.tsx:35-44 | After any fetch, every key resolves to the answer it resolved to before. |
| Cache.StoreHits | src/App.tsx:36-42 | After a fetch, a key is served from the store exactly when it was before, or when it is the fetched key and the server sent a truthy body. Entries already served keep their value. An immediate repeat returns the same answer without a request. |
| Cache.StoreAllTransparent | src/App.tsx:35-44 | A whole run of fetches leaves every key resolving as before. |
| Cache.StoreAllKeepsHits | src/App.tsx:36-42 | An entry served before a run of fetches is still served, with the same value, after it. |
| Cache.StoreAllHitsOnly | src/App.tsx:42 | Entries appear only for keys that were fetched. |
| Cache.StoreAllCaches | src/App.tsx:40-42 | Every fetched key whose answer is a truthy body is served from the store afterwards. |
| Cache.MissesBounded | src/App.tsx:36-40 | A run of fetches sends at most one request per fetch, and only for keys it fetched. |
| Cache.MissesAllCached | src/App.tsx:36-39 | Fetching keys that are all served from the store sends nothing and changes nothing. |
| Cache.MissesAllUncached | src/App.tsx:40 | Fetching distinct keys, none of them stored, sends every one of them, in order. |
| Decimal.NatToString | src/App.tsx:57 | The decimal rendering is non-empty and all digits. It starts with '0' only for zero, and it is one character long exactly below ten. |
| Decimal.IntToString | src/App.tsx:57 | The rendering of an integer is digits, with a leading '-' exactly when the number is negative. |
| Decimal.NatToStringRoundTrip | src/App.tsx:57 | Parsing the rendering of a natural number gives the number back. |
| Decimal.IntToStringRoundTrip | src/App.tsx:57 | Parsing the rendering of any integer gives it back. |
| Decimal.IntToStringInjective | src/App.tsx:57 | Different integers render differently. |
| Pagination.Url | src/App.tsx:57 | The URL `${API_URL}/bitcoin/${cursor}/${end}` of a page request. It always starts with the API URL and the fixed `/bitcoin/` segment, whatever coin is chosen. Its injectivity is in UrlInjective. |
| Pagination.UrlInjective | src/App.tsx:57 | Two page requests to the same API with the same URL have the same cursor and the same end, so the URL identifies the request. |
| Pagination.RequestsAt | src/App.tsx:54-59 | Request i of a cycle is the page at cursor i. Every request has the same end and the fixed `bitcoin` segment. |
| Pagination.RequestsDistinct | src/App.tsx:57 | Distinct cursors give request URLs that are pairwise distinct. |
| Pagination.Paginate | src/App.tsx:53-66 | The outcome of one cycle: the whole list, the failure that aborted it, or pending when the page budget runs out. A pending or aborted cycle had a truthy start, an aborted one made a request, and a completed one with a truthy start got a page for it. Its meaning is in CompleteFollowsChain / ChainCompletes / FalsyStart. |
| Pagination.Cursors | src/App.tsx:54-59 | The cursors one cycle requests, in order. It has no contract of its own; its shape is in CursorsShape and its agreement with the server's chain in CompleteFollowsChain / ChainCompletes. |
| Pagination.CursorsShape | src/App.tsx:54-59 | At most one request is made per allowed page, and none for a falsy start. The first request is at `start` and every requested cursor is truthy. Each next cursor is the previous page's `nextStartTime`. |
| Pagination.ChainCons | src/App.tsx:57-59 | A page whose `nextStartTime` begins a chain extends that chain by its own cursor at the front. |
| Pagination.ChainTail | src/App.tsx:56-59 | Conversely, a chain from a truthy cursor is that cursor's page followed by the chain from its `nextStartTime`. |
| Pagination.CompleteFollowsChain | src/App.tsx:53-60 | A completed cycle followed the server's cursor chain to a falsy cursor. Its result is those pages' `results` concatenated in request order. |
| Pagination.ChainCompletes | src/App.tsx:53-62 | Conversely, a server chain that fits the page budget yields exactly that concatenation, requesting exactly those cursors. |
| Pagination.FalsyStart | src/App.tsx:54-56 | A falsy start sends no request and yields the empty list. |
| Pagination.PaginateFuelMonotone | src/App.tsx:56-60 | Once the page budget suffices, a larger budget changes neither the outcome nor the requests. |
| Pagination.ChainNoRepeat | src/App.tsx:56-59 | In a chain that ends, no cursor repeats. |
| Pagination.ChainDistinct | src/App.tsx:56-59 | The cursors of a completed chain are pairwise distinct. |
| Pagination.PaginateAfterStoreAll | src/App.tsx:57 | The store changes neither the outcome nor the requested cursors. A cycle over a store left behind by earlier fetches behaves as it would over the original store. |
| Pagination.RepeatServedFromCache | src/App.tsx:36-38 | Repeating a completed cycle over the store it left behind sends no request and leaves the store as it is. It yields the same data and the same cursors. |
| Pagination.ClearedCycleRequestsEveryPage | src/App.tsx:166 | After `mcache.clear()`, a completed cycle sends exactly one request per page, in request order. |
| Pagination.PrependTwice | src/App.tsx:58 | Pushing two runs of results in turn is the same as pushing their concatenation. |
| Pagination.AdvanceOnPage | src/App.tsx:57-59 | After a page, the accumulator grows by its results and the cursor moves to its `nextStartTime`. |
| Pagination.StopOnFailure | src/App.tsx:63-66 | A failed fetch aborts the cycle with that error, and a body that is not a page aborts it as not-a-page. Either way that request was the last. |
| Pagination.StopAtGuard | src/App.tsx:56-62 | A falsy cursor completes the cycle with the accumulated list; an exhausted page budget leaves it pending. |
| Pagination.FetchBookkeeping | src/App.tsx:57 | The next request resolves as it would against the cycle's initial store. |
| Pagination.FetchPage | src/App.tsx:57 | One request of the loop returns the initial store's answer for the current cursor. The store and request log then account for one more page. |
| Pagination.CollectPages | src/App.tsx:53-60 | The loop's outcome is `Paginate` from `start`. The final store and request log are those of fetching exactly the `Cursors` requests in order. |
| Pagination.ResponseHook.constructor | src/App.tsx:47-49 | `data` starts null, `loading` false and `error` unset. |
| Pagination.ResponseHook.FetchAllData | src/App.tsx:51-68 | On success, `data` is the whole accumulated list and `loading` is false, with the previous error left in place. On any failure, `data` is null (never partial), `loading` is false and `error` holds the cause. The store and request log match the cycle's requests. |
| Series.TransformTrends | src/App.tsx:84-90 | `transformTrends`: one row per sample. Fields, order and `tweetCount` are in TransformTrendsRows / TransformTrendsConcat. |
| Series.TransformTrendsRows | src/App.tsx:84-90 | Same length and order; row i keeps every field of sample i and `tweetCount` is the number of its tweet ids. |
| Series.TransformTrendsConcat | src/App.tsx:84-90 | The transform maps a concatenation of sample runs to the concatenation of the transformed runs. |
| Series.FindByTime | src/App.tsx:122 | The index of the first sample with the given timestamp, or the length when there is none. |
| Series.SelectedResult | src/App.tsx:119-123 | There is no sample without data, and the last sample (or none for an empty list) when nothing is selected. Otherwise it is the first sample stamped with the selection, and it exists exactly when some sample carries that stamp. |
| Window.Offset | src/App.tsx:99-100 | The digit times 3 600 000 ms for `h`, times 86 400 000 for `d`, and times 604 800 000 for anything else. The result is a whole number of minutes, and zero exactly for the digit 0. |
| Window.TruncateToMinute | src/App.tsx:92-94 | The result is a multiple of 60 000, at most the instant and less than a minute before it. |
| Window.StartTime | src/App.tsx:98-105 | The result is a multiple of 60 000 with start ≤ fromTime − offset < start + 60 000, so it lies strictly before `fromTime` for a non-zero digit. It equals the truncated `fromTime` minus the offset. |
| Window.QueryWindow | src/App.tsx:113-117 | The query's start follows `fromTime` and its end is the load-time clock truncated to the minute; both are whole minutes. |
| Window.DurationOptionOffsets | src/App.tsx:96-100 | The six offered codes give one, two and four hours, one and two days, and a week. `12h` reads as a week. |
| Window.FourHourWindowExample | src/App.tsx:98-105 | A four-hour window back from 12:00:30.500 starts at 08:00:00. |
| Window.QueryWindowInvertedAfterRefresh | src/App.tsx:92-94 | Refreshing more than a window length plus a minute after load puts the query start after its end. |
| Window.StaleEndExample | src/App.tsx:113-117 | A concrete four-hour window refreshed five hours after load, with its start after its end. |
| Window.RefreshedWindow | src/App.tsx:113-117 | With the end recomputed from `fromTime`, the window is exactly the offset long, in whole minutes, and non-empty for a non-zero digit. |
| Labels.TwoDigits | src/App.tsx:75-80 | At least two digits, exactly two below 100, reading back as the number. |
| Labels.TwentyFourHourFormat | src/App.tsx:74-81 | The label is `HH:MM`: five characters with a colon in the middle and two zero-padded digits on each side. They read back as the hour and the minute. |

## Left out

- React machinery: state setters are field assignments. One effect run is one sequential method call. Re-renders, effect scheduling and overlapping runs are not modelled.
- The real `fetch` and `response.json()`: the network is a fixed map from request to answer. A request it does not answer fails to connect. Timing, retries and non-determinism are not modelled.
- The internals of the `memory-cache` library: only get, put and clear over a map are modelled.
- Cache.Fetcher: the store is generic in its key. The pagination keys it by the page request (API URL, cursor, end) rather than by the rendered URL text. `Pagination.UrlInjective` shows the rendering is one-to-one, so both keyings hit and miss alike.
- Pagination.ResponseHook.FetchAllData: the `while (startPoint)` loop has no bound in the code. The model stops after `maxPages` requests and leaves the hook `loading`, with its data untouched (`Pending`). This is what a still-running loop shows. Below that bound the model is exact.
- Pagination.CollectPages: bounded by `maxPages` in the same way.
- Cache.Body: a decoded JSON value is either a page (results and a cursor) or "not a page" with its truthiness. A missing or non-numeric `nextStartTime` is taken as the falsy cursor 0. Spreading a non-array `results` that happens to be iterable is not modelled; it aborts here.
- Decimal.IntToString: renders integers in plain decimal. JavaScript's exponent notation for magnitudes of 10^21 and above, and fractional cursors, are not modelled.
- `Date`, locale and time zones: times are integer milliseconds. Truncation to the minute is `t − t mod 60000`, and `toLocaleString` in the header is left out.
- Window.Offset: requires the first character of the code to be a digit. For any other first character `Number(v)` is not a digit value: a whitespace character (space, tab, newline, no-break space, byte-order mark) gives `0`, so the window has zero length, and any other character gives `NaN`. The `requires` leaves both cases out.
- Labels.TwentyFourHourFormat: takes the hour and minute that `getHours`/`getMinutes` would return, not a `Date`.
- Series.SelectedResult: the selection is an optional integer. A `NaN` selection is not modelled.
- Float fields (`usdRate` and the sentiment ratios) are carried as opaque 64-bit payloads.
- Presentation: the recharts components, JSX, layout, radio buttons, styling, the duration buttons and the commented-out coin selector are not modelled.

## Findings

| source | as written | input that shows it | evidently intended | confidence | as-written member | corrected member |
|---|---|---|---|---|---|---|
| src/App.tsx:92-94, 113-117, 166 | The query end is `now`, fixed once at module load. The refresh button moves `fromTime` and so the start, but never the end. | Load at 12:00:30.500, choose `4h`, refresh at 17:00:30.500: the start is 13:00:00 and the end is 12:00:00 | The end is recomputed with the start, so the window is the chosen length ending at the refresh time | not executed; high that the start passes the end, medium that a fixed end was not intended | Window.QueryWindowInvertedAfterRefresh | Window.RefreshedWindow |

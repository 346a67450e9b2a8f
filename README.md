# Pincode fetcher — a Dafny model

This project models the non-visual core of the `PincodeFetcher` React component
(`src/components/picodeFetcher.jsx`). The user types a postal pincode and presses
"Fetch Data". The component asks the postal lookup service for the matching post
offices and keeps the first element of the response as its `result`. It then shows
the offices as cards. A search field narrows the cards to the offices whose name,
district, state or country starts with the typed text, ignoring case. A toast
(the "snackbar") reports whether the fetch succeeded.

The model has four modules:

- `Wrappers` (`wrappers.dfy`): `Option`, which stands for JavaScript's `null`/`undefined`.
- `JsBuiltins` (`js_builtins.dfy`): the JavaScript built-ins the component uses.
  `toLowerCase` is an ASCII case fold, `startsWith` is the sequence prefix relation,
  and `data[0]` is an element read that yields `undefined` out of range.
- `PostOfficeFilter` (`post_office_filter.dfy`): the `PostOffice` and `LookupResult`
  records and the derived `filteredPostOffices` list, with its properties.
- `Component` (`component.dfy`): the class `PincodeFetcher`. It holds the five state
  slots (`pincode`, `result`, `searchTerm`, `loading`, `snackbar`) as fields and the
  event handlers as methods. The module also holds the rule that chooses what the
  result pane shows, and a worked session for pincode 411001.

The network request is not performed. `HandleFetch` returns the URL it would request
and is given the outcome as a parameter. The outcome is either `Fetched(data)`, the
decoded JSON array, or `Failed`, meaning the request, the JSON decoding or the
`data[0]` read threw.

A failed fetch keeps the previous result and search term (lines 19-22).

## Model

| member | source | states |
|---|---|---|
| `JsBuiltins.ToLowerChar` | src/components/picodeFetcher.jsx:40-45 | the folded character is never an ASCII capital; a capital becomes the same letter in lower case; any other character is unchanged |
| `JsBuiltins.ToLower` | src/components/picodeFetcher.jsx:40-45 | `toLowerCase` keeps the length and folds each character independently |
| `JsBuiltins.StartsWith` | src/components/picodeFetcher.jsx:42-45 | `startsWith(p)` holds exactly when p is no longer than the string and agrees with it at each of p's positions |
| `JsBuiltins.ElementAt` | src/components/picodeFetcher.jsx:16 | `data[i]` is defined exactly when i is in range, and then it is the i-th element; otherwise it is `undefined` |
| `JsBuiltins.ToLowerIdempotent` | src/components/picodeFetcher.jsx:40 | lower-casing an already lowered string changes nothing |
| `JsBuiltins.ToLowerKeepsPrefix` | src/components/picodeFetcher.jsx:40-45 | if s starts with p, then lower(s) starts with lower(p) |
| `PostOfficeFilter.OfficesOf` | src/components/picodeFetcher.jsx:39 | `result?.PostOffice` is present exactly when there is a result and it carries an office array |
| `PostOfficeFilter.Matches` | src/components/picodeFetcher.jsx:40-46 | the empty term matches every office, and a term that is an exact-case prefix of the name, district, state or country always matches |
| `PostOfficeFilter.FilterOffices` | src/components/picodeFetcher.jsx:39-46 | the kept list is no longer than the input, and an office is in it iff it is in the input and its name, district, state or country, lowered, starts with the lowered term |
| `PostOfficeFilter.FilteredPostOffices` | src/components/picodeFetcher.jsx:39-47 | the list is `[]` when there is no result or no `PostOffice` array; otherwise an office is in it iff it is one of the result's offices and matches the term |
| `PostOfficeFilter.FilterKeepsMatchingPositions` | src/components/picodeFetcher.jsx:39-46 | there is an increasing list of positions that selects exactly the matching offices of the input, and the filtered list reads the input at those positions in order |
| `PostOfficeFilter.FilterIsSubsequence` | src/components/picodeFetcher.jsx:39-46 | the filtered list is a subsequence of the office list: filtering never adds or reorders offices |
| `PostOfficeFilter.FilterEmptyTermIsIdentity` | src/components/picodeFetcher.jsx:40-45 | with the empty search term every office is kept, in order: the filter is the identity |
| `PostOfficeFilter.FilterIsCaseInsensitive` | src/components/picodeFetcher.jsx:40-45 | two search terms with the same lower-case form give identical filtered lists |
| `PostOfficeFilter.FilterByLoweredTerm` | src/components/picodeFetcher.jsx:40 | filtering by the lowered term gives the same list as filtering by the term itself |
| `PostOfficeFilter.FilterNarrowsAsTermGrows` | src/components/picodeFetcher.jsx:40-45 | when the longer term extends the shorter one, filtering the shorter term's list by the longer term equals filtering the whole list by the longer term |
| `PostOfficeFilter.FilterIgnoresPincode` | src/components/picodeFetcher.jsx:42-45 | the `Pincode` field is never consulted: blanking every pincode before or after filtering gives the same list |
| `PostOfficeFilter.FilteredIsEmptyWithoutOffices` | src/components/picodeFetcher.jsx:39-47 | with no result, or a result without a `PostOffice` array, the filtered list is `[]` for every term |
| `PostOfficeFilter.PrefixNotSubstring` | src/components/picodeFetcher.jsx:42-45 | matching is by prefix, not by substring: "Vadgaon Sheri" (Pune, Maharashtra, India) is kept for "Vad" and dropped for "Sheri" |
| `Component.SelectView` | src/components/picodeFetcher.jsx:95-143 | the spinner shows iff loading; cards show iff not loading, a result is present and the filtered list is non-empty, and they are exactly that list; "No Name Found" shows iff not loading, a result is present and the list is empty; the placeholder shows iff not loading and there is no result |
| `Component.FreshResultShowsAllOffices` | src/components/picodeFetcher.jsx:102-131 | once loading is over, a result carrying a non-empty office array shows every one of its offices as cards when the search term is empty |
| `Component.ResultWithoutOfficesShowsNoNameFound` | src/components/picodeFetcher.jsx:102-138 | a result without a `PostOffice` array shows the "No Name Found" message, not the placeholder |
| `Component.PincodeFetcher.constructor` | src/components/picodeFetcher.jsx:5-9 | the initial state is an empty pincode, no result, an empty search term, not loading, and a closed success toast with an empty message |
| `Component.PincodeFetcher.Filtered` | src/components/picodeFetcher.jsx:39-47 | the component's current list holds exactly the offices of its result that match its search term |
| `Component.PincodeFetcher.CurrentView` | src/components/picodeFetcher.jsx:95-143 | the pane shows the spinner iff loading; the placeholder iff not loading with no result; cards iff not loading, a result is present and the filtered list is non-empty, and the cards are then exactly that list (an order-preserving subsequence of the result's offices, holding exactly the offices that match the search term); "No Name Found" iff not loading, a result is present and the filtered list is empty |
| `Component.PincodeFetcher.SetPincode` | src/components/picodeFetcher.jsx:63 | the pincode becomes the typed text; result, search term, loading and toast are unchanged |
| `Component.PincodeFetcher.HandleSearchChange` | src/components/picodeFetcher.jsx:26-28 | the search term becomes the typed text and nothing else changes; the shown list is the filter under the new term |
| `Component.PincodeFetcher.ShowSnackbar` | src/components/picodeFetcher.jsx:31-33 | all three toast fields are overwritten (open, the message, the severity); pincode, result, search term and loading are unchanged |
| `Component.PincodeFetcher.HandleCloseSnackbar` | src/components/picodeFetcher.jsx:35-37 | only `open` becomes false; message and severity keep their values; pincode, result, search term and loading are unchanged |
| `Component.PincodeFetcher.HandleFetch` | src/components/picodeFetcher.jsx:11-24 | it requests the endpoint followed by the pincode, and loading ends false. On success the result is the response's first element, or none for an empty array; the search term is `""` whatever it was; a success toast is open; the shown list is all the new result's offices. On failure result, search term and shown list are unchanged and an error toast is open |
| `Component.ShivajinagarSession` | src/components/picodeFetcher.jsx:11-47 | fetching 411001 with a one-office response shows that office as a card; the term "shiv" keeps the card; "xyz" shows the empty-state message |
| `Component.ShivMatches` | src/components/picodeFetcher.jsx:42-45 | the term "shiv" keeps the Shivajinagar office |
| `Component.XyzMatchesNothing` | src/components/picodeFetcher.jsx:42-45 | the term "xyz" drops the Shivajinagar office |

## Left out

- The HTTP request and `response.json()` (lines 14-15) are foreign I/O. `HandleFetch` takes their outcome as a parameter and returns the URL.
- A response that decodes to something other than an array is not modelled. For a JSON object, `data[0]` is `undefined`; for `null`, it throws. The outcome type only admits a decoded array or a failure.
- The `await` suspension points are not modelled: `HandleFetch` is one atomic step that sets `loading` to true, then to false. So the last-write-wins race between overlapping fetches is not captured, and neither is an observable state with `loading` true.
- React's stale closure in `handleCloseSnackbar` is not modelled. The handler spreads the render-time `snackbar`; under the atomic model that is the current value.
- The 1000 ms auto-hide timer (line 149) and the toast's click-away close are timing and UI events. Each is modelled as a call to `HandleCloseSnackbar`.
- `console.error` (line 20) is diagnostic output only.
- JavaScript's full Unicode `toLowerCase` is not modelled. `ToLowerChar` folds ASCII capitals only, so non-ASCII letters such as accented capitals are compared unfolded.
- Office records with a missing field are not modelled. Every `PostOffice` field is a string, so the `toLowerCase` call on a missing field, which throws, has no counterpart.
- The JSX layout and the MUI components (lines 50-158) are presentation. Only the choice among spinner, cards, empty-state message and placeholder (`SelectView`) is modelled. The search bar that appears whenever a result is present (line 78) is not modelled.
- The `status` and `message` fields of a lookup result are carried but never read, as in the source, where their display is commented out.

# Quotely core, modelled in Dafny

Quotely is a single-page quote viewer. `app.js` holds one class,
`QuotelyApp`. This project models its deterministic core:

- **The quote collection.** The app keeps a built-in fallback dictionary:
  six categories of four or five quotes each. A refresh starts from a
  shallow copy of that dictionary. Each remote quote is normalised to
  `{text, author}` and routed round-robin to `categories[index % 6]`. It is
  appended only if its category has no quote with the same text. Because
  the copy is shallow, the pushes also grow the fallback dictionary's own
  arrays. The model keeps that sharing: each JavaScript array is a
  `QuoteList` heap object.
- **The navigation cursor.** The cursor is a category and an index into
  it. The model covers `switchCategory`, `previousQuote`, `nextQuote`, the
  random jump `getNewQuote`, and the logo's reset to the first quote. It
  also covers which quote `displayCurrentQuote` shows and which buttons
  `updateNavigation` disables.
- **The retry loop of `fetchWithRetry`.** The transport is abstract. The
  model covers the first success, the rethrow of the last error, the
  `1000 * (i + 1)` ms waits, and `retries <= 0`.

Modules, one per file:

| file | module | contents |
|---|---|---|
| `wrappers.dfy` | `Wrappers` | `Option` |
| `quotes.dfy` | `Quotes` | a quote and a raw API record, the normalisation, the six categories, the fallback data |
| `merge.dfy` | `QuoteMerge` | the merge done by `processApiQuotes`, as a pure function over values, and its lemmas |
| `navigation.dfy` | `Navigation` | the cursor arithmetic, the selectors, the redraw loop of `getNewQuote` |
| `retry.dfy` | `Retry` | `fetchWithRetry` over an abstract transport |
| `app.dfy` | `Quotely` | the `QuotelyApp` class and the `QuoteList` array objects, proved against `QuoteMerge` and `Navigation` |

How JavaScript values are encoded:

- A field of an API record is `Option<string>`. `None` stands for
  `undefined` or `null`. JavaScript falsiness is the empty string or `None`.
- The `apiQuotes` argument is `Option<seq<Option<RawQuote>>>`:
  - `None` is a value that is not an array, which the code skips;
  - an element `None` is a `null`/`undefined` element. Reading `.q` on it
    throws a TypeError, and the pushes made before it stay.
- `Math.random()` is a sequence of draws, each a real in `[0, 1)`.

## Model

| member | source | states |
|---|---|---|
| `Quotes.FirstTruthy` | app.js:219-220 | the `a \|\| b \|\| default` chain never yields an empty string |
| `Quotes.Normalise` | app.js:218-221 | a formatted quote always has a non-empty text and author |
| `Quotes.NormaliseChoice` | app.js:218-221 | text is `q` if truthy, else `text` if truthy, else "No quote available"; author is `a`, else `author`, else "Unknown" |
| `Quotes.FormattedRoundTrip` | app.js:218-221 | a formatted `{text, author}` object with non-empty fields, read back through the long fields, formats to itself |
| `Quotes.NormaliseIdempotent` | app.js:218-221 | formatting a formatted quote again, read back through the long fields, gives the same quote |
| `Quotes.EmptyFieldIsAbsent` | app.js:219-220 | an empty string in any of the four fields behaves exactly like an absent one |
| `Quotes.Truthy` | app.js:219-220 | JavaScript truthiness of a field: present and not the empty string |
| `Quotes.HasText` | app.js:223-225 | `list.some(q => q.text === text)`: some quote of the list has exactly this text |
| `Quotes.Get` | app.js:263 | `quotes[category] \|\| []`: the category's list, or empty when the key is missing |
| `Quotes.CategoriesDistinct` | app.js:5 | there are six categories, pairwise distinct |
| `Quotes.FallbackCategories` | app.js:13-51 | the fallback dictionary has exactly the six categories as keys, with 4 to 5 quotes each |
| `Quotes.FallbackDistinctFirstHalf` | app.js:14-32 | in Inspiration, Love and Humor, the fallback texts are pairwise distinct |
| `Quotes.FallbackDistinctSecondHalf` | app.js:33-50 | in Life, Wisdom and Motivation, the fallback texts are pairwise distinct |
| `QuoteMerge.LeadingObjects` | app.js:209 | the `forEach` gets through exactly the elements before the first `null`/`undefined` one |
| `QuoteMerge.Processed` | app.js:207-209 | `apiQuotes && Array.isArray(apiQuotes)`: a non-array contributes nothing, an array contributes its leading objects |
| `QuoteMerge.Route` | app.js:210-211 | `categories[index % categories.length]`: always one of the categories, and the index itself for the first round |
| `QuoteMerge.Merge` | app.js:209-229 | the whole `forEach` over values: element `i` is normalised and added with `Add` at `Route(i)`, in index order, starting from the given collection |
| `QuoteMerge.Ensure` | app.js:213-215 | the missing-list step: the category is present afterwards with its old quotes, and nothing else changes |
| `QuoteMerge.AddAfterEnsure` | app.js:213-229 | creating the empty list first yields the same collection as adding straight away |
| `QuoteMerge.Add` | app.js:213-229 | one loop step: the other categories are untouched; the old list is a prefix of the new one; the text is present afterwards; a quote whose text is already there changes nothing, otherwise it is appended at the end |
| `QuoteMerge.AddGrows` | app.js:227-228 | after one step, every category's old list is a prefix of its new one |
| `QuoteMerge.AddKeepsDistinct` | app.js:223-229 | one step keeps a category's texts pairwise distinct |
| `QuoteMerge.AddKeepsText` | app.js:223-229 | a text present in a category stays present after one step |
| `QuoteMerge.AddOther` | app.js:227-228 | a step leaves every other category exactly as it was |
| `QuoteMerge.HasTextGrows` | app.js:223-225 | a text found in a list is found in any extension of it |
| `QuoteMerge.MergeGrows` | app.js:227-228 | placement: after the whole merge, each category's old quotes keep their positions (the old list is a prefix) |
| `QuoteMerge.MergeOrigin` | app.js:209-211 | routing: every quote appended to category `c` is the normalised form of some element `i` with `categories[i % n] == c` |
| `QuoteMerge.MergeUntouched` | app.js:209-211 | a category no element is routed to is unchanged |
| `QuoteMerge.MergeComplete` | app.js:209-229 | after the merge, element `i`'s text is in category `categories[i % n]`, whether it was added or already there |
| `QuoteMerge.MergeCompleteLast` | app.js:223-229 | the last element's text is in its category after the merge |
| `QuoteMerge.MergeKeepsDistinct` | app.js:223-229 | dedup: a category whose texts were pairwise distinct stays so |
| `QuoteMerge.MergeNothingNew` | app.js:223-229 | a merge whose every text is already in its target category changes nothing |
| `QuoteMerge.MergeIdempotent` | app.js:205-229 | re-merging the same elements into the result adds nothing |
| `QuoteMerge.MergeSnoc` | app.js:209 | the merge of a list plus one element is one more step at that element's category |
| `QuoteMerge.MergeStep` | app.js:209 | the merge of a prefix one element longer is one more step |
| `QuoteMerge.MergeFirst` | app.js:209-211 | a one-element response goes to the first category |
| `QuoteMerge.MergeSecond` | app.js:209-211 | the second element of a two-element response goes to the second category |
| `QuoteMerge.MergeFirstTwo` | app.js:209-229 | the first two elements go to the first two categories, after the quotes already there, when their texts are new |
| `QuoteMerge.TwoQuoteScenario` | app.js:13-51 | two API quotes merged into the fallback data land at the end of Inspiration and Love |
| `Navigation.Previous` | app.js:320-326 | steps back by one exactly when the index is positive; it never wraps |
| `Navigation.Next` | app.js:328-335 | steps forward by one exactly when a later quote exists; an in-range index stays in range |
| `Navigation.ShownQuote` | app.js:262-266 | nothing is shown for an empty category; otherwise `seq[index]` when in range, else `seq[0]` |
| `Navigation.PrevDisabled` | app.js:303 | "previous" is disabled exactly when the index is 0, that is, when pressing it would not move |
| `Navigation.NextDisabled` | app.js:304 | "next" is disabled exactly when pressing it would not move |
| `Navigation.WalkInBounds` | app.js:320-335 | any sequence of previous/next presses keeps an in-range index in range |
| `Navigation.DrawIndex` | app.js:346 | `Math.floor(Math.random() * len)` is an index below `len` |
| `Navigation.RedrawIndex` | app.js:344-347 | the `do…while` returns the first draw whose index differs from the current one; it is in range and different, and with two quotes it is the other one |
| `Retry.ErrorOf` | app.js:378-383 | the caught error is the rejection of `fetch`, or `HTTP <status>` for a non-ok response |
| `Retry.Response.Ok` | app.js:379 | `response.ok`: a status in 200..299 |
| `Retry.Succeeded` | app.js:377-381 | an attempt succeeds exactly when `fetch` resolved and the response is ok |
| `Retry.Backoff` | app.js:385 | the wait after failed attempt `i`: `1000 * (i + 1)` ms |
| `Retry.FetchWithRetry` | app.js:375-388 | at most `retries` attempts; the first ok response is returned; the error of attempt `retries - 1` is rethrown; the waits are `1000 * (i + 1)` in order; for `retries <= 0`, no attempt and `undefined` |
| `Retry.TwoFailuresThenSuccess` | app.js:375-388 | an example: with the default two retries and a transport that fails twice, the call throws the second failure after one wait of 1000 ms |
| `Quotely.QuoteList.constructor` | app.js:214 | a new array holds the given quotes |
| `Quotely.QuoteList.PushUnlessPresent` | app.js:223-229 | `some` followed by `push`: the quote is appended exactly when its text is absent |
| `Quotely.Snapshot` | app.js:205 | the value of a dictionary of arrays: the same keys, the arrays' contents |
| `Quotely.NewFallbackLists` | app.js:13-51 | the fallback literal allocates one new array per category, no two shared |
| `Quotely.QuotelyApp.constructor` | app.js:4-51 | the initial state: the object invariant holds, the six categories, Inspiration, index 0, an empty collection, not loading, and fallback arrays holding the built-in quotes |
| `Quotely.QuotelyApp.Valid` | app.js:13-51 | the object's invariant: each of the categories has its own fallback array, holding at least four quotes, and no two keys of `quotes` share an array |
| `Quotely.QuotelyApp.Ready` | app.js:205-245 | the navigation bounds invariant once quotes are loaded: `quotes` is the fallback copy, the category is one of the six, the index names one of its quotes |
| `Quotely.QuotelyApp.CurrentQuotes` | app.js:263 | the current category's quotes, or empty |
| `Quotely.QuotelyApp.EnsureList` | app.js:213-215 | the category's array is created empty only when the key is missing; existing arrays stay; the contents become `QuoteMerge.Ensure` of the old ones |
| `Quotely.QuotelyApp.PushInto` | app.js:223-229 | the `some`/`push` on an existing array turns the contents into `QuoteMerge.Add` of the old ones |
| `Quotely.QuotelyApp.AddQuote` | app.js:213-229 | one loop iteration on the object matches `QuoteMerge.Add` on the values, and keeps existing arrays in place |
| `Quotely.QuotelyApp.RouteQuotes` | app.js:209-230 | the loop leaves the dictionary's arrays in place, and its result is `QuoteMerge.Merge` of the elements before the first `null`; a TypeError is raised exactly when such an element exists |
| `Quotely.QuotelyApp.CopyAndRoute` | app.js:205-231 | the shallow copy followed by the loop: `quotes` is the fallback dictionary's arrays, holding the merge of the processed elements into the old fallback contents; the TypeError case is exact |
| `Quotely.QuotelyApp.ProcessApiQuotes` | app.js:201-234 | as `CopyAndRoute`, and the object invariant is kept (every array only grew); an in-bounds cursor stays in bounds, and index 0 of any of the six categories is in bounds afterwards |
| `Quotely.QuotelyApp.UseFallbackQuotes` | app.js:236-239 | `quotes` becomes the fallback dictionary's arrays, with their current contents; an in-bounds cursor stays in bounds, and index 0 of any of the six categories is in bounds |
| `Quotely.QuotelyApp.SwitchCategory` | app.js:241-245 | the current category changes nothing; any other category becomes current at index 0, which is in range exactly when that category has quotes, and always is for one of the six once quotes are loaded; the bounds invariant is kept for any of the six |
| `Quotely.QuotelyApp.PreviousQuote` | app.js:320-326 | the index becomes `Navigation.Previous` of the old one, and stays in bounds; only the index changes; the bounds invariant is kept |
| `Quotely.QuotelyApp.NextQuote` | app.js:328-335 | the index becomes `Navigation.Next` of the old one over the category, and stays in bounds; only the index changes; the bounds invariant is kept |
| `Quotely.QuotelyApp.ResetToFirstQuote` | app.js:97-103 | the index becomes 0, which is in range exactly when the category has quotes, and always is for one of the six once quotes are loaded |
| `Quotely.QuotelyApp.GetNewQuote` | app.js:337-352 | no change while loading or with at most one quote; otherwise an in-range index different from the old one, taken from the first differing draw; every earlier draw hit the old index; with two quotes, the other quote; the bounds invariant is kept |
| `Quotely.QuotelyApp.DisplayCurrentQuote` | app.js:262-266 | the shown quote is `Navigation.ShownQuote` of the state, and the indexed quote when in bounds |
| `Quotely.QuotelyApp.UpdateNavigation` | app.js:297-304 | the button flags are `Navigation.PrevDisabled`/`NextDisabled`; in bounds, "next" is disabled exactly at the last quote |
| `Quotely.ProcessTwice` | app.js:201-234 | two refreshes with the same response leave the contents of one refresh, even though the second starts from grown fallback arrays |
| `Quotely.FallbackAfterRefresh` | app.js:205-239 | after a refresh, falling back still shows the remote quote, because the fallback arrays were shared |
| `Quotely.BrowseAfterRefresh` | app.js:201-245 | after any refresh, switching to any of the six categories, going to its first quote and pressing next leaves the cursor at index 1, in bounds |

## Left out

- The DOM and UI are not modelled: `bindEvents`, `setupIntersectionObserver`, `showApp`, the fades and `setTimeout` of `displayCurrentQuote`, the aria-label strings, `showErrorModal`/`hideModal`, the mobile menu and the reduced-motion check. They are browser glue. Only the shown quote and the button flags are kept.
- Persistence is not modelled. `loadStoredQuotes` and `saveQuotes` go through `sessionStorage` and JSON, which are foreign calls. `saveQuotes` is a no-op here.
- Network I/O is not modelled: `fetch`, `response.json()`, and the bodies of `fetchInitialQuotes` and `refreshQuotesFromAPI`. `Retry.FetchWithRetry` takes the transport's answers as a function `transport(i)`.
- Timers are not modelled. The backoff waits are returned as a list of milliseconds. The loading screen's delay is not modelled.
- Asynchronous interleaving is not modelled: the `isLoading` toggling across awaits and the `visibilitychange` handler. `GetNewQuote` only reads `isLoading`.
- The service-worker stub and the `module.exports` shim are not modelled.
- Floating point is not modelled. `Math.random()` values are reals in `[0, 1)`, and their product with the length is exact.
- `Quotely.QuotelyApp.GetNewQuote` assumes the random stream eventually yields a draw with a different index. Its `requires` states this. The source's `do…while` gives no such bound and only terminates with probability 1.
- `Navigation.RedrawIndex` carries the same `requires` on the draw stream, for the same reason.
- `Retry.FetchWithRetry` takes an integer `retries`. With a fractional `retries` the source never meets `i === retries - 1`, and returns `undefined` after a final wait. That case is not modelled.
- `Quotes.RawQuote` fields are strings or absent. Other JavaScript values (numbers, objects, `0`, `false`) in `q`, `text`, `a` or `author` are not modelled.
- The cursor index is a natural number. The source only ever assigns 0, ±1 steps within bounds, and draws from `Math.floor`, so it never holds a negative or fractional value.
- `Quotely.QuotelyApp.RouteQuotes` requires every category to have a list already. In the source this always holds, because `processApiQuotes` starts from the fallback copy, which has all six categories (`Quotely.QuotelyApp.Valid`). Therefore the model does not cover the source creating an empty list before throwing on a `null` element when a category is missing.
- `categories` is a field set by the constructor, which makes it the six names. It is never reassigned.
- `switchCategory` (app.js:241-245) has no check that the target is one of the six categories: it sets the category and resets the index for any name. The model follows the code; for a name that is not a key of `quotes`, `CurrentQuotes` is empty.
- `quotes` is modelled as a plain map without a prototype chain. In the source, a name inherited from `Object.prototype` such as `"constructor"` looks up a truthy function (`Object`, whose `length` is 1), so `quotes["constructor"] || []` is not empty there. Such names are not modelled.

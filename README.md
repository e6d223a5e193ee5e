# Crypto-Scroller coin feed, modelled in Dafny

The repository is one React component, `Coins`, that pages through a list
of crypto assets and shows them in an infinite-scrolling list. This project
models the two parts of it that carry logic:

- the pagination state machine of `fetchCoins`, over the component's five
  state cells `coins`, `loading`, `hasMore`, `totalCount` (fixed at 200) and
  `offset` (which starts one page before zero);
- `getCoinImageUrl`, which builds a coin's icon URL from its symbol.

Files:

- `options.dfy`, module `Options`: an `Option` type for a fetch outcome that may be missing.
- `icons.dfy`, module `Icons`: ASCII lower-casing, the icon URL, and its inverse `SymbolOfUrl`.
- `feed_spec.dfy`, module `FeedSpec`: the feed state as a value (`Feed`).
  It has the two steps of a load (`Begin`, `Complete`), whole loads (`Load`, `Loads`) and arbitrary call sequences (`Run`).
  The lemmas about any sequence of calls are here too.
- `coins_component.dfy`, module `CoinsComponent`: class `CoinFeed`.
  Its fields are the five state cells, and its methods `BeginLoad`, `CompleteLoad` and `FetchCoins` change them in place.
  Each method is tied to the value-level step it performs.
  A client method replays a failed load, a retry at the same offset, and two pages that reach the total.

The page size `ITEMS_PER_PAGE` comes from a constants file that is not part of this model.
It is a parameter here: `p` in `FeedSpec`, `itemsPerPage` in `CoinFeed`.
The invariant and the offset lemmas assume it is positive.

A load is `BeginLoad` followed by `CompleteLoad(resp)`.
`resp` is `None` when the request failed, which the source catches and logs, or when the response had no data.
Otherwise it is `Some(page)`.
`CompleteLoad` recomputes the requested offset as `offset + itemsPerPage`.
A ghost field `requested` remembers what `BeginLoad` returned.
The class invariant shows the two agree whenever the page is applied, as line 98 of the source needs.

## Model

| member | source | states |
|---|---|---|
| `CoinsComponent.CoinFeed.constructor` | src/components/coins.js:63-67 | The feed starts with no coins, not loading, `hasMore` true, total 200 and offset minus one page, and the invariant holds. |
| `CoinsComponent.CoinFeed.BeginLoad` | src/components/coins.js:75-77 | Sets `loading` and nothing else. Returns the old offset plus one page, the offset the request asks for. |
| `CoinsComponent.CoinFeed.CompleteLoad` | src/components/coins.js:89-101 | The new state is `Complete` of the old one. An applied page moves the offset to the value `BeginLoad` returned. The invariant is kept. |
| `CoinsComponent.CoinFeed.FetchCoins` | src/components/coins.js:74-102 | One `fetchCoins` call without interruption: the new state is `Load` of the old one, and the invariant is kept. |
| `FeedSpec.RequestOffset` | src/components/coins.js:77 | Reference definition of the requested offset, one page past the current offset. `BeginLoad`'s result is proved equal to it. |
| `FeedSpec.Begin` | src/components/coins.js:75 | Reference definition of the first step of a load, which sets `loading` and nothing else. `BeginLoad`'s new state is proved equal to it. |
| `FeedSpec.Complete` | src/components/coins.js:89-101 | `loading` always ends false. A page is applied only when a response exists and `loading` is true. Then the coins are the old coins followed by the page, the offset is the requested one, and `hasMore` is false once the length reaches the total. Otherwise coins, offset and `hasMore` are unchanged. |
| `FeedSpec.LoadWithPage` | src/components/coins.js:74-102 | A whole load that gets a page appends it, even past the total. The offset becomes the requested one, and `hasMore` survives only if it held and the new length is below the total. |
| `FeedSpec.LoadFailed` | src/components/coins.js:83-85 | A failed load changes only `loading`, so the next load requests the same offset. |
| `FeedSpec.FirstRequestIsZero` | src/components/coins.js:67 | From the initial state the first request asks for offset 0. |
| `FeedSpec.InitialInv` | src/components/coins.js:63-67 | The initial state satisfies the invariant: `hasMore` holds exactly while below the total, and the offset is a page boundary minus one page. |
| `FeedSpec.StepInv` | src/components/coins.js:74-102 | Each `Begin` and each `Complete` keeps the invariant. |
| `FeedSpec.StepOffset` | src/components/coins.js:77 | A single call changes no total, and moves the offset by zero or by exactly one page. |
| `FeedSpec.RunInv` | src/components/coins.js:89-101 | Any sequence of calls keeps the invariant. |
| `FeedSpec.ReachableHasMore` | src/components/coins.js:92-94 | In every reachable state `hasMore` is false exactly when at least 200 coins are shown. |
| `FeedSpec.RunTotal` | src/components/coins.js:66 | No sequence of calls changes the total. |
| `FeedSpec.RunAppendOnly` | src/components/coins.js:90 | Over any sequence of calls the old coins stay a prefix of the new ones, so nothing is removed or reordered. |
| `FeedSpec.RunOffset` | src/components/coins.js:98 | Over any sequence of calls the offset never decreases and moves by a whole number of pages. |
| `FeedSpec.RunHasMoreTerminal` | src/components/coins.js:92-94 | Once `hasMore` is false it stays false over any sequence of calls. |
| `FeedSpec.LoadsIsRun` | src/components/coins.js:74-102 | A sequence of whole loads is the same as the call sequence where each `Begin` is followed by its `Complete`. |
| `FeedSpec.SuccessfulLoads` | src/components/coins.js:90-98 | After n successful loads the coins are the old coins followed by the n pages in order, and the offset has moved by exactly n pages. |
| `FeedSpec.FailedLoads` | src/components/coins.js:83-85 | Any number of failed loads leave coins, offset and `hasMore` unchanged. |
| `Icons.LowerChar` | src/components/coins.js:72 | The result is never an upper-case ASCII letter. Other characters are unchanged, and an upper-case letter maps to its lower-case partner. |
| `Icons.ToLower` | src/components/coins.js:72 | Lower-casing keeps the length, lowers each character in place, and leaves no upper-case ASCII letter. |
| `Icons.ToLowerIdempotent` | src/components/coins.js:72 | Lower-casing twice is the same as lower-casing once. |
| `Icons.IconUrl` | src/components/coins.js:71-72 | The URL is the fixed icon prefix, then the symbol lowered character by character, then `@2x.png`. |
| `Icons.SymbolOfUrl` | src/components/coins.js:71-72 | A result is found exactly for a string that has the template's prefix and suffix, and the result is the part between them. |
| `Icons.IconUrlRoundTrip` | src/components/coins.js:71-72 | Taking the symbol back out of an icon URL gives the lower-cased symbol. |
| `Icons.IconUrlSameIff` | src/components/coins.js:71-72 | Two symbols share an icon URL exactly when they agree after lower-casing. |
| `Icons.IconUrlIgnoresCase` | src/components/coins.js:72 | Lower-casing the symbol first does not change its icon URL. |
| `Icons.IconUrlOfBtc` | src/components/coins.js:71-72 | The symbol `BTC` gives `https://assets.coincap.io/assets/icons/btc@2x.png`. |

## Left out

- The HTTP request (lines 79-85). It is network I/O; its outcome is the `resp` argument of `CompleteLoad`.
- A response whose `data.data` field is not a list is not modelled. The spread at line 90 then throws before line 101 runs, so in the component `loading` stays true; in the model every completion ends with `loading` false.
- The `wait(2000)` delay (lines 59-60, 87). It only makes time pass and does not touch the state.
- The window scroll listener and its geometry test (lines 104-112). These are browser events and measurements.
- The `InfiniteScroll` props and when that library calls `loadMore` (lines 116-124). The library is not part of this model. `fetchCoins` itself never reads `hasMore`, and the model does not claim it does.
- React's closure capture. In the component, the `coins`, `loading` and `offset` read at line 89 are the values of the render that created the running `fetchCoins`, not the live state. The model reads the fields directly, so after `BeginLoad` the completion always sees `loading` true.
- Overlapping `fetchCoins` calls that race across the `await` points are not modelled. In the model, a second completion finds `loading` already false and changes nothing.
- The rendering of rows, `isEmptyCoins` (line 69), `Number(...).toFixed(2)` (lines 131-132) and the styled markup (lines 7-57, 114-137). These are UI and floating-point formatting.
- Icons.LowerChar: lowers only the ASCII letters `A`..`Z`, because JavaScript's Unicode case mapping is not modelled.
- Icons.ToLower: inherits the ASCII-only mapping and always keeps the length. JavaScript's `toLowerCase` can lengthen a string (U+0130 becomes two code units), which is not modelled.
- Icons.IconUrl: inherits the ASCII-only lower-casing of `Icons.ToLower` for the symbol part of the URL.
- CoinsComponent.CoinFeed.constructor: requires a positive `ITEMS_PER_PAGE`, because that constant's value is not part of this model.

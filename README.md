# Gas fee predictor: mock metrics and recommendation heuristic

A Dafny model of the logic inside the gas fee predictor dashboard
(`src/GasFeeApp.tsx`). The dashboard shows simulated blockchain metrics; the
parts with behaviour worth stating are:

- the **mock metrics generator** (`generateMockBlockchainData`): a loop whose
  hour offset counts down from 24 to 0 and appends one gas point, one
  transaction point and one network point per hour, followed by a fixed list of
  four transaction categories (DeFi, NFT, Smart Contracts, Token Transfer);
- the **recommendation heuristic** run when the dashboard mounts: a `reduce`
  that keeps the cheaper of the accumulated and the current gas point, the
  optimal transaction time taken from the selected point, and a three-way
  advisory message chosen by thresholds 20 and 35 on its price;
- the **theme toggle** of the two theme buttons.

Modules:

- `MockData` (`mock_data.dfy`): the point and bundle datatypes, the random
  integer helper, the closed-form description `MockBundle` of what one
  generation produces, the generating method `Generate` proved equal to it,
  and lemmas for shape, timestamps and value ranges.
- `Recommendation` (`recommendation.dfy`): the reducer and the fold, the last
  minimum as an independent predicate, the advice classification, the
  heuristic with its error path, and the mount effect tying generation and
  heuristic together.
- `Theme` (`theme.dfy`): the toggle and the effect of repeated clicks.

Modelling choices:

- `Math.random()` is a parameter: a stream `draws` of reals in [0, 1), consumed
  in the order the source calls it (per hour: gas price, congestion,
  transactions, success rate, block time, network load; then the four category
  values), 154 draws in all.
- `new Date()` is a parameter `now` in milliseconds; each point's `time` is its
  timestamp `now - i * 60 * 60 * 1000` in milliseconds rather than the
  formatted string derived from it.
- `Math.floor(Math.random() * n + o)` is `RandomInt`, exact real arithmetic
  followed by `Floor`; the float-only fields are reals.
- `reduce` without an initial value throws on an empty array; `Recommend`
  returns `Err(EmptyGasData)` in that case, and `LowestGasEntry`, the fold
  itself, requires a non-empty series.
- The reducer at `src/GasFeeApp.tsx:170` returns `prev` only when it is strictly
  cheaper, so on equal prices the later point wins. The model follows that line:
  the selected point is the **last** occurrence of the minimum, not the first.
  For prices 25, 15, 15 the third point is selected, and since 15 is below 20
  the advice is the "excellent" message, not the "good" one.

## Model

| member | source | states |
|---|---|---|
| MockData.RandomInt | src/GasFeeApp.tsx:47 | `Math.floor(draw * scale + offset)` with a draw in [0, 1) is an integer in [offset, offset + scale): [10, 59] for gas prices, [500, 1499] for transactions, [0, 99] for category values |
| MockData.Generate | src/GasFeeApp.tsx:35-80 | the counting-down loop builds exactly the bundle `MockBundle` describes point by point (entry k uses draws 6k..6k+5 and timestamp `now - (24 - k)` hours, categories use the last four draws), and that bundle is well formed; nothing outside the result changes |
| MockData.MockBundleWellFormed | src/GasFeeApp.tsx:41-72 | every generated bundle has three series of 25 points stamped `now - (24 - k)` hours, gas prices in [10, 60), transactions in [500, 1500), congestion, success rate and load in [0, 100), block time in [0, 20), and the four categories DeFi, NFT, Smart Contracts, Token Transfer in that order with values in [0, 100) |
| MockData.WellFormedChronological | src/GasFeeApp.tsx:41-42 | in a well-formed bundle the gas series is strictly chronological, consecutive points are exactly one hour apart, the first point is 24 hours before `now`, the last is at `now`, and the three series share their timestamps |
| MockData.StampInWindow | src/GasFeeApp.tsx:41-42 | every point's timestamp lies in the 24-hour window ending at generation time |
| Recommendation.LowestGasEntry | src/GasFeeApp.tsx:169-171 | the fold over a non-empty series returns one of its points, and that point's price is no greater than any point's price |
| Recommendation.LowestIsLastMinimum | src/GasFeeApp.tsx:169-171 | the point the fold returns sits at an index holding the minimum price after which every price is strictly greater: ties go to the later point |
| Recommendation.LastMinimumUnique | src/GasFeeApp.tsx:170 | at most one index is the last minimum, so the tie-break determines the selected position |
| Recommendation.TieGoesToLaterPoint | src/GasFeeApp.tsx:169-187 | for prices 25, 15, 15 the reported time is the third point's and the advice is the "excellent" message |
| Recommendation.Advice | src/GasFeeApp.tsx:175-187 | the three messages partition the prices: "excellent" exactly below 20, "good" exactly in [20, 35), "consider delaying" exactly from 35 up |
| Recommendation.Recommend | src/GasFeeApp.tsx:169-187 | fails exactly on an empty series; otherwise reports the time of the last cheapest point and the advice for its price |
| Recommendation.RecommendAdviceOverSeries | src/GasFeeApp.tsx:169-187 | on a non-empty series the heuristic succeeds, gives "excellent" exactly when some point is below 20, and "consider delaying" exactly when every point is 35 or more |
| Recommendation.MountEffect | src/GasFeeApp.tsx:165-188 | on generated data the heuristic never fails; the optimal time is the hourly stamp of the last cheapest gas point, inside the 24-hour window ending at `now`, and the advice is that point's classification |
| Theme.Toggle | src/GasFeeApp.tsx:93 | the next theme is always dark or light; it is light exactly when the current theme is dark, and it differs from the current theme when that is dark or light |
| Theme.ToggleTwice | src/GasFeeApp.tsx:371 | toggling dark or light twice restores it |
| Theme.ToggleOtherValue | src/GasFeeApp.tsx:93 | any stored value other than dark and light toggles to dark, and two toggles give light |
| Theme.AfterClicksParity | src/GasFeeApp.tsx:369-373 | after n clicks starting from dark or light the theme is the starting one when n is even and the other one when n is odd |
| Theme.ClicksFromDefault | src/GasFeeApp.tsx:400 | starting from the theme used when none is stored (dark), an even number of clicks shows dark and an odd number shows light |

## Left out

- Rendering: JSX, the recharts charts, cards, alerts, buttons and the top and
  bottom navigation bars (`src/GasFeeApp.tsx:82-154`, `:192-394`).
- React state: `useState`, `useEffect` and the setter calls; the values they
  would store are the results of `MountEffect`.
- The active tab selector (four values, presentation only).
- `Math.random` itself: replaced by the injected draw stream.
- `Date` and `toLocaleTimeString`: times are integer milliseconds. The
  formatted clock time drops the date, so the first and last points (24 hours
  apart) usually display the same clock time (not across a daylight-saving
  change, where they differ by an hour); the model keeps the full timestamp.
- IEEE double rounding of `Math.random() * n + o` before `Math.floor`: the model
  uses exact real arithmetic. In doubles, a draw of 1 - 2^-53 makes
  `Math.floor(x * 1000 + 500)` round up to 1500, so on an engine whose
  `Math.random` yields 53 random bits `transactions` can reach 1500, outside the
  modelled [500, 1500); gas prices and category values stay in range.
- The theme provider's persistence under its storage key and the `COLORS`
  palette used to colour the pie chart.


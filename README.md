# ihatedriving: the commute aggregation and the marker list, in Dafny

The page keeps a list of map markers. Each marker is a candidate **home** or a
**destination**, and each destination carries `numDrive`, the number of times a week the
user drives there. Whenever the list changes, the page asks a distance service for the
travel time of every (home, destination) pair. It then publishes, for each home, a weekly
commute: the sum over destinations of `duration * 2 * numDrive`. The model has four modules:

- `Wrappers` (`wrappers.dfy`): `Option`, which stands for a JavaScript slot that may still be `undefined`.
- `Markers` (`markers.dfy`): the `Marker` record and the `homes` and `destinations` filters.
  `Interleaves` is an independent characterisation of those filters. `WellFormed` is the
  invariant the page's buttons keep: no negative visit count, and no visits for a home.
  `MarkerStore` is a class holding the list and the selection. Its methods are the
  handlers `toggleHome`, `deleteMarker`, `incrementDrive`, `decrementDrive`, the
  append in `panTo`, and the two `setSelected` calls of the map (select, close).
- `Aggregation` (`aggregation.dfy`): the effect that recomputes the commutes.
  - `Aggregate` issues the requests with two nested loops (`IssueRequests`).
  - The callbacks run in an arbitrary completion order, given as a permutation `schedule`
    of the request indices (`SettleResponses`). Each updates its home's slot in an array.
  - One entry per home is then emitted. `Aggregate` is proved to return `Expected`, a
    reference definition that sums from 0, whatever the schedule.
  - The source's "if the slot is set, add, else assign" test treats an unwritten slot and
    a slot holding 0 alike. `Settle` and `SettledIsSum` show that this equals a sum
    starting at 0.
- `Display` (`display.dfy`): the address shortening and the minutes shown for a total.

The distance service is the parameter `duration: (Position, Position) -> nat`. It gives
whole seconds, like the distance-matrix field `duration.value`. Positions are opaque
values handed to it.

Where the intended design and the code disagree, the model follows the code:

- A home with no destinations never has its slot written, so its `commuteTime` is
  `undefined` and it displays as `NaN` minutes. It is not 0. The model returns `None`
  there, and `ShownMinutes(None)` is `None`.
- The handlers do not floor `numDrive` at 0. Only the disabled "-" button does. So
  `numDrive` is an `int`, and each handler promises to keep `WellFormed` only when its
  button is enabled (`DecrementEnabled`, `IncrementEnabled`).

## Model

| member | source | states |
|---|---|---|
| `Markers.Homes` | hosting/src/App.js:41 | every marker kept is a home |
| `Markers.Destinations` | hosting/src/App.js:43 | every marker kept is a destination |
| `Markers.PartitionInterleaves` | hosting/src/App.js:41-43 | the list is an order-preserving interleaving of the homes and the destinations |
| `Markers.PartitionUnique` | hosting/src/App.js:41-43 | any interleaving of a sequence of homes with a sequence of destinations is exactly the filters' split |
| `Markers.InterleavesAccountsForAll` | hosting/src/App.js:41-43 | an interleaving uses every element of the list exactly once (multisets and lengths add up) |
| `Markers.PartitionAccountsForAll` | hosting/src/App.js:41-43 | homes and destinations together are exactly the markers, as multisets and in number |
| `Markers.PartitionAppend` | hosting/src/App.js:41-43 | both filters distribute over concatenation |
| `Markers.DecrementEnabled` | hosting/src/App.js:160 | the "-" button is enabled exactly when `numDrive >= 1` (same test at :208); for a marker obeying the invariant, that is exactly when decrementing keeps it |
| `Markers.IncrementEnabled` | hosting/src/App.js:162 | the "+" button is enabled exactly for a destination (hidden for homes at :205); for a marker obeying the invariant, that is exactly when incrementing keeps it |
| `Markers.MarkerStore.constructor` | hosting/src/App.js:32-33 | the list starts empty (so well formed) with nothing selected |
| `Markers.MarkerStore.ToggleHome` | hosting/src/App.js:84-91 | marker `index` changes role and gets `numDrive = 0`; length, its position and address, every other marker and the selection are unchanged; the invariant is kept |
| `Markers.MarkerStore.Select` | hosting/src/App.js:199-201 | clicking a marker selects its index, which names an existing marker; the list is unchanged |
| `Markers.MarkerStore.CloseInfoWindow` | hosting/src/App.js:203 | closing the info window clears the selection; the list is unchanged |
| `Markers.MarkerStore.DeleteMarker` | hosting/src/App.js:93-100 | the marker at `index` is removed, earlier ones stay in place and later ones shift down by one; an index past the end changes nothing; the selection is cleared; the invariant is kept |
| `Markers.MarkerStore.IncrementDrive` | hosting/src/App.js:102-108 | only `numDrive` of marker `index` changes, by +1; with the "+" button enabled (not a home) the invariant is kept |
| `Markers.MarkerStore.DecrementDrive` | hosting/src/App.js:110-116 | only `numDrive` of marker `index` changes, by -1; with the "-" button enabled (`numDrive >= 1`) the invariant is kept |
| `Markers.MarkerStore.AddMarker` | hosting/src/App.js:127-134 | exactly one destination with no visits is appended; the homes are unchanged and the destinations gain it at the end; the invariant is kept |
| `Aggregation.Contribution` | hosting/src/App.js:65 | a settled pair adds `duration * 2 * numDrive` (same expression at :68): always even, 0 for a destination with no visits, never negative when the visit count is not |
| `Aggregation.Expected` | hosting/src/App.js:75-78 | the reference result has one entry per home, in home order, carrying that home's address, with a total exactly when there is at least one destination |
| `Aggregation.GridShape` | hosting/src/App.js:49-51 | the fan-out issues `|homes| * |destinations|` requests, each naming a valid home index and that home |
| `Aggregation.GridAt` | hosting/src/App.js:49-51 | the request at `i * |dests| + j` is the one for home `i` and destination `j`, so every pair is requested exactly once |
| `Aggregation.IssueRequests` | hosting/src/App.js:47-51 | the nested loops push exactly the grid of requests, home by home |
| `Aggregation.Settle` | hosting/src/App.js:64-69 | the falsy-test update always leaves the slot holding its previous value (0 when unwritten) plus the contribution |
| `Aggregation.SettledIsSum` | hosting/src/App.js:63-69 | after any sequence of settled requests, a home's slot is unwritten if none of its requests settled and otherwise holds the sum of their contributions |
| `Aggregation.TotalPermutation` | hosting/src/App.js:60-73 | any reordering of the settled requests gives each home the same sum and the same count |
| `Aggregation.CompletedPermutation` | hosting/src/App.js:60-73 | settling the requests in a permuted order of indices settles a permutation of the requests |
| `Aggregation.RowTotal` | hosting/src/App.js:50-68 | one home's requests number one per destination and sum to that home's commute time; they add nothing to any other home |
| `Aggregation.GridTotal` | hosting/src/App.js:49-68 | over all requests, each home gets one contribution per destination, summing to its commute time |
| `Aggregation.SettleResponses` | hosting/src/App.js:60-70 | running the callbacks in the schedule's order leaves every slot as the source's update rule computes it |
| `Aggregation.AnyScheduleGivesExpected` | hosting/src/App.js:60-78 | whatever the completion order, a home's slot ends as the reference total: no value without destinations, else the sum of `duration * 2 * numDrive` |
| `Aggregation.ResultFromSlots` | hosting/src/App.js:73-78 | slots left by any completion order, paired with each home's address, are the reference result |
| `Aggregation.CollectCommutes` | hosting/src/App.js:75-78 | one entry per home, in home order, with that home's address and its slot's value |
| `Aggregation.Aggregate` | hosting/src/App.js:39-82 | issues exactly the grid of `|homes| * |destinations|` requests and, for every completion order, returns the reference result |
| `Aggregation.CommuteTimeNonNegative` | hosting/src/App.js:65-68 | with non-negative visit counts, a weekly commute is non-negative |
| `Aggregation.ExpectedNonNegative` | hosting/src/App.js:75-78 | while the page's invariant holds, every published total is non-negative |
| `Display.ShownAddress` | hosting/src/App.js:153-157 | the shown address is at most 40 characters long; it equals the address exactly when the address has at most 40; otherwise it is the first 37 characters followed by "..." |
| `Display.ShownAddressIdempotent` | hosting/src/App.js:177-181 | shortening an already shortened address changes nothing |
| `Display.ShownAddressCollisions` | hosting/src/App.js:177-181 | two addresses are shown alike exactly when they are equal and short, or long with the same first 37 characters, or one is the other's shortened form |
| `Display.ShownMinutes` | hosting/src/App.js:184 | the shown minutes are the floor of the seconds divided by 60; an unwritten total shows no number |

## Left out

- `functions/index.js`, the HTTP proxy to the distance service, is not part of this model. It forwards requests and has no logic of its own.
- `fetch`, `res.json()` and the response shape `rows[0].elements[0].duration.value` are left out. The abstract `duration` function stands for them, and a failed request is not modelled.
- Overlapping runs of the effect are left out. When the list changes again before a run finishes, the source lets the stale run publish; the model covers one run at a time.
- `setLoading`, `setHomes` and `setDestinations` are left out. They store state that nothing in the model reads.
- Aggregation.Aggregate: does not model `parseInt` on the product. For integers below 1e21 that `parseInt` is the identity; the model does not cover larger values, or precision lost above 2^53.
- Aggregation.Aggregate: does not model aliasing. The handlers' shallow copies share marker objects with a run still in flight, and a callback reads `dest.numDrive` when it settles. The model takes the list as a value fixed when the run starts.
- Markers.MarkerStore.ToggleHome: requires a valid index. The page only calls the handlers with indices of existing markers, and the source would throw on any other. The same holds for `IncrementDrive` and `DecrementDrive`.
- Rendering, the map and marker widgets, the search box and geocoding are left out. They are user interface and foreign libraries.
- Display.ShownAddress: counts string length in Dafny characters. JavaScript counts UTF-16 code units, so the two differ for characters outside the Basic Multilingual Plane.
